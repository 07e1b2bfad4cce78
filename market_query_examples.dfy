/** Worked searches: what the interpreter reads from a few typical queries. */
module MarketQueryExamples {
  import opened Wrappers
  import Text
  import opened Regex
  import opened MarketQueryIntent

  /** "within 2 miles" is a radius of 2 × 1.60934 km. */
  lemma WithinTwoMiles()
    ensures DetectRadiusKm("within 2 miles") == 3.21868
  {
    var s := "within 2 miles";
    assert Text.OccursAt(s, 0, "within");
    assert SpacesEnd(s, 6) == 7;
    assert DigitsEnd(s, 7) == 8;
    assert DigitsValue(s[7..8]) == 2;
    assert DecimalAt(s, 7) == Some(Num(2.0, 8));
    assert SpacesEnd(s, 8) == 9;
    assert Text.OccursAt(s, 9, MileUnits[2]) && WordBoundaryAt(s, 14);
    assert WithinAt(s, 0, MileUnits) == Some(2.0);
  }

  lemma AmountAfterDollar(s: string, i: nat, d: char)
    requires i + 3 <= |s| && s[i] == ' ' && s[i + 1] == '$' && IsDigit(d) && s[i + 2] == d
    requires i + 3 == |s| || s[i + 3] == ' '
    ensures AmountAt(s, i) == Some(Num((d as int - '0' as int) as real, i + 3))
  {
    assert SpacesEnd(s, i + 1) == i + 1;
    assert DigitsEnd(s, i + 2) == i + 3 by {
      assert i + 3 < |s| ==> !IsDigit(s[i + 3]);
    }
    assert s[i + 2..i + 3] == [d];
    assert DigitsValue([d]) == d as int - '0' as int by {
      assert [d][..0] == [];
    }
  }

  lemma ToThree()
    ensures FirstAlternative("between $7 and $3", 11, ["to", "-", "and"], SecondAmountCont("between $7 and $3", 7.0))
      == Some((7.0, 3.0))
  {
    var s := "between $7 and $3";
    var c := SecondAmountCont(s, 7.0);
    AmountAfterDollar(s, 14, '3');
    assert AmountAt(s, 14) == Some(Num(3.0, 17));
    assert c(14) == Some((7.0, 3.0));
    assert !Text.OccursAt(s, 11, "-") by { assert s[11..12][0] == 'a'; }
    assert !Text.OccursAt(s, 11, "to") by { assert s[11..13][0] == 'a'; }
    assert Text.OccursAt(s, 11, "and");
    assert FirstAlternative(s, 11, ["and"], c) == c(14);
    assert FirstAlternative(s, 11, ["-", "and"], c) == FirstAlternative(s, 11, ["and"], c) by {
      assert ["-", "and"][1..] == ["and"];
    }
    assert FirstAlternative(s, 11, ["to", "-", "and"], c) == FirstAlternative(s, 11, ["-", "and"], c) by {
      assert ["to", "-", "and"][1..] == ["-", "and"];
    }
  }

  lemma SpaceBeforeAnd()
    ensures SpacesEnd("between $7 and $3", 10) == 11
  {
    var s := "between $7 and $3";
    assert SpacesEnd(s, 11) == 11 by { assert s[11] == 'a'; }
    assert s[10] == ' ';
  }

  lemma TailSevenToThree()
    ensures BetweenTail("between $7 and $3", 7) == Some((7.0, 3.0))
  {
    var s := "between $7 and $3";
    assert AmountAt(s, 7) == Some(Num(7.0, 10)) by { AmountAfterDollar(s, 7, '7'); }
    assert SpacesEnd(s, 10) == 11 by { SpaceBeforeAnd(); }
    ToThree();
  }

  /** "between $7 and $3": the range is ordered whichever number comes first. */
  lemma BetweenSevenAndThree()
    ensures DetectPrice("between $7 and $3") == PriceRange(Some(3.0), Some(7.0))
  {
    var s := "between $7 and $3";
    TailSevenToThree();
    assert Text.OccursAt(s, 0, "between");
    assert BetweenAt(s, 0) == Some((7.0, 3.0));
    assert BetweenCont(s)(0) == Some((7.0, 3.0));
    assert BetweenMatch(s) == Some((7.0, 3.0));
  }

  /** "cheap bakery" asks for the bakery category at no more than 10 dollars. */
  lemma CheapBakeryCategory()
    ensures DetectCategory("cheap bakery") == Some("bakery")
    ensures DetectPrice("cheap bakery") == PriceRange(None, Some(10.0))
  {
    assert Text.OccursAt("cheap bakery", 6, "bakery");
    assert Text.OccursAt("cheap bakery", 0, "cheap");
    NoDigitsNoPrice("cheap bakery");
  }
}
