/** Where the browser sends API requests (apps/web/src/api/baseUrl.ts): a configured origin,
    normalised to end in exactly one `/api`; the dev-server proxy on a local host name; and a
    fixed production origin otherwise. */
module BaseUrl {
  import opened Wrappers
  import Text

  const FallbackProdApiOrigin: string := "https://replate-api.vercel.app"

  /** `value.replace(/\/api\/?$/, "")`: one trailing `/api` or `/api/` is removed. */
  function StripApiSuffix(value: string): (r: string)
    ensures Text.StartsWith(value, r)
    ensures Text.EndsWith(value, "/api/") ==> value == r + "/api/"
    ensures !Text.EndsWith(value, "/api/") && Text.EndsWith(value, "/api") ==> value == r + "/api"
    ensures !Text.EndsWith(value, "/api/") && !Text.EndsWith(value, "/api") ==> r == value
  {
    if Text.EndsWith(value, "/api/") then value[..|value| - 5]
    else if Text.EndsWith(value, "/api") then value[..|value| - 4]
    else value
  }

  /** `normalizeApiUrl` */
  function NormalizeApiUrl(value: string): (r: string)
    ensures Text.EndsWith(r, "/api")
  {
    StripApiSuffix(value) + "/api"
  }

  /** Removing the suffix that normalisation adds gives back what it was added to. */
  lemma StripAfterAppend(base: string)
    ensures StripApiSuffix(base + "/api") == base
  {
    var v := base + "/api";
    assert v[|v| - 4..] == "/api";
    assert !Text.EndsWith(v, "/api/") by {
      assert v[|v| - 1] == 'i';
      assert |v| >= 5 ==> v[|v| - 5..][4] == 'i';
    }
    assert v[..|v| - 4] == base;
  }

  /** Normalising twice is normalising once. */
  lemma NormalizeIdempotent(value: string)
    ensures NormalizeApiUrl(NormalizeApiUrl(value)) == NormalizeApiUrl(value)
  {
    StripAfterAppend(StripApiSuffix(value));
  }

  /** An origin that already ends in `/api` or `/api/` does not get a second `/api`. */
  lemma NormalizeDoesNotDouble(origin: string)
    ensures NormalizeApiUrl(origin + "/api") == origin + "/api"
    ensures NormalizeApiUrl(origin + "/api/") == origin + "/api"
  {
    StripAfterAppend(origin);
    var v := origin + "/api/";
    assert Text.EndsWith(v, "/api/") by { assert v[|v| - 5..] == "/api/"; }
    assert v[..|v| - 5] == origin;
  }

  /** `getApiBaseUrl`: `configured` is `VITE_API_URL` (absent when unset) and `hostname`
      is `window.location.hostname` (absent outside a browser). */
  function GetApiBaseUrl(configured: Option<string>, hostname: Option<string>): (r: string)
    ensures Text.EndsWith(r, "/api")
    ensures configured.Some? && Text.JsTrim(configured.value) != [] ==>
      r == NormalizeApiUrl(Text.JsTrim(configured.value))
    ensures !(configured.Some? && Text.JsTrim(configured.value) != []) ==>
      r == (if hostname == Some("localhost") || hostname == Some("127.0.0.1") then "/api"
            else "https://replate-api.vercel.app/api")
  {
    if configured.Some? && |Text.JsTrim(configured.value)| > 0 then
      NormalizeApiUrl(Text.JsTrim(configured.value))
    else if hostname.Some? && (hostname.value == "localhost" || hostname.value == "127.0.0.1") then
      "/api"
    else
      FallbackNormalized();
      NormalizeApiUrl(FallbackProdApiOrigin)
  }

  /** The production origin has no `/api` suffix, so normalising it appends one. */
  lemma FallbackNormalized()
    ensures NormalizeApiUrl(FallbackProdApiOrigin) == "https://replate-api.vercel.app/api"
  {
    assert StripApiSuffix(FallbackProdApiOrigin) == FallbackProdApiOrigin by {
      assert FallbackProdApiOrigin[|FallbackProdApiOrigin| - 4..] != "/api" by {
        assert FallbackProdApiOrigin[|FallbackProdApiOrigin| - 1] == 'p';
      }
      assert FallbackProdApiOrigin[|FallbackProdApiOrigin| - 5..] != "/api/" by {
        assert FallbackProdApiOrigin[|FallbackProdApiOrigin| - 1] == 'p';
      }
    }
    assert FallbackProdApiOrigin + "/api" == "https://replate-api.vercel.app/api";
  }
}
