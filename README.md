# Replate core in Dafny

Replate connects restaurants that have surplus food with buyers, who reserve bags at a
discount, and with food banks, which receive what is left. This project models the core of
the system and proves properties of the model:

- **Legacy reservation service** (the Flask app under `apps/api/app`). Listings, users,
  requests and allocations live in in-memory tables (`LegacyTables.Tables`). The modelled
  routes are the market, listing CRUD, partner reservations, bag requests, the weighted
  lottery that turns pending requests into allocations, and the QR pickup scan.
- **Marketplace API** (the FastAPI routers over MongoDB). The store is `MongoStore.Db`, with
  one map of documents per collection. The modelled parts are:
  - the market query filter, including the bounding-box polygon;
  - listing creation and lookup;
  - the business dashboard routes;
  - buyer orders: reserve, pickup scan and cancel;
  - donation plans and the expiring-listing trigger;
  - the simulation feed and the food-bank ingest script.
- **Donation routing service.** It picks the nearby food banks reachable in time and ranks them
  by need over travel time, keeping ties in order. It then gives units to the banks in rank
  order, up to each bank's daily capacity.
- **OSRM client.** It retries HTTP attempts and reads table and route responses.
- **Web client.** The modelled parts are:
  - the API base URL;
  - the natural-language marketplace query interpreter (category, radius, price and
    neighbourhood detection);
  - the debounced map-bounds controller and marker list;
  - the marketplace, requests, listing-detail and simulation pages.

Pure code is modelled as datatypes, functions and lemmas. Loops are methods whose
postconditions tie the result to a specification function. Handlers that change stored state
are methods that `modify` the store's fields. Page components are classes whose methods are
the handlers.

The database engine, HTTP, the clock, randomness, geolocation and the cosine used by the
radius conversion are not modelled. Their answers are parameters: query results, response
bodies, timestamps, random draws, token bytes and new ids.

Three behaviours of the code are modelled as written:
- **Pickup scan of a canceled order.** The order is answered as picked up, but nothing is
  stored. See `OrdersRouter.ScanOfCanceledOrder`.
- **Zero EBT price.** An EBT price of 0 becomes null in the legacy listing JSON, so the page
  shows the standard price. See `ListingDetailPage.ZeroEbtPriceShowsStandard`.
- **Doubled "/api".** `normalizeApiUrl` strips only one trailing "/api", so a doubled "/api"
  stays doubled.

## Model

| member | source | states |
|---|---|---|
| AllocationService.PendingFor | apps/api/app/services/allocation_service.py:11-15 | the query yields at most one candidate per request |
| AllocationService.PendingForSound | apps/api/app/services/allocation_service.py:11-15 | every candidate is a stored user with a pending request on the listing, carrying that user's pickup count |
| AllocationService.Weight | apps/api/app/services/allocation_service.py:22 | a weight `1 / (1 + pickups)` lies in (0, 1] |
| AllocationService.FewerPickupsWeighMore | apps/api/app/services/allocation_service.py:9 | fewer recent pickups give a strictly larger weight; a missing count weighs as 0 pickups, i.e. 1 |
| AllocationService.Weights | apps/api/app/services/allocation_service.py:19-23 | the loop gives one weight per candidate, in order |
| AllocationService.TotalPositive | apps/api/app/services/allocation_service.py:25-27 | a non-empty list of positive weights has a positive sum, so the `total <= 0` return never happens |
| AllocationService.Probabilities | apps/api/app/services/allocation_service.py:29 | each probability times the total is its weight |
| AllocationService.SumScaled | apps/api/app/services/allocation_service.py:29 | dividing every weight by the total divides the sum by it |
| AllocationService.ProbabilitiesSumToOne | apps/api/app/services/allocation_service.py:25-29 | the probabilities handed to `random.choices` add up to 1 |
| AllocationService.Drawn | apps/api/app/services/allocation_service.py:30-31 | `k` draws with replacement, each the user of the drawn candidate |
| AllocationService.Dedup | apps/api/app/services/allocation_service.py:32 | `dict.fromkeys`: the same users, each once, no longer than the draws |
| AllocationService.DedupKeepsFirstOrder | apps/api/app/services/allocation_service.py:32 | the kept users appear in the order of their first draw |
| AllocationService.LotteryBounds | apps/api/app/services/allocation_service.py:16-33 | winners are distinct pending users, at most `slots`; with a pending request and a free slot someone wins; the final cut removes no one |
| AllocationService.WeightedLottery | apps/api/app/services/allocation_service.py:6-33 | the method returns exactly the lottery function's winners for the same draws |
| BaseUrl.StripApiSuffix | apps/web/src/api/baseUrl.ts:4 | the result is a prefix of the input; exactly one trailing `/api/` or `/api` is removed, otherwise the input is kept |
| BaseUrl.NormalizeApiUrl | apps/web/src/api/baseUrl.ts:3-5 | a normalised URL ends in `/api` |
| BaseUrl.StripAfterAppend | apps/web/src/api/baseUrl.ts:4 | stripping undoes the `/api` that normalisation appends |
| BaseUrl.NormalizeIdempotent | apps/web/src/api/baseUrl.ts:3-5 | normalising twice equals normalising once |
| BaseUrl.NormalizeDoesNotDouble | apps/web/src/api/baseUrl.ts:3-5 | an origin already ending in `/api` or `/api/` keeps a single `/api` |
| BaseUrl.FallbackNormalized | apps/web/src/api/baseUrl.ts:1-21 | the production fallback normalises to `https://replate-api.vercel.app/api` |
| BaseUrl.GetApiBaseUrl | apps/web/src/api/baseUrl.ts:7-22 | a non-blank configured URL wins, trimmed and normalised; otherwise `/api` on localhost or 127.0.0.1, else the production origin; the result always ends in `/api` |
| BostonMap.BurstLeavesOneTimer | apps/web/src/components/BostonMap.tsx:43-49 | a burst of `moveend` events, each within the delay of the one before and all before a pending deadline, leaves one timer, set by the last event, and reports nothing |
| BostonMap.BurstEmitsOnce | apps/web/src/components/BostonMap.tsx:43-49 | such a burst followed by the last deadline passing reports the bounds exactly once |
| BostonMap.QuietBeforeDeadline | apps/web/src/components/BostonMap.tsx:45-48 | before its deadline the timer reports nothing and changes nothing |
| BostonMap.ReportsOnlyGrow | apps/web/src/components/BostonMap.tsx:40-56 | no event removes or rewrites an earlier report |
| BostonMap.RunAppend | apps/web/src/components/BostonMap.tsx:40-56 | running two event sequences in turn equals running their concatenation |
| BostonMap.MapController.constructor | apps/web/src/components/BostonMap.tsx:51-54 | mounting reports the visible bounds at once and leaves no timer |
| BostonMap.MapController.OnMoveEnd | apps/web/src/components/BostonMap.tsx:43-49 | the handler replaces any pending timer by one due `debounceMs` later and reports nothing |
| BostonMap.MapController.OnClock | apps/web/src/components/BostonMap.tsx:45-48 | a due timer fires once, reporting the bounds it reads, and clears itself |
| BostonMap.MapInstances.Next | apps/web/src/components/BostonMap.tsx:15-65 | the counter grows by one and the new key is positive and fresh |
| BostonMap.BostonMapView.constructor | apps/web/src/components/BostonMap.tsx:59-67 | the key starts at 0, so the grey placeholder is shown |
| BostonMap.BostonMapView.Mount | apps/web/src/components/BostonMap.tsx:62-67 | after the mount effect the key is the counter's new value and the map is shown |
| BostonMap.MarkerOf | apps/web/src/components/BostonMap.tsx:86-89 | a marker sits at `[lat, lng]` for GeoJSON `[lng, lat]`, under the listing's id |
| BostonMap.Markers | apps/web/src/components/BostonMap.tsx:60-89 | exactly the listings with a two-number location get a marker |
| BostonMap.MapInstances.constructor | apps/web/src/components/BostonMap.tsx:15 | the module-level counter starts at 0 |
| Bson.ParseObjectId | apps/api/routers/business.py:189-192 | `ObjectId(s)` accepts exactly 24 hexadecimal digits and yields a 12-byte id |
| Bson.ParseIdString | apps/api/routers/business.py:111 | parsing `str(oid)` gives the same id back |
| Bson.IdStringInjective | apps/api/routers/business.py:111 | distinct ids print differently |
| Bson.IdStringOfParse | apps/api/routers/business.py:189-192 | printing a parsed id gives the original text in lower case |
| Bson.BytesOfHexOf | apps/api/routers/business.py:111 | decoding the hexadecimal text of bytes gives the bytes back |
| Bson.HexOfBytesOf | apps/api/routers/business.py:189-192 | encoding the decoded bytes of hexadecimal text gives the text in lower case |
| Bson.ObjectIdOf | apps/api/routers/simulation.py:44-56 | an ObjectId value is kept, a string is parsed, anything else names no id |
| BusinessRouter.BusinessIdOf | apps/api/routers/business.py:54-59 | a missing or blank header is refused with 401 "X-Business-Id required", in both directions; otherwise the id is the stripped header, never empty |
| BusinessRouter.BusinessLookup | apps/api/routers/business.py:42-51 | 404 "Unknown business code" exactly when no business has the stripped code; otherwise the id and name (default "") of a business with that code |
| BusinessRouter.RespondListings | apps/api/routers/business.py:68-72 | one response per listing answered, in order |
| BusinessRouter.ResponseOwner | apps/api/routers/listings.py:17-38 | a listing's response carries the business id it is stored under |
| BusinessRouter.ListBusinessListings | apps/api/routers/business.py:62-72 | every listing returned is in response form and belongs to the asking business |
| BusinessRouter.BusinessRefusal | apps/api/routers/business.py:121-137 | 503 exactly when routing found no candidates, 404 when the fallback found none, 422 when candidates exist but nothing was allocated, no refusal otherwise |
| BusinessRouter.DecideDonation | apps/api/routers/business.py:114-137 | below one donated unit the listing is kept as is; a refusal withdraws it; a planned donation places between 1 and `donation_qty` units |
| BusinessRouter.DecideCreate | apps/api/routers/business.py:102-117 | 422 exactly when a donation is asked for without a Point location; no donation asked means the listing is kept; a donation is computed from `qty_available` and the percent |
| BusinessRouter.DonatedFields | apps/api/routers/business.py:151-159 | the update sets mode "planned", the plan, the percent and the remaining quantity, and "sold_out" exactly when nothing remains |
| BusinessRouter.DonatedListing | apps/api/routers/business.py:160-161 | the stored listing gains the donated fields and keeps a well-formed location |
| BusinessRouter.NewBusinessListing | apps/api/routers/business.py:82-100 | the new document belongs to the business, carries the body's quantity and, when it has a location, a GeoJSON Point |
| BusinessRouter.ListingsAfterCreate | apps/api/routers/business.py:109-161 | a refusal or withdrawal leaves the listings as before; otherwise the new listing is stored, with the donated fields when planned; no other listing changes |
| BusinessRouter.CreateRecords | apps/api/routers/business.py:139-150 | one "planned" donation record per allocation of a planned donation, none otherwise |
| BusinessRouter.CreateReply | apps/api/routers/business.py:163-178 | a failure exactly for a refusal or withdrawal, with its status; a kept listing comes back without allocations; a planned one with one item per allocation |
| BusinessRouter.InsertThenDelete | apps/api/routers/business.py:109-122 | inserting a new listing and deleting it restores the listings |
| BusinessRouter.RouteNewListing | apps/api/routers/business.py:114-137 | the routing step decides as `DecideDonation` |
| BusinessRouter.FinishCreate | apps/api/routers/business.py:121-178 | the writes after the insert leave listings, donation records and reply as the decision says |
| BusinessRouter.BusinessCreateListing | apps/api/routers/business.py:75-178 | the handler's reply, listings and donation records are those of `DecideCreate` on the new document |
| BusinessRouter.ShareOfNothing | apps/api/routers/business.py:116-117 | a listing with no units donates none |
| BusinessRouter.DonationSplit | apps/api/routers/business.py:115-159 | with a percent in (0, 1] a planned donation takes between 1 and all units, never leaves a negative quantity, and sets "sold_out" exactly when everything is donated |
| BusinessRouter.OwnedListing | apps/api/routers/business.py:189-195 | 400 "Invalid listing id" for an unparsable id; 404 "Listing not found" unless a listing with that id belongs to the business |
| BusinessRouter.AllowedUpdate | apps/api/routers/business.py:196-197 | the update holds exactly the body's allowed keys, with the body's values |
| BusinessRouter.UpdatedListing | apps/api/routers/business.py:200-201 | allowed keys take the body's values; all other fields are kept; the location stays well-formed |
| BusinessRouter.UpdateLaws | apps/api/routers/business.py:196-202 | an update without allowed keys changes nothing; applying the same update twice equals once |
| BusinessRouter.BusinessUpdateListing | apps/api/routers/business.py:181-202 | a listing the business does not own is refused and nothing changes; otherwise exactly that listing is updated and returned |
| BusinessRouter.BusinessDeleteListing | apps/api/routers/business.py:205-218 | a listing the business does not own is refused and nothing changes; otherwise exactly that listing is deleted |
| BusinessRouter.ListingOrders | apps/api/routers/business.py:235-239 | every order returned is for the listing asked for |
| BusinessRouter.BusinessListingOrders | apps/api/routers/business.py:221-239 | success exactly for an owned listing; every order returned is for that listing, and each reply entry is the response form of the order found at its place |
| BusinessRouter.BusinessOrdersFilter | apps/api/routers/business.py:249-251 | the filter names the business, and the status exactly when a non-empty one is given |
| BusinessRouter.BusinessOrders | apps/api/routers/business.py:242-256 | every order returned belongs to the business and has the status asked for, and each reply entry is the response form of the order found at its place |
| DonationRouting.ReachableMembers | apps/api/services/donation_routing_service.py:73-84 | a candidate is reachable exactly when it is the routed form of a nearby bank whose known route fits the time limit; at most one per bank |
| DonationRouting.ReachableInTime | apps/api/services/donation_routing_service.py:75-78 | every reachable candidate has a driving time within `max_minutes` |
| DonationRouting.Picked | apps/api/services/donation_routing_service.py:59-98 | no nearby bank gives no candidates with routing marked used; otherwise routing is used exactly when some duration is known; at most `top_k` candidates, each within the time limit when routed, each without a duration in the fallback |
| DonationRouting.RoutedPickSound | apps/api/services/donation_routing_service.py:73-98 | the routed pick has at most `top_k` candidates, each a nearby bank within the time limit |
| DonationRouting.FallbackPickSound | apps/api/services/donation_routing_service.py:85-98 | the fallback pick has at most `top_k` nearby banks, none with a duration |
| DonationRouting.PickCandidates | apps/api/services/donation_routing_service.py:26-98 | the method answers exactly what `Picked` says |
| DonationRouting.InsertPermutes | apps/api/services/donation_routing_service.py:116 | placing one candidate into a ranking adds exactly that candidate |
| DonationRouting.InsertSorted | apps/api/services/donation_routing_service.py:116 | placing a candidate into a descending ranking keeps it descending |
| DonationRouting.SortDescSorted | apps/api/services/donation_routing_service.py:116 | the ranking is sorted by descending score |
| DonationRouting.SortDescPermutes | apps/api/services/donation_routing_service.py:116 | the ranking holds the same candidates, as a multiset |
| DonationRouting.SortDescKeepsTies | apps/api/services/donation_routing_service.py:116 | candidates with equal scores keep their original order, as Python's stable sort does |
| DonationRouting.Scored | apps/api/services/donation_routing_service.py:106-115 | every candidate is kept, in order, with its score `need / (minutes + 1)`, or the need alone without a duration |
| DonationRouting.Ranked | apps/api/services/donation_routing_service.py:101-116 | the scored candidates, sorted descending, as a permutation, with ties in input order |
| DonationRouting.ScoreCandidates | apps/api/services/donation_routing_service.py:101-116 | the method returns `Ranked` |
| DonationRouting.Capacity | apps/api/services/donation_routing_service.py:145-150 | the override for the bank's id wins over its `capacity_daily` |
| DonationRouting.Room | apps/api/services/donation_routing_service.py:141-158 | the room candidates have is non-negative when bounded |
| DonationRouting.AllocateTotal | apps/api/services/donation_routing_service.py:138-170 | the units placed are the donation, capped by the room the candidates have |
| DonationRouting.AllocateNeverExceeds | apps/api/services/donation_routing_service.py:138-170 | never more than the donation is placed, and all of it when no candidate is capped |
| DonationRouting.AllocateDrawnInOrder | apps/api/services/donation_routing_service.py:141-168 | allocations follow the ranking, one per distinct candidate, each positive and within that candidate's capacity |
| DonationRouting.AllocationsPositive | apps/api/services/donation_routing_service.py:157-164 | every allocation is positive and no larger than the donation; never more allocations than candidates |
| DonationRouting.TopUncappedTakesAll | apps/api/services/donation_routing_service.py:127 | with no capacity on the best candidate it takes every unit |
| DonationRouting.AllocateUnits | apps/api/services/donation_routing_service.py:119-170 | the loop returns exactly the allocation rule's result |
| DonationRouting.Plan | apps/api/services/donation_routing_service.py:26-170 | the pipeline's candidates are the pick, its allocations those of the ranked candidates, placing between 0 and the donation, each positive |
| DonationRouting.RunPlan | apps/api/services/donation_routing_service.py:26-170 | the method returns `Plan` |
| DonationRouting.AllocationValue | apps/api/services/donation_routing_service.py:160-167 | a stored allocation holds the bank id as text and the quantity |
| DonationRouting.PlanValue | apps/api/routers/donations.py:121 | a stored plan lists one stored allocation per allocation, in order |
| DonationsRouter.OrDefault | apps/api/routers/donations.py:73-74 | `value or default`: an absent or zero value gives the default, any other value is kept |
| DonationsRouter.StoredQty | apps/api/routers/donations.py:68-69 | `get("qty_available", 0)` multiplied by a float: a missing field is 0, an int or float is itself, a bool is 0 or 1, and anything else raises |
| DonationsRouter.DonationQty | apps/api/routers/donations.py:69 | `math.floor(qty * percent)`: the largest integer not above the product |
| DonationsRouter.DonationWithinQuantity | apps/api/routers/donations.py:69-127 | a share in (0, 1] of a non-negative quantity lies between 0 and the quantity, so the remainder is never negative; a share of nothing is nothing |
| DonationsRouter.DonationDocs | apps/api/routers/donations.py:103-111 | one record per allocation, in order, each "planned" with the allocation's quantity |
| DonationsRouter.Items | apps/api/routers/donations.py:129-134 | one reported item per allocation, in order |
| DonationsRouter.PlanFields | apps/api/routers/donations.py:119-123 | a plan sets exactly the mode, the plan and the percent, not the quantity |
| DonationsRouter.CheckListing | apps/api/routers/donations.py:55-71 | 400 for an unparsable id, 404 for a missing listing; success exactly for a stored listing with a Point location, a quantity that multiplies and at least one unit to donate, which is at most its quantity; 500 exactly for a truthy location that is not an object, or a Point listing whose quantity does not multiply |
| DonationsRouter.NonIntegerQuantities | apps/api/routers/donations.py:68-71 | a stored 3.0 at 0.5 donates one unit; 2.5 in full donates two and the reply is a 500; null and "5" are a 500 |
| DonationsRouter.RoutingRefusal | apps/api/routers/donations.py:78-98 | no refusal exactly when there are candidates and allocations; 503 exactly when routing was used and found no candidate |
| DonationsRouter.DecideRouted | apps/api/routers/donations.py:73-98 | the refusal of the plan computed with the body's or default limits, or the plan, placing at least one and at most the donated units |
| DonationsRouter.DecidePlan | apps/api/routers/donations.py:40-98 | a failed listing check is the decision; a passed one is routed as `DecideRouted` says; a plan is for the checked listing and places between 1 and its donated units, which are at most the stored quantity |
| DonationsRouter.PositiveTotal | apps/api/routers/donations.py:97-98 | a non-empty plan of positive allocations has a positive total |
| DonationsRouter.MarkPlanned | apps/api/routers/donations.py:116-125 | the update changes only the planned listing, adding the plan fields and the mode; a missing listing is not created |
| DonationsRouter.SavePlan | apps/api/routers/donations.py:100-125 | the records are appended and the listing is marked as `MarkPlanned` says |
| DonationsRouter.PlanReply | apps/api/routers/donations.py:127-134 | a refusal is answered as it is; a plan is answered exactly when the stored quantity is whole (else 500), and then donated plus remaining units equal the stored quantity, with one reported allocation per allocation |
| DonationsRouter.ListingsAfter | apps/api/routers/donations.py:116-125 | a refusal changes no listing; a plan changes only its own listing |
| DonationsRouter.RecordsOf | apps/api/routers/donations.py:103-113 | a refusal writes no record; a plan one per allocation |
| DonationsRouter.RouteListing | apps/api/routers/donations.py:73-98 | the method decides as `DecideRouted` |
| DonationsRouter.CarryOut | apps/api/routers/donations.py:97-134 | the reply, listings and records are those the decision says |
| DonationsRouter.CreateDonationPlan | apps/api/routers/donations.py:40-134 | reply, listings and records follow `DecidePlan`; any refusal changes nothing; a plan on a quantity that is not whole is written and then answered with 500 |
| DonationsRouter.ExpiringOutcome | apps/api/routers/donations.py:181-198 | for a quantity the `$gt: 0` query selects (an int or a float), a listing gets a plan exactly when it has a location, at least one unit to donate from the floored product, candidates and allocations; the plan then places between 1 and the donated units |
| DonationsRouter.ExpiringRealQuantity | apps/api/routers/donations.py:145-149 | the query selects a stored 2.5, and the trigger donates two units of it |
| DonationsRouter.ExpiringStep | apps/api/routers/donations.py:182-198 | the method decides as `ExpiringOutcome` |
| DonationsRouter.ExpiringOutcomes | apps/api/routers/donations.py:181-198 | one outcome per expiring listing, in order |
| DonationsRouter.OutcomesSound | apps/api/routers/donations.py:181-198 | every outcome that is a plan donates at least one unit and places between 1 and the donated units |
| DonationsRouter.ExpiringPlans | apps/api/routers/donations.py:227-234 | never more plans than listings |
| DonationsRouter.ExpiringPlansSound | apps/api/routers/donations.py:227-234 | every reported plan donates at least one unit and places between 1 and the donated units |
| DonationsRouter.ExpiringDonations | apps/api/routers/donations.py:203-214 | the records only grow: the earlier records stay as a prefix |
| DonationsRouter.ExpiringPlansAreTheOutcomes | apps/api/routers/donations.py:181-234 | the report lists exactly the expiring listings that got a plan, each with its id, units and allocations |
| DonationsRouter.ExpiringListingsMarkPending | apps/api/routers/donations.py:216-225 | no listing is added or removed; listings not expiring are untouched; each stored listing that got a plan is marked "pending" |
| DonationsRouter.HandleOutcome | apps/api/routers/donations.py:200-225 | the writes for one listing are those of its outcome |
| DonationsRouter.TriggerExpiring | apps/api/routers/donations.py:137-236 | the report, listings and records are those of the outcomes in order, and `processed` counts the plans, at most the 100 listings `to_list(length=100)` reads |
| IngestFoodBanks.TractOf | apps/api/scripts/ingest_food_banks.py:37-45 | a row gives a tract exactly when its four columns are present and the three numeric ones parse, and the tract holds those values |
| IngestFoodBanks.TractsFromRows | apps/api/scripts/ingest_food_banks.py:33-46 | every tract kept comes from some row, and when every row parses none is dropped |
| IngestFoodBanks.LoadSnapTracts | apps/api/scripts/ingest_food_banks.py:33-46 | the loop keeps the tracts of the rows that parse, in order |
| IngestFoodBanks.NearestIsEarliestClosest | apps/api/scripts/ingest_food_banks.py:49-58 | the strict `<` scan ends on a closest tract, and no earlier tract is as close |
| IngestFoodBanks.NearestSnapRate | apps/api/scripts/ingest_food_banks.py:49-58 | the loop returns the rate of the scan's tract, or 1.0 when there is none |
| IngestFoodBanks.NearestRateIsClosest | apps/api/scripts/ingest_food_banks.py:49-58 | with tracts, the rate is that of a tract no farther than any other |
| IngestFoodBanks.BankOf | apps/api/scripts/ingest_food_banks.py:64-90 | a row gives a bank exactly when both coordinates are non-blank and parse; the bank is then located at [lng, lat] and weighted by the nearest rate |
| IngestFoodBanks.BanksAreLocated | apps/api/scripts/ingest_food_banks.py:61-91 | every loaded bank is active, a GeoJSON Point of two coordinates, and weighted by the rate of the tract nearest to that point |
| IngestFoodBanks.LoadFoodBanks | apps/api/scripts/ingest_food_banks.py:61-91 | the loop keeps the banks of the rows that parse, in order |
| IngestFoodBanks.Upserted | apps/api/scripts/ingest_food_banks.py:111-123 | inserted, updated and skipped add up to the number of banks; no stored bank is removed |
| IngestFoodBanks.UpsertedSkipped | apps/api/scripts/ingest_food_banks.py:115-117 | the skipped count is the number of banks without a name |
| IngestFoodBanks.UpsertedKeys | apps/api/scripts/ingest_food_banks.py:114-123 | no key is stored but earlier ones and the (name, address) keys of named banks |
| IngestFoodBanks.UpsertedLastWins | apps/api/scripts/ingest_food_banks.py:118-119 | a named bank not followed by another with its key is what the store holds for that key |
| IngestFoodBanks.Ingest | apps/api/scripts/ingest_food_banks.py:111-123 | the loop's store and counts are those of `Upserted` |
| LegacyAllocations.FirstPending | apps/api/app/routes/allocations.py:20 | the first pending request of the user on the listing: it is pending for them, none before it is, and none at all when there is no such request |
| LegacyAllocations.FirstPendingSame | apps/api/app/routes/allocations.py:20 | the request found depends only on which positions hold a pending request of the user |
| LegacyAllocations.CandidateHasRequest | apps/api/app/routes/allocations.py:17-22 | a lottery candidate always has a pending request to be found |
| LegacyAllocations.AllocateOne | apps/api/app/routes/allocations.py:20-31 | one winner leaves the request table the same length |
| LegacyAllocations.AllocateAll | apps/api/app/routes/allocations.py:19-31 | the winners in turn leave the request table the same length |
| LegacyAllocations.AllocateAllShape | apps/api/app/routes/allocations.py:19-31 | existing allocations stay as a prefix; each new one is on the listing, "allocated", not picked up, linked to a request of its user and made for a winner, at most one per winner; requests keep user, listing and payment method and change only from "pending" to "allocated" |
| LegacyAllocations.AllocateAllKeepsOthers | apps/api/app/routes/allocations.py:19-31 | the pending requests of a user who did not win are untouched |
| LegacyAllocations.EveryWinnerAllocated | apps/api/app/routes/allocations.py:19-31 | distinct winners who each have a pending request all get an allocation: the `continue` is never taken |
| LegacyAllocations.AllocationWithinShare | apps/api/app/routes/allocations.py:12-31 | with free slots every winner is allocated, and the listing's allocations never exceed its public share |
| LegacyAllocations.Allocate | apps/api/app/routes/allocations.py:9-33 | a failure exactly for an unknown listing or one without free slots (404 and 400), both changing nothing; otherwise the tables become `AllocateAll` of the winners, the new allocations are appended and the reply counts them |
| LegacyAllocations.AllocateWinners | apps/api/app/routes/allocations.py:19-31 | the loop leaves the tables as `AllocateAll` says |
| LegacyAllocations.AllocateWinner | apps/api/app/routes/allocations.py:20-31 | one pass of the loop leaves the tables as `AllocateOne` says |
| LegacyAllocations.OwnedAllocations | apps/api/app/routes/allocations.py:42 | exactly the allocations on listings of the business |
| LegacyAllocations.ListAllocations | apps/api/app/routes/allocations.py:36-43 | 400 exactly when the business id is missing or 0; otherwise the allocations of its listings |
| LegacyListing.Taken | apps/api/app/models/listing.py:28 | never more than the allocations there are |
| LegacyListing.TakenAppend | apps/api/app/models/listing.py:28 | the count over appended allocations is the sum of the counts |
| LegacyListing.TakenAll | apps/api/app/models/listing.py:28 | allocations all on the listing count in full |
| LegacyListing.AvailableQty | apps/api/app/models/listing.py:26-29 | never negative; with no more allocations than the public share, free plus taken is the public share; positive exactly when fewer are taken than the share |
| LegacyListing.Float | apps/api/app/models/listing.py:41 | a non-zero number stays a non-zero float |
| LegacyListing.OptFloat | apps/api/app/models/listing.py:42-43 | null exactly for a falsy value (NULL or 0), the float otherwise |
| LegacyListing.OptDate | apps/api/app/models/listing.py:45-47 | null exactly for a missing date, the date otherwise |
| LegacyListing.BusinessName | apps/api/app/models/listing.py:35 | the business name when non-empty, "Business" otherwise; never empty |
| LegacyListing.ToDict | apps/api/app/models/listing.py:31-49 | id, free quantity, address and SNAP flag as stored; optional prices and dates null exactly when falsy; a non-empty business name |
| LegacyListings.MarketIds | apps/api/app/routes/listings.py:11-12 | exactly the listings with free slots, in table order |
| LegacyListings.GetMarket | apps/api/app/routes/listings.py:8-12 | one JSON listing per listing with free slots, in table order, each with a positive free quantity |
| LegacyListings.ListListings | apps/api/app/routes/listings.py:15-22 | 400 exactly when the business id is missing or 0; otherwise exactly the listings of that business |
| LegacyListings.OwnedBy | apps/api/app/routes/listings.py:21 | exactly the listings whose business is the one given |
| LegacyListings.NewRow | apps/api/app/routes/listings.py:36-47 | each column takes the body's field or its default; the dates start empty |
| LegacyListings.NewListingAllFree | apps/api/app/routes/listings.py:36-50 | a new listing has its whole public share free |
| LegacyListings.TakenNone | apps/api/app/routes/listings.py:36-50 | a listing without allocations has none taken |
| LegacyListings.CreateListing | apps/api/app/routes/listings.py:25-50 | 400 for a missing business id and for one that is not a business user; 500 when the new row would hold null in a NOT NULL column; every failure changes nothing; success exactly for a business user and a filled row, adding the new row and answering its JSON form |
| LegacyListings.NewRowFilled | apps/api/app/models/listing.py:9-13 | a new row breaks no NOT NULL column exactly when the body gives no null name, total, public share or price |
| LegacyListings.GetListing | apps/api/app/routes/listings.py:53-57 | 404 exactly for an unknown id; otherwise the listing with its free quantity |
| LegacyListings.Patched | apps/api/app/routes/listings.py:65-67 | columns outside the list are untouched |
| LegacyListings.PatchedColumns | apps/api/app/routes/listings.py:65-67 | a listed column present in the body takes its value, one absent keeps its own |
| LegacyListings.UpdateLaws | apps/api/app/routes/listings.py:60-69 | an update sets exactly the whitelisted fields present, never the business id; an empty body changes nothing; applying the same body twice equals applying it once |
| LegacyListings.UpdateListing | apps/api/app/routes/listings.py:60-69 | 404 for an unknown id; 500 when the patched row would hold null in a NOT NULL column; both change nothing; otherwise the listing is patched with the whitelist and answered in its JSON form |
| LegacyListings.PatchKeepsFilled | apps/api/app/models/listing.py:9-13 | a stored row stays within the NOT NULL columns after a patch exactly when the body sets none of them to null |
| LegacyPartners.BodyOrEmpty | apps/api/app/routes/partners.py:12 | `request.get_json() or {}`: the body, or an empty object |
| LegacyPartners.Quantity | apps/api/app/routes/partners.py:13-14 | an integer quantity is compared as itself; a non-number has no quantity |
| LegacyPartners.ReservedRow | apps/api/app/routes/partners.py:16-17 | the partner share grows by the quantity, the public share shrinks by it but not below 0, nothing else changes |
| LegacyPartners.ReservationConserves | apps/api/app/routes/partners.py:16-17 | within the public share the total of both shares is kept; beyond it the public share is emptied |
| LegacyPartners.ReservePartnerResult | apps/api/app/routes/partners.py:9-19 | 404 for an unknown listing; a reservation changes only its listing |
| LegacyPartners.ReserveDefaultsToOne | apps/api/app/routes/partners.py:13-15 | without a quantity one unit is reserved; a quantity of 0 or less is refused with 400 |
| LegacyPartners.ReservePartner | apps/api/app/routes/partners.py:9-19 | the tables change as `ReservePartnerResult` says, and a refusal changes nothing |
| LegacyPickup.WithToken | apps/api/app/routes/pickup.py:16 | the first allocation holding the token, or none when no allocation holds it |
| LegacyPickup.WithTokenSame | apps/api/app/routes/pickup.py:16 | the allocation found depends only on the tokens |
| LegacyPickup.PickedUp | apps/api/app/routes/pickup.py:22-24 | picked up, "picked_up", stamped with the time; owner, listing, request and token kept |
| LegacyPickup.CountPickup | apps/api/app/routes/pickup.py:25-27 | the user's recent pickups (0 when unset) go up by one; the rest of the user is kept |
| LegacyPickup.ScanResult | apps/api/app/routes/pickup.py:9-29 | a refusal changes nothing; no user or allocation is added or removed |
| LegacyPickup.ScanCollectsOnce | apps/api/app/routes/pickup.py:9-29 | a successful scan collects the not yet collected allocation holding the token, counts one pickup for its user and changes no other user or allocation |
| LegacyPickup.ScanTwiceRefused | apps/api/app/routes/pickup.py:19-20 | scanning the same code again is refused as already picked up and changes nothing |
| LegacyPickup.ScanKeepsUsersValid | apps/api/app/routes/pickup.py:25-27 | pickup counts stay non-negative |
| LegacyPickup.Scan | apps/api/app/routes/pickup.py:9-29 | the tables change as `ScanResult` says |
| LegacyRequests.UserOf | apps/api/app/routes/requests.py:19-20 | a user id names a user exactly when it is an integer key of the users |
| LegacyRequests.CreateRequestResult | apps/api/app/routes/requests.py:8-31 | 404 for an unknown listing, 400 without free slots; a success appends one "pending" request of a known user on the listing, with the body's payment method or "standard" |
| LegacyRequests.CreateRequestRefusals | apps/api/app/routes/requests.py:15-21 | with free slots: 400 for a missing or zero user id, 400 for an unknown user, success otherwise |
| LegacyRequests.CreateRequest | apps/api/app/routes/requests.py:8-31 | the requests change as `CreateRequestResult` says, a refusal changes nothing, and the new request is answered |
| LegacyRequests.RequestIds | apps/api/app/routes/requests.py:47 | exactly the ids of the requests kept, in increasing order, the table's own order |
| LegacyRequests.NewestFirst | apps/api/app/routes/requests.py:40 | exactly the ids of the requests kept, in decreasing order: newest first, ids growing with creation |
| LegacyRequests.NewestFirstReversesTableOrder | apps/api/app/routes/requests.py:40-57 | newest first is the table order reversed |
| LegacyRequests.GetOrders | apps/api/app/routes/requests.py:34-41 | 400 exactly for a missing or zero user id; otherwise exactly that user's requests, newest first |
| LegacyRequests.ListingRequests | apps/api/app/routes/requests.py:44-48 | exactly the requests on the listing, in table order |
| LegacyRequests.ListRequests | apps/api/app/routes/requests.py:51-58 | 400 exactly for a missing or zero business id; otherwise exactly the requests on that business's listings, newest first |
| LegacyTables.Tables.constructor | apps/api/app/models/listing.py:4-24 | empty tables are valid, which includes that no stored listing holds null in a NOT NULL column |
| ListingsRouter.RealList | apps/api/routers/listings.py:92-96 | one float per coordinate, in order |
| ListingsRouter.ListingToResponse | apps/api/routers/listings.py:17-22 | `_id` becomes the string `id`; every other field is kept, except a truthy location, which is rebuilt as a GeoJSON Point with the stored coordinates |
| ListingsRouter.ResponseKeepsStoredFields | apps/api/routers/listings.py:17-22 | for a stored listing with a Point location, dropping `id` from the response gives back the stored fields |
| ListingsRouter.RingIsClosedRectangle | apps/api/routers/listings.py:44-50 | the polygon is closed, has five positions, and its corners are exactly the four corners of the box, `[lng, lat]` |
| ListingsRouter.RingCounterClockwise | apps/api/routers/listings.py:44-50 | for a proper box the ring runs counter-clockwise (positive area, twice the box's area), as GeoJSON wants of an outer ring |
| ListingsRouter.BuildMarketFilter | apps/api/routers/listings.py:38-67 | always `status: open`; a `$geoWithin` box exactly when all four corners are given; the open-now clauses exactly when `open_now` is true; a price range with exactly the bounds given; a category exactly when non-empty |
| ListingsRouter.GetMarket | apps/api/routers/listings.py:25-72 | the filter is restricted to open listings, has the rectangle exactly when all four corners are given, the pickup window exactly when `open_now` is true, each price end exactly when given, and the category exactly when non-empty; every document found is answered in response form, in order |
| ListingsRouter.ChooseLocation | apps/api/routers/listings.py:91-96 | an explicit location wins; otherwise a non-empty address is placed where the geocoder says, if it answers; otherwise no location |
| ListingsRouter.NewListingDoc | apps/api/routers/listings.py:78-96 | a new listing is open, keeps the business, quantity and price given, and has a location exactly when one was chosen |
| ListingsRouter.CreateListing | apps/api/routers/listings.py:75-99 | the listing is stored under a fresh id and answered in response form; no other collection changes |
| ListingsRouter.GetListing | apps/api/routers/listings.py:102-111 | 400 for an id that is not an ObjectId, 404 for an unknown one, the listing in response form otherwise |
| MarketApi.GetMarketWithBounds | apps/web/src/api/market.ts:72-91 | only the known parameters; the four corners exactly when bounds are given; `open_now` exactly when true; each price bound exactly when present; a category exactly when non-empty; each with the value given |
| Regex.DigitsEnd | apps/web/src/lib/marketQueryIntent.ts:61 | the greedy `\\d*`: only digits are consumed, and the next character is not one |
| Regex.SpacesEnd | apps/web/src/lib/marketQueryIntent.ts:61 | the greedy `\\s*`: only white space is consumed, and the next character is not any |
| Regex.DecimalAt | apps/web/src/lib/marketQueryIntent.ts:61-74 | a matched number is non-negative and consumes at least one character |
| Regex.AmountAt | apps/web/src/lib/marketQueryIntent.ts:74-82 | a matched amount is non-negative and consumes at least one character |
| Regex.FirstAlternative | apps/web/src/lib/marketQueryIntent.ts:74 | the first alternative present whose continuation matches, and no match when none of them leads to one |
| Regex.Leftmost | apps/web/src/lib/marketQueryIntent.ts:61-82 | `String.match`: the match at the leftmost position where there is one, and none when no position matches |
| MarketQueryIntent.FirstKeyFrom | apps/web/src/lib/marketQueryIntent.ts:45-94 | the first table key, in declaration order, that occurs in the text |
| MarketQueryIntent.DetectCategory | apps/web/src/lib/marketQueryIntent.ts:44-47 | a category exactly when some alias occurs in the text; it is the category of the first such alias, and one of the known categories |
| MarketQueryIntent.ToBoundsFromCenter | apps/web/src/lib/marketQueryIntent.ts:49-58 | the box is centred on the point and its height is twice the radius over 111 km; for a positive radius it is proper; its width is at most twice the radius over 11.1 km |
| MarketQueryIntent.LongitudeDelta | apps/web/src/lib/marketQueryIntent.ts:51 | the clamped cosine keeps the longitude margin positive and at most ten times the latitude one |
| MarketQueryIntent.WithinAt | apps/web/src/lib/marketQueryIntent.ts:61-64 | a radius match starts with "within" and gives a non-negative number |
| MarketQueryIntent.DetectRadiusKm | apps/web/src/lib/marketQueryIntent.ts:60-68 | never below half a kilometre; 2.5 km when the text has no "within" |
| MarketQueryIntent.BetweenAt | apps/web/src/lib/marketQueryIntent.ts:73-75 | both amounts of a range match are non-negative |
| MarketQueryIntent.BetweenTail | apps/web/src/lib/marketQueryIntent.ts:74 | both amounts after the opening word are non-negative |
| MarketQueryIntent.SecondAmount | apps/web/src/lib/marketQueryIntent.ts:74 | the first amount is kept and the second is non-negative |
| MarketQueryIntent.BetweenMatch | apps/web/src/lib/marketQueryIntent.ts:73-75 | both amounts of the leftmost range are non-negative |
| MarketQueryIntent.BetweenMatchNonNegative | apps/web/src/lib/marketQueryIntent.ts:73-75 | the leftmost range match has non-negative amounts |
| MarketQueryIntent.BoundAt | apps/web/src/lib/marketQueryIntent.ts:82-85 | a bound match gives a non-negative amount |
| MarketQueryIntent.BoundMatch | apps/web/src/lib/marketQueryIntent.ts:82-86 | the leftmost bound is non-negative |
| MarketQueryIntent.BoundMatchNonNegative | apps/web/src/lib/marketQueryIntent.ts:82-86 | the leftmost bound match is non-negative |
| MarketQueryIntent.DetectPrice | apps/web/src/lib/marketQueryIntent.ts:70-91 | a range sets both bounds, least first; otherwise "under" words set the maximum, "over" words the minimum, and "cheap" a maximum of 10 only when none was set; every bound is non-negative |
| MarketQueryIntent.NoDigitsNoPrice | apps/web/src/lib/marketQueryIntent.ts:70-91 | a text without digits names no minimum, and a maximum of 10 dollars exactly when it says "cheap" |
| MarketQueryIntent.DetectNeighborhoodBounds | apps/web/src/lib/marketQueryIntent.ts:93-98 | a box exactly when some neighbourhood is named; it is the box of the first one named, in table order |
| MarketQueryIntent.NeighborhoodBoundsAreProper | apps/web/src/lib/marketQueryIntent.ts:5-98 | every neighbourhood's box strictly contains its centre |
| MarketQueryIntent.ParseMarketplaceQuery | apps/web/src/lib/marketQueryIntent.ts:120-150 | a blank query means nothing; otherwise category, open-now and prices come from the normalised text; a named neighbourhood sets the box and stops; otherwise "near me" asks for the location and sets the radius, then the box around the position or the note |
| MarketQueryExamples.WithinTwoMiles | apps/web/src/lib/marketQueryIntent.ts:61-62 | "within 2 miles" is 3.21868 km |
| MarketQueryExamples.AmountAfterDollar | apps/web/src/lib/marketQueryIntent.ts:74 | " $d" followed by a space or the end reads as the digit's value |
| MarketQueryExamples.ToThree | apps/web/src/lib/marketQueryIntent.ts:74 | in "between $7 and $3", after the first amount, "and" leads to the second amount |
| MarketQueryExamples.SpaceBeforeAnd | apps/web/src/lib/marketQueryIntent.ts:74 | the space after "$7" is consumed up to "and" |
| MarketQueryExamples.TailSevenToThree | apps/web/src/lib/marketQueryIntent.ts:74 | after "between", the amounts read are 7 and 3 |
| MarketQueryExamples.BetweenSevenAndThree | apps/web/src/lib/marketQueryIntent.ts:73-79 | "between $7 and $3" gives the range 3 to 7 |
| MarketQueryExamples.CheapBakeryCategory | apps/web/src/lib/marketQueryIntent.ts:28-88 | "cheap bakery" is in the bakery category, with no minimum and a maximum of 10 dollars |
| MarketplaceMap.DefaultBoundsProper | apps/web/src/pages/buyer/MarketplaceMap.tsx:11-16 | the default Boston box is proper |
| MarketplaceMap.JsRound | apps/web/src/pages/buyer/MarketplaceMap.tsx:45 | `Math.round`: the nearest integer, halves rounded up |
| MarketplaceMap.PriceCents | apps/web/src/pages/buyer/MarketplaceMap.tsx:45-46 | an empty box gives nothing; a value is a non-zero number of cents within half a cent of the parsed price; every parsed price that rounds to a non-zero number of cents gives one |
| MarketplaceMap.DeriveFilters | apps/web/src/pages/buyer/MarketplaceMap.tsx:43-47 | `open_now` only when checked; prices as `PriceCents` says; a category exactly when the trimmed text is non-empty, trimmed of white space at both ends |
| MarketplaceMap.MarketplaceMapPage.constructor | apps/web/src/pages/buyer/MarketplaceMap.tsx:19-26 | no listings, loading, no error, the default Boston box |
| MarketplaceMap.MarketplaceMapPage.HandleBoundsChange | apps/web/src/pages/buyer/MarketplaceMap.tsx:51-53 | the box becomes the map's, nothing else changes |
| MarketplaceMap.MarketplaceMapPage.FetchListings | apps/web/src/pages/buyer/MarketplaceMap.tsx:28-40 | loading ends and the box is kept; the listings loaded and no error, or no listings and the failure's message (or "Failed to load") |
| MarketplaceMap.MarketplaceMapPage.Refresh | apps/web/src/pages/buyer/MarketplaceMap.tsx:42-49 | the query has the four corners, with the box's values, exactly when a box is set; `open_now` is true exactly when asked; the price keys carry the cents of their boxes; the category is the trimmed text; no other key; the outcome is taken as `FetchListings` says |
| OrdersRouter.IdAsString | apps/api/routers/orders.py:20-22 | an ObjectId becomes its hex string; any other value is kept |
| OrdersRouter.OrderToResponse | apps/api/routers/orders.py:17-23 | `_id` becomes the string `id`; listing and business ids become strings when they are ObjectIds; every other field is kept |
| OrdersRouter.OrderResponseKeepsFields | apps/api/routers/orders.py:17-23 | an order whose ids are already strings is recovered from its response by dropping `id` |
| OrdersRouter.RespondOrders | apps/api/routers/orders.py:40-43 | one response per order found, in order |
| OrdersRouter.ResponseMatches | apps/api/routers/orders.py:36-43 | a response still matches the filter its order matched |
| OrdersRouter.ResponsesMatch | apps/api/routers/orders.py:36-43 | every response of an answer matches the filter |
| OrdersRouter.WithStatus | apps/api/routers/orders.py:37-38 | the status is filtered exactly when a non-empty one is asked for; other fields are kept |
| OrdersRouter.MatchesWithStatus | apps/api/routers/orders.py:37-38 | an order matches the filter with a status exactly when it matches without and has that status |
| OrdersRouter.BuyerOrdersFilter | apps/api/routers/orders.py:28-38 | 422 for an empty name; a failure exactly when the stripped name is empty; otherwise the stripped name and, when asked, the status |
| OrdersRouter.BuyerOrders | apps/api/routers/orders.py:26-43 | refused exactly when the filter is; otherwise one response per order found, in order and each the response form of that order, each of the stripped name, and of the status asked |
| OrdersRouter.AfterReserve | apps/api/routers/orders.py:53-61 | one unit fewer, "sold_out" once none is left, nothing else changed |
| OrdersRouter.QrToken | apps/api/routers/orders.py:68 | 32 hexadecimal characters |
| OrdersRouter.NewOrder | apps/api/routers/orders.py:63-70 | "reserved", for the listing id as given, its business and the token |
| OrdersRouter.ReserveTarget | apps/api/routers/orders.py:49-59 | 400 for an id that is not an ObjectId; success exactly for a stored listing that is open with a unit left; 409 otherwise |
| OrdersRouter.Reserve | apps/api/routers/orders.py:46-73 | a refusal changes nothing; otherwise one unit of the listing is taken, one reserved order is stored under a fresh id and answered |
| OrdersRouter.MarkPickedUp | apps/api/routers/orders.py:89-90 | "picked_up", stamped with the time, nothing else changed |
| OrdersRouter.StoredAfterScan | apps/api/routers/orders.py:85-88 | only a "reserved" order is stored as picked up; any other is untouched |
| OrdersRouter.ScanReply | apps/api/routers/orders.py:82-91 | always ok; "already picked up" exactly for a picked-up order, reported unchanged; any other reported picked up now |
| OrdersRouter.PickupScan | apps/api/routers/orders.py:76-91 | 404 for an unknown token, changing nothing; otherwise the stored order and the reply are those of `StoredAfterScan` and `ScanReply` |
| OrdersRouter.ScanTwice | apps/api/routers/orders.py:78-83 | a second scan of a reserved order stores nothing new and reports it already picked up at the first scan's time |
| OrdersRouter.ScanOfCanceledOrder | apps/api/routers/orders.py:82-91 | a canceled order is not stored as picked up, yet the reply says it was picked up now |
| OrdersRouter.CanceledOrder | apps/api/routers/orders.py:119-121 | "canceled", stamped, with reason "user_cancel", nothing else changed |
| OrdersRouter.Restocked | apps/api/routers/orders.py:113-116 | one unit more (a missing quantity counts as 0) and open again |
| OrdersRouter.RestockListings | apps/api/routers/orders.py:109-118 | only the order's listing, when its id names a stored listing, is restocked |
| OrdersRouter.CancelOrder | apps/api/routers/orders.py:94-122 | 400 for an id that is not an ObjectId and for an order that is missing or not reserved, changing nothing; otherwise the order is canceled and its listing restocked |
| OrdersRouter.ReserveThenCancel | apps/api/routers/orders.py:53-116 | reserving a unit and canceling that order gives the listing back as it was |
| Osrm.CoordStr | apps/api/services/osrm_service.py:24-25 | "lng,lat" from the two printed numbers |
| Osrm.CoordStrHasNoSemicolon | apps/api/services/osrm_service.py:24-25 | a coordinate pair never contains the separator when its numbers do not |
| Osrm.TableCoordsSplit | apps/api/services/osrm_service.py:65-66 | splitting the request path at ";" gives back the origin, then each destination in order |
| Osrm.AttemptsMade | apps/api/services/osrm_service.py:30-43 | at least one attempt and never more than the outcomes available |
| Osrm.GetStops | apps/api/services/osrm_service.py:28-44 | every attempt before the last one made timed out or was refused; the call raises exactly when the last attempt raised an uncaught error; a body is returned exactly when the last attempt answered, and it is that answer; stopping early means an answer, an HTTP error or an uncaught error |
| Osrm.Fetch | apps/api/services/osrm_service.py:28-44 | after 1 to `RETRIES + 1` attempts, the loop ends as `GetResult` says, with the body, with None or with the uncaught error |
| Osrm.GetResultFrom | apps/api/services/osrm_service.py:35 | a returned body is one of the answers received |
| Osrm.TableCall | apps/api/services/osrm_service.py:71-78 | the fetch's exception passes through; an answer or None is read as `TableResult` says |
| Osrm.SourceRow | apps/api/services/osrm_service.py:77 | the empty row without `durations`; the first row of a non-empty list; an exception exactly when `durations` is present and is not a non-empty list or string |
| Osrm.RowDurations | apps/api/services/osrm_service.py:78 | one entry per destination; a list row gives the cell after the origin's, None past its end; a value without a length, or a dict with two or more keys, raises once there is a destination; any other row gives None throughout |
| Osrm.TableResult | apps/api/services/osrm_service.py:71-78 | one entry per destination; all None on failure, a code other than "Ok" or no `durations`; with a list as first row, the duration in the cell after the origin's, None past the end of the row; an exception only on an "Ok" answer with `durations` |
| Osrm.MalformedTableAnswers | apps/api/services/osrm_service.py:77-78 | an empty dict as the row gives None throughout; an empty or null `durations` raises |
| Osrm.TableDurations | apps/api/services/osrm_service.py:47-78 | no request and no durations for no destinations; otherwise one Table request naming the origin and the destinations, and the outcome `TableCall` gives |
| Osrm.RouteResult | apps/api/services/osrm_service.py:101-107 | None on failure, a code other than "Ok" or falsy `routes`; the first route's duration when `routes` is a list whose first item is a dict; an exception exactly for other truthy `routes` |
| Osrm.MalformedRouteAnswers | apps/api/services/osrm_service.py:104-107 | null or empty-dict routes give None; only the first route is read; a first route that is not a dict raises |
| Osrm.RouteCall | apps/api/services/osrm_service.py:101-107 | the fetch's exception passes through; an answer or None is read as `RouteResult` says |
| Osrm.RouteDuration | apps/api/services/osrm_service.py:81-107 | one Route request from origin to destination, and the outcome `RouteCall` gives |
| Schemas.ParseGeoPoint | apps/api/schemas.py:8-10 | valid exactly when the type is omitted or "Point"; the point is then a Point with the coordinates given; 422 otherwise |
| Schemas.ValidateListingCreate | apps/api/schemas.py:13-24 | valid exactly when the donation share is absent or within [0, 1]; the body is kept |
| Schemas.ParseDonationPlanRequest | apps/api/schemas.py:74-77 | valid exactly when the share is given and within (0, 1]; 422 otherwise |
| Schemas.ParseTriggerExpiringRequest | apps/api/schemas.py:103-106 | valid exactly when the share is absent or within (0, 1]; 30 minutes and the whole quantity by default |
| Schemas.MakePickupScanResponse | apps/api/schemas.py:67-70 | `ok` defaults to true, `already_picked_up` to false, each given value is kept |
| RequestsPage.Shown | apps/web/src/pages/business/Requests.tsx:20-24 | all requests without a filtering parameter; otherwise those of the parameter's listing |
| RequestsPage.OfListing | apps/web/src/pages/business/Requests.tsx:21 | exactly the requests of the listing (none for NaN), in order |
| RequestsPage.ListingIds | apps/web/src/pages/business/Requests.tsx:44-49 | exactly the listings that have a request |
| RequestsPage.ByListingGroups | apps/web/src/pages/business/Requests.tsx:44-49 | `byListing` has a group for exactly the listings with requests, and each group is that listing's requests in order |
| RequestsPage.ListingIdsSnoc | apps/web/src/pages/business/Requests.tsx:44-49 | one more request adds its listing to the listings with requests |
| RequestsPage.NoGroup | apps/web/src/pages/business/Requests.tsx:44-49 | a listing without requests has an empty group |
| RequestsPage.GroupByListing | apps/web/src/pages/business/Requests.tsx:44-49 | the reduce builds the map `ByListing` says |
| RequestsPage.GroupsPartition | apps/web/src/pages/business/Requests.tsx:69-79 | the group sizes over the distinct listings add up to the number of requests |
| RequestsPage.CountIn | apps/web/src/pages/business/Requests.tsx:69-79 | never more than the requests there are |
| RequestsPage.CountSplit | apps/web/src/pages/business/Requests.tsx:69-79 | counting group by group equals counting request by request |
| RequestsPage.CountNone | apps/web/src/pages/business/Requests.tsx:69-79 | no listing counts no request |
| RequestsPage.CountStep | apps/web/src/pages/business/Requests.tsx:69-79 | one more listing adds the size of its group |
| RequestsPage.CountAll | apps/web/src/pages/business/Requests.tsx:69-79 | with every listing counted, every request is counted |
| RequestsPage.Pending | apps/web/src/pages/business/Requests.tsx:70 | exactly the group's pending requests |
| RequestsPage.AllocateButton | apps/web/src/pages/business/Requests.tsx:81-91 | shown exactly when the group has a pending request, disabled exactly while an allocation runs |
| RequestsPage.Page.constructor | apps/web/src/pages/business/Requests.tsx:11-15 | no requests, loading, no error, no allocation running |
| RequestsPage.Page.Loaded | apps/web/src/pages/business/Requests.tsx:17-28 | the requests shown are the fetched ones filtered as `Shown` says, or the failure's message; loading ends |
| RequestsPage.Page.StartAllocate | apps/web/src/pages/business/Requests.tsx:30-31 | the allocation of the listing runs |
| RequestsPage.Page.AllocateSettled | apps/web/src/pages/business/Requests.tsx:32-41 | the reloaded requests filtered again, or the failure's message; no allocation runs afterwards |
| ListingDetailPage.MethodName | apps/web/src/pages/buyer/ListingDetail.tsx:14-34 | "ebt" names exactly the EBT method |
| ListingDetailPage.Number | apps/web/src/pages/buyer/ListingDetail.tsx:49-50 | `Number` of a number is that number, of null 0 |
| ListingDetailPage.Price | apps/web/src/pages/buyer/ListingDetail.tsx:47-50 | the EBT price exactly for an EBT payment on a SNAP-eligible listing with an EBT price; the standard price otherwise |
| ListingDetailPage.Tax | apps/web/src/pages/buyer/ListingDetail.tsx:51 | no tax exactly for EBT |
| ListingDetailPage.Total | apps/web/src/pages/buyer/ListingDetail.tsx:52 | price plus tax, a number exactly when the price is one |
| ListingDetailPage.PaymentRules | apps/web/src/pages/buyer/ListingDetail.tsx:46-52 | standard always pays the standard price; without SNAP or an EBT price the method changes only the tax; with both EBT pays the EBT price alone |
| ListingDetailPage.EbtNeverCostsMore | apps/web/src/pages/buyer/ListingDetail.tsx:46-52 | an EBT price no higher than the standard one saves at least the tax |
| ListingDetailPage.ZeroEbtPriceShowsStandard | apps/web/src/pages/buyer/ListingDetail.tsx:47-50 | an EBT price of 0, which the listing JSON drops to null, shows the standard price |
| ListingDetailPage.ReserveBody | apps/web/src/pages/buyer/ListingDetail.tsx:32-35 | the default buyer and the chosen method |
| ListingDetailPage.ReserveAccepted | apps/web/src/pages/buyer/ListingDetail.tsx:28-39 | with a free slot and the default buyer on record, the reservation is accepted and carries the chosen method |
| ListingDetailPage.DetailPage.constructor | apps/web/src/pages/buyer/ListingDetail.tsx:12-18 | nothing loaded, standard payment, nothing in flight, no error |
| ListingDetailPage.DetailPage.Loaded | apps/web/src/pages/buyer/ListingDetail.tsx:22-23 | the listing is shown |
| ListingDetailPage.DetailPage.LoadFailed | apps/web/src/pages/buyer/ListingDetail.tsx:24 | the fetch's message is shown, or "Failed to load" when it is empty |
| ListingDetailPage.DetailPage.ChooseStandard | apps/web/src/pages/buyer/ListingDetail.tsx:14-16 | standard payment is chosen |
| ListingDetailPage.DetailPage.ChooseEbt | apps/web/src/pages/buyer/ListingDetail.tsx:91 | EBT is chosen only on a SNAP-eligible listing; otherwise nothing changes |
| ListingDetailPage.DetailPage.Reserve | apps/web/src/pages/buyer/ListingDetail.tsx:28-133 | without a listing or a free slot nothing happens; otherwise submitting starts, the error is cleared and the body is posted for the listing |
| ListingDetailPage.DetailPage.Settled | apps/web/src/pages/buyer/ListingDetail.tsx:36-38 | submitting ends; success goes to the orders page; a failure shows its message and stays |
| SimulationMap.Swap | apps/web/src/pages/SimulationMap.tsx:42-51 | the same point, latitude first |
| SimulationMap.IndexOf | apps/web/src/pages/SimulationMap.tsx:33-36 | a bank for exactly the ids listed |
| SimulationMap.IndexLastWins | apps/web/src/pages/SimulationMap.tsx:33-36 | an id maps to the last bank listed with it |
| SimulationMap.BuildIndex | apps/web/src/pages/SimulationMap.tsx:33-36 | the loop builds the map `IndexOf` says |
| SimulationMap.PlanLines | apps/web/src/pages/SimulationMap.tsx:43-54 | at most one line per plan entry, each from the restaurant to a routed entry's bank; every entry routed gives every line; none routed gives none |
| SimulationMap.PlanEntries | apps/web/src/pages/SimulationMap.tsx:222-248 | no restaurant, no table row |
| SimulationMap.LinesFromPlans | apps/web/src/pages/SimulationMap.tsx:39-55 | never more lines than plan entries, each starting at a restaurant with a location |
| SimulationMap.LinesCoverRoutedPlans | apps/web/src/pages/SimulationMap.tsx:39-55 | with every restaurant located and every bank known and located, one line per plan entry |
| SimulationMap.BuildLines | apps/web/src/pages/SimulationMap.tsx:33-55 | the nested loops build the lines `Lines` says |
| SimulationMap.DonatedQty | apps/web/src/pages/SimulationMap.tsx:84 | `Math.floor` of stock times percentage |
| SimulationMap.DonatedWithinStock | apps/web/src/pages/SimulationMap.tsx:84 | a percentage within [0, 1] donates between nothing and the whole stock |
| SimulationMap.TotalIncoming | apps/web/src/pages/SimulationMap.tsx:202 | non-negative when every bank's total is |
| SimulationMap.TotalIncomingAppend | apps/web/src/pages/SimulationMap.tsx:202 | the total over a list is the sum of the totals over its parts |
| SimulationMap.PlaceholderIffEmptyTable | apps/web/src/pages/SimulationMap.tsx:222-255 | the placeholder row shows exactly when the table has no other row, and then no line is drawn |
| SimulationRouter.Serialize | apps/api/routers/simulation.py:15-19 | `_id` becomes the string `id`, every other field is kept |
| SimulationRouter.SerializeRoundTrip | apps/api/routers/simulation.py:15-19 | dropping `id` gives back the stored fields |
| SimulationRouter.PlanEntries | apps/api/routers/simulation.py:43-81 | the stored plan, or none when it is missing |
| SimulationRouter.PlanIncoming | apps/api/routers/simulation.py:81-84 | a plan naming no entry for the bank sends it nothing |
| SimulationRouter.PlanIncomingAppend | apps/api/routers/simulation.py:81-84 | a plan's units split over any cut of its entries |
| SimulationRouter.IncomingAppend | apps/api/routers/simulation.py:67-84 | a bank's units split over any cut of the listings, so the total does not depend on how the loop is cut |
| SimulationRouter.PlanIncomingBounded | apps/api/routers/simulation.py:81-84 | with non-negative quantities, a bank receives between nothing and the plan's units |
| SimulationRouter.IncomingBounded | apps/api/routers/simulation.py:62-84 | with non-negative quantities, a bank receives between nothing and all the units planned |
| SimulationRouter.FeedListingFields | apps/api/routers/simulation.py:71-79 | exactly the seven fields the map reads, the id as a string, the others with their defaults |
| SimulationRouter.AddPlan | apps/api/routers/simulation.py:81-84 | each known bank's total grows by the units the plan sends it; no bank is added |
| SimulationRouter.IndexBanks | apps/api/routers/simulation.py:49-64 | every fetched bank serialized under its id string, each total starting at 0 |
| SimulationRouter.IncomingStep | apps/api/routers/simulation.py:68-84 | one more listing adds its plan's units |
| SimulationRouter.FeedListings | apps/api/routers/simulation.py:67-84 | one feed listing per listing found, and each total grows by all the units the listings send |
| SimulationRouter.FeedStep | apps/api/routers/simulation.py:68-84 | one pass of the loop keeps both of `FeedListings`'s facts one listing further |
| SimulationRouter.EmitBanks | apps/api/routers/simulation.py:86 | one feed bank per fetched bank, with its total |
| SimulationRouter.GetSimulation | apps/api/routers/simulation.py:22-91 | one feed listing per listing found and one feed bank per fetched bank, with the units all plans send it |
| Text.TrimStartDropsSpace | apps/api/routers/orders.py:33 | trimming drops a prefix made only of white space |
| Text.TrimEndDropsSpace | apps/api/routers/orders.py:33 | trimming drops a suffix made only of white space |
| Text.TrimEmptyIff | apps/api/routers/orders.py:33-35 | the trimmed text is empty exactly when the text is all white space |
| Text.TrimHasNoEdgeSpace | apps/web/src/pages/buyer/MarketplaceMap.tsx:47 | trimmed text neither starts nor ends with white space |
| MongoStore.Db.constructor | apps/api/database.py:32-33 | every collection starts empty |
| Text.AsciiLower | apps/web/src/lib/marketQueryIntent.ts:121 | same length, each ASCII capital lowered and every other character kept |
| Text.SplitJoin | apps/api/services/osrm_service.py:65-66 | splitting a joined list on a separator no part contains gives the parts back |

## Left out

- MongoDB query semantics are not modelled, because the engine is outside the model. Query answers are inputs, for example:
  - the `$geoWithin` and `$near` matches;
  - the expiring-listing query with its `$dateFromString`;
  - the `created_at` sort of order listings.
- The `top_k * 4` cap on nearby banks (`limit=top_k * 4` and `to_list(length=top_k * 4)` in the routing service) is not modelled, because the engine's answer is an input. The simulation feed's `limit=200` is modelled by `SimulationRouter.FeedLimit`, and the trigger's `to_list(length=100)` by `DonationsRouter.ExpiringCap`.
- SQLAlchemy sessions, joins and commits are not modelled. The legacy tables are plain maps and sequences that each route updates at once.
- Floating-point rounding is not modelled: `round(duration, 1)`, `round(score, 6)`, `round(need_weight, 6)`, `toFixed(2)` and `Math.round` on halves. Reals are exact in the model.
- DonationsRouter.DonationQty: `math.floor(qty_available * donate_percent)` floors a floating-point product, and the model floors the exact one. The source's count can be one lower: 100 at 0.29 is 28.999999999999996 in floating point, so the source donates 28 units where the model donates 29 (0.57 and 0.58 do the same). This changes the stored plan, the donation records and the remaining quantity. `BusinessRouter.DecideDonation` (business.py:116) uses the same function.
- SimulationMap.DonatedQty: `Math.floor(qty_available * donate_percent)` has the same floating-point gap, so the displayed count can be one lower than the model's.
- `math.hypot` is replaced by the squared distance, which picks the same nearest tract.
- `Math.cos` is a parameter, clamped as the code clamps it.
- `parseFloat` on the marketplace price boxes is a parameter, because number parsing is not part of this model.
- ListingDetailPage.Number: `Number` of non-empty text is read as NaN. JavaScript would parse numeric text such as "3.5", but number parsing is not part of this model.
- AllocationService.WeightedLottery: requires pickup counts that are not negative. A count of -1 would divide by zero in the source.
- DonationRouting.ScoreCandidates: requires that no duration is exactly -1 minute. The source divides by the duration plus one.
- DonationRouting.Scored: a stored `need_weight` of null is read as absent, so it scores 1.0. The source's `bank.get("need_weight", 1.0)` gives None for null, and the division then raises.
- DonationRouting.AllocateUnits: a stored `name` of null is read as absent, so the allocation is named "Unknown". The source's `bank.get("name", "Unknown")` keeps the null. Likewise a stored `address` of null becomes "", where `bank.get("address", "")` keeps the null.
- DonationRouting.Ranked: requires that no duration is exactly -1 minute. The source divides by the duration plus one.
- LegacyListings.UpdateListing: a PATCH value of the wrong type (text for a quantity) is read as 0 by the quantity columns. The source would store it and fail later in SQL.
- LegacyPartners.ReservePartner: a `partner_qty` that is a real number gets a 500 reply. Python would accept it and store a float sum. A `partner_qty` that is text, null or a container gets a 500 reply, as in the source.
- LegacyRequests.CreateRequest: a `user_id` that is not an integer is treated as an unknown user.
- The lottery's `total <= 0` guard is left out of `AllocationService.WeightedLottery`. Every weight is positive, so it never fires, and `AllocationService.TotalPositive` proves this.
- DonationsRouter.ExpiringOutcome: a truthy stored location whose `coordinates` is missing or is not a pair makes `pick_candidates` raise. The source's trigger then answers 500 and keeps the writes already made for earlier listings. The model plans such a listing from the routing answer as if the location were well formed. The same holds for an exception from `table_durations` (an HTTP error `_get` does not catch, a body that is not JSON, or a malformed `durations`). The routing answer carries only the durations of an `Osrm.TableDurations` call that returned.
- DonationsRouter.TriggerExpiring: has the same gaps, the coordinates raise and the `table_durations` exception. It never stops part-way with a 500.
- DonationsRouter.RoutingRefusal: the 503 refusal's detail is the object `{"error": "routing_unavailable", "message": …, "fallback": "use /map view"}` in the source. The model's replies carry a text detail, so it is the single string "routing_unavailable".
- MarketplaceMap.MarketplaceMapPage.Refresh: each fetch is started and settled within one step. In the page, a change of the map box or of a filter starts a new fetch without cancelling the one in flight. Whichever finishes last sets the listings, so an older answer can overwrite a newer one, and the first to finish turns `loading` off while another is still running. The model does not capture these overlaps; the same holds for `MarketplaceMap.MarketplaceMapPage.FetchListings`.
- RequestsPage.Page.Loaded: models the first load only, with the `listing` parameter fixed for the page's life. In the page, a change of the parameter re-runs the load while keeping the state: an earlier error stays shown and `loading` is not set again. The model does not capture a parameter change, nor two loads in flight at once.
- DonationsRouter.CreateDonationPlan: a stored "Point" location without a two-element `coordinates` raises in `pick_candidates`, and the source answers 500. The model plans it from the routing answer. The same holds for an exception from `table_durations` (an HTTP error `_get` does not catch, a body that is not JSON, or a malformed `durations`). The routing answer carries only the durations of an `Osrm.TableDurations` call that returned.
- BusinessRouter.BusinessCreateListing: a body location whose `coordinates` does not hold exactly two numbers raises in `pick_candidates` after the insert. The source answers 500 and keeps the inserted listing. The model plans it from the routing answer. The same holds for an exception from `table_durations` (an HTTP error `_get` does not catch, a body that is not JSON, or a malformed `durations`). The routing answer carries only the durations of an `Osrm.TableDurations` call that returned.
- ListingsRouter.ListingToResponse: requires a set stored location to be an object with `coordinates`. On any other truthy location the source raises and answers 500, and the model does not describe that reply.
- ListingsRouter.GetMarket: requires the same of every stored listing, for the same reason.
- ListingsRouter.GetListing: requires the same of every stored listing, for the same reason.
- BusinessRouter.ListBusinessListings: requires the same of every stored listing, for the same reason.
- BusinessRouter.BusinessUpdateListing: requires the same of every stored listing, for the same reason.
- ListingsRouter.CreateListing: the `response_model` check of the reply is not modelled. A listing posted without `business_id` is inserted, and then the source answers 500, because `ListingResponse.business_id` must be text. The model answers with the stored listing. Other stored documents that lack a field the response schema requires are likewise returned as stored, where the source answers 500.
- OrdersRouter.Reserve: the three writes (take a unit, mark "sold_out", store the order) are modelled as one uninterrupted sequence. Interleaving with a concurrent request is not modelled. For example, a cancel that lands between the first two writes can leave "sold_out" on a listing that has one unit again.
- OrdersRouter.Reserve: a stored `qty_available` that is a real number is refused as sold out. MongoDB's `$gte: 1` would match a real of at least 1 and decrement it, as `OrdersRouter.Restocked` increments one. Such a quantity is stored by `BusinessRouter.BusinessUpdateListing`, which keeps any JSON value of `qty_available`; the other routes of this model store integers.
- Text.AsciiLower: lowers only ASCII capitals. JavaScript's `toLowerCase` also lowers other letters ("É" becomes "é"), because Unicode case mapping is not part of this model. The keywords matched after lowering are all ASCII.
- LegacyListings.CreateListing: a `business_id` that is not an integer is treated as an unknown user. SQLite's type affinity would find the user for the text "3". A value of the wrong type for a column is handled as for `LegacyListings.UpdateListing`.
- LegacyRequests.NewestFirst: orders by decreasing id, standing in for decreasing `created_at`. Each row is stamped when it is inserted, so the two orders agree except for requests stamped in the same clock tick, whose relative order the database leaves open.
- Osrm.TableResult: a duration cell that is neither a number nor null is read as None. The source passes it through unchanged, and a caller's arithmetic on it would raise. The same holds for the route's `duration` in `Osrm.RouteResult`.
- Token uniqueness is not modelled: `secrets.token_hex(16)` and `uuid4` are given only their format. The randomness is a parameter.
- CSV columns of the food-bank file other than those read are not modelled, nor are the ingest script's index creation and printing.
- The iteration order of `Object.entries` in the requests page is not modelled. The groups are a map, and the page's grouping is proved as a partition.
- React and Leaflet rendering are not modelled: tiles, popups, loading text and styling.
- The debounce delay's 400 ms default is not modelled, because the delay is a parameter.
- On the listing detail page, a change of route id keeps the chosen payment method. This is not modelled.
- The OSRM base URL and its environment-variable defaults are not modelled, nor is the request URL building or the HTTP timeout. Responses are inputs.
- The HTTP wrappers in `apps/web/src/api/market.ts` other than `getMarketWithBounds` are not modelled. These are `parseMarketIntent`, `getListingById`, `reserveListing`, `getBuyerOrders` and `createMarketListing`, and each is a single fetch with no logic of its own.
- The browser geolocation call is not modelled. Its outcome (a position or an error) is a parameter.
