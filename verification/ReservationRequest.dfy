/** The inventory reservation built from a warehouse selection (internal/service/service.go
    `fulfillmentInventoryReservationRequest`), which reads the regional form of the answer
    (internal/inventory/client.go `WithCandidateRegions`). */
module ReservationRequest {
  import opened Common
  import opened WarehouseSelection
  import Text

  // ---- WithCandidateRegions ----

  function Placed(regions: seq<Region>, w: Warehouse): seq<Region> {
    if regions == [] then [Region(w.region, [w])]
    else if regions[0].name == w.region then [Region(w.region, regions[0].warehouses + [w])] + regions[1..]
    else [regions[0]] + Placed(regions[1..], w)
  }

  function Grouped(ws: seq<Warehouse>): seq<Region> {
    if ws == [] then [] else Placed(Grouped(ws[..|ws| - 1]), ws[|ws| - 1])
  }

  /** The regions the request reads. */
  function Regional(record: Record): seq<Region> {
    if record.warehouses.Some? then Grouped(record.warehouses.value) else record.regions
  }

  ghost predicate Listed(regions: seq<Region>, w: Warehouse) {
    exists i | 0 <= i < |regions| :: w in regions[i].warehouses
  }

  lemma {:induction false} PlacedLists(regions: seq<Region>, w: Warehouse, x: Warehouse)
    ensures Listed(Placed(regions, w), x) <==> Listed(regions, x) || x == w
  {
    var r := Placed(regions, w);
    if regions == [] {
      assert r[0].warehouses == [w];
    } else if regions[0].name == w.region {
      if i :| 0 <= i < |r| && x in r[i].warehouses {
        assert i > 0 ==> regions[i] == r[i];
      }
      if i :| 0 <= i < |regions| && x in regions[i].warehouses {
        assert x in r[i].warehouses;
      }
      assert w in r[0].warehouses;
    } else {
      PlacedLists(regions[1..], w, x);
      ListedSplit(r, x);
      ListedSplit(regions, x);
      assert r[1..] == Placed(regions[1..], w);
    }
  }

  lemma {:induction false} ListedSplit(regions: seq<Region>, x: Warehouse)
    requires regions != []
    ensures Listed(regions, x) <==> x in regions[0].warehouses || Listed(regions[1..], x)
  {
    if i :| 0 <= i < |regions| && x in regions[i].warehouses {
      assert i > 0 ==> regions[1..][i - 1] == regions[i];
    }
    if i :| 0 <= i < |regions[1..]| && x in regions[1..][i].warehouses {
      assert regions[i + 1] == regions[1..][i];
    }
  }

  /** Grouping by region keeps exactly the warehouses. */
  lemma {:induction false} GroupedLists(ws: seq<Warehouse>, x: Warehouse)
    ensures Listed(Grouped(ws), x) <==> x in ws
  {
    if ws != [] {
      var n := |ws| - 1;
      GroupedLists(ws[..n], x);
      PlacedLists(Grouped(ws[..n]), ws[n], x);
      assert ws == ws[..n] + [ws[n]];
    }
  }

  /** The same warehouse, whatever region it is filed under. */
  predicate SameOffer(a: Warehouse, b: Warehouse) {
    a.key == b.key && a.available == b.available && a.selectable == b.selectable && a.code == b.code
  }

  lemma {:induction false} InRegionOffers(ws: seq<Warehouse>, name: string, x: Warehouse)
    requires x in ws
    ensures exists y | y in InRegion(ws, name) :: SameOffer(x, y)
  {
    var n := |ws| - 1;
    var r := InRegion(ws, name);
    if x in ws[..n] {
      InRegionOffers(ws[..n], name, x);
      var y :| y in InRegion(ws[..n], name) && SameOffer(x, y);
      assert y in r;
    } else {
      assert x == ws[n] && SameOffer(x, r[n]) && r[n] in r;
    }
  }

  lemma {:induction false} FlatOffers(regions: seq<Region>, x: Warehouse)
    requires Listed(regions, x)
    ensures exists y | y in Flat(regions) :: SameOffer(x, y)
  {
    var n := |regions| - 1;
    var i :| 0 <= i < |regions| && x in regions[i].warehouses;
    if i < n {
      assert x in regions[..n][i].warehouses;
      FlatOffers(regions[..n], x);
      var y :| y in Flat(regions[..n]) && SameOffer(x, y);
      assert y in Flat(regions);
    } else {
      InRegionOffers(regions[n].warehouses, regions[n].name, x);
      var y :| y in InRegion(regions[n].warehouses, regions[n].name) && SameOffer(x, y);
      assert y in Flat(regions);
    }
  }

  /** What the request reads is what the selection looked at, in the flat and in the regional form. */
  lemma {:induction false} RegionalOffers(record: Record, x: Warehouse)
    requires Listed(Regional(record), x)
    ensures exists y | y in Candidates(record) :: SameOffer(x, y)
  {
    if record.warehouses.Some? {
      GroupedLists(record.warehouses.value, x);
      assert SameOffer(x, x);
    } else {
      FlatOffers(record.regions, x);
    }
  }

  // ---- reading the observed stock ----

  datatype Error = NoCode | Conflict | NoWarehouse | NoRecord
  datatype Seen = Seen(code: string, available: map<string, int>)

  function Floor(x: real): int {
    x.Floor
  }

  /** One warehouse entry of the answer. */
  function Noted(seen: Seen, key: string, sku: string, w: Warehouse): Result<Seen, Error> {
    var code := Text.Upper(Text.Trim(w.code));
    if Text.Upper(Text.Trim(w.key)) != Text.Upper(key) then Ok(seen)
    else if code == "" then Err(NoCode)
    else if seen.code != "" && seen.code != code then Err(Conflict)
    else Ok(Seen(code, seen.available[Text.Trim(sku) := Floor(w.available)]))
  }

  function NotedAll(seen: Seen, key: string, sku: string, ws: seq<Warehouse>): Result<Seen, Error>
    decreases |ws|
  {
    if ws == [] then Ok(seen)
    else
      match Noted(seen, key, sku, ws[0])
      case Err(e) => Err(e)
      case Ok(next) => NotedAll(next, key, sku, ws[1..])
  }

  function NotedRegions(seen: Seen, key: string, sku: string, regions: seq<Region>): Result<Seen, Error>
    decreases |regions|
  {
    if regions == [] then Ok(seen)
    else
      match NotedAll(seen, key, sku, regions[0].warehouses)
      case Err(e) => Err(e)
      case Ok(next) => NotedRegions(next, key, sku, regions[1..])
  }

  function NotedRecords(seen: Seen, key: string, records: seq<Record>): Result<Seen, Error>
    decreases |records|
  {
    if records == [] then Ok(seen)
    else
      match NotedRegions(seen, key, records[0].sku, Regional(records[0]))
      case Err(e) => Err(e)
      case Ok(next) => NotedRecords(next, key, records[1..])
  }

  /** For every SKU the quantity asked and the stock observed. */
  datatype Line = Line(quantity: int, observed: int)

  function Lines(quantities: map<string, int>, available: map<string, int>): map<string, Line>
    requires forall sku | sku in quantities :: sku in available
  {
    map sku | sku in quantities :: Line(quantities[sku], available[sku])
  }

  function Requested(records: seq<Record>, rawKey: string, quantities: map<string, int>): Result<(string, map<string, Line>), Error> {
    match NotedRecords(Seen("", map[]), Text.Upper(Text.Trim(rawKey)), records)
    case Err(e) => Err(e)
    case Ok(seen) =>
      if seen.code == "" then Err(NoWarehouse)
      else if exists sku | sku in quantities :: sku !in seen.available then Err(NoRecord)
      else Ok((seen.code, Lines(quantities, seen.available)))
  }

  // ---- which entry the request reads ----

  predicate Matches(x: Warehouse, key: string) {
    Text.Upper(Text.Trim(x.key)) == Text.Upper(key)
  }

  /** The last entry of the warehouse in a list; a later one replaces an earlier one. */
  function LastMatch(ws: seq<Warehouse>, key: string): Option<Warehouse> {
    if ws == [] then None
    else if LastMatch(ws[1..], key).Some? then LastMatch(ws[1..], key)
    else if Matches(ws[0], key) then Some(ws[0]) else None
  }

  function LastIn(regions: seq<Region>, key: string): Option<Warehouse> {
    if regions == [] then None
    else if LastIn(regions[1..], key).Some? then LastIn(regions[1..], key)
    else LastMatch(regions[0].warehouses, key)
  }

  /** The entry whose stock is observed for `sku`. */
  function LastRead(records: seq<Record>, key: string, sku: string): Option<Warehouse> {
    if records == [] then None
    else if LastRead(records[1..], key, sku).Some? then LastRead(records[1..], key, sku)
    else if Text.Trim(records[0].sku) == sku then LastIn(Regional(records[0]), key) else None
  }

  /** The observed stock after reading `w`, if anything was read. */
  function Read(available: map<string, int>, sku: string, w: Option<Warehouse>): map<string, int> {
    if w.Some? then available[Text.Trim(sku) := Floor(w.value.available)] else available
  }

  lemma {:induction false} NotedAllReads(seen: Seen, key: string, sku: string, ws: seq<Warehouse>)
    requires NotedAll(seen, key, sku, ws).Ok?
    ensures NotedAll(seen, key, sku, ws).value.available == Read(seen.available, sku, LastMatch(ws, key))
    decreases |ws|
  {
    if ws != [] { NotedAllReads(Noted(seen, key, sku, ws[0]).value, key, sku, ws[1..]); }
  }

  lemma {:induction false} NotedRegionsRead(seen: Seen, key: string, sku: string, regions: seq<Region>)
    requires NotedRegions(seen, key, sku, regions).Ok?
    ensures NotedRegions(seen, key, sku, regions).value.available == Read(seen.available, sku, LastIn(regions, key))
    decreases |regions|
  {
    if regions != [] {
      NotedAllReads(seen, key, sku, regions[0].warehouses);
      NotedRegionsRead(NotedAll(seen, key, sku, regions[0].warehouses).value, key, sku, regions[1..]);
    }
  }

  /** Whatever the answer looks like, the stock observed for a SKU is that of the last entry read for it. */
  lemma {:induction false} NotedRecordsRead(seen: Seen, key: string, records: seq<Record>, sku: string)
    requires NotedRecords(seen, key, records).Ok?
    ensures var available := NotedRecords(seen, key, records).value.available;
            match LastRead(records, key, sku)
            case Some(w) => sku in available && available[sku] == Floor(w.available)
            case None => (sku in available <==> sku in seen.available) && (sku in available ==> available[sku] == seen.available[sku])
    decreases |records|
  {
    if records != [] {
      NotedRegionsRead(seen, key, records[0].sku, Regional(records[0]));
      NotedRecordsRead(NotedRegions(seen, key, records[0].sku, Regional(records[0])).value, key, records[1..], sku);
    }
  }

  // ---- when the warehouse codes let it pass ----

  ghost predicate AllCoded(ws: seq<Warehouse>, key: string, code: string) {
    forall w | w in ws && Matches(w, key) :: Text.Upper(Text.Trim(w.code)) == code
  }

  ghost predicate RegionsCoded(regions: seq<Region>, key: string, code: string) {
    forall i | 0 <= i < |regions| :: AllCoded(regions[i].warehouses, key, code)
  }

  ghost predicate RecordsCoded(records: seq<Record>, key: string, code: string) {
    forall i | 0 <= i < |records| :: RegionsCoded(Regional(records[i]), key, code)
  }

  /** All entries of the warehouse carry one physical code. */
  ghost predicate CodesAgree(records: seq<Record>, key: string) {
    exists code :: code != "" && RecordsCoded(records, key, code)
  }

  /** `seen` has met no code yet, or this one. */
  predicate Fits(seen: Seen, code: string) {
    code != "" && (seen.code == "" || seen.code == code)
  }

  lemma {:induction false} CodedPasses(seen: Seen, key: string, sku: string, ws: seq<Warehouse>, code: string)
    requires Fits(seen, code) && AllCoded(ws, key, code)
    ensures NotedAll(seen, key, sku, ws).Ok? && Fits(NotedAll(seen, key, sku, ws).value, code)
    decreases |ws|
  {
    if ws != [] {
      assert ws[0] in ws;
      CodedPasses(Noted(seen, key, sku, ws[0]).value, key, sku, ws[1..], code);
    }
  }

  lemma {:induction false} CodedRegionsPass(seen: Seen, key: string, sku: string, regions: seq<Region>, code: string)
    requires Fits(seen, code) && RegionsCoded(regions, key, code)
    ensures NotedRegions(seen, key, sku, regions).Ok? && Fits(NotedRegions(seen, key, sku, regions).value, code)
    decreases |regions|
  {
    if regions != [] {
      CodedPasses(seen, key, sku, regions[0].warehouses, code);
      CodedRegionsPass(NotedAll(seen, key, sku, regions[0].warehouses).value, key, sku, regions[1..], code);
    }
  }

  lemma {:induction false} CodedRecordsPass(seen: Seen, key: string, records: seq<Record>, code: string)
    requires Fits(seen, code) && RecordsCoded(records, key, code)
    ensures NotedRecords(seen, key, records).Ok? && Fits(NotedRecords(seen, key, records).value, code)
    decreases |records|
  {
    if records != [] {
      CodedRegionsPass(seen, key, records[0].sku, Regional(records[0]), code);
      CodedRecordsPass(NotedRegions(seen, key, records[0].sku, Regional(records[0])).value, key, records[1..], code);
    }
  }

  lemma {:induction false} UnmatchedAreCoded(ws: seq<Warehouse>, key: string, code: string)
    requires LastMatch(ws, key).None?
    ensures AllCoded(ws, key, code)
  {
    if ws != [] {
      UnmatchedAreCoded(ws[1..], key, code);
      assert forall w | w in ws :: w == ws[0] || w in ws[1..];
    }
  }

  lemma {:induction false} UnmatchedRegionsAreCoded(regions: seq<Region>, key: string, code: string)
    requires LastIn(regions, key).None?
    ensures RegionsCoded(regions, key, code)
  {
    if regions != [] {
      UnmatchedRegionsAreCoded(regions[1..], key, code);
      UnmatchedAreCoded(regions[0].warehouses, key, code);
      assert forall i | 1 <= i < |regions| :: regions[i] == regions[1..][i - 1];
    }
  }

  /** `r` is left with one code after a list that passed: the one met before, if any. */
  ghost predicate Settles(seen: Seen, r: Seen) {
    seen.code != "" ==> r.code == seen.code
  }

  lemma {:induction false} PassedIsCoded(seen: Seen, key: string, sku: string, ws: seq<Warehouse>)
    requires NotedAll(seen, key, sku, ws).Ok?
    ensures var r := NotedAll(seen, key, sku, ws).value;
            Settles(seen, r) && AllCoded(ws, key, r.code) && (LastMatch(ws, key).Some? ==> r.code != "")
    decreases |ws|
  {
    if ws != [] {
      PassedIsCoded(Noted(seen, key, sku, ws[0]).value, key, sku, ws[1..]);
      forall w | w in ws && Matches(w, key) ensures Text.Upper(Text.Trim(w.code)) == NotedAll(seen, key, sku, ws).value.code {
        assert w == ws[0] || w in ws[1..];
      }
    }
  }

  lemma {:induction false} PassedRegionsAreCoded(seen: Seen, key: string, sku: string, regions: seq<Region>)
    requires NotedRegions(seen, key, sku, regions).Ok?
    ensures var r := NotedRegions(seen, key, sku, regions).value;
            Settles(seen, r) && RegionsCoded(regions, key, r.code) && (LastIn(regions, key).Some? ==> r.code != "")
    decreases |regions|
  {
    if regions != [] {
      var next := NotedAll(seen, key, sku, regions[0].warehouses).value;
      var r := NotedRegions(seen, key, sku, regions).value;
      PassedIsCoded(seen, key, sku, regions[0].warehouses);
      PassedRegionsAreCoded(next, key, sku, regions[1..]);
      if next.code != r.code { UnmatchedAreCoded(regions[0].warehouses, key, r.code); }
      forall i | 0 <= i < |regions| ensures AllCoded(regions[i].warehouses, key, r.code) {
        if i > 0 { assert regions[1..][i - 1] == regions[i]; }
      }
    }
  }

  /** Some record has an entry of the warehouse. */
  ghost predicate SomeMatch(records: seq<Record>, key: string) {
    exists i | 0 <= i < |records| :: LastIn(Regional(records[i]), key).Some?
  }

  lemma {:induction false} PassedRecordsAreCoded(seen: Seen, key: string, records: seq<Record>)
    requires NotedRecords(seen, key, records).Ok?
    ensures var r := NotedRecords(seen, key, records).value;
            && Settles(seen, r) && RecordsCoded(records, key, r.code)
            && (r.code != "" <==> seen.code != "" || SomeMatch(records, key))
    decreases |records|
  {
    if records != [] {
      var regions := Regional(records[0]);
      var next := NotedRegions(seen, key, records[0].sku, regions).value;
      var r := NotedRecords(seen, key, records).value;
      PassedRegionsAreCoded(seen, key, records[0].sku, regions);
      if LastIn(regions, key).None? { UnreadKeepsCode(seen, key, records[0].sku, regions); }
      PassedRecordsAreCoded(next, key, records[1..]);
      if next.code != r.code { UnmatchedRegionsAreCoded(regions, key, r.code); }
      assert forall i | 1 <= i < |records| :: records[i] == records[1..][i - 1];
      assert SomeMatch(records, key) <==> LastIn(regions, key).Some? || SomeMatch(records[1..], key) by {
        if i :| 0 <= i < |records[1..]| && LastIn(Regional(records[1..][i]), key).Some? {
          assert LastIn(Regional(records[i + 1]), key).Some?;
        }
      }
    }
  }

  lemma {:induction false} UnmatchedKeepsCode(seen: Seen, key: string, sku: string, ws: seq<Warehouse>)
    requires NotedAll(seen, key, sku, ws).Ok? && LastMatch(ws, key).None?
    ensures NotedAll(seen, key, sku, ws).value.code == seen.code
    decreases |ws|
  {
    if ws != [] { UnmatchedKeepsCode(seen, key, sku, ws[1..]); }
  }

  lemma {:induction false} UnreadKeepsCode(seen: Seen, key: string, sku: string, regions: seq<Region>)
    requires NotedRegions(seen, key, sku, regions).Ok? && LastIn(regions, key).None?
    ensures NotedRegions(seen, key, sku, regions).value.code == seen.code
    decreases |regions|
  {
    if regions != [] {
      UnmatchedKeepsCode(seen, key, sku, regions[0].warehouses);
      UnreadKeepsCode(NotedAll(seen, key, sku, regions[0].warehouses).value, key, sku, regions[1..]);
    }
  }

  lemma {:induction false} UnmatchedRecordsAreCoded(records: seq<Record>, key: string, code: string)
    requires !SomeMatch(records, key)
    ensures RecordsCoded(records, key, code)
  {
    forall i | 0 <= i < |records| ensures RegionsCoded(Regional(records[i]), key, code) {
      UnmatchedRegionsAreCoded(Regional(records[i]), key, code);
    }
  }

  /** The reading loops pass exactly when all entries of the warehouse carry one physical code. */
  lemma {:induction false} ReadingPassesExactlyWhen(records: seq<Record>, key: string)
    ensures NotedRecords(Seen("", map[]), key, records).Ok? <==> CodesAgree(records, key)
    ensures CodesAgree(records, key) ==> (NotedRecords(Seen("", map[]), key, records).value.code != "" <==> SomeMatch(records, key))
  {
    var none := Seen("", map[]);
    if code :| code != "" && RecordsCoded(records, key, code) {
      CodedRecordsPass(none, key, records, code);
    }
    if NotedRecords(none, key, records).Ok? {
      PassedRecordsAreCoded(none, key, records);
      var code := NotedRecords(none, key, records).value.code;
      if code == "" {
        UnmatchedRecordsAreCoded(records, key, "X");
      }
      assert RecordsCoded(records, key, if code == "" then "X" else code);
    }
  }

  // ---- every offer is read ----

  lemma {:induction false} InRegionSources(ws: seq<Warehouse>, name: string, y: Warehouse)
    requires y in InRegion(ws, name)
    ensures exists x | x in ws :: SameOffer(x, y)
  {
    var n := |ws| - 1;
    var r := InRegion(ws, name);
    if y in InRegion(ws[..n], name) {
      InRegionSources(ws[..n], name, y);
      var x :| x in ws[..n] && SameOffer(x, y);
      assert x in ws;
    } else {
      assert y == r[n] && SameOffer(ws[n], y) && ws[n] in ws;
    }
  }

  lemma {:induction false} FlatSources(regions: seq<Region>, y: Warehouse)
    requires y in Flat(regions)
    ensures exists x :: Listed(regions, x) && SameOffer(x, y)
  {
    var n := |regions| - 1;
    if y in Flat(regions[..n]) {
      FlatSources(regions[..n], y);
      var x :| Listed(regions[..n], x) && SameOffer(x, y);
      var i :| 0 <= i < n && x in regions[..n][i].warehouses;
      assert x in regions[i].warehouses;
    } else {
      InRegionSources(regions[n].warehouses, regions[n].name, y);
      var x :| x in regions[n].warehouses && SameOffer(x, y);
      assert Listed(regions, x);
    }
  }

  lemma {:induction false} RegionalSources(record: Record, y: Warehouse)
    requires y in Candidates(record)
    ensures exists x :: Listed(Regional(record), x) && SameOffer(x, y)
  {
    if record.warehouses.Some? {
      GroupedLists(record.warehouses.value, y);
      assert SameOffer(y, y);
    } else {
      FlatSources(record.regions, y);
    }
  }

  // ---- the theorem ----

  function Normal(key: string): string {
    Text.Upper(Text.Trim(key))
  }

  /** A request as it should be: the ordered SKUs, the ordered quantities, each within the observed stock;
      or a refusal for another reason than a missing SKU. */
  ghost predicate AsksWithinStock(r: Result<(string, map<string, Line>), Error>, quantities: map<string, int>) {
    match r
    case Err(e) => e != NoRecord
    case Ok((_, lines)) =>
      lines.Keys == quantities.Keys
      && forall sku | sku in quantities :: lines[sku].quantity == quantities[sku] <= lines[sku].observed
  }

  /** The entry read for a SKU has the quantity, down to whole pieces. */
  predicate ReadsEnough(records: seq<Record>, key: string, sku: string, quantity: int) {
    LastRead(records, key, sku).Some? && quantity <= Floor(LastRead(records, key, sku).value.available)
  }

  lemma {:induction false} NotedNeverMissesRecords(seen: Seen, key: string, records: seq<Record>)
    ensures NotedRecords(seen, key, records) != Err(NoRecord)
    decreases |records|
  {
    if records != [] {
      RegionsNeverMiss(seen, key, records[0].sku, Regional(records[0]));
      match NotedRegions(seen, key, records[0].sku, Regional(records[0]))
      case Err(_) =>
      case Ok(next) => NotedNeverMissesRecords(next, key, records[1..]);
    }
  }

  lemma {:induction false} RegionsNeverMiss(seen: Seen, key: string, sku: string, regions: seq<Region>)
    ensures NotedRegions(seen, key, sku, regions) != Err(NoRecord)
    decreases |regions|
  {
    if regions != [] {
      WarehousesNeverMiss(seen, key, sku, regions[0].warehouses);
      match NotedAll(seen, key, sku, regions[0].warehouses)
      case Err(_) =>
      case Ok(next) => RegionsNeverMiss(next, key, sku, regions[1..]);
    }
  }

  lemma {:induction false} WarehousesNeverMiss(seen: Seen, key: string, sku: string, ws: seq<Warehouse>)
    ensures NotedAll(seen, key, sku, ws) != Err(NoRecord)
    decreases |ws|
  {
    if ws != [] {
      match Noted(seen, key, sku, ws[0])
      case Err(_) =>
      case Ok(next) => WarehousesNeverMiss(next, key, sku, ws[1..]);
    }
  }

  /** For every answer: the request is as it should be exactly when the codes disagree (it is refused), the
      warehouse does not occur (likewise), or the entries read have enough. */
  lemma {:induction false} AsksExactlyWhen(records: seq<Record>, rawKey: string, quantities: map<string, int>)
    ensures AsksWithinStock(Requested(records, rawKey, quantities), quantities) <==>
            || !CodesAgree(records, Normal(rawKey)) || !SomeMatch(records, Normal(rawKey))
            || forall sku | sku in quantities :: ReadsEnough(records, Normal(rawKey), sku, quantities[sku])
  {
    var key, none := Normal(rawKey), Seen("", map[]);
    ReadingPassesExactlyWhen(records, key);
    NotedNeverMissesRecords(none, key, records);
    if NotedRecords(none, key, records).Ok? {
      var available := NotedRecords(none, key, records).value.available;
      forall sku
        ensures sku in available <==> LastRead(records, key, sku).Some?
        ensures sku in available ==> available[sku] == Floor(LastRead(records, key, sku).value.available)
      {
        NotedRecordsRead(none, key, records, sku);
      }
    }
  }

  // ---- after a selection ----

  lemma {:induction false} LastMatchIsIn(ws: seq<Warehouse>, key: string)
    ensures LastMatch(ws, key).Some? <==> exists w :: w in ws && Matches(w, key)
    ensures LastMatch(ws, key).Some? ==> LastMatch(ws, key).value in ws && Matches(LastMatch(ws, key).value, key)
  {
    if ws != [] {
      LastMatchIsIn(ws[1..], key);
      assert forall w :: w in ws <==> w == ws[0] || w in ws[1..];
    }
  }

  lemma {:induction false} LastInIsListed(regions: seq<Region>, key: string)
    ensures LastIn(regions, key).Some? <==> exists x :: Listed(regions, x) && Matches(x, key)
    ensures LastIn(regions, key).Some? ==> Listed(regions, LastIn(regions, key).value) && Matches(LastIn(regions, key).value, key)
  {
    if regions != [] {
      LastInIsListed(regions[1..], key);
      LastMatchIsIn(regions[0].warehouses, key);
      forall x ensures Listed(regions, x) <==> x in regions[0].warehouses || Listed(regions[1..], x) { ListedSplit(regions, x); }
    }
  }

  /** No warehouse occurs twice, also not in another spelling. */
  ghost predicate UniqueUpToSpelling(ws: seq<Warehouse>) {
    forall i, j | 0 <= i < j < |ws| :: Normal(ws[i].key) != Normal(ws[j].key)
  }

  lemma {:induction false} SameSpellingSameEntry(ws: seq<Warehouse>, a: Warehouse, b: Warehouse)
    requires UniqueUpToSpelling(ws) && a in ws && b in ws && Normal(a.key) == Normal(b.key)
    ensures a == b
  {
  }

  /** In such a record the entry read is the one the selection looked at. */
  lemma {:induction false} ReadIsOffered(record: Record, w: Warehouse)
    requires UniqueUpToSpelling(Candidates(record)) && w in Candidates(record)
    ensures LastIn(Regional(record), Normal(w.key)).Some?
    ensures SameOffer(LastIn(Regional(record), Normal(w.key)).value, w)
  {
    var key := Normal(w.key);
    Text.UpperIsIdempotent(Text.Trim(w.key));
    LastInIsListed(Regional(record), key);
    RegionalSources(record, w);
    var x :| Listed(Regional(record), x) && SameOffer(x, w);
    assert Matches(x, key);
    var v := LastIn(Regional(record), key).value;
    RegionalOffers(record, v);
    var y :| y in Candidates(record) && SameOffer(v, y);
    SameSpellingSameEntry(Candidates(record), y, w);
  }

  /** No other SKU of the answer equals `sku` after trimming. */
  ghost predicate NoTwin(records: seq<Record>, sku: string) {
    forall i | 0 <= i < |records| && Text.Trim(records[i].sku) == Text.Trim(sku) :: records[i].sku == sku
  }

  lemma {:induction false} RecordOfFromFront(records: seq<Record>, sku: string)
    requires records != []
    ensures RecordOf(records, sku) == if RecordOf(records[1..], sku).Some? then RecordOf(records[1..], sku)
                                      else if records[0].sku == sku then Some(records[0]) else None
  {
    if |records| > 1 {
      RecordOfFromFront(records[..|records| - 1], sku);
      assert records[..|records| - 1][1..] == records[1..][..|records| - 2];
    }
  }

  lemma {:induction false} NothingRead(records: seq<Record>, key: string, sku: string)
    requires Text.Trim(sku) == sku && NoTwin(records, sku) && RecordOf(records, sku).None?
    ensures LastRead(records, key, sku).None?
  {
    if records != [] {
      RecordOfFromFront(records, sku);
      assert NoTwin(records[1..], sku) by { assert forall i | 0 <= i < |records[1..]| :: records[1..][i] == records[i + 1]; }
      NothingRead(records[1..], key, sku);
    }
  }

  /** Of several records of a SKU the last one counts for the selection and is read last. */
  lemma {:induction false} LastRecordIsRead(records: seq<Record>, sku: string, w: Warehouse)
    requires Text.Trim(sku) == sku && NoTwin(records, sku) && RecordOf(records, sku).Some?
    requires UniqueUpToSpelling(Candidates(RecordOf(records, sku).value)) && w in Candidates(RecordOf(records, sku).value)
    ensures LastRead(records, Normal(w.key), sku).Some? && SameOffer(LastRead(records, Normal(w.key), sku).value, w)
  {
    RecordOfFromFront(records, sku);
    assert NoTwin(records[1..], sku) by { assert forall i | 0 <= i < |records[1..]| :: records[1..][i] == records[i + 1]; }
    if RecordOf(records[1..], sku).Some? {
      LastRecordIsRead(records[1..], sku, w);
    } else {
      NothingRead(records[1..], Normal(w.key), sku);
      ReadIsOffered(records[0], w);
    }
  }

  /** An ordered SKU with spaces around it is never found: the stock is filed under trimmed SKUs. */
  lemma {:induction false} UntrimmedIsNotRead(records: seq<Record>, key: string, sku: string)
    requires Text.Trim(sku) != sku
    ensures LastRead(records, key, sku).None?
  {
    if records != [] {
      UntrimmedIsNotRead(records[1..], key, sku);
      Text.TrimIsIdempotent(records[0].sku);
    }
  }

  lemma {:induction false} FloorKeeps(quantity: int, x: real)
    requires x >= quantity as real
    ensures quantity <= Floor(x)
  {
  }

  /** The entry that made the selection choose `key` for this SKU. */
  lemma {:induction false} Supplier(records: seq<Record>, region: string, quantities: map<string, int>,
                                    preferred: string, sku: string)
    returns (w: Warehouse)
    requires Selected(records, region, quantities, preferred).Ok? && sku in quantities
    ensures RecordOf(records, sku).Some? && w in Candidates(RecordOf(records, sku).value)
    ensures Supplies(w, Selected(records, region, quantities, preferred).value.key, quantities[sku])
  {
    var key := Selected(records, region, quantities, preferred).value.key;
    SelectionCovers(records, region, quantities, preferred);
    EnoughHasSupply(Candidates(RecordOf(records, sku).value), key, quantities[sku]);
    w :| w in Candidates(RecordOf(records, sku).value) && Supplies(w, key, quantities[sku]);
  }

  lemma {:induction false} SuppliedIsMatched(records: seq<Record>, sku: string, w: Warehouse)
    requires RecordOf(records, sku).Some? && w in Candidates(RecordOf(records, sku).value)
    ensures SomeMatch(records, Normal(w.key))
  {
    var record := RecordOf(records, sku).value;
    RecordOfHolds(records, sku);
    var i :| 0 <= i < |records| && records[i] == record;
    Text.UpperIsIdempotent(Text.Trim(w.key));
    RegionalSources(record, w);
    var x :| Listed(Regional(record), x) && SameOffer(x, w);
    assert Matches(x, Normal(w.key));
    LastInIsListed(Regional(record), Normal(w.key));
    assert LastIn(Regional(records[i]), Normal(w.key)).Some?;
  }

  /** For every answer a selection was made from: the request is as it should be exactly when it is refused over
      warehouse codes, or the entry read last for every ordered SKU has the quantity. */
  lemma {:induction false} RequestStaysWithinStockExactlyWhen(records: seq<Record>, region: string,
                                                              quantities: map<string, int>, preferred: string)
    requires Selected(records, region, quantities, preferred).Ok?
    ensures var key := Selected(records, region, quantities, preferred).value.key;
            AsksWithinStock(Requested(records, key, quantities), quantities) <==>
            !CodesAgree(records, Normal(key)) || forall sku | sku in quantities :: ReadsEnough(records, Normal(key), sku, quantities[sku])
  {
    var key := Selected(records, region, quantities, preferred).value.key;
    var sku :| sku in quantities;
    var w := Supplier(records, region, quantities, preferred, sku);
    SuppliedIsMatched(records, sku, w);
    AsksExactlyWhen(records, key, quantities);
  }

  /** What makes the request read what the selection looked at: in the record that counts for the SKU no warehouse
      occurs in two spellings, and no other SKU of the answer equals it after trimming. */
  ghost predicate OneReading(records: seq<Record>, sku: string) {
    NoTwin(records, sku) && (RecordOf(records, sku).Some? ==> UniqueUpToSpelling(Candidates(RecordOf(records, sku).value)))
  }

  /** A reservation built from a selection asks, for every SKU of the order and no other, the ordered quantity,
      never more than the floored stock observed in the chosen warehouse. Where every ordered SKU has one reading
      this is so exactly when the request is refused over warehouse codes or all ordered SKUs are trimmed. */
  lemma {:induction false} RequestStaysWithinStock(records: seq<Record>, region: string, quantities: map<string, int>,
                                                   preferred: string)
    requires Selected(records, region, quantities, preferred).Ok? && forall sku | sku in quantities :: OneReading(records, sku)
    ensures var key := Selected(records, region, quantities, preferred).value.key;
            AsksWithinStock(Requested(records, key, quantities), quantities) <==>
            !CodesAgree(records, Normal(key)) || forall sku | sku in quantities :: Text.Trim(sku) == sku
  {
    var key := Selected(records, region, quantities, preferred).value.key;
    RequestStaysWithinStockExactlyWhen(records, region, quantities, preferred);
    forall sku | sku in quantities
      ensures ReadsEnough(records, Normal(key), sku, quantities[sku]) <==> Text.Trim(sku) == sku
    {
      var w := Supplier(records, region, quantities, preferred, sku);
      if Text.Trim(sku) == sku {
        LastRecordIsRead(records, sku, w);
        FloorKeeps(quantities[sku], w.available);
      } else {
        UntrimmedIsNotRead(records, Normal(key), sku);
      }
    }
  }

  // ---- orders for which it is not so ----

  /** Two entries of one region that the request takes for one warehouse: the first has the quantity, the second
      has not. */
  ghost predicate Misleads(w: Warehouse, x: Warehouse, quantity: int) {
    && Normal(w.key) == Normal(x.key) && w.region == x.region && w.selectable
    && Normal(w.code) == Normal(x.code) != "" && w.available >= quantity as real && Floor(x.available) < quantity
  }

  function Entry(sku: string, ws: seq<Warehouse>): Record {
    Record(sku, false, Some(ws), [])
  }

  lemma {:induction false} OffersOf(w: Warehouse, x: Warehouse, quantity: int)
    ensures Offered([w], "") == [w.key] && Offered([w, x], "") == [w.key, x.key]
    ensures Enough([w], w.key, quantity) <==> w.selectable && w.available >= quantity as real
    ensures x.key != w.key ==> (Enough([w, x], w.key, quantity) <==> Enough([w], w.key, quantity))
  {
    assert [w, x][..1] == [w] && [w][..0] == [];
    assert Offered([], "") == [];
  }

  /** With the first warehouse offered covering the only SKU asked for, that warehouse is selected. */
  lemma {:induction false} FirstIsSelected(records: seq<Record>, sku: string, quantity: int, offered: seq<string>)
    requires records != [] && RecordOf(records, sku) == Some(records[0]) && !records[0].manual
    requires Offered(Candidates(records[0]), "") == offered != [] && Enough(Candidates(records[0]), offered[0], quantity)
    ensures Selected(records, "", map[sku := quantity], "").Ok?
    ensures Selected(records, "", map[sku := quantity], "").value.key == offered[0]
  {
    var quantities := map[sku := quantity];
    assert sku in quantities && Usable(records, sku);
    assert Covers(records, quantities, offered[0]);
    assert FirstCovering(records, quantities, offered) == Some(offered[0]);
  }

  lemma {:induction false} GroupedPair(w: Warehouse, x: Warehouse)
    requires w.region == x.region
    ensures Grouped([w]) == [Region(w.region, [w])] && Grouped([w, x]) == [Region(w.region, [w, x])]
  {
    assert [w, x][..1] == [w] && [w][..0] == [];
    assert Grouped([]) == [] && Grouped([w]) == Placed([], w);
    assert [Region(w.region, [w])][1..] == [] && [w] + [x] == [w, x];
  }

  lemma {:induction false} LastOfPair(w: Warehouse, x: Warehouse)
    requires Normal(w.key) == Normal(x.key) && w.region == x.region
    ensures LastIn(Grouped([w]), Normal(w.key)) == Some(w) && LastIn(Grouped([w, x]), Normal(w.key)) == Some(x)
  {
    Text.UpperIsIdempotent(Text.Trim(w.key));
    GroupedPair(w, x);
    assert [w, x][1..] == [x] && [x][1..] == [] && [w][1..] == [];
    assert LastMatch([x], Normal(w.key)) == Some(x) && LastMatch([w], Normal(w.key)) == Some(w);
    assert [Region(w.region, [w])][1..] == [] && [Region(w.region, [w, x])][1..] == [];
  }

  /** Keys unique as they are spelled are not enough: the selection relies on one spelling of the warehouse, the
      request reads the other. */
  lemma {:induction false} TwoSpellingsOverbook(sku: string, w: Warehouse, x: Warehouse, quantity: int)
    requires Text.Trim(sku) == sku && w.key != x.key && Misleads(w, x, quantity)
    ensures var records := [Entry(sku, [w, x])];
            && UniqueInRecords(records) && Selected(records, "", map[sku := quantity], "").Ok?
            && Selected(records, "", map[sku := quantity], "").value.key == w.key
            && !AsksWithinStock(Requested(records, w.key, map[sku := quantity]), map[sku := quantity])
  {
    var records, quantities, key := [Entry(sku, [w, x])], map[sku := quantity], Normal(w.key);
    OffersOf(w, x, quantity);
    FirstIsSelected(records, sku, quantity, [w.key, x.key]);
    RequestStaysWithinStockExactlyWhen(records, "", quantities, "");
    GroupedPair(w, x);
    LastOfPair(w, x);
    assert RecordsCoded(records, key, Normal(w.code));
    assert records[1..] == [] && LastRead(records, key, sku) == Some(x);
    assert sku in quantities && !ReadsEnough(records, key, sku, quantity);
  }

  /** Nor are SKUs that differ as they are spelled: the stock of the second is filed under the first. */
  lemma {:induction false} TwoSkusOverbook(sku: string, twin: string, w: Warehouse, x: Warehouse, quantity: int)
    requires Text.Trim(sku) == sku == Text.Trim(twin) != twin && w.key == x.key && Misleads(w, x, quantity)
    ensures var records := [Entry(sku, [w]), Entry(twin, [x])];
            && UniqueInRecords(records) && Selected(records, "", map[sku := quantity], "").Ok?
            && Selected(records, "", map[sku := quantity], "").value.key == w.key
            && !AsksWithinStock(Requested(records, w.key, map[sku := quantity]), map[sku := quantity])
  {
    var records, quantities, key := [Entry(sku, [w]), Entry(twin, [x])], map[sku := quantity], Normal(w.key);
    assert records[..1] == [records[0]];
    OffersOf(w, x, quantity);
    FirstIsSelected(records, sku, quantity, [w.key]);
    RequestStaysWithinStockExactlyWhen(records, "", quantities, "");
    GroupedPair(w, x);
    GroupedPair(x, w);
    LastOfPair(x, w);
    assert RecordsCoded(records, key, Normal(w.code));
    assert records[1..] == [records[1]] && records[1..][1..] == [];
    assert LastRead(records[1..], key, sku) == Some(x) && LastRead(records, key, sku) == Some(x);
    assert sku in quantities && !ReadsEnough(records, key, sku, quantity);
  }

  /** For instance ten pieces in "A", one in "a", and five ordered. */
  lemma {:induction false} TenAndOne() returns (w: Warehouse, x: Warehouse)
    ensures w.key == "A" && w.available == 10.0 && x.key == "a" && x.available == 1.0
    ensures Selected([Entry("S", [w, x])], "", map["S" := 5], "").Ok?
    ensures !AsksWithinStock(Requested([Entry("S", [w, x])], "A", map["S" := 5]), map["S" := 5])
  {
    w := Warehouse("A", "east", "C", 10.0, true);
    x := Warehouse("a", "east", "C", 1.0, true);
    Text.TrimmedEnds("A");
    Text.TrimmedEnds("a");
    Text.TrimmedEnds("C");
    Text.TrimmedEnds("S");
    assert "A"[..0] == "" && "a"[..0] == "" && "C"[..0] == "";
    TwoSpellingsOverbook("S", w, x, 5);
  }

  // ---- the code ----

  /** `WithCandidateRegions` for one record: find the region, or append it. */
  method GroupByRegion(ws: seq<Warehouse>) returns (regions: seq<Region>)
    ensures regions == Grouped(ws)
  {
    regions := [];
    for i := 0 to |ws|
      invariant regions == Grouped(ws[..i])
    {
      assert ws[..i + 1][..i] == ws[..i];
      regions := PlaceWarehouse(regions, ws[i]);
    }
    assert ws[..|ws|] == ws;
  }

  method PlaceWarehouse(regions: seq<Region>, w: Warehouse) returns (r: seq<Region>)
    ensures r == Placed(regions, w)
  {
    var found := 0;
    while found < |regions| && regions[found].name != w.region
      invariant found <= |regions| && Placed(regions, w) == regions[..found] + Placed(regions[found..], w)
    {
      assert regions[found..][1..] == regions[found + 1..];
      found := found + 1;
    }
    if found < |regions| {
      r := regions[found := Region(w.region, regions[found].warehouses + [w])];
      assert regions[found..][1..] == regions[found + 1..];
    } else {
      r := regions + [Region(w.region, [w])];
    }
  }

  method ReadStock(records: seq<Record>, key: string) returns (r: Result<Seen, Error>)
    ensures r == NotedRecords(Seen("", map[]), key, records)
  {
    var seen := Seen("", map[]);
    for i := 0 to |records|
      invariant NotedRecords(Seen("", map[]), key, records) == NotedRecords(seen, key, records[i..])
    {
      assert records[i..][1..] == records[i + 1..];
      var regions := records[i].regions;
      if records[i].warehouses.Some? {
        regions := GroupByRegion(records[i].warehouses.value);
      }
      var next := ReadRegions(seen, key, records[i].sku, regions);
      if next.Err? {
        return Err(next.error);
      }
      seen := next.value;
    }
    return Ok(seen);
  }

  method ReadRegions(start: Seen, key: string, sku: string, regions: seq<Region>) returns (r: Result<Seen, Error>)
    ensures r == NotedRegions(start, key, sku, regions)
  {
    var seen := start;
    for i := 0 to |regions|
      invariant NotedRegions(start, key, sku, regions) == NotedRegions(seen, key, sku, regions[i..])
    {
      assert regions[i..][1..] == regions[i + 1..];
      var next := ReadWarehouses(seen, key, sku, regions[i].warehouses);
      if next.Err? {
        return Err(next.error);
      }
      seen := next.value;
    }
    return Ok(seen);
  }

  method ReadWarehouses(start: Seen, key: string, sku: string, ws: seq<Warehouse>) returns (r: Result<Seen, Error>)
    ensures r == NotedAll(start, key, sku, ws)
  {
    var seen := start;
    for i := 0 to |ws|
      invariant NotedAll(start, key, sku, ws) == NotedAll(seen, key, sku, ws[i..])
    {
      assert ws[i..][1..] == ws[i + 1..];
      if Text.Upper(Text.Trim(ws[i].key)) == Text.Upper(key) {
        var code := Text.Upper(Text.Trim(ws[i].code));
        if code == "" {
          return Err(NoCode);
        }
        if seen.code != "" && seen.code != code {
          return Err(Conflict);
        }
        seen := Seen(code, seen.available[Text.Trim(sku) := Floor(ws[i].available)]);
      }
    }
    return Ok(seen);
  }

  /** `fulfillmentInventoryReservationRequest`; the lines are listed by SKU in the code, a map here. */
  method BuildRequest(records: seq<Record>, rawKey: string, quantities: map<string, int>) returns (r: Result<(string, map<string, Line>), Error>)
    ensures r == Requested(records, rawKey, quantities)
  {
    var seen := ReadStock(records, Text.Upper(Text.Trim(rawKey)));
    if seen.Err? {
      return Err(seen.error);
    }
    if seen.value.code == "" {
      return Err(NoWarehouse);
    }
    var complete, lines := ListLines(quantities, seen.value.available);
    if !complete {
      return Err(NoRecord);
    }
    return Ok((seen.value.code, lines));
  }

  method ListLines(quantities: map<string, int>, available: map<string, int>) returns (complete: bool, lines: map<string, Line>)
    ensures complete <==> forall sku | sku in quantities :: sku in available
    ensures complete ==> lines == Lines(quantities, available)
  {
    lines := map[];
    var left := quantities.Keys;
    while left != {}
      invariant left <= quantities.Keys && lines.Keys == quantities.Keys - left
      invariant forall sku | sku in lines :: sku in available && lines[sku] == Line(quantities[sku], available[sku])
      decreases left
    {
      var sku :| sku in left;
      left := left - {sku};
      if sku !in available {
        assert sku in quantities;
        return false, lines;
      }
      lines := lines[sku := Line(quantities[sku], available[sku])];
    }
    assert lines.Keys == quantities.Keys;
    return true, lines;
  }
}
