/** Finding one warehouse that covers a whole order (internal/inventory/client.go `SelectWarehouse`) and
    the reservation request built from it (internal/service/service.go). */
module WarehouseSelection {
  import opened Common
  import Text

  datatype Warehouse = Warehouse(key: string, region: string, code: string, available: real, selectable: bool)
  datatype Region = Region(name: string, warehouses: seq<Warehouse>)

  /** `warehouses` is the flat form; older answers only have `regions`. */
  datatype Record = Record(sku: string, manual: bool, warehouses: Option<seq<Warehouse>>, regions: seq<Region>)

  datatype Selection = Selection(key: string, region: string)
  datatype Refusal = UnknownRegion | NothingAsked | NotOffered | BadRecord | NoneCovers

  // ---- what the answer says ----

  function InRegion(ws: seq<Warehouse>, name: string): (r: seq<Warehouse>)
    ensures |r| == |ws|
  {
    if ws == [] then []
    else
      var w := ws[|ws| - 1];
      InRegion(ws[..|ws| - 1], name) + [if w.region == "" then w.(region := name) else w]
  }

  function Flat(regions: seq<Region>): seq<Warehouse> {
    if regions == [] then []
    else Flat(regions[..|regions| - 1]) + InRegion(regions[|regions| - 1].warehouses, regions[|regions| - 1].name)
  }

  function Candidates(record: Record): seq<Warehouse> {
    if record.warehouses.Some? then record.warehouses.value else Flat(record.regions)
  }

  /** The last record of a SKU counts. */
  function RecordOf(records: seq<Record>, sku: string): Option<Record> {
    if records == [] then None
    else if records[|records| - 1].sku == sku then Some(records[|records| - 1])
    else RecordOf(records[..|records| - 1], sku)
  }

  /** The last entry of a warehouse decides. */
  function Enough(ws: seq<Warehouse>, key: string, quantity: int): bool {
    if ws == [] then false
    else
      var w := ws[|ws| - 1];
      if w.key == key then w.selectable && w.available >= quantity as real else Enough(ws[..|ws| - 1], key, quantity)
  }

  function Offered(ws: seq<Warehouse>, region: string): seq<string> {
    if ws == [] then []
    else
      var w := ws[|ws| - 1];
      Offered(ws[..|ws| - 1], region) + if region == "" || region == "auto" || w.region == region then [w.key] else []
  }

  function RegionOf(ws: seq<Warehouse>, region: string, key: string): string {
    if ws == [] then ""
    else
      var w := ws[|ws| - 1];
      if w.key == key && (region == "" || region == "auto" || w.region == region) then w.region
      else RegionOf(ws[..|ws| - 1], region, key)
  }

  function FirstOffers(records: seq<Record>): seq<Warehouse> {
    if records == [] then [] else Candidates(records[0])
  }

  predicate Usable(records: seq<Record>, sku: string) {
    RecordOf(records, sku).Some? && !RecordOf(records, sku).value.manual
  }

  predicate Covers(records: seq<Record>, quantities: map<string, int>, key: string)
    requires forall sku | sku in quantities :: RecordOf(records, sku).Some?
  {
    forall sku | sku in quantities :: Enough(Candidates(RecordOf(records, sku).value), key, quantities[sku])
  }

  function FirstCovering(records: seq<Record>, quantities: map<string, int>, preference: seq<string>): Option<string>
    requires forall sku | sku in quantities :: RecordOf(records, sku).Some?
  {
    if preference == [] then None
    else if Covers(records, quantities, preference[0]) then Some(preference[0])
    else FirstCovering(records, quantities, preference[1..])
  }

  /** The warehouses in question: those offered, or the one asked for if it is among them. */
  function Preference(records: seq<Record>, region: string, preferred: string): Option<seq<string>> {
    var offered := Offered(FirstOffers(records), region);
    var key := Text.Upper(Text.Trim(preferred));
    if Text.Trim(preferred) == "" then Some(offered)
    else if key in offered then Some([key]) else None
  }

  const REGIONS := {"", "auto", "east", "west", "central"}

  function Selected(records: seq<Record>, rawRegion: string, quantities: map<string, int>, preferred: string): Result<Selection, Refusal> {
    var region := Text.Lower(Text.Trim(rawRegion));
    if region !in REGIONS then Err(UnknownRegion)
    else if quantities == map[] then Err(NothingAsked)
    else
      match Preference(records, region, preferred)
      case None => Err(NotOffered)
      case Some(preference) =>
        if exists sku | sku in quantities :: !Usable(records, sku) then Err(BadRecord)
        else
          match FirstCovering(records, quantities, preference)
          case None => Err(NoneCovers)
          case Some(key) => Ok(Selection(key, RegionOf(FirstOffers(records), region, key)))
  }

  // ---- the code ----

  method HasEnough(ws: seq<Warehouse>, key: string, quantity: int) returns (found: bool)
    ensures found == Enough(ws, key, quantity)
  {
    found := false;
    for i := 0 to |ws|
      invariant found == Enough(ws[..i], key, quantity)
    {
      assert ws[..i + 1][..i] == ws[..i];
      if ws[i].key == key {
        found := ws[i].selectable && ws[i].available >= quantity as real;
      }
    }
    assert ws[..|ws|] == ws;
  }

  /** The loop over the SKUs takes them in any order. */
  method IsEligible(records: map<string, Record>, all: seq<Record>, quantities: map<string, int>, key: string) returns (eligible: bool)
    requires forall sku | sku in quantities :: RecordOf(all, sku).Some? && sku in records && records[sku] == RecordOf(all, sku).value
    ensures eligible == Covers(all, quantities, key)
  {
    eligible := true;
    var left := quantities.Keys;
    while left != {}
      invariant left <= quantities.Keys
      invariant eligible <==> forall sku | sku in quantities.Keys - left :: Enough(Candidates(RecordOf(all, sku).value), key, quantities[sku])
      decreases left
    {
      var sku :| sku in left;
      assert sku in quantities;
      var found := HasEnough(Candidates(records[sku]), key, quantities[sku]);
      left := left - {sku};
      eligible := eligible && found;
    }
  }

  method IndexRecords(all: seq<Record>) returns (records: map<string, Record>)
    ensures forall sku :: RecordOf(all, sku) == if sku in records then Some(records[sku]) else None
  {
    records := map[];
    for i := 0 to |all|
      invariant forall sku :: RecordOf(all[..i], sku) == if sku in records then Some(records[sku]) else None
    {
      assert all[..i + 1][..i] == all[..i];
      records := records[all[i].sku := all[i]];
    }
    assert all[..|all|] == all;
  }

  method ListOffers(ws: seq<Warehouse>, region: string) returns (preference: seq<string>, regions: map<string, string>)
    ensures preference == Offered(ws, region)
    ensures forall key :: RegionOf(ws, region, key) == if key in regions then regions[key] else ""
  {
    preference, regions := [], map[];
    for i := 0 to |ws|
      invariant preference == Offered(ws[..i], region)
      invariant forall key :: RegionOf(ws[..i], region, key) == if key in regions then regions[key] else ""
    {
      assert ws[..i + 1][..i] == ws[..i];
      if region == "" || region == "auto" || ws[i].region == region {
        preference := preference + [ws[i].key];
        regions := regions[ws[i].key := ws[i].region];
      }
    }
    assert ws[..|ws|] == ws;
  }

  method CheckRecords(records: map<string, Record>, all: seq<Record>, quantities: map<string, int>) returns (ok: bool)
    requires forall sku :: RecordOf(all, sku) == if sku in records then Some(records[sku]) else None
    ensures ok <==> forall sku | sku in quantities :: Usable(all, sku)
  {
    var left := quantities.Keys;
    while left != {}
      invariant left <= quantities.Keys && forall sku | sku in quantities.Keys - left :: Usable(all, sku)
      decreases left
    {
      var sku :| sku in left;
      left := left - {sku};
      if sku !in records || records[sku].manual {
        assert sku in quantities && !Usable(all, sku);
        return false;
      }
    }
    return true;
  }

  method FindEligible(records: map<string, Record>, all: seq<Record>, quantities: map<string, int>, preference: seq<string>)
    returns (first: Option<string>)
    requires forall sku | sku in quantities :: RecordOf(all, sku).Some? && sku in records && records[sku] == RecordOf(all, sku).value
    ensures first == FirstCovering(all, quantities, preference)
  {
    for i := 0 to |preference|
      invariant FirstCovering(all, quantities, preference) == FirstCovering(all, quantities, preference[i..])
    {
      assert preference[i..][1..] == preference[i + 1..];
      var eligible := IsEligible(records, all, quantities, preference[i]);
      if eligible {
        return Some(preference[i]);
      }
    }
    return None;
  }

  method SelectWarehouse(decision: seq<Record>, rawRegion: string, quantities: map<string, int>, preferred: string)
    returns (r: Result<Selection, Refusal>)
    ensures r == Selected(decision, rawRegion, quantities, preferred)
  {
    var region := Text.Lower(Text.Trim(rawRegion));
    if region != "" && region != "auto" && region != "east" && region != "west" && region != "central" {
      return Err(UnknownRegion);
    }
    if |quantities| == 0 {
      return Err(NothingAsked);
    }
    var records := IndexRecords(decision);
    var preference, regions := ListOffers(FirstOffers(decision), region);
    if Text.Trim(preferred) != "" {
      var key := Text.Upper(Text.Trim(preferred));
      if key !in preference {
        return Err(NotOffered);
      }
      preference := [key];
    }
    var ok := CheckRecords(records, decision, quantities);
    if !ok {
      return Err(BadRecord);
    }
    var first := FindEligible(records, decision, quantities, preference);
    if first.None? {
      return Err(NoneCovers);
    }
    return Ok(Selection(first.value, if first.value in regions then regions[first.value] else ""));
  }

  // ---- the region asked for ----

  predicate AnyRegion(region: string) {
    region == "" || region == "auto"
  }

  /** The places in `ws` of the entries a region asks for, in order. */
  ghost predicate PlacesOf(places: seq<nat>, ws: seq<Warehouse>, region: string) {
    && (forall i | 0 <= i < |places| :: places[i] < |ws| && (AnyRegion(region) || ws[places[i]].region == region))
    && (forall i, j | 0 <= i < j < |places| :: places[i] < places[j])
    && (forall k | 0 <= k < |ws| && (AnyRegion(region) || ws[k].region == region) :: k in places)
  }

  lemma {:induction false} OneMorePlace(places: seq<nat>, ws: seq<Warehouse>, region: string)
    requires ws != [] && PlacesOf(places, ws[..|ws| - 1], region)
    ensures PlacesOf(places + if AnyRegion(region) || ws[|ws| - 1].region == region then [|ws| - 1] else [], ws, region)
  {
    var n := |ws| - 1;
    forall k | 0 <= k < n ensures ws[..n][k] == ws[k] {}
  }

  function Places(ws: seq<Warehouse>, region: string): (r: seq<nat>)
    ensures forall i | 0 <= i < |r| :: r[i] < |ws|
  {
    if ws == [] then []
    else Places(ws[..|ws| - 1], region) + if AnyRegion(region) || ws[|ws| - 1].region == region then [|ws| - 1] else []
  }

  lemma {:induction false} PlacesHold(ws: seq<Warehouse>, region: string)
    ensures PlacesOf(Places(ws, region), ws, region)
  {
    if ws != [] {
      PlacesHold(ws[..|ws| - 1], region);
      OneMorePlace(Places(ws[..|ws| - 1], region), ws, region);
    }
  }

  lemma {:induction false} OfferedAt(ws: seq<Warehouse>, region: string)
    ensures |Offered(ws, region)| == |Places(ws, region)|
    ensures forall i | 0 <= i < |Places(ws, region)| :: Offered(ws, region)[i] == ws[Places(ws, region)[i]].key
  {
    if ws != [] { OfferedAt(ws[..|ws| - 1], region); }
  }

  /** What is offered are the keys of the entries in the region asked for, each once, in the order of the answer. */
  lemma {:induction false} OfferedExactly(ws: seq<Warehouse>, region: string) returns (places: seq<nat>)
    ensures PlacesOf(places, ws, region) && |Offered(ws, region)| == |places|
    ensures forall i | 0 <= i < |places| :: Offered(ws, region)[i] == ws[places[i]].key
  {
    places := Places(ws, region);
    PlacesHold(ws, region);
    OfferedAt(ws, region);
  }

  ghost predicate InAskedRegion(ws: seq<Warehouse>, region: string, key: string) {
    exists w | w in ws :: w.key == key && (AnyRegion(region) || w.region == region)
  }

  lemma {:induction false} OfferedMembers(ws: seq<Warehouse>, region: string)
    ensures forall key :: key in Offered(ws, region) <==> InAskedRegion(ws, region, key)
  {
    if ws != [] {
      var n := |ws| - 1;
      OfferedMembers(ws[..n], region);
      assert ws == ws[..n] + [ws[n]];
    }
  }

  lemma {:induction false} RegionIsOfEntry(ws: seq<Warehouse>, region: string, key: string)
    requires key in Offered(ws, region)
    ensures exists w | w in ws :: w.key == key && w.region == RegionOf(ws, region, key) && (AnyRegion(region) || w.region == region)
  {
    var n := |ws| - 1;
    if ws[n].key == key && (AnyRegion(region) || ws[n].region == region) {
      assert ws[n] in ws;
    } else {
      RegionIsOfEntry(ws[..n], region, key);
      var w :| w in ws[..n] && w.key == key && w.region == RegionOf(ws[..n], region, key) && (AnyRegion(region) || w.region == region);
      assert w in ws;
    }
  }

  lemma {:induction false} FirstCoveringIsAmong(records: seq<Record>, quantities: map<string, int>,
                                                preference: seq<string>)
    requires forall sku | sku in quantities :: RecordOf(records, sku).Some?
    ensures FirstCovering(records, quantities, preference).Some? ==> FirstCovering(records, quantities, preference).value in preference
  {
    if preference != [] { FirstCoveringIsAmong(records, quantities, preference[1..]); }
  }

  /** A selected warehouse has an entry in the first record that lies in the region asked for, and the region of the
      selection is that entry's. If a warehouse was asked for, it is the one selected. */
  lemma {:induction false} SelectionIsInRegion(records: seq<Record>, rawRegion: string, quantities: map<string, int>,
                                               preferred: string)
    requires Selected(records, rawRegion, quantities, preferred).Ok?
    ensures var region, selection := Text.Lower(Text.Trim(rawRegion)), Selected(records, rawRegion, quantities, preferred).value;
            && region in REGIONS
            && (exists w | w in FirstOffers(records) ::
                 w.key == selection.key && w.region == selection.region && (AnyRegion(region) || w.region == region))
            && (Text.Trim(preferred) != "" ==> selection.key == Text.Upper(Text.Trim(preferred)))
  {
    var region := Text.Lower(Text.Trim(rawRegion));
    FirstCoveringIsAmong(records, quantities, Preference(records, region, preferred).value);
    RegionIsOfEntry(FirstOffers(records), region, Selected(records, rawRegion, quantities, preferred).value.key);
  }

  /** Which warehouses are in question, without a warehouse asked for and with one. */
  lemma {:induction false} PreferenceMeans(records: seq<Record>, region: string, preferred: string)
    ensures Text.Trim(preferred) == "" ==>
              Preference(records, region, preferred).Some?
              && forall key :: key in Preference(records, region, preferred).value <==> InAskedRegion(FirstOffers(records), region, key)
    ensures Text.Trim(preferred) != "" ==>
              (Preference(records, region, preferred).Some? <==> InAskedRegion(FirstOffers(records), region, Text.Upper(Text.Trim(preferred))))
              && (Preference(records, region, preferred).Some? ==> Preference(records, region, preferred).value == [Text.Upper(Text.Trim(preferred))])
  {
    OfferedMembers(FirstOffers(records), region);
  }

  // ---- soundness and completeness ----

  /** No warehouse occurs twice in a record. */
  ghost predicate UniqueKeys(ws: seq<Warehouse>) {
    forall i, j | 0 <= i < j < |ws| :: ws[i].key != ws[j].key
  }

  predicate Supplies(w: Warehouse, key: string, quantity: int) {
    w.key == key && w.selectable && w.available >= quantity as real
  }

  lemma {:induction false} EnoughIsSupply(ws: seq<Warehouse>, key: string, quantity: int)
    requires UniqueKeys(ws)
    ensures Enough(ws, key, quantity) <==> exists w | w in ws :: Supplies(w, key, quantity)
  {
    if ws != [] {
      var n := |ws| - 1;
      EnoughIsSupply(ws[..n], key, quantity);
      assert ws == ws[..n] + [ws[n]];
      if ws[n].key == key {
        forall w | w in ws[..n] ensures !Supplies(w, key, quantity) {
          var i :| 0 <= i < n && ws[..n][i] == w;
          assert ws[i].key != ws[n].key;
        }
        assert ws[n] in ws;
      } else {
        forall w | w in ws && Supplies(w, key, quantity) ensures w in ws[..n] {}
      }
    }
  }

  /** Without that, enough still means that some entry supplies it. */
  lemma {:induction false} EnoughHasSupply(ws: seq<Warehouse>, key: string, quantity: int)
    requires Enough(ws, key, quantity)
    ensures exists w | w in ws :: Supplies(w, key, quantity)
  {
    var n := |ws| - 1;
    if ws[n].key == key {
      assert ws[n] in ws && Supplies(ws[n], key, quantity);
    } else {
      EnoughHasSupply(ws[..n], key, quantity);
      var w :| w in ws[..n] && Supplies(w, key, quantity);
      assert w in ws;
    }
  }

  /** A single warehouse that has every SKU of the order. */
  ghost predicate CoversOrder(records: seq<Record>, quantities: map<string, int>, key: string) {
    forall sku | sku in quantities ::
      RecordOf(records, sku).Some? && exists w | w in Candidates(RecordOf(records, sku).value) :: Supplies(w, key, quantities[sku])
  }

  ghost predicate UniqueInRecords(records: seq<Record>) {
    forall i | 0 <= i < |records| :: UniqueKeys(Candidates(records[i]))
  }

  lemma {:induction false} RecordOfHolds(records: seq<Record>, sku: string)
    ensures RecordOf(records, sku).Some? ==> RecordOf(records, sku).value in records && RecordOf(records, sku).value.sku == sku
  {
    if records != [] {
      RecordOfHolds(records[..|records| - 1], sku);
      assert records == records[..|records| - 1] + [records[|records| - 1]];
    }
  }

  lemma {:induction false} CoversIsCoverage(records: seq<Record>, quantities: map<string, int>, key: string)
    requires UniqueInRecords(records) && forall sku | sku in quantities :: RecordOf(records, sku).Some?
    ensures Covers(records, quantities, key) <==> CoversOrder(records, quantities, key)
  {
    forall sku | sku in quantities
      ensures Enough(Candidates(RecordOf(records, sku).value), key, quantities[sku]) <==>
              exists w | w in Candidates(RecordOf(records, sku).value) :: Supplies(w, key, quantities[sku])
    {
      RecordOfHolds(records, sku);
      EnoughIsSupply(Candidates(RecordOf(records, sku).value), key, quantities[sku]);
    }
  }

  lemma {:induction false} FirstCoveringIsFirst(records: seq<Record>, quantities: map<string, int>,
                                                preference: seq<string>)
    requires forall sku | sku in quantities :: RecordOf(records, sku).Some?
    ensures match FirstCovering(records, quantities, preference)
            case Some(key) => exists i | 0 <= i < |preference| ::
              preference[i] == key && Covers(records, quantities, key) && forall j | 0 <= j < i :: !Covers(records, quantities, preference[j])
            case None => forall j | 0 <= j < |preference| :: !Covers(records, quantities, preference[j])
  {
    if preference != [] && !Covers(records, quantities, preference[0]) {
      FirstCoveringIsFirst(records, quantities, preference[1..]);
      if FirstCovering(records, quantities, preference).Some? {
        var i :| 0 <= i < |preference| - 1 && preference[1..][i] == FirstCovering(records, quantities, preference).value
                 && forall j | 0 <= j < i :: !Covers(records, quantities, preference[1..][j]);
        assert preference[i + 1] == FirstCovering(records, quantities, preference).value;
        forall j | 0 <= j < i + 1 ensures !Covers(records, quantities, preference[j]) {
          if j > 0 { assert preference[1..][j - 1] == preference[j]; }
        }
      } else {
        forall j | 0 <= j < |preference| ensures !Covers(records, quantities, preference[j]) {
          if j > 0 { assert preference[1..][j - 1] == preference[j]; }
        }
      }
    }
  }

  /** Whatever the answer looks like, a selected warehouse passed the check for every SKU. */
  lemma {:induction false} SelectionCovers(records: seq<Record>, rawRegion: string, quantities: map<string, int>,
                                           preferred: string)
    requires Selected(records, rawRegion, quantities, preferred).Ok?
    ensures quantities != map[] && forall sku | sku in quantities :: RecordOf(records, sku).Some?
    ensures Covers(records, quantities, Selected(records, rawRegion, quantities, preferred).value.key)
  {
    FirstCoveringIsFirst(records, quantities, Preference(records, Text.Lower(Text.Trim(rawRegion)), preferred).value);
  }

  /** The input guards: known region, something asked for, a preferred warehouse that is offered, and a usable
      record for every SKU. */
  ghost predicate Admitted(records: seq<Record>, rawRegion: string, quantities: map<string, int>, preferred: string) {
    && Text.Lower(Text.Trim(rawRegion)) in REGIONS && quantities != map[]
    && Preference(records, Text.Lower(Text.Trim(rawRegion)), preferred).Some?
    && forall sku | sku in quantities :: Usable(records, sku)
  }

  ghost predicate FirstThatCovers(records: seq<Record>, quantities: map<string, int>, preference: seq<string>, key: string) {
    exists i | 0 <= i < |preference| ::
      && preference[i] == key && CoversOrder(records, quantities, key)
      && forall j | 0 <= j < i :: !CoversOrder(records, quantities, preference[j])
  }

  /** Sound: a selection is the first warehouse in order of preference that alone covers the whole order. */
  lemma {:induction false} SelectionIsSound(records: seq<Record>, rawRegion: string, quantities: map<string, int>,
                                            preferred: string)
    requires UniqueInRecords(records) && Selected(records, rawRegion, quantities, preferred).Ok?
    ensures Admitted(records, rawRegion, quantities, preferred)
    ensures FirstThatCovers(records, quantities, Preference(records, Text.Lower(Text.Trim(rawRegion)), preferred).value,
                            Selected(records, rawRegion, quantities, preferred).value.key)
  {
    var preference := Preference(records, Text.Lower(Text.Trim(rawRegion)), preferred).value;
    FirstCoveringIsFirst(records, quantities, preference);
    forall key ensures Covers(records, quantities, key) <==> CoversOrder(records, quantities, key) {
      CoversIsCoverage(records, quantities, key);
    }
  }

  /** Complete: it fails exactly when an input guard rejects or no warehouse in question covers the order. */
  lemma {:induction false} SelectionIsComplete(records: seq<Record>, rawRegion: string, quantities: map<string, int>,
                                               preferred: string)
    requires UniqueInRecords(records)
    ensures Selected(records, rawRegion, quantities, preferred).Err? <==>
            !Admitted(records, rawRegion, quantities, preferred)
            || forall key | key in Preference(records, Text.Lower(Text.Trim(rawRegion)), preferred).value :: !CoversOrder(records, quantities, key)
  {
    if Admitted(records, rawRegion, quantities, preferred) {
      var preference := Preference(records, Text.Lower(Text.Trim(rawRegion)), preferred).value;
      FirstCoveringIsFirst(records, quantities, preference);
      forall key ensures Covers(records, quantities, key) <==> CoversOrder(records, quantities, key) {
        CoversIsCoverage(records, quantities, key);
      }
    }
  }
}
