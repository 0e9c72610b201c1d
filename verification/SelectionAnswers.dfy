/** What of an inventory answer a selection and a request look at, and every refusal with its reason. */
module SelectionAnswers {
  import opened Common
  import opened WarehouseSelection
  import R = ReservationRequest
  import Text

  // ---- the entries of a record ----

  /** An entry without a region lies in the one it is listed under. */
  function Filed(w: Warehouse, name: string): Warehouse {
    w.(region := if w.region == "" then name else w.region)
  }

  lemma {:induction false} InRegionAt(ws: seq<Warehouse>, name: string, i: nat)
    requires i < |ws|
    ensures InRegion(ws, name)[i] == Filed(ws[i], name)
  {
    if i < |ws| - 1 { InRegionAt(ws[..|ws| - 1], name, i); }
  }

  lemma {:induction false} FlatLast(regions: seq<Region>, region: Region)
    ensures Flat(regions + [region]) == Flat(regions) + Flat([region])
  {
    assert (regions + [region])[..|regions|] == regions && [region][..0] == [];
  }

  lemma {:induction false} FlatAddsUp(a: seq<Region>, b: seq<Region>)
    ensures Flat(a + b) == Flat(a) + Flat(b)
  {
    if b == [] {
      assert a + b == a;
    } else {
      var front, region := b[..|b| - 1], b[|b| - 1];
      assert b == front + [region] && a + b == (a + front) + [region];
      FlatAddsUp(a, front);
      FlatLast(a + front, region);
      FlatLast(front, region);
    }
  }

  lemma {:induction false} FlatOne(region: Region, i: nat)
    requires i < |region.warehouses|
    ensures |Flat([region])| == |region.warehouses| && Flat([region])[i] == Filed(region.warehouses[i], region.name)
  {
    assert [region][..0] == [] && Flat([]) == [];
    InRegionAt(region.warehouses, region.name, i);
  }

  /** Which entries a record has: the flat list if it comes with one, and otherwise those of all its regions. */
  lemma {:induction false} CandidatesMean(record: Record, x: Warehouse)
    ensures x in Candidates(record) <==>
            if record.warehouses.Some? then x in record.warehouses.value
            else exists r, w :: r in record.regions && w in r.warehouses && x == Filed(w, r.name)
  {
    if record.warehouses.None? { FlatMembers(record.regions, x); }
  }

  lemma {:induction false} FlatMembers(regions: seq<Region>, x: Warehouse)
    ensures x in Flat(regions) <==> exists r, w :: r in regions && w in r.warehouses && x == Filed(w, r.name)
  {
    if regions != [] {
      var front, last := regions[..|regions| - 1], regions[|regions| - 1];
      assert regions == front + [last];
      FlatMembers(front, x);
      InRegionMembers(last.warehouses, last.name, x);
      if r, w :| r in regions && w in r.warehouses && x == Filed(w, r.name) {
        assert r in front || r == last;
      }
      if w :| w in last.warehouses && x == Filed(w, last.name) { assert last in regions; }
      if r, w :| r in front && w in r.warehouses && x == Filed(w, r.name) { assert r in regions; }
    }
  }

  lemma {:induction false} InRegionMembers(ws: seq<Warehouse>, name: string, x: Warehouse)
    ensures x in InRegion(ws, name) <==> exists w :: w in ws && x == Filed(w, name)
  {
    if ws != [] {
      var front, last := ws[..|ws| - 1], ws[|ws| - 1];
      assert ws == front + [last];
      InRegionMembers(front, name, x);
      if w :| w in ws && x == Filed(w, name) { assert w in front || w == last; }
      if w :| w in front && x == Filed(w, name) { assert w in ws; }
      assert x == Filed(last, name) ==> last in ws;
    }
  }

  /** Of several records of a SKU the last one counts. */
  lemma {:induction false} LastRecordCounts(records: seq<Record>, sku: string, last: nat)
    requires last < |records| && records[last].sku == sku && forall i | last < i < |records| :: records[i].sku != sku
    ensures RecordOf(records, sku) == Some(records[last])
  {
    if last < |records| - 1 { LastRecordCounts(records[..|records| - 1], sku, last); }
  }

  lemma {:induction false} NoRecordCounts(records: seq<Record>, sku: string)
    requires forall i | 0 <= i < |records| :: records[i].sku != sku
    ensures RecordOf(records, sku) == None
  {
    if records != [] { NoRecordCounts(records[..|records| - 1], sku); }
  }

  /** Of several entries of a warehouse in one record the last one decides. */
  lemma {:induction false} LastEntryDecides(ws: seq<Warehouse>, key: string, quantity: int, last: nat)
    requires last < |ws| && ws[last].key == key && forall i | last < i < |ws| :: ws[i].key != key
    ensures Enough(ws, key, quantity) <==> ws[last].selectable && quantity as real <= ws[last].available
  {
    if last < |ws| - 1 { LastEntryDecides(ws[..|ws| - 1], key, quantity, last); }
  }

  // ---- the refusals of a selection ----

  /** Why a selection is refused; the reasons are looked at in this order. */
  lemma {:induction false} RefusalMeans(records: seq<Record>, rawRegion: string, quantities: map<string, int>,
                                        preferred: string)
    ensures var region := Text.Lower(Text.Trim(rawRegion));
            var (r, key) := (Selected(records, rawRegion, quantities, preferred), Text.Upper(Text.Trim(preferred)));
            if !(region == "" || region == "auto" || region == "east" || region == "west" || region == "central") then r == Err(UnknownRegion)
            else if |quantities| == 0 then r == Err(NothingAsked)
            else if Text.Trim(preferred) != "" && !InAskedRegion(FirstOffers(records), region, key) then r == Err(NotOffered)
            else if exists sku | sku in quantities :: RecordOf(records, sku).None? || RecordOf(records, sku).value.manual then r == Err(BadRecord)
            else r.Ok? || r == Err(NoneCovers)
  {
    OfferedMembers(FirstOffers(records), Text.Lower(Text.Trim(rawRegion)));
    if |quantities| == 0 { assert quantities == map[]; }
    if sku :| sku in quantities && !Usable(records, sku) {
      assert RecordOf(records, sku).None? || RecordOf(records, sku).value.manual;
    }
    if sku :| sku in quantities && (RecordOf(records, sku).None? || RecordOf(records, sku).value.manual) {
      assert !Usable(records, sku);
    }
  }

  // ---- the request ----

  /** The request when it is made: the one physical code of the warehouse's entries, and for every SKU the quantity
      asked and the stock of the entry read last, in whole pieces. */
  lemma {:induction false} RequestMeans(records: seq<Record>, rawKey: string, quantities: map<string, int>, sku: string)
    requires R.Requested(records, rawKey, quantities).Ok?
    ensures var (key, (code, lines)) := (R.Normal(rawKey), R.Requested(records, rawKey, quantities).value);
            && code != "" && R.RecordsCoded(records, key, code)
            && (sku in lines <==> sku in quantities)
            && (sku in quantities ==>
                 R.LastRead(records, key, sku).Some?
                 && lines[sku] == R.Line(quantities[sku], R.LastRead(records, key, sku).value.available.Floor))
  {
    var (key, none) := (R.Normal(rawKey), R.Seen("", map[]));
    R.PassedRecordsAreCoded(none, key, records);
    R.NotedRecordsRead(none, key, records, sku);
  }

  /** Why it is refused: two codes or none for an entry, no entry at all, or none for a SKU. */
  lemma {:induction false} RequestRefusals(records: seq<Record>, rawKey: string, quantities: map<string, int>)
    ensures R.Requested(records, rawKey, quantities) == Err(R.NoCode) || R.Requested(records, rawKey, quantities) == Err(R.Conflict) <==>
            !R.CodesAgree(records, R.Normal(rawKey))
    ensures R.Requested(records, rawKey, quantities) == Err(R.NoWarehouse) <==>
            R.CodesAgree(records, R.Normal(rawKey)) && !R.SomeMatch(records, R.Normal(rawKey))
    ensures R.Requested(records, rawKey, quantities) == Err(R.NoRecord) <==>
            R.CodesAgree(records, R.Normal(rawKey)) && R.SomeMatch(records, R.Normal(rawKey))
            && exists sku | sku in quantities :: R.LastRead(records, R.Normal(rawKey), sku).None?
  {
    var (key, none) := (R.Normal(rawKey), R.Seen("", map[]));
    R.ReadingPassesExactlyWhen(records, key);
    R.NotedNeverMissesRecords(none, key, records);
    NeverWithoutWarehouse(none, key, records);
    if R.NotedRecords(none, key, records).Ok? {
      var available := R.NotedRecords(none, key, records).value.available;
      forall sku ensures sku in available <==> R.LastRead(records, key, sku).Some? { R.NotedRecordsRead(none, key, records, sku); }
      assert (exists sku | sku in quantities :: sku !in available) <==> exists sku | sku in quantities :: R.LastRead(records, key, sku).None?;
    } else {
      var e := R.NotedRecords(none, key, records).error;
      assert e.NoCode? || e.Conflict? || e.NoWarehouse? || e.NoRecord?;
    }
  }

  /** Only the whole answer can lack the warehouse. */
  lemma {:induction false} NeverWithoutWarehouse(seen: R.Seen, key: string, records: seq<Record>)
    ensures R.NotedRecords(seen, key, records) != Err(R.NoWarehouse)
    decreases |records|
  {
    if records != [] {
      RegionsLackNone(seen, key, records[0].sku, R.Regional(records[0]));
      match R.NotedRegions(seen, key, records[0].sku, R.Regional(records[0]))
      case Err(_) =>
      case Ok(next) => NeverWithoutWarehouse(next, key, records[1..]);
    }
  }

  lemma {:induction false} RegionsLackNone(seen: R.Seen, key: string, sku: string, regions: seq<Region>)
    ensures R.NotedRegions(seen, key, sku, regions) != Err(R.NoWarehouse)
    decreases |regions|
  {
    if regions != [] {
      EntriesLackNone(seen, key, sku, regions[0].warehouses);
      match R.NotedAll(seen, key, sku, regions[0].warehouses)
      case Err(_) =>
      case Ok(next) => RegionsLackNone(next, key, sku, regions[1..]);
    }
  }

  lemma {:induction false} EntriesLackNone(seen: R.Seen, key: string, sku: string, ws: seq<Warehouse>)
    ensures R.NotedAll(seen, key, sku, ws) != Err(R.NoWarehouse)
    decreases |ws|
  {
    if ws != [] {
      match R.Noted(seen, key, sku, ws[0])
      case Err(_) =>
      case Ok(next) => EntriesLackNone(next, key, sku, ws[1..]);
    }
  }
}
