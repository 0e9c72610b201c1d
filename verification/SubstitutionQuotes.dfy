/** The two-stage choice over replacement offers (internal/service/substitution.go
    `selectSubstitutionPriceQuotes`): one choice per warehouse, then one among those. */
module SubstitutionQuotes {
  import opened Common
  import opened StableSorting
  import opened CarrierChoice
  import opened CarrierTheorems
  import ReservationItems
  import Text

  /** `sameChannelCandidate` */
  predicate SameChannel(a: Candidate, b: Candidate) {
    a.warehouse == b.warehouse && a.channel == b.channel && a.company == b.company
  }

  function OfWarehouse(cs: seq<Candidate>, key: string): seq<Candidate> {
    if cs == [] then []
    else OfWarehouse(cs[..|cs| - 1], key) + if cs[|cs| - 1].warehouse == key then [cs[|cs| - 1]] else []
  }

  /** The warehouses in the order they first occur. */
  function Warehouses(cs: seq<Candidate>): seq<string> {
    if cs == [] then []
    else
      var front := Warehouses(cs[..|cs| - 1]);
      if cs[|cs| - 1].warehouse in front then front else front + [cs[|cs| - 1].warehouse]
  }

  function FirstSame(cs: seq<Candidate>, choice: Candidate): seq<Candidate> {
    if cs == [] then [] else if SameChannel(cs[0], choice) then [cs[0]] else FirstSame(cs[1..], choice)
  }

  /** The choice of one warehouse, or nothing when it has none. */
  function WarehouseChoice(cs: seq<Candidate>, key: string): seq<Candidate> {
    match Selected(OfWarehouse(cs, key), 0)
    case Err(_) => []
    case Ok(choice) => FirstSame(OfWarehouse(cs, key), choice)
  }

  function Choices(cs: seq<Candidate>, keys: seq<string>): seq<Candidate> {
    if keys == [] then [] else Choices(cs, keys[..|keys| - 1]) + WarehouseChoice(cs, keys[|keys| - 1])
  }

  predicate IsBest(best: Result<Candidate, Refusal>, c: Candidate) {
    best.Ok? && SameChannel(c, best.value)
  }

  predicate BestFirst(best: Result<Candidate, Refusal>, a: Candidate, b: Candidate) {
    if IsBest(best, a) != IsBest(best, b) then IsBest(best, a) else Better(a, b)
  }

  function Ranked(choices: seq<Candidate>): seq<Candidate> {
    var best := Selected(choices, 0);
    StableSort((a, b) => BestFirst(best, a, b), choices)
  }

  function Quotes(cs: seq<Candidate>): seq<Candidate> {
    var keys := StableSort(Text.Before, Warehouses(cs));
    if Choices(cs, keys) == [] then [] else Ranked(Choices(cs, keys))
  }

  // ---- the parts ----

  lemma {:induction false} OfWarehouseHolds(cs: seq<Candidate>, key: string)
    ensures forall c :: c in OfWarehouse(cs, key) <==> c in cs && c.warehouse == key
  {
    if cs != [] {
      var n := |cs| - 1;
      OfWarehouseHolds(cs[..n], key);
      assert cs == cs[..n] + [cs[n]];
    }
  }

  ghost predicate NoRepeats(keys: seq<string>) {
    forall i, j | 0 <= i < j < |keys| :: keys[i] != keys[j]
  }

  predicate HasOffers(cs: seq<Candidate>, key: string) {
    exists c | c in cs :: c.warehouse == key
  }

  lemma {:induction false} WarehousesHold(cs: seq<Candidate>)
    ensures NoRepeats(Warehouses(cs))
    ensures forall c | c in cs :: c.warehouse in Warehouses(cs)
    ensures forall k | k in Warehouses(cs) :: HasOffers(cs, k)
  {
    if cs != [] {
      var n := |cs| - 1;
      WarehousesHold(cs[..n]);
      assert cs == cs[..n] + [cs[n]];
      assert cs[n] in cs;
      forall k | HasOffers(cs[..n], k) ensures HasOffers(cs, k) {
        var c :| c in cs[..n] && c.warehouse == k;
        assert c in cs;
      }
    }
  }

  /** No warehouse offers the same channel of the same company twice. */
  ghost predicate UniqueChannels(cs: seq<Candidate>) {
    forall a, b | a in cs && b in cs && SameChannel(a, b) :: a == b
  }

  lemma {:induction false} FirstSameFinds(cs: seq<Candidate>, choice: Candidate)
    requires choice in cs && UniqueChannels(cs)
    ensures FirstSame(cs, choice) == [choice]
  {
    assert SameChannel(choice, choice);
    if SameChannel(cs[0], choice) {
      assert cs[0] in cs;
    } else {
      assert choice in cs[1..];
      assert forall c | c in cs[1..] :: c in cs;
      FirstSameFinds(cs[1..], choice);
    }
  }

  /** What the theorem asks of the offers: grid prices, one mode, deltas between 0 and `delta`, one currency. */
  ghost predicate Uniform(cs: seq<Candidate>, mode: Mode, delta: real) {
    && AllOnGrid(cs) && AllMode(cs, mode) && mode != GofoPremium && !Clash(cs) && OnGrid(delta)
    && forall c | c in cs :: 0.0 <= c.delta <= delta
  }

  /** `choice` is an offer of its warehouse within `delta` of every other offer there, or the least of
      them when the mode allows no delta. */
  ghost predicate GoodFor(choice: Candidate, cs: seq<Candidate>, key: string, mode: Mode, delta: real) {
    && choice in cs && choice.warehouse == key
    && forall c | c in cs && c.warehouse == key :: choice.amount <= c.amount + if mode == LowestPrice then 0.0 else delta
  }

  lemma {:induction false} SelectedIsGood(cs: seq<Candidate>, mode: Mode, delta: real)
    requires cs != [] && Uniform(cs, mode, delta)
    ensures Selected(cs, 0).Ok? && Selected(cs, 0).value in cs
    ensures forall c | c in cs :: Selected(cs, 0).value.amount <= c.amount + if mode == LowestPrice then 0.0 else delta
  {
    ChoiceWithinDelta(cs, mode, delta);
    if mode == LowestPrice { LowestPriceIsMinimum(cs); }
  }

  lemma {:induction false} WarehouseChoiceIsGood(cs: seq<Candidate>, key: string, mode: Mode, delta: real)
    requires Uniform(cs, mode, delta) && UniqueChannels(cs) && HasOffers(cs, key)
    ensures |WarehouseChoice(cs, key)| == 1 && GoodFor(WarehouseChoice(cs, key)[0], cs, key, mode, delta)
  {
    var items := OfWarehouse(cs, key);
    OfWarehouseHolds(cs, key);
    var c :| c in cs && c.warehouse == key;
    assert c in items;
    SelectedIsGood(items, mode, delta);
    FirstSameFinds(items, Selected(items, 0).value);
  }

  /** One choice per warehouse, in the order of the keys. */
  ghost predicate OnePerKey(choices: seq<Candidate>, keys: seq<string>, cs: seq<Candidate>, mode: Mode, delta: real) {
    |choices| == |keys| && forall i | 0 <= i < |keys| :: GoodFor(choices[i], cs, keys[i], mode, delta)
  }

  lemma {:induction false} OneMoreKey(choices: seq<Candidate>, keys: seq<string>, cs: seq<Candidate>, mode: Mode,
                                      delta: real, choice: Candidate, key: string)
    requires OnePerKey(choices, keys, cs, mode, delta) && GoodFor(choice, cs, key, mode, delta)
    ensures OnePerKey(choices + [choice], keys + [key], cs, mode, delta)
  {
  }

  lemma {:induction false} ChoicesAreGood(cs: seq<Candidate>, keys: seq<string>, mode: Mode, delta: real)
    requires Uniform(cs, mode, delta) && UniqueChannels(cs)
    requires forall k | k in keys :: HasOffers(cs, k)
    ensures OnePerKey(Choices(cs, keys), keys, cs, mode, delta)
  {
    if keys != [] {
      var front, key := keys[..|keys| - 1], keys[|keys| - 1];
      ChoicesAreGood(cs, front, mode, delta);
      WarehouseChoiceIsGood(cs, key, mode, delta);
      var choice := WarehouseChoice(cs, key)[0];
      OneMoreKey(Choices(cs, front), front, cs, mode, delta, choice, key);
      assert front + [key] == keys && WarehouseChoice(cs, key) == [choice];
    }
  }

  // ---- the theorem ----

  lemma {:induction false} BestFirstIsOrder(best: Result<Candidate, Refusal>, choices: seq<Candidate>)
    requires AllOnGrid(choices)
    ensures StrictWeakOn((a, b) => BestFirst(best, a, b), choices)
  {
    var less := (a, b) => BestFirst(best, a, b);
    BetterIsOrderOnGrid(choices);
    forall a, b, c | a in choices && b in choices && c in choices
      ensures less(a, b) && less(b, c) ==> less(a, c)
      ensures !less(a, b) && !less(b, c) ==> !less(a, c)
    {
    }
  }

  lemma {:induction false} RankedHeadIsBest(choices: seq<Candidate>)
    requires choices != [] && AllOnGrid(choices) && UniqueChannels(choices)
    requires Selected(choices, 0).Ok? && Selected(choices, 0).value in choices
    ensures Ranked(choices)[0] == Selected(choices, 0).value
  {
    var best := Selected(choices, 0);
    var less := (a, b) => BestFirst(best, a, b);
    BestFirstIsOrder(best, choices);
    HeadIsLeast(less, choices);
    var head := StableSort(less, choices)[0];
    assert !less(best.value, head);
    assert IsBest(best, best.value);
  }

  lemma {:induction false} ChoicesInOffers(cs: seq<Candidate>, keys: seq<string>, choices: seq<Candidate>, mode: Mode,
                                           delta: real)
    requires OnePerKey(choices, keys, cs, mode, delta)
    ensures forall c | c in choices :: c in cs
  {
    forall c | c in choices ensures c in cs {
      var i :| 0 <= i < |choices| && choices[i] == c;
      assert GoodFor(choices[i], cs, keys[i], mode, delta);
    }
  }

  /** Every offer is at most `delta` cheaper than the choice of its warehouse. */
  lemma {:induction false} OfferNearChoice(cs: seq<Candidate>, keys: seq<string>, choices: seq<Candidate>, mode: Mode,
                                           delta: real, c: Candidate)
    returns (i: nat)
    requires OnePerKey(choices, keys, cs, mode, delta) && c in cs && c.warehouse in keys
    ensures i < |choices| && choices[i].amount <= c.amount + if mode == LowestPrice then 0.0 else delta
  {
    i :| 0 <= i < |keys| && keys[i] == c.warehouse;
    assert GoodFor(choices[i], cs, keys[i], mode, delta);
  }

  /** The first quote costs at most the global minimum plus twice the delta, and in lowest-price mode
      exactly the minimum; there is one quote for every warehouse that made an offer. */
  lemma {:induction false} TwoStageBound(cs: seq<Candidate>, mode: Mode, delta: real)
    requires cs != [] && Uniform(cs, mode, delta) && UniqueChannels(cs)
    ensures |Quotes(cs)| == |Warehouses(cs)| > 0 && Quotes(cs)[0] in cs
    ensures mode == LowestPrice ==> forall c | c in cs :: Quotes(cs)[0].amount <= c.amount
    ensures forall c | c in cs :: Quotes(cs)[0].amount <= c.amount + delta + delta
  {
    var keys := StableSort(Text.Before, Warehouses(cs));
    var choices := Choices(cs, keys);
    WarehousesHold(cs);
    SameElements(Warehouses(cs), keys);
    ChoicesAreGood(cs, keys, mode, delta);
    ChoicesInOffers(cs, keys, choices, mode, delta);
    assert cs[0] in cs;
    SelectedIsGood(choices, mode, delta);
    RankedHeadIsBest(choices);
    forall c | c in cs ensures Quotes(cs)[0].amount <= c.amount + if mode == LowestPrice then 0.0 else delta + delta {
      var i := OfferNearChoice(cs, keys, choices, mode, delta, c);
      assert choices[i] in choices;
    }
  }

  /** The warehouses with offers and the warehouses with quotes are the same. */
  lemma {:induction false} OneQuotePerWarehouse(cs: seq<Candidate>, mode: Mode, delta: real,
                                                c: Candidate) returns (q: Candidate)
    requires Uniform(cs, mode, delta) && UniqueChannels(cs) && c in cs
    ensures q in Quotes(cs) && q.warehouse == c.warehouse && q in cs
    ensures |Quotes(cs)| == |Warehouses(cs)|
  {
    var keys := StableSort(Text.Before, Warehouses(cs));
    var choices := Choices(cs, keys);
    WarehousesHold(cs);
    SameElements(Warehouses(cs), keys);
    ChoicesAreGood(cs, keys, mode, delta);
    var i :| 0 <= i < |keys| && keys[i] == c.warehouse;
    q := choices[i];
    assert GoodFor(q, cs, keys[i], mode, delta);
    RankedHolds(choices, q);
  }

  lemma {:induction false} RankedHolds(choices: seq<Candidate>, q: Candidate)
    requires q in choices
    ensures q in Ranked(choices) && |Ranked(choices)| == |choices|
  {
    SameElements(choices, Ranked(choices));
  }

  // ---- which quotes, and in which order ----

  lemma {:induction false} WarehouseChoiceMeans(cs: seq<Candidate>, key: string, q: Candidate)
    requires UniqueChannels(cs)
    ensures q in WarehouseChoice(cs, key) <==> Selected(OfWarehouse(cs, key), 0) == Ok(q)
    ensures q in WarehouseChoice(cs, key) ==> q in cs && q.warehouse == key && |WarehouseChoice(cs, key)| == 1
  {
    var items := OfWarehouse(cs, key);
    OfWarehouseHolds(cs, key);
    if Selected(items, 0).Ok? {
      ChoiceIsCandidate(items);
      FirstSameFinds(items, Selected(items, 0).value);
    }
  }

  /** The quotes are exactly the choices made among the offers of one warehouse each; a warehouse whose offers are
      refused has none. */
  lemma {:induction false} QuotesAreChoices(cs: seq<Candidate>, q: Candidate)
    requires UniqueChannels(cs)
    ensures q in Quotes(cs) <==> Selected(OfWarehouse(cs, q.warehouse), 0) == Ok(q)
  {
    var keys := StableSort(Text.Before, Warehouses(cs));
    WarehousesHold(cs);
    SameElements(Warehouses(cs), keys);
    ChoicesHold(cs, keys);
    SameElements(Choices(cs, keys), Ranked(Choices(cs, keys)));
    forall k | q in WarehouseChoice(cs, k) ensures k == q.warehouse && q in cs { WarehouseChoiceMeans(cs, k, q); }
    WarehouseChoiceMeans(cs, q.warehouse, q);
  }

  ghost predicate DifferentWarehouses(items: seq<Candidate>) {
    forall i, j | 0 <= i < j < |items| :: items[i].warehouse != items[j].warehouse
  }

  lemma {:induction false} OccursOnce(items: seq<Candidate>, x: Candidate)
    requires DifferentWarehouses(items)
    ensures multiset(items)[x] <= 1
  {
    if items != [] {
      var n := |items| - 1;
      OccursOnce(items[..n], x);
      assert items == items[..n] + [items[n]];
      if items[n] == x { assert forall i | 0 <= i < n :: items[..n][i] != x; }
    }
  }

  lemma {:induction false} DifferentStays(s: seq<Candidate>, t: seq<Candidate>)
    requires multiset(s) == multiset(t) && DifferentWarehouses(s)
    ensures DifferentWarehouses(t)
  {
    SameElements(s, t);
    forall i, j | 0 <= i < j < |t| ensures t[i].warehouse != t[j].warehouse {
      assert t == t[..i] + [t[i]] + t[i + 1..j] + [t[j]] + t[j + 1..];
      OccursOnce(s, t[i]);
      assert t[i] in s && t[j] in s && t[i] != t[j];
      var x :| 0 <= x < |s| && s[x] == t[i];
      var y :| 0 <= y < |s| && s[y] == t[j];
      assert x < y || y < x;
    }
  }

  lemma {:induction false} ChoicesDiffer(cs: seq<Candidate>, keys: seq<string>)
    requires UniqueChannels(cs) && NoRepeats(keys)
    ensures DifferentWarehouses(Choices(cs, keys)) && forall c | c in Choices(cs, keys) :: c.warehouse in keys && c in cs
  {
    if keys != [] {
      var front, key := keys[..|keys| - 1], keys[|keys| - 1];
      assert keys == front + [key];
      ChoicesDiffer(cs, front);
      forall c | c in WarehouseChoice(cs, key) ensures c.warehouse == key && c in cs && |WarehouseChoice(cs, key)| == 1 {
        WarehouseChoiceMeans(cs, key, c);
      }
      assert key !in front;
    }
  }

  lemma {:induction false} RankedOrder(choices: seq<Candidate>, i: nat, j: nat)
    requires AllOnGrid(choices) && UniqueChannels(choices) && DifferentWarehouses(choices) && i < j < |Ranked(choices)|
    ensures var (q, best) := (Ranked(choices), Selected(choices, 0));
            && q[i].warehouse != q[j].warehouse && (best.Ok? ==> q[0] == best.value)
            && (i > 0 || best.Err? ==> !Precedes(q[j], q[i]))
  {
    var (q, best) := (Ranked(choices), Selected(choices, 0));
    var less := (a, b) => BestFirst(best, a, b);
    DifferentStays(choices, q);
    SameElements(choices, q);
    BestFirstIsOrder(best, choices);
    SortSorts(less, choices);
    if best.Ok? {
      ChoiceIsCandidate(choices);
      RankedHeadIsBest(choices);
    }
    assert q[i] in q && q[j] in q && !less(q[j], q[i]);
    BetterIsPrecedes(q[j], q[i]);
  }

  /** No two quotes are of one warehouse; the best choice among them comes first, and the rest follows in the order of
      price, tie priority and channel. */
  lemma {:induction false} QuotesInOrder(cs: seq<Candidate>, i: nat, j: nat)
    requires AllOnGrid(cs) && UniqueChannels(cs) && i < j < |Quotes(cs)|
    ensures var (q, best) := (Quotes(cs), Selected(Choices(cs, StableSort(Text.Before, Warehouses(cs))), 0));
            && q[i].warehouse != q[j].warehouse && (best.Ok? ==> q[0] == best.value)
            && (i > 0 || best.Err? ==> !Precedes(q[j], q[i]))
  {
    var keys := StableSort(Text.Before, Warehouses(cs));
    WarehousesHold(cs);
    NoRepeatsStay(Warehouses(cs), keys);
    ChoicesDiffer(cs, keys);
    RankedOrder(Choices(cs, keys), i, j);
  }

  lemma {:induction false} NoRepeatsStay(s: seq<string>, t: seq<string>)
    requires NoRepeats(s) && t == StableSort(Text.Before, s)
    ensures NoRepeats(t)
  {
    ReservationItems.SortedDistinct(s);
    Text.BeforeIsOrder();
    forall i, j | 0 <= i < j < |t| ensures t[i] != t[j] { assert Text.Before(t[i], t[j]); }
  }

  // ---- the bound is tight ----

  /** Three offers: 1.00 and 2.00 in warehouse A, 3.00 in B, the dearer the higher in carrier priority. */
  const CHEAP := Candidate(0, "A", "T", 1, 1, "X", "USD", 1.0, 3, CarrierPriority, 1.0, 0)
  const MIDDLE := CHEAP.(channel := 2, amount := 2.0, priority := 2)
  const DEAR := CHEAP.(warehouse := "B", channel := 3, amount := 3.0, priority := 1)

  lemma {:induction false} Prices()
    ensures CHEAP.amount == Grid(10000) && MIDDLE.amount == Grid(20000) && DEAR.amount == Grid(30000) && 1.0 == Grid(10000)
  {
  }

  /** Of two offers a delta apart the dearer one with the better priority is chosen. */
  lemma {:induction false} DearerIsChosen(cs: seq<Candidate>, low: Candidate, high: Candidate)
    requires (low == CHEAP && high == MIDDLE) || (low == MIDDLE && high == DEAR)
    requires forall c :: c in cs <==> c == low || c == high
    ensures Selected(cs, 0) == Ok(high)
  {
    Prices();
    assert low in cs && high in cs;
    ChoiceIsBestInWindow(cs, CarrierPriority);
    var minimum := StableSort(Better, cs)[0].amount;
    assert minimum == low.amount && InWindow(high, minimum);
    assert FavouredExactly(high, low, CarrierPriority);
  }

  lemma {:induction false} ChoicesHold(cs: seq<Candidate>, keys: seq<string>)
    ensures forall c :: c in Choices(cs, keys) <==> exists k | k in keys :: c in WarehouseChoice(cs, k)
  {
    if keys != [] {
      var n := |keys| - 1;
      ChoicesHold(cs, keys[..n]);
      assert keys == keys[..n] + [keys[n]];
      assert keys[n] in keys;
    }
  }

  const THREE := [CHEAP, MIDDLE, DEAR]

  lemma {:induction false} ThreeAreUniform()
    ensures Uniform(THREE, CarrierPriority, 1.0) && UniqueChannels(THREE)
    ensures forall c :: c in THREE <==> c == CHEAP || c == MIDDLE || c == DEAR
  {
    Prices();
  }

  lemma {:induction false} ThreeByWarehouse()
    ensures WarehouseChoice(THREE, "A") == [MIDDLE] && WarehouseChoice(THREE, "B") == [DEAR]
  {
    ThreeAreUniform();
    var a, b := OfWarehouse(THREE, "A"), OfWarehouse(THREE, "B");
    OfWarehouseHolds(THREE, "A");
    OfWarehouseHolds(THREE, "B");
    DearerIsChosen(a, CHEAP, MIDDLE);
    FirstSameFinds(a, MIDDLE);
    assert DEAR in b;
    SelectedIsGood(b, CarrierPriority, 1.0);
    FirstSameFinds(b, DEAR);
  }

  lemma {:induction false} ThreeKeys(keys: seq<string>)
    requires keys == StableSort(Text.Before, Warehouses(THREE))
    ensures forall k :: k in keys <==> k == "A" || k == "B"
  {
    ThreeAreUniform();
    WarehousesHold(THREE);
    SameElements(Warehouses(THREE), keys);
    forall k | k in keys ensures k == "A" || k == "B" { assert HasOffers(THREE, k); }
    assert CHEAP in THREE && DEAR in THREE;
  }

  lemma {:induction false} ThreeChoices(keys: seq<string>)
    requires forall k :: k in keys <==> k == "A" || k == "B"
    ensures forall c :: c in Choices(THREE, keys) <==> c == MIDDLE || c == DEAR
  {
    ChoicesHold(THREE, keys);
    ThreeByWarehouse();
    assert "A" in keys && "B" in keys;
  }

  lemma {:induction false} ThreeRanked(choices: seq<Candidate>)
    requires forall c :: c in choices <==> c == MIDDLE || c == DEAR
    ensures choices != [] && |Ranked(choices)| > 0 && Ranked(choices)[0] == DEAR
  {
    Prices();
    assert DEAR in choices;
    DearerIsChosen(choices, MIDDLE, DEAR);
    RankedHeadIsBest(choices);
  }

  /** Twice the delta can really be paid: here the cheapest offer costs 1.00, the delta is 1.00 and the
      first quote costs 3.00. */
  lemma {:induction false} TwiceTheDeltaIsPaid()
    ensures Uniform(THREE, CarrierPriority, 1.0) && UniqueChannels(THREE)
    ensures CHEAP in THREE && |Quotes(THREE)| > 0 && Quotes(THREE)[0].amount == CHEAP.amount + 1.0 + 1.0
  {
    ThreeAreUniform();
    var keys := StableSort(Text.Before, Warehouses(THREE));
    ThreeKeys(keys);
    ThreeChoices(keys);
    ThreeRanked(Choices(THREE, keys));
  }
}
