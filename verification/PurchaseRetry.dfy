/** The quote-and-purchase loop for a direct order (internal/service/service.go `runAutoFulfillment`): a
    warehouse whose reservation fails for capacity is excluded from the next quote. */
module PurchaseRetry {
  import opened Common
  import opened WarehouseSelection
  import opened ReservationRequest
  import Text

  /** `filterWarehouseKeys` */
  function Filtered(keys: seq<string>, excluded: set<string>): seq<string> {
    if keys == [] then []
    else
      var key := keys[|keys| - 1];
      Filtered(keys[..|keys| - 1], excluded) + if Normal(key) in excluded then [] else [key]
  }

  function Excluded(list: seq<string>): set<string> {
    set key | key in list && Normal(key) != "" :: Normal(key)
  }

  /** `warehouseRegion` */
  function WarehouseRegion(key: string): string {
    var normal := Normal(key);
    if normal == "DPS002" || normal == "ARP_EAST" || normal == "ARP_ATLANTA" then "east"
    else if normal == "DPS004" || normal == "ARP_WEST" then "west"
    else if normal == "ARP_HOUSTON" then "central" else ""
  }

  // ---- one quote ----

  datatype Purchase = Bought | OutOfStock | Failed

  /** The answers of one round: the inventory answer and the quantities it was asked for, the keys as written
      that pass the account check, the warehouses that pass the checks of mapping and carriers, the warehouse
      whose offer is chosen, and what the purchase yields. Everything may change between rounds. */
  datatype Round = Round(records: seq<Record>, quantities: map<string, int>, accounts: set<string>, open: set<string>,
                         pick: string, purchase: Purchase)

  /** `decisionWarehouseKeys`: the warehouses the inventory answer names. */
  function Named(round: Round): seq<string> {
    Offered(FirstOffers(round.records), "auto")
  }

  predicate Passes(round: Round, mapped: set<string>, key: string) {
    Normal(key) in mapped && Normal(key) in round.open
  }

  /** What is quoted for a named key: the warehouse the selection makes of it. */
  function Offer(round: Round, mapped: set<string>, key: string): Option<string> {
    match Selected(round.records, WarehouseRegion(key), round.quantities, key)
    case Err(_) => None
    case Ok(selection) => if key in round.accounts && Passes(round, mapped, selection.key) then Some(selection.key) else None
  }

  function Offers(round: Round, mapped: set<string>, keys: seq<string>): seq<string> {
    if keys == [] then []
    else
      var offer := Offer(round, mapped, keys[|keys| - 1]);
      Offers(round, mapped, keys[..|keys| - 1]) + if offer.Some? then [offer.value] else []
  }

  /** The offers of a round after purchases that failed for capacity. */
  function RoundOffers(round: Round, mapped: set<string>, purchases: seq<string>): seq<string> {
    Offers(round, mapped, Filtered(Named(round), Excluded(purchases)))
  }

  function Quoted(round: Round, mapped: set<string>, purchases: seq<string>): Option<string> {
    if round.pick in RoundOffers(round, mapped, purchases) then Some(round.pick) else None
  }

  // ---- the loop ----

  datatype Progress = Going(purchases: seq<string>) | Stopped(bought: bool, purchases: seq<string>)

  function Counted(p: Progress, quoted: Option<string>, purchase: Purchase): Progress {
    match p
    case Stopped(_, _) => p
    case Going(purchases) =>
      match quoted
      case None => Stopped(false, purchases)
      case Some(key) =>
        if purchase == OutOfStock then Going(purchases + [key]) else Stopped(purchase == Bought, purchases + [key])
  }

  function Proceeded(p: Progress, round: Round, mapped: set<string>): Progress {
    Counted(p, Quoted(round, mapped, p.purchases), round.purchase)
  }

  /** The loop after these rounds, or fewer if it ended before. */
  function After(rounds: seq<Round>, mapped: set<string>): Progress {
    if rounds == [] then Going([])
    else Proceeded(After(rounds[..|rounds| - 1], mapped), rounds[|rounds| - 1], mapped)
  }

  // ---- the code ----

  method FilterWarehouseKeys(keys: seq<string>, list: seq<string>) returns (filtered: seq<string>)
    ensures filtered == Filtered(keys, Excluded(list))
  {
    var excluded: set<string> := {};
    for i := 0 to |list|
      invariant excluded == Excluded(list[..i])
    {
      assert list[..i + 1] == list[..i] + [list[i]];
      var key := Normal(list[i]);
      if key != "" {
        excluded := excluded + {key};
      }
    }
    assert list[..|list|] == list;
    filtered := [];
    for i := 0 to |keys|
      invariant filtered == Filtered(keys[..i], excluded)
    {
      assert keys[..i + 1][..i] == keys[..i];
      if Normal(keys[i]) !in excluded {
        filtered := filtered + [keys[i]];
      }
    }
    assert keys[..|keys|] == keys;
  }

  /** One iteration of the loop over the keys of a quote. */
  method QuoteKey(round: Round, mapped: set<string>, key: string) returns (offer: Option<string>)
    ensures offer == Offer(round, mapped, key)
  {
    var selected := SelectWarehouse(round.records, WarehouseRegion(key), round.quantities, key);
    if selected.Err? {
      return None;
    }
    if key !in round.accounts {
      return None;
    }
    return if Passes(round, mapped, selected.value.key) then Some(selected.value.key) else None;
  }

  lemma {:induction false} OneMoreOffer(round: Round, mapped: set<string>, keys: seq<string>, i: nat,
                                        offer: Option<string>)
    requires i < |keys| && offer == Offer(round, mapped, keys[i])
    ensures Offers(round, mapped, keys[..i + 1]) == Offers(round, mapped, keys[..i]) + if offer.Some? then [offer.value] else []
  {
    assert keys[..i + 1][..i] == keys[..i];
  }

  /** The loop over the keys of a quote; `mapped` are the warehouses that are mapped at any time. */
  method QuoteKeys(round: Round, mapped: set<string>, keys: seq<string>) returns (offers: seq<string>)
    ensures offers == Offers(round, mapped, keys)
  {
    offers := [];
    for i := 0 to |keys|
      invariant offers == Offers(round, mapped, keys[..i])
    {
      var offer := QuoteKey(round, mapped, keys[i]);
      OneMoreOffer(round, mapped, keys, i, offer);
      if offer.Some? {
        offers := offers + [offer.value];
      }
    }
    assert keys[..|keys|] == keys;
  }

  method QuoteRound(round: Round, mapped: set<string>, purchases: seq<string>) returns (key: Option<string>)
    ensures key == Quoted(round, mapped, purchases)
  {
    var named, _ := ListOffers(FirstOffers(round.records), "auto");
    var keys := FilterWarehouseKeys(named, purchases);
    var offers := QuoteKeys(round, mapped, keys);
    return if round.pick in offers then Some(round.pick) else None;
  }

  /** One round of the loop. */
  method QuoteAndPurchase(round: Round, mapped: set<string>, purchases: seq<string>) returns (p: Progress)
    ensures p == Proceeded(Going(purchases), round, mapped)
  {
    var key := QuoteRound(round, mapped, purchases);
    if key.None? {
      return Stopped(false, purchases);
    }
    if round.purchase != OutOfStock {
      return Stopped(round.purchase == Bought, purchases + [key.value]);
    }
    return Going(purchases + [key.value]);
  }

  lemma {:induction false} AfterRound(rounds: seq<Round>, mapped: set<string>, n: nat, p: Progress, q: Progress)
    requires n < |rounds| && After(rounds[..n], mapped) == p && q == Proceeded(p, rounds[n], mapped)
    ensures After(rounds[..n + 1], mapped) == q
  {
    assert rounds[..n + 1][..n] == rounds[..n];
  }

  /** The loop, looked at after these rounds at the latest: it need not end by itself. */
  method PurchaseDirect(rounds: seq<Round>, mapped: set<string>) returns (p: Progress)
    ensures p == After(rounds, mapped)
  {
    p := Going([]);
    for n := 0 to |rounds|
      invariant p.Going? && After(rounds[..n], mapped) == p
    {
      ghost var before := p;
      p := QuoteAndPurchase(rounds[n], mapped, p.purchases);
      AfterRound(rounds, mapped, n, before, p);
      if p.Stopped? {
        StoppedStays(rounds, mapped, n + 1);
        return;
      }
    }
    assert rounds[..|rounds|] == rounds;
  }

  lemma {:induction false} StoppedProceeds(p: Progress, round: Round, mapped: set<string>)
    requires p.Stopped?
    ensures Proceeded(p, round, mapped) == p
  {
  }

  lemma {:induction false} StoppedStays(rounds: seq<Round>, mapped: set<string>, m: nat)
    requires m <= |rounds| && After(rounds[..m], mapped).Stopped?
    ensures After(rounds, mapped) == After(rounds[..m], mapped)
  {
    if m == |rounds| {
      assert rounds[..m] == rounds;
    } else {
      var front := rounds[..|rounds| - 1];
      assert front[..m] == rounds[..m];
      StoppedStays(front, mapped, m);
      StoppedProceeds(After(front, mapped), rounds[|rounds| - 1], mapped);
    }
  }

  // ---- when a quote offers an excluded warehouse ----

  predicate Blank(key: string) {
    Text.Trim(key) == ""
  }

  ghost predicate Tried(purchases: seq<string>, key: string) {
    exists p | p in purchases :: Normal(p) == Normal(key)
  }

  /** What a blank key is quoted as: the first warehouse that covers the order, whatever was excluded. */
  function FirstChoice(round: Round): Option<string> {
    match Selected(round.records, "", round.quantities, "")
    case Err(_) => None
    case Ok(selection) => Some(selection.key)
  }

  /** The answer names a blank key, and its quote passes all checks. */
  predicate BlankOffers(round: Round, mapped: set<string>) {
    && FirstChoice(round).Some? && Passes(round, mapped, FirstChoice(round).value)
    && exists key | key in Named(round) :: Blank(key) && key in round.accounts
  }

  lemma {:induction false} BlankIsNormal(key: string)
    ensures Blank(key) <==> Normal(key) == ""
  {
  }

  lemma {:induction false} BlankOffer(round: Round, mapped: set<string>, key: string)
    requires Blank(key)
    ensures Offer(round, mapped, key) ==
            if FirstChoice(round).Some? && key in round.accounts && Passes(round, mapped, FirstChoice(round).value)
            then FirstChoice(round) else None
  {
    assert WarehouseRegion(key) == "" && Text.Trim("") == "";
  }

  /** Any other key is quoted as the warehouse it names. */
  lemma {:induction false} NamedOffer(round: Round, mapped: set<string>, key: string)
    requires !Blank(key) && Offer(round, mapped, key).Some?
    ensures Offer(round, mapped, key).value == Normal(key)
  {
    FirstCoveringIsAmong(round.records, round.quantities, [Normal(key)]);
  }

  lemma {:induction false} FilteredHolds(keys: seq<string>, excluded: set<string>)
    ensures forall key :: key in Filtered(keys, excluded) <==> key in keys && Normal(key) !in excluded
  {
    if keys != [] {
      FilteredHolds(keys[..|keys| - 1], excluded);
      assert keys == keys[..|keys| - 1] + [keys[|keys| - 1]];
    }
  }

  lemma {:induction false} OffersHold(round: Round, mapped: set<string>, keys: seq<string>)
    ensures forall k :: k in Offers(round, mapped, keys) <==> exists key | key in keys :: Offer(round, mapped, key) == Some(k)
  {
    if keys != [] {
      OffersHold(round, mapped, keys[..|keys| - 1]);
      assert keys == keys[..|keys| - 1] + [keys[|keys| - 1]];
    }
  }

  lemma {:induction false} NamedOfferIsNew(round: Round, mapped: set<string>, purchases: seq<string>, key: string)
    requires !Blank(key) && Normal(key) !in Excluded(purchases) && Offer(round, mapped, key).Some?
    ensures !Tried(purchases, Offer(round, mapped, key).value)
  {
    NamedOffer(round, mapped, key);
    Text.NormalIsIdempotent(key);
    BlankIsNormal(key);
  }

  /** Blank keys are never excluded. */
  lemma {:induction false} BlankIsKept(round: Round, purchases: seq<string>, key: string)
    requires Blank(key) && key in Named(round)
    ensures key in Filtered(Named(round), Excluded(purchases))
  {
    FilteredHolds(Named(round), Excluded(purchases));
    BlankIsNormal(key);
  }

  /** For every answer and every list of exclusions: a quote offers an excluded warehouse exactly when a blank key
      is named and passes the checks, and the first warehouse covering the order is an excluded one. */
  lemma {:induction false} ExcludedIsOfferedExactlyWhen(round: Round, mapped: set<string>, purchases: seq<string>)
    ensures (exists k | k in RoundOffers(round, mapped, purchases) :: Tried(purchases, k)) <==>
            BlankOffers(round, mapped) && Tried(purchases, FirstChoice(round).value)
  {
    if k :| k in RoundOffers(round, mapped, purchases) && Tried(purchases, k) {
      var key := OfferedKey(round, mapped, purchases, k);
      if Blank(key) { BlankOffer(round, mapped, key); } else { NamedOfferIsNew(round, mapped, purchases, key); }
    }
    if BlankOffers(round, mapped) && Tried(purchases, FirstChoice(round).value) {
      var k := BlankIsOffered(round, mapped, purchases);
    }
  }

  lemma {:induction false} BlankIsOffered(round: Round, mapped: set<string>, purchases: seq<string>) returns (k: string)
    requires BlankOffers(round, mapped)
    ensures k == FirstChoice(round).value && k in RoundOffers(round, mapped, purchases)
  {
    k := FirstChoice(round).value;
    var key :| key in Named(round) && Blank(key) && key in round.accounts;
    BlankOffer(round, mapped, key);
    BlankIsKept(round, purchases, key);
    OffersHold(round, mapped, Filtered(Named(round), Excluded(purchases)));
  }

  // ---- without such a key the loop ends ----

  /** No warehouse twice, and only mapped ones. */
  ghost predicate DistinctMapped(tried: seq<string>, mapped: set<string>) {
    && (forall i | 0 <= i < |tried| :: tried[i] in mapped && Normal(tried[i]) == tried[i])
    && (forall i, j | 0 <= i < j < |tried| :: tried[i] != tried[j])
  }

  lemma {:induction false} AtMostMapped(tried: seq<string>, mapped: set<string>)
    requires DistinctMapped(tried, mapped)
    ensures |tried| <= |mapped|
  {
    if tried != [] {
      var n := |tried| - 1;
      assert DistinctMapped(tried[..n], mapped - {tried[n]});
      AtMostMapped(tried[..n], mapped - {tried[n]});
    }
  }

  lemma {:induction false} QuotedIsNew(round: Round, mapped: set<string>, purchases: seq<string>)
    requires !BlankOffers(round, mapped) && round.pick in RoundOffers(round, mapped, purchases)
    ensures round.pick in mapped && Normal(round.pick) == round.pick && !Tried(purchases, round.pick)
  {
    var key := OfferedKey(round, mapped, purchases, round.pick);
    if Blank(key) { BlankOffer(round, mapped, key); }
    NamedOffer(round, mapped, key);
    NamedOfferIsNew(round, mapped, purchases, key);
    Text.NormalIsIdempotent(key);
  }

  /** The key an offer comes from. */
  lemma {:induction false} OfferedKey(round: Round, mapped: set<string>, purchases: seq<string>,
                                      k: string) returns (key: string)
    requires k in RoundOffers(round, mapped, purchases)
    ensures key in Named(round) && Normal(key) !in Excluded(purchases) && Offer(round, mapped, key) == Some(k)
  {
    var keys := Filtered(Named(round), Excluded(purchases));
    OffersHold(round, mapped, keys);
    FilteredHolds(Named(round), Excluded(purchases));
    key :| key in keys && Offer(round, mapped, key) == Some(k);
  }

  lemma {:induction false} OneMoreDistinct(mapped: set<string>, purchases: seq<string>, key: string)
    requires DistinctMapped(purchases, mapped) && key in mapped && Normal(key) == key && !Tried(purchases, key)
    ensures DistinctMapped(purchases + [key], mapped)
  {
    forall i | 0 <= i < |purchases| ensures purchases[i] != key { assert purchases[i] in purchases; }
  }

  /** What the loop has done when it is looked at. */
  ghost predicate Told(p: Progress, rounds: seq<Round>) {
    && |p.purchases| <= |rounds|
    && (forall i | 0 <= i < |p.purchases| - 1 :: rounds[i].purchase == OutOfStock)
    && match p
       case Going(purchases) => |purchases| == |rounds| && (rounds != [] ==> rounds[|rounds| - 1].purchase == OutOfStock)
       case Stopped(bought, purchases) => bought ==> purchases != [] && rounds[|purchases| - 1].purchase == Bought
  }

  /** No quote comes from a blank key. */
  ghost predicate NoBlankOffers(rounds: seq<Round>, mapped: set<string>) {
    forall i | 0 <= i < |rounds| :: !BlankOffers(rounds[i], mapped)
  }

  lemma {:induction false} OneMoreTold(p: Progress, q: Progress, rounds: seq<Round>, quoted: Option<string>)
    requires rounds != [] && Told(p, rounds[..|rounds| - 1]) && q == Counted(p, quoted, rounds[|rounds| - 1].purchase)
    ensures Told(q, rounds)
  {
  }

  lemma {:induction false} LastRound(rounds: seq<Round>, mapped: set<string>) returns (quoted: Option<string>)
    requires rounds != []
    ensures After(rounds, mapped) == Counted(After(rounds[..|rounds| - 1], mapped), quoted, rounds[|rounds| - 1].purchase)
  {
    quoted := Quoted(rounds[|rounds| - 1], mapped, After(rounds[..|rounds| - 1], mapped).purchases);
  }

  lemma {:induction false} RoundsAreTold(rounds: seq<Round>, mapped: set<string>)
    ensures Told(After(rounds, mapped), rounds)
  {
    if rounds != [] {
      RoundsAreTold(rounds[..|rounds| - 1], mapped);
      var quoted := LastRound(rounds, mapped);
      OneMoreTold(After(rounds[..|rounds| - 1], mapped), After(rounds, mapped), rounds, quoted);
    }
  }

  lemma {:induction false} ProceedsDistinct(p: Progress, round: Round, mapped: set<string>)
    requires DistinctMapped(p.purchases, mapped) && !BlankOffers(round, mapped)
    ensures DistinctMapped(Proceeded(p, round, mapped).purchases, mapped)
  {
    if p.Going? && round.pick in RoundOffers(round, mapped, p.purchases) {
      QuotedIsNew(round, mapped, p.purchases);
      OneMoreDistinct(mapped, p.purchases, round.pick);
    }
  }

  lemma {:induction false} RoundsAreDistinct(rounds: seq<Round>, mapped: set<string>)
    requires NoBlankOffers(rounds, mapped)
    ensures DistinctMapped(After(rounds, mapped).purchases, mapped)
  {
    if rounds != [] {
      RoundsAreDistinct(rounds[..|rounds| - 1], mapped);
      ProceedsDistinct(After(rounds[..|rounds| - 1], mapped), rounds[|rounds| - 1], mapped);
    }
  }

  /** Whatever else changes between the rounds: without quotes from blank keys every purchase goes to a mapped
      warehouse, none is tried twice, and the loop has ended after one round more than there are mapped warehouses,
      with a bought label only if the last purchase brought it. */
  lemma {:induction false} PurchaseDirectEnds(rounds: seq<Round>, mapped: set<string>)
    requires NoBlankOffers(rounds, mapped)
    ensures var p := After(rounds, mapped);
            && DistinctMapped(p.purchases, mapped) && |p.purchases| <= |mapped| && Told(p, rounds)
            && (|rounds| > |mapped| ==> p.Stopped?)
  {
    RoundsAreDistinct(rounds, mapped);
    RoundsAreTold(rounds, mapped);
    AtMostMapped(After(rounds, mapped).purchases, mapped);
  }

  /** Answers that name no blank key are enough. */
  lemma {:induction false} NamedKeysAreEnough(rounds: seq<Round>, mapped: set<string>)
    requires forall i, key | 0 <= i < |rounds| && key in Named(rounds[i]) :: !Blank(key)
    ensures NoBlankOffers(rounds, mapped)
  {
  }

  // ---- with such a key it need not ----

  function Repeat<T>(x: T, n: nat): (r: seq<T>)
    ensures |r| == n
  {
    if n == 0 then [] else Repeat(x, n - 1) + [x]
  }

  lemma {:induction false} RepeatAt<T>(x: T, n: nat, i: nat)
    requires i < n
    ensures Repeat(x, n)[i] == x
  {
    if i < n - 1 { RepeatAt(x, n - 1, i); }
  }

  lemma {:induction false} BlankProceeds(round: Round, mapped: set<string>, purchases: seq<string>)
    requires BlankOffers(round, mapped) && round.pick == FirstChoice(round).value && round.purchase == OutOfStock
    ensures Proceeded(Going(purchases), round, mapped) == Going(purchases + [round.pick])
  {
    var k := BlankIsOffered(round, mapped, purchases);
  }

  /** Whatever was tried, the round buys against its pick and goes on. */
  ghost predicate AlwaysGoesOn(round: Round, mapped: set<string>) {
    forall purchases :: Proceeded(Going(purchases), round, mapped) == Going(purchases + [round.pick])
  }

  lemma {:induction false} GoesOnForEver(round: Round, mapped: set<string>, n: nat)
    requires AlwaysGoesOn(round, mapped)
    ensures After(Repeat(round, n), mapped) == Going(Repeat(round.pick, n))
  {
    if n > 0 {
      var rounds, before := Repeat(round, n), Repeat(round.pick, n - 1);
      GoesOnForEver(round, mapped, n - 1);
      assert rounds[..n - 1] == Repeat(round, n - 1) && rounds[..n] == rounds;
      AfterRound(rounds, mapped, n - 1, Going(before), Going(before + [round.pick]));
    }
  }

  /** An answer that keeps quoting a blank key, and a reservation that keeps failing for capacity, make the loop
      purchase against the first warehouse for ever: after any number of rounds it goes on. */
  lemma {:induction false} BlankKeyNeverEnds(round: Round, mapped: set<string>, n: nat)
    requires BlankOffers(round, mapped) && round.pick == FirstChoice(round).value && round.purchase == OutOfStock
    ensures After(Repeat(round, n), mapped) == Going(Repeat(round.pick, n))
  {
    forall purchases ensures Proceeded(Going(purchases), round, mapped) == Going(purchases + [round.pick]) {
      BlankProceeds(round, mapped, purchases);
    }
    GoesOnForEver(round, mapped, n);
  }

  /** The same answers; the choice of an offer and the outcome of the purchase are free. */
  predicate SameAnswers(a: Round, b: Round) {
    a == b.(pick := a.pick, purchase := a.purchase)
  }

  ghost predicate AllAnswer(rounds: seq<Round>, round: Round) {
    forall i | 0 <= i < |rounds| :: SameAnswers(rounds[i], round)
  }

  /** Under the same answers in every round the loop ends in time, whatever is chosen and however the purchases
      go, exactly when the answers quote no blank key. */
  lemma {:induction false} LoopEndsExactlyWhen(round: Round, mapped: set<string>, n: nat)
    requires n > |mapped|
    ensures (forall rounds | |rounds| == n && AllAnswer(rounds, round) :: After(rounds, mapped).Stopped?) <==> !BlankOffers(round, mapped)
  {
    if BlankOffers(round, mapped) {
      var stuck := round.(pick := FirstChoice(round).value, purchase := OutOfStock);
      var rounds := Repeat(stuck, n);
      BlankKeyNeverEnds(stuck, mapped, n);
      forall i | 0 <= i < n ensures SameAnswers(rounds[i], round) { RepeatAt(stuck, n, i); }
      assert AllAnswer(rounds, round) && After(rounds, mapped).Going?;
    } else {
      forall rounds | |rounds| == n && AllAnswer(rounds, round) ensures After(rounds, mapped).Stopped? {
        forall i | 0 <= i < n ensures !BlankOffers(rounds[i], mapped) {
          assert SameAnswers(rounds[i], round);
          SameAnswersSameBlank(rounds[i], round, mapped);
        }
        PurchaseDirectEnds(rounds, mapped);
      }
    }
  }

  lemma {:induction false} SameAnswersSameBlank(a: Round, b: Round, mapped: set<string>)
    requires SameAnswers(a, b)
    ensures BlankOffers(a, mapped) <==> BlankOffers(b, mapped)
    ensures FirstChoice(a) == FirstChoice(b)
  {
  }

  // ---- one inventory answer that is enough ----

  /** The answer offers `w`, and beside it an entry without a key whose account is accepted; nothing else passes. */
  function WithBlank(sku: string, quantity: int, w: Warehouse, blank: Warehouse): Round {
    Round([Entry(sku, [w, blank])], map[sku := quantity], {blank.key}, {Normal(w.key)}, w.key, OutOfStock)
  }

  lemma {:induction false} BlankIsQuoted(sku: string, quantity: int, w: Warehouse, blank: Warehouse)
    requires Blank(blank.key) && blank.key != w.key && w.selectable && w.available >= quantity as real
    ensures BlankOffers(WithBlank(sku, quantity, w, blank), {Normal(w.key)})
    ensures FirstChoice(WithBlank(sku, quantity, w, blank)) == Some(w.key)
  {
    var round := WithBlank(sku, quantity, w, blank);
    OffersOf(w, blank, quantity);
    FirstIsSelected(round.records, sku, quantity, [w.key, blank.key]);
    AllAreNamed(w, blank);
    assert Named(round)[1] == blank.key;
  }

  lemma {:induction false} AllAreNamed(w: Warehouse, x: Warehouse)
    ensures Offered([w, x], "auto") == [w.key, x.key]
  {
    assert [w, x][..1] == [w] && [w][..0] == [];
    assert Offered([], "auto") == [];
  }

  /** When `w` has no physical code besides, the same answer also makes every reservation fail, which counts as a
      lack of capacity: then the loop really purchases against `w` for ever. */
  lemma {:induction false} BlankEntryNeverEnds(sku: string, quantity: int, w: Warehouse, blank: Warehouse, n: nat)
    requires Blank(blank.key) && blank.key != w.key && w.selectable && w.available >= quantity as real && Blank(w.code)
    ensures var round := WithBlank(sku, quantity, w, blank);
            && Requested(round.records, w.key, round.quantities).Err?
            && After(Repeat(round, n), {Normal(w.key)}) == Going(Repeat(w.key, n))
  {
    var round := WithBlank(sku, quantity, w, blank);
    BlankIsQuoted(sku, quantity, w, blank);
    BlankKeyNeverEnds(round, {Normal(w.key)}, n);
    CodelessIsRefused(round.records, [w, blank], w);
  }

  lemma {:induction false} CodelessIsRefused(records: seq<Record>, ws: seq<Warehouse>, w: Warehouse)
    requires |records| == 1 && records[0].warehouses == Some(ws) && w in ws && Blank(w.code)
    ensures !CodesAgree(records, Normal(w.key))
    ensures forall quantities :: Requested(records, w.key, quantities).Err?
  {
    var key := Normal(w.key);
    var regions := Regional(records[0]);
    GroupedLists(ws, w);
    Text.UpperIsIdempotent(Text.Trim(w.key));
    var i :| 0 <= i < |regions| && w in regions[i].warehouses;
    if code :| code != "" && RecordsCoded(records, key, code) {
      assert RegionsCoded(regions, key, code);
      assert AllCoded(regions[i].warehouses, key, code);
      assert Matches(w, key);
      BlankIsNormal(w.code);
      assert false;
    }
    ReadingPassesExactlyWhen(records, key);
  }

  const DPS := Warehouse("DPS002", "east", "", 10.0, true)
  const KEYLESS := Warehouse("", "east", "C", 10.0, true)

  lemma {:induction false} DpsIsNormal()
    ensures Normal("DPS002") == "DPS002"
  {
    Text.TrimmedEnds("DPS002");
    forall i | 0 <= i < 6 ensures Text.Upper("DPS002")[i] == "DPS002"[i] { Text.UpperAt("DPS002", i); }
  }

  lemma {:induction false} OnlyBlankIsLeft(key: string, blank: string)
    requires Normal(key) == key != "" && Blank(blank)
    ensures Filtered([key, blank], Excluded([key])) == [blank]
  {
    BlankIsNormal(blank);
    assert [key, blank][..1] == [key] && [key][..0] == [] && Filtered([], Excluded([key])) == [];
    assert Normal(key) in Excluded([key]);
    assert forall x | x in Excluded([key]) :: x == key;
  }

  lemma {:induction false} WithBlankGoesOn(w: Warehouse, blank: Warehouse, n: nat)
    requires Normal(w.key) == w.key && Blank(blank.key) && blank.key != w.key && w.selectable && w.available >= 1.0 && Blank(w.code)
    ensures Named(WithBlank("S", 1, w, blank)) == [w.key, blank.key]
    ensures After(Repeat(WithBlank("S", 1, w, blank), n), {w.key}) == Going(Repeat(w.key, n))
  {
    AllAreNamed(w, blank);
    BlankEntryNeverEnds("S", 1, w, blank, n);
  }

  /** For instance a warehouse without a code and an entry without a key. */
  lemma {:induction false} DpsNeverEnds(n: nat)
    ensures Named(WithBlank("S", 1, DPS, KEYLESS)) == ["DPS002", ""]
    ensures Filtered(["DPS002", ""], Excluded(["DPS002"])) == [""]
    ensures After(Repeat(WithBlank("S", 1, DPS, KEYLESS), n), {"DPS002"}) == Going(Repeat("DPS002", n))
  {
    DpsIsNormal();
    OnlyBlankIsLeft(DPS.key, KEYLESS.key);
    WithBlankGoesOn(DPS, KEYLESS, n);
  }

  // ---- one round ----

  lemma {:induction false} FilteredLast(keys: seq<string>, key: string, excluded: set<string>)
    ensures Filtered(keys + [key], excluded) == Filtered(keys, excluded) + Filtered([key], excluded)
  {
    assert (keys + [key])[..|keys|] == keys && [key][..0] == [];
  }

  lemma {:induction false} FilteredAddsUp(a: seq<string>, b: seq<string>, excluded: set<string>)
    ensures Filtered(a + b, excluded) == Filtered(a, excluded) + Filtered(b, excluded)
  {
    if b == [] {
      assert a + b == a;
    } else {
      var front, key := b[..|b| - 1], b[|b| - 1];
      assert b == front + [key] && a + b == (a + front) + [key];
      FilteredAddsUp(a, front, excluded);
      FilteredLast(a + front, key, excluded);
      FilteredLast(front, key, excluded);
    }
  }

  /** A key is dropped exactly when an excluded key says the same up to case and surrounding spaces, and is not blank. */
  lemma {:induction false} FilteredOne(key: string, list: seq<string>)
    ensures Filtered([key], Excluded(list)) == if !Blank(key) && Tried(list, key) then [] else [key]
  {
    assert [key][..0] == [] && Filtered([], Excluded(list)) == [];
    BlankIsNormal(key);
    if p :| p in list && Normal(p) == Normal(key) { assert Normal(key) != "" ==> Normal(p) in Excluded(list); }
  }

  /** The warehouses of known regions, however their keys are written. */
  lemma {:induction false} RegionsOfWarehouses(key: string)
    ensures WarehouseRegion(key) == "east" <==> Normal(key) in ["DPS002", "ARP_EAST", "ARP_ATLANTA"]
    ensures WarehouseRegion(key) == "west" <==> Normal(key) in ["DPS004", "ARP_WEST"]
    ensures WarehouseRegion(key) == "central" <==> Normal(key) == "ARP_HOUSTON"
    ensures WarehouseRegion(key) in ["east", "west", "central", ""]
  {
  }

  /** A key that is not blank is quoted as the warehouse it names or not at all: the selection must take it in its
      region, and account, mapping and carriers must pass. */
  lemma {:induction false} OfferExactlyWhen(round: Round, mapped: set<string>, key: string)
    requires !Blank(key)
    ensures Offer(round, mapped, key) ==
            if Selected(round.records, WarehouseRegion(key), round.quantities, key).Ok?
               && key in round.accounts && Normal(key) in mapped && Normal(key) in round.open
            then Some(Normal(key)) else None
  {
    if Selected(round.records, WarehouseRegion(key), round.quantities, key).Ok? {
      SelectionIsInRegion(round.records, WarehouseRegion(key), round.quantities, key);
      Text.NormalIsIdempotent(key);
    }
  }

  /** Exactly how a round ends that the loop reaches: without an offer picked there is no purchase; a purchase short of
      stock leads to the next round, and any other ends the loop with its outcome. */
  lemma {:induction false} RoundMeans(round: Round, mapped: set<string>, purchases: seq<string>)
    ensures var offered := exists key | key in Named(round) ::
                             Normal(key) !in Excluded(purchases) && Offer(round, mapped, key) == Some(round.pick);
            var p := Proceeded(Going(purchases), round, mapped);
            if !offered then p == Stopped(false, purchases)
            else if round.purchase == OutOfStock then p == Going(purchases + [round.pick])
            else p == Stopped(round.purchase == Bought, purchases + [round.pick])
  {
    var keys := Filtered(Named(round), Excluded(purchases));
    FilteredHolds(Named(round), Excluded(purchases));
    OffersHold(round, mapped, keys);
    if round.pick in RoundOffers(round, mapped, purchases) {
      var key := OfferedKey(round, mapped, purchases, round.pick);
    }
  }

  /** The inventory answer names the warehouses of its first record, in order. */
  lemma {:induction false} NamedMeans(round: Round)
    ensures |Named(round)| == |FirstOffers(round.records)|
    ensures forall i | 0 <= i < |Named(round)| :: Named(round)[i] == FirstOffers(round.records)[i].key
  {
    AllOffered(FirstOffers(round.records));
  }

  lemma {:induction false} AllOffered(ws: seq<Warehouse>)
    ensures |Offered(ws, "auto")| == |ws| && forall i | 0 <= i < |ws| :: Offered(ws, "auto")[i] == ws[i].key
  {
    if ws != [] { AllOffered(ws[..|ws| - 1]); }
  }
}
