/** Choosing a carrier among the quotes of several warehouses (internal/service/service.go,
    internal/service/gofo_premium.go). Amounts are exact numbers; the code's 0.000001 tolerance is kept. */
module CarrierChoice {
  import opened Common
  import opened StableSorting
  import Text

  const TOLERANCE: real := 0.000001

  datatype Mode = LowestPrice | CarrierPriority | GofoPremium

  /** `warehouseIndex` is the place of the warehouse in the order the quotes arrived in; `carrier` is the
      recognized carrier code; mode, delta and tie priority come from the rules of the warehouse. */
  datatype Candidate = Candidate(warehouseIndex: nat, warehouse: string, temuWarehouse: string, channel: int, company: int,
                                 carrier: string, currency: string, amount: real, priority: int, mode: Mode, delta: real, tie: int)

  datatype Refusal = NoChannel | MixedCurrencies | NotAllowed | MixedRules | NotDollars | EmptyWindow

  function Abs(x: real): real {
    if x < 0.0 then -x else x
  }

  // ---- the comparisons ----

  /** `betterChannelCandidate` */
  predicate Better(a: Candidate, b: Candidate) {
    if Abs(a.amount - b.amount) > TOLERANCE then a.amount < b.amount
    else if a.tie != b.tie then a.tie < b.tie
    else a.channel < b.channel
  }

  /** `effectiveCarrierPriority` */
  function Priority(c: Candidate): int {
    if c.priority > 0 then c.priority else 1000
  }

  /** The order inside the price window. */
  predicate Favoured(a: Candidate, b: Candidate) {
    if a.mode == CarrierPriority && b.mode == CarrierPriority && Priority(a) != Priority(b) then Priority(a) < Priority(b)
    else Better(a, b)
  }

  /** The order of `selectGOFOPremiumChannel`. */
  predicate GofoOrder(a: Candidate, b: Candidate) {
    if Abs(a.amount - b.amount) > TOLERANCE then a.amount < b.amount
    else if Priority(a) != Priority(b) then Priority(a) < Priority(b)
    else Better(a, b)
  }

  // ---- the choice ----

  function Currency(c: Candidate): string {
    Text.Upper(Text.Trim(c.currency))
  }

  predicate Clash(cs: seq<Candidate>) {
    exists a, b | a in cs && b in cs :: Clashing(a, b)
  }

  predicate Clashing(a: Candidate, b: Candidate) {
    Currency(a) != "" && Currency(b) != "" && Currency(a) != Currency(b)
  }

  predicate Foreign(cs: seq<Candidate>) {
    exists c | c in cs :: c.currency != "USD"
  }

  predicate InWindow(c: Candidate, minimum: real) {
    c.amount <= minimum + (if c.mode == LowestPrice then 0.0 else c.delta) + TOLERANCE
  }

  function Window(items: seq<Candidate>, minimum: real): seq<Candidate> {
    if items == [] then []
    else Window(items[..|items| - 1], minimum) + if InWindow(items[|items| - 1], minimum) then [items[|items| - 1]] else []
  }

  function OnChannel(items: seq<Candidate>, channel: int): seq<Candidate> {
    if items == [] then []
    else OnChannel(items[..|items| - 1], channel) + if items[|items| - 1].channel == channel then [items[|items| - 1]] else []
  }

  predicate AllMode(items: seq<Candidate>, mode: Mode) {
    forall c | c in items :: c.mode == mode
  }

  /** The first GOFO offer of the sorted list. */
  function FirstGofo(items: seq<Candidate>): Option<Candidate> {
    if items == [] then None
    else
      var n := |items| - 1;
      if FirstGofo(items[..n]).Some? then FirstGofo(items[..n])
      else if items[n].carrier == "GOFO" then Some(items[n]) else None
  }

  predicate Competes(c: Candidate) {
    c.carrier == "SWIFTX" || c.carrier == "SPEEDX"
  }

  /** The lowest competing amount; `None` stands for the initial infinity. */
  function Competitor(items: seq<Candidate>): Option<real> {
    if items == [] then None
    else
      var n := |items| - 1;
      if Competes(items[n]) && (Competitor(items[..n]).None? || items[n].amount < Competitor(items[..n]).value)
      then Some(items[n].amount) else Competitor(items[..n])
  }

  predicate GofoWins(items: seq<Candidate>) {
    && FirstGofo(items).Some? && Competitor(items).Some?
    && FirstGofo(items).value.amount <= Competitor(items).value + FirstGofo(items).value.delta + TOLERANCE
  }

  function GofoSelected(candidates: seq<Candidate>): Result<Candidate, Refusal>
    requires candidates != []
  {
    if Foreign(candidates) then Err(NotDollars) else Ok(GofoPick(StableSort(GofoOrder, candidates)))
  }

  function GofoPick(items: seq<Candidate>): Candidate
    requires items != []
  {
    if GofoWins(items) then FirstGofo(items).value else items[0]
  }

  /** The choice from the sorted list. */
  function WindowSelected(items: seq<Candidate>): Result<Candidate, Refusal>
    requires items != []
  {
    var within := Window(items, items[0].amount);
    if within == [] then Err(EmptyWindow) else Ok(StableSort(Favoured, within)[0])
  }

  function SortedSelected(items: seq<Candidate>): Result<Candidate, Refusal>
    requires items != []
  {
    if items[0].mode == GofoPremium then
      if AllMode(items, GofoPremium) then GofoSelected(items) else Err(MixedRules)
    else WindowSelected(items)
  }

  function Preferred(items: seq<Candidate>, channel: int): Result<Candidate, Refusal> {
    var manual := OnChannel(items, channel);
    if manual == [] then Err(NotAllowed) else Ok(StableSort(Better, manual)[0])
  }

  function ChosenFrom(items: seq<Candidate>, preferred: int): Result<Candidate, Refusal>
    requires items != []
  {
    if preferred != 0 then Preferred(items, preferred) else SortedSelected(items)
  }

  /** `selectAutomaticChannel`; `EmptyWindow` is where the code would index an empty slice. */
  function Selected(candidates: seq<Candidate>, preferred: int): Result<Candidate, Refusal> {
    if candidates == [] then Err(NoChannel)
    else if Clash(candidates) then Err(MixedCurrencies)
    else ChosenFrom(StableSort(Better, candidates), preferred)
  }

  // ---- orders on the price grid ----

  function Grid(n: int): real {
    n as real / 10000.0
  }

  /** Amounts are whole multiples of 1/10000. */
  ghost predicate OnGrid(x: real) {
    exists n :: x == Grid(n)
  }

  ghost predicate AllOnGrid(cs: seq<Candidate>) {
    forall c | c in cs :: OnGrid(c.amount)
  }

  /** On the grid the tolerance compares exactly. */
  lemma {:induction false} GridIsExact(x: real, y: real)
    requires OnGrid(x) && OnGrid(y)
    ensures Abs(x - y) > TOLERANCE <==> x != y
  {
    var n :| x == Grid(n);
    var m :| y == Grid(m);
    assert x - y == (n - m) as real / 10000.0;
    if x != y { assert n != m; }
  }

  // ---- when the comparison is an order ----

  /** Two amounts the comparison does not tell apart. */
  predicate Close(x: real, y: real) {
    -TOLERANCE <= x - y <= TOLERANCE
  }

  /** Candidates that are not close go by amount; close ones by tie priority and channel. */
  lemma {:induction false} BetterMeans(a: Candidate, b: Candidate)
    ensures Better(a, b) <==> if Close(a.amount, b.amount) then a.tie < b.tie || (a.tie == b.tie && a.channel < b.channel) else a.amount < b.amount
  {
  }

  ghost predicate CloseIsTransitive(amounts: set<real>) {
    forall x, y, z | x in amounts && y in amounts && z in amounts && Close(x, y) && Close(y, z) :: Close(x, z)
  }

  function Amounts(cs: seq<Candidate>): set<real> {
    set c | c in cs :: c.amount
  }

  predicate ChainsClose(x: real, y: real, z: real) {
    Close(x, y) && Close(y, z) ==> Close(x, z)
  }

  lemma {:induction false} BetterChains(a: Candidate, b: Candidate, c: Candidate)
    requires ChainsClose(a.amount, b.amount, c.amount) && ChainsClose(b.amount, a.amount, c.amount) && ChainsClose(a.amount, c.amount, b.amount)
    ensures Better(a, b) && Better(b, c) ==> Better(a, c)
    ensures !Better(a, b) && !Better(b, c) ==> !Better(a, c)
  {
  }

  lemma {:induction false} BetterIsOrder(cs: seq<Candidate>)
    requires CloseIsTransitive(Amounts(cs))
    ensures StrictWeakOn(Better, cs)
  {
    forall a, b, c | a in cs && b in cs && c in cs
      ensures Better(a, b) && Better(b, c) ==> Better(a, c)
      ensures !Better(a, b) && !Better(b, c) ==> !Better(a, c)
    {
      assert a.amount in Amounts(cs) && b.amount in Amounts(cs) && c.amount in Amounts(cs);
      BetterChains(a, b, c);
    }
  }

  /** Three amounts of which only the outer two differ make candidates with one tie priority cycle. */
  lemma {:induction false} BetterCycles(a: Candidate, b: Candidate, c: Candidate)
    requires Close(a.amount, b.amount) && Close(b.amount, c.amount) && !Close(a.amount, c.amount) && c.amount < a.amount
    requires a.tie == b.tie == c.tie && a.channel < b.channel < c.channel
    ensures Better(a, b) && Better(b, c) && Better(c, a)
  {
  }

  /** Off such amounts the comparison is no order: three prices a little apart are equal, equal, and different. */
  lemma {:induction false} BetterIsNotTransitive(x: real, y: real, z: real) returns (cs: seq<Candidate>)
    requires Close(x, y) && Close(y, z) && !Close(x, z)
    ensures Amounts(cs) == {x, y, z} && !StrictWeakOn(Better, cs)
  {
    var (low, high) := if x < z then (x, z) else (z, x);
    var a := Candidate(0, "W", "T", 1, 0, "", "", high, 0, LowestPrice, 0.0, 0);
    var b := a.(channel := 2, amount := y);
    var c := a.(channel := 3, amount := low);
    BetterCycles(a, b, c);
    cs := [a, b, c];
    assert a in cs && b in cs && c in cs;
    assert Amounts(cs) == {high, y, low};
  }

  /** The comparison orders all candidates with these amounts exactly when closeness is transitive on them. */
  lemma {:induction false} BetterIsOrderExactlyWhen(amounts: set<real>)
    ensures (forall cs | Amounts(cs) <= amounts :: StrictWeakOn(Better, cs)) <==> CloseIsTransitive(amounts)
  {
    if CloseIsTransitive(amounts) {
      forall cs | Amounts(cs) <= amounts ensures StrictWeakOn(Better, cs) { BetterIsOrder(cs); }
    } else {
      var x, y, z :| x in amounts && y in amounts && z in amounts && Close(x, y) && Close(y, z) && !Close(x, z);
      var cs := BetterIsNotTransitive(x, y, z);
      assert Amounts(cs) <= amounts;
    }
  }

  /** On the grid only equal amounts are close. */
  lemma {:induction false} BetterIsOrderOnGrid(cs: seq<Candidate>)
    requires AllOnGrid(cs)
    ensures CloseIsTransitive(Amounts(cs)) && StrictWeakOn(Better, cs)
  {
    forall x, y | x in Amounts(cs) && y in Amounts(cs) ensures Close(x, y) <==> x == y { GridIsExact(x, y); }
    BetterIsOrder(cs);
  }

  /** On the grid: strictly less in (amount, tie priority, channel). */
  predicate Precedes(a: Candidate, b: Candidate) {
    a.amount < b.amount || (a.amount == b.amount && (a.tie < b.tie || (a.tie == b.tie && a.channel < b.channel)))
  }

  lemma {:induction false} BetterIsPrecedes(a: Candidate, b: Candidate)
    requires OnGrid(a.amount) && OnGrid(b.amount)
    ensures Better(a, b) <==> Precedes(a, b)
  {
    GridIsExact(a.amount, b.amount);
  }

  /** A carrier without a priority stands behind the first 999. */
  function Rank(c: Candidate): int {
    if c.priority <= 0 then 1000 else c.priority
  }

  /** With one mode for all: strictly less in (priority if the mode uses it, amount, tie priority, channel). */
  predicate FavouredExactly(a: Candidate, b: Candidate, mode: Mode) {
    if mode == CarrierPriority && Rank(a) != Rank(b) then Rank(a) < Rank(b) else Precedes(a, b)
  }

  lemma {:induction false} FavouredIsOrder(cs: seq<Candidate>, mode: Mode)
    requires AllOnGrid(cs) && AllMode(cs, mode)
    ensures StrictWeakOn(Favoured, cs)
    ensures forall a, b | a in cs && b in cs :: Favoured(a, b) <==> FavouredExactly(a, b, mode)
  {
    forall a, b | a in cs && b in cs ensures Favoured(a, b) <==> FavouredExactly(a, b, mode) { BetterIsPrecedes(a, b); }
  }

  predicate GofoExactly(a: Candidate, b: Candidate) {
    a.amount < b.amount || (a.amount == b.amount && if Rank(a) != Rank(b) then Rank(a) < Rank(b) else Precedes(a, b))
  }

  lemma {:induction false} GofoIsOrder(cs: seq<Candidate>)
    requires AllOnGrid(cs)
    ensures StrictWeakOn(GofoOrder, cs)
    ensures forall a, b | a in cs && b in cs :: GofoOrder(a, b) <==> GofoExactly(a, b)
  {
    forall a, b | a in cs && b in cs ensures GofoOrder(a, b) <==> GofoExactly(a, b) {
      GridIsExact(a.amount, b.amount);
      BetterIsPrecedes(a, b);
    }
  }

  /** In the GOFO order close candidates go by rank first. */
  lemma {:induction false} GofoOrderMeans(a: Candidate, b: Candidate)
    ensures GofoOrder(a, b) <==>
            if Close(a.amount, b.amount) then Rank(a) < Rank(b) || (Rank(a) == Rank(b) && Better(a, b)) else a.amount < b.amount
  {
  }

  /** In the price window the rank comes first where both rules use it. */
  lemma {:induction false} FavouredMeans(a: Candidate, b: Candidate)
    ensures Favoured(a, b) <==>
            if a.mode == b.mode == CarrierPriority then Rank(a) < Rank(b) || (Rank(a) == Rank(b) && Better(a, b)) else Better(a, b)
  {
  }
}
