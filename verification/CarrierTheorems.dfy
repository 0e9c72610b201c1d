/** What the carrier choice guarantees. */
module CarrierTheorems {
  import opened Common
  import opened StableSorting
  import opened CarrierChoice
  import Text

  // ---- the window ----

  lemma {:induction false} WindowHolds(items: seq<Candidate>, minimum: real)
    ensures forall c :: c in Window(items, minimum) <==> c in items && InWindow(c, minimum)
  {
    if items != [] {
      var n := |items| - 1;
      WindowHolds(items[..n], minimum);
      assert items == items[..n] + [items[n]];
    }
  }

  /** What makes `choice` the right one among `candidates` when all warehouses follow one mode. */
  ghost predicate BestInWindow(choice: Candidate, candidates: seq<Candidate>, mode: Mode, minimum: real) {
    && choice in candidates && InWindow(choice, minimum)
    && forall c | c in candidates && InWindow(c, minimum) :: !FavouredExactly(c, choice, mode)
  }

  ghost predicate IsMinimum(minimum: real, candidates: seq<Candidate>) {
    (exists c | c in candidates :: c.amount == minimum) && forall c | c in candidates :: minimum <= c.amount
  }

  lemma {:induction false} HeadIsCheapest(candidates: seq<Candidate>)
    requires candidates != [] && AllOnGrid(candidates)
    ensures var first := StableSort(Better, candidates)[0];
            first in candidates && IsMinimum(first.amount, candidates) && forall c | c in candidates :: !Precedes(c, first)
  {
    var first := StableSort(Better, candidates)[0];
    BetterIsOrderOnGrid(candidates);
    HeadIsLeast(Better, candidates);
    forall c | c in candidates ensures !Precedes(c, first) { BetterIsPrecedes(c, first); }
  }

  /** With one mode (not the GOFO one) and no negative delta the window is never empty, and the choice is
      the least in (priority if the mode uses it, amount, tie priority, channel) among the candidates
      within the cheapest amount plus their own delta. */
  lemma {:induction false} ChoiceIsBestInWindow(candidates: seq<Candidate>, mode: Mode)
    requires candidates != [] && AllOnGrid(candidates) && !Clash(candidates)
    requires AllMode(candidates, mode) && mode != GofoPremium && forall c | c in candidates :: c.delta >= 0.0
    ensures Selected(candidates, 0).Ok?
    ensures BestInWindow(Selected(candidates, 0).value, candidates, mode, StableSort(Better, candidates)[0].amount)
    ensures IsMinimum(StableSort(Better, candidates)[0].amount, candidates)
  {
    var items := StableSort(Better, candidates);
    var minimum := items[0].amount;
    HeadIsCheapest(candidates);
    SameElements(candidates, items);
    var within := Window(items, minimum);
    WindowHolds(items, minimum);
    assert items[0] in within;
    FavouredIsOrder(within, mode);
    HeadIsLeast(Favoured, within);
  }

  /** On the grid: at most its own delta above the cheapest amount, in lowest-price mode nothing above it. */
  predicate Affordable(c: Candidate, minimum: real) {
    if c.mode == LowestPrice then c.amount <= minimum else c.amount <= minimum + c.delta
  }

  lemma {:induction false} AffordableIsInWindow(c: Candidate, minimum: real)
    requires OnGrid(c.amount) && OnGrid(minimum) && OnGrid(c.delta)
    ensures Affordable(c, minimum) <==> InWindow(c, minimum)
  {
    if InWindow(c, minimum) {
      if c.mode == LowestPrice { GridIsExact(c.amount, minimum); } else { GridSum(c.amount, minimum, c.delta); }
    }
  }

  /** With deltas on the grid too the tolerance is gone: the choice is the least of the affordable candidates. */
  lemma {:induction false} ChoiceIsBestAffordable(candidates: seq<Candidate>, mode: Mode, minimum: real, c: Candidate)
    requires AllOnGrid(candidates) && !Clash(candidates) && AllMode(candidates, mode) && mode != GofoPremium
    requires (forall x | x in candidates :: x.delta >= 0.0 && OnGrid(x.delta)) && IsMinimum(minimum, candidates) && c in candidates
    ensures Selected(candidates, 0).Ok? && Selected(candidates, 0).value in candidates && Affordable(Selected(candidates, 0).value, minimum)
    ensures Affordable(c, minimum) ==> !FavouredExactly(c, Selected(candidates, 0).value, mode)
  {
    ChoiceIsBestInWindow(candidates, mode);
    var first := StableSort(Better, candidates)[0];
    HeadIsCheapest(candidates);
    assert first.amount == minimum;
    AffordableIsInWindow(Selected(candidates, 0).value, minimum);
    AffordableIsInWindow(c, minimum);
  }

  lemma {:induction false} NoneIsEmpty(items: seq<Candidate>)
    ensures items == [] <==> forall c :: c !in items
  {
    if items != [] { assert items[0] in items; }
  }

  /** Outside the GOFO mode the choice indexes an empty window exactly when no candidate is within the cheapest
      amount plus its own delta, which takes a negative delta of every cheapest candidate. */
  lemma {:induction false} WindowIsEmptyExactlyWhen(candidates: seq<Candidate>, minimum: real)
    requires candidates != [] && AllOnGrid(candidates) && !Clash(candidates) && IsMinimum(minimum, candidates)
    requires StableSort(Better, candidates)[0].mode != GofoPremium
    ensures Selected(candidates, 0) == Err(EmptyWindow) <==> forall c | c in candidates :: !InWindow(c, minimum)
    ensures Selected(candidates, 0) == Err(EmptyWindow) ==>
              forall c | c in candidates && c.amount == minimum :: c.mode != LowestPrice && c.delta < 0.0
  {
    var items := StableSort(Better, candidates);
    HeadIsCheapest(candidates);
    SameElements(candidates, items);
    assert items[0].amount == minimum;
    WindowHolds(items, minimum);
    NoneIsEmpty(Window(items, minimum));
  }

  lemma {:induction false} SortedHeadIsMember(less: (Candidate, Candidate) -> bool, items: seq<Candidate>)
    requires items != []
    ensures StableSort(less, items)[0] in items
  {
    SameElements(items, StableSort(less, items));
    assert StableSort(less, items)[0] in StableSort(less, items);
  }

  /** An amount no more than its delta and a millionth above the cheapest one. */
  predicate WithinReach(c: Candidate, minimum: real) {
    c.amount - minimum <= 0.000001 + if c.mode == LowestPrice then 0.0 else c.delta
  }

  /** Whatever the mixture of rules and whatever the amounts, the choice is a candidate within its own delta of the
      first one in order, and there is none exactly when nobody is. */
  lemma {:induction false} ChoiceIsInReach(candidates: seq<Candidate>)
    requires candidates != [] && !Clash(candidates) && StableSort(Better, candidates)[0].mode != GofoPremium
    ensures var (r, first) := (Selected(candidates, 0), StableSort(Better, candidates)[0]);
            && (r.Ok? <==> exists c | c in candidates :: WithinReach(c, first.amount))
            && (r.Ok? ==> r.value in candidates && WithinReach(r.value, first.amount))
            && (r.Err? ==> r.error == EmptyWindow)
  {
    var items := StableSort(Better, candidates);
    SameElements(candidates, items);
    var within := Window(items, items[0].amount);
    WindowHolds(items, items[0].amount);
    forall c ensures InWindow(c, items[0].amount) <==> WithinReach(c, items[0].amount) {}
    NoneIsEmpty(within);
    if within != [] { SortedHeadIsMember(Favoured, within); }
  }

  /** One offer whose rule has a negative delta is enough. */
  lemma {:induction false} NegativeDeltaEmptiesWindow(c: Candidate)
    requires OnGrid(c.amount) && c.mode == CarrierPriority && c.delta <= -1.0
    ensures Selected([c], 0) == Err(EmptyWindow)
  {
    assert IsMinimum(c.amount, [c]) by { assert c in [c]; }
    WindowIsEmptyExactlyWhen([c], c.amount);
  }

  /** In lowest-price mode that is the cheapest amount itself. */
  lemma {:induction false} LowestPriceIsMinimum(candidates: seq<Candidate>)
    requires candidates != [] && AllOnGrid(candidates) && !Clash(candidates)
    requires AllMode(candidates, LowestPrice) && forall c | c in candidates :: c.delta >= 0.0
    ensures Selected(candidates, 0).Ok? && IsMinimum(Selected(candidates, 0).value.amount, candidates)
  {
    ChoiceIsBestInWindow(candidates, LowestPrice);
    var choice := Selected(candidates, 0).value;
    var first := StableSort(Better, candidates)[0];
    HeadIsCheapest(candidates);
    GridIsExact(choice.amount, first.amount);
  }

  /** A choice never costs more than the cheapest amount plus the largest delta. */
  lemma {:induction false} ChoiceWithinDelta(candidates: seq<Candidate>, mode: Mode, delta: real)
    requires candidates != [] && AllOnGrid(candidates) && !Clash(candidates) && AllMode(candidates, mode) && mode != GofoPremium
    requires OnGrid(delta) && forall c | c in candidates :: 0.0 <= c.delta <= delta
    ensures Selected(candidates, 0).Ok? && Selected(candidates, 0).value in candidates
    ensures forall c | c in candidates :: Selected(candidates, 0).value.amount <= c.amount + delta
  {
    ChoiceIsBestInWindow(candidates, mode);
    var choice := Selected(candidates, 0).value;
    var minimum := StableSort(Better, candidates)[0].amount;
    HeadIsCheapest(candidates);
    GridSum(choice.amount, minimum, delta);
  }

  lemma {:induction false} GridSum(x: real, y: real, delta: real)
    requires OnGrid(x) && OnGrid(y) && OnGrid(delta) && x <= y + delta + TOLERANCE
    ensures x <= y + delta
  {
    var n :| y == Grid(n);
    var m :| delta == Grid(m);
    assert y + delta == Grid(n + m);
    GridIsExact(x, y + delta);
  }

  /** Whatever the rules, prices and currencies, a choice is one of the candidates. */
  lemma {:induction false} ChoiceIsCandidate(candidates: seq<Candidate>)
    requires Selected(candidates, 0).Ok?
    ensures Selected(candidates, 0).value in candidates
  {
    var items := StableSort(Better, candidates);
    SameElements(candidates, items);
    if items[0].mode == GofoPremium {
      var ranked := StableSort(GofoOrder, items);
      SortedHeadIsMember(GofoOrder, items);
      SameElements(items, ranked);
      FirstGofoIsFirst(ranked);
    } else {
      var within := Window(items, items[0].amount);
      WindowHolds(items, items[0].amount);
      SortedHeadIsMember(Favoured, within);
    }
  }

  // ---- a preferred channel ----

  lemma {:induction false} OnChannelHolds(items: seq<Candidate>, channel: int)
    ensures forall c :: c in OnChannel(items, channel) <==> c in items && c.channel == channel
  {
    if items != [] {
      var n := |items| - 1;
      OnChannelHolds(items[..n], channel);
      assert items == items[..n] + [items[n]];
    }
  }

  /** With a preferred channel there is a choice exactly when some candidate is on it, whatever the rules and
      prices; otherwise the refusal is that the channel is not allowed. */
  lemma {:induction false} PreferredIsAnswered(candidates: seq<Candidate>, preferred: int)
    requires candidates != [] && preferred != 0 && !Clash(candidates)
    ensures Selected(candidates, preferred).Ok? <==> exists c | c in candidates :: c.channel == preferred
    ensures Selected(candidates, preferred).Err? ==> Selected(candidates, preferred).error == NotAllowed
    ensures Selected(candidates, preferred).Ok? ==>
              Selected(candidates, preferred).value in candidates && Selected(candidates, preferred).value.channel == preferred
  {
    var items := StableSort(Better, candidates);
    var manual := OnChannel(items, preferred);
    SameElements(candidates, items);
    OnChannelHolds(items, preferred);
    NoneIsEmpty(manual);
    SameElements(manual, StableSort(Better, manual));
    if manual != [] { assert StableSort(Better, manual)[0] in StableSort(Better, manual); }
  }

  /** And wherever the comparison is an order, no candidate on that channel precedes the choice. */
  lemma {:induction false} PreferredIsBest(candidates: seq<Candidate>, preferred: int, c: Candidate)
    requires preferred != 0 && Selected(candidates, preferred).Ok? && CloseIsTransitive(Amounts(candidates))
    requires c in candidates && c.channel == preferred
    ensures !Better(c, Selected(candidates, preferred).value)
  {
    var items := StableSort(Better, candidates);
    var manual := OnChannel(items, preferred);
    SameElements(candidates, items);
    OnChannelHolds(items, preferred);
    assert forall x | x in manual :: x.amount in Amounts(candidates);
    BetterIsOrder(manual);
    HeadIsLeast(Better, manual);
  }

  /** Two stated currencies that differ in more than case and spaces. */
  lemma {:induction false} ClashMeans(candidates: seq<Candidate>)
    ensures Clash(candidates) <==> exists a, b | a in candidates && b in candidates ::
              Text.Trim(a.currency) != "" && Text.Trim(b.currency) != "" && !SameCurrency(a, b)
  {
    if a, b :| a in candidates && b in candidates && Text.Trim(a.currency) != "" && Text.Trim(b.currency) != "" && !SameCurrency(a, b) {
      assert Clashing(a, b);
    }
    if a, b :| a in candidates && b in candidates && Clashing(a, b) {
      assert Text.Trim(a.currency) != "" && Text.Trim(b.currency) != "" && !SameCurrency(a, b);
    }
  }

  predicate SameCurrency(a: Candidate, b: Candidate) {
    Text.Upper(Text.Trim(a.currency)) == Text.Upper(Text.Trim(b.currency))
  }

  lemma {:induction false} LaterRefusals(items: seq<Candidate>, preferred: int)
    requires items != []
    ensures ChosenFrom(items, preferred) != Err(NoChannel) && ChosenFrom(items, preferred) != Err(MixedCurrencies)
  {
  }

  /** Refusals before anything is chosen: no candidate, or two currencies. */
  lemma {:induction false} RefusalsComeFirst(candidates: seq<Candidate>, preferred: int)
    ensures Selected(candidates, preferred) == Err(NoChannel) <==> candidates == []
    ensures Selected(candidates, preferred) == Err(MixedCurrencies) <==> candidates != [] && Clash(candidates)
  {
    if candidates != [] { LaterRefusals(StableSort(Better, candidates), preferred); }
  }

  // ---- the GOFO premium ----

  lemma {:induction false} CompetitorIsCheapest(items: seq<Candidate>)
    ensures Competitor(items).None? ==> forall c | c in items :: !Competes(c)
    ensures Competitor(items).Some? ==>
              (exists c | c in items :: Competes(c) && c.amount == Competitor(items).value)
              && forall c | c in items && Competes(c) :: Competitor(items).value <= c.amount
  {
    if items != [] {
      var n := |items| - 1;
      CompetitorIsCheapest(items[..n]);
      assert items == items[..n] + [items[n]];
      assert items[n] in items;
    }
  }

  lemma {:induction false} FirstGofoIsFirst(items: seq<Candidate>)
    ensures FirstGofo(items).None? ==> forall c | c in items :: c.carrier != "GOFO"
    ensures FirstGofo(items).Some? ==> exists i | 0 <= i < |items| ::
              items[i] == FirstGofo(items).value && items[i].carrier == "GOFO" && forall j | 0 <= j < i :: items[j].carrier != "GOFO"
  {
    if items != [] {
      var n := |items| - 1;
      FirstGofoIsFirst(items[..n]);
      if FirstGofo(items[..n]).Some? {
        var i :| 0 <= i < n && items[..n][i] == FirstGofo(items[..n]).value && items[..n][i].carrier == "GOFO"
                 && forall j | 0 <= j < i :: items[..n][j].carrier != "GOFO";
        assert items[i] == FirstGofo(items).value;
        assert forall j | 0 <= j < i :: items[j] == items[..n][j];
      } else {
        forall j | 0 <= j < n ensures items[j].carrier != "GOFO" { assert items[..n][j] in items[..n]; }
        assert items == items[..n] + [items[n]];
      }
    }
  }

  lemma {:induction false} FirstGofoFromFront(items: seq<Candidate>)
    requires items != []
    ensures FirstGofo(items) == if items[0].carrier == "GOFO" then Some(items[0]) else FirstGofo(items[1..])
  {
    if |items| > 1 {
      FirstGofoFromFront(items[..|items| - 1]);
      assert items[..|items| - 1][1..] == items[1..][..|items| - 2];
    }
  }

  lemma {:induction false} FirstGofoOfTies(items: seq<Candidate>, gofo: Candidate)
    requires FirstGofo(items) == Some(gofo)
    ensures FirstGofo(TiesWith(GofoOrder, gofo, items)) == Some(gofo)
  {
    FirstGofoFromFront(items);
    var tail := TiesWith(GofoOrder, gofo, items[1..]);
    if items[0].carrier == "GOFO" {
      FirstGofoFromFront([items[0]] + tail);
    } else {
      FirstGofoOfTies(items[1..], gofo);
      FirstGofoFromFront([items[0]] + tail);
      assert ([items[0]] + tail)[1..] == tail;
      assert [] + tail == tail;
    }
  }

  /** The list the GOFO scan runs over: sorted like all candidates, then by its own order. */
  function Ranked(candidates: seq<Candidate>): seq<Candidate> {
    StableSort(GofoOrder, StableSort(Better, candidates))
  }

  lemma {:induction false} RankedIsSorted(candidates: seq<Candidate>)
    requires AllOnGrid(candidates)
    ensures |Ranked(candidates)| == |candidates| && Sorted(GofoOrder, Ranked(candidates))
    ensures forall c :: c in Ranked(candidates) <==> c in candidates
    ensures StrictWeakOn(GofoOrder, candidates) && StrictWeakOn(GofoOrder, StableSort(Better, candidates))
    ensures forall a, b | a in candidates && b in candidates :: GofoOrder(a, b) <==> GofoExactly(a, b)
  {
    var items := StableSort(Better, candidates);
    SameElements(candidates, items);
    SameElements(items, Ranked(candidates));
    GofoIsOrder(candidates);
    GofoIsOrder(items);
    SortSorts(GofoOrder, items);
  }

  lemma {:induction false} GofoTieIsTie(a: Candidate, b: Candidate)
    requires Tied(GofoOrder, a, b)
    ensures Tied(Better, a, b)
  {
  }

  lemma {:induction false} FirstSortKeepsTies(candidates: seq<Candidate>, c: Candidate)
    requires AllOnGrid(candidates) && c in candidates
    ensures TiesWith(GofoOrder, c, StableSort(Better, candidates)) == TiesWith(GofoOrder, c, candidates)
  {
    forall x | Tied(GofoOrder, c, x) ensures Tied(Better, c, x) { GofoTieIsTie(c, x); }
    BetterIsOrderOnGrid(candidates);
    SortIsStable(Better, candidates, c);
    FinerTies(GofoOrder, Better, c, StableSort(Better, candidates));
    FinerTies(GofoOrder, Better, c, candidates);
  }

  /** Offers that tie in the GOFO order keep their order of arrival through both sorts. */
  lemma {:induction false} RankedIsStable(candidates: seq<Candidate>, c: Candidate)
    requires AllOnGrid(candidates) && c in candidates
    ensures TiesWith(GofoOrder, c, Ranked(candidates)) == TiesWith(GofoOrder, c, candidates)
  {
    var items := StableSort(Better, candidates);
    SameElements(candidates, items);
    GofoIsOrder(items);
    SortIsStable(GofoOrder, items, c);
    FirstSortKeepsTies(candidates, c);
  }

  /** The best GOFO offer: least in (amount, priority, tie priority, channel), and of several such offers the
      one that arrived first. */
  ghost predicate BestGofo(gofo: Candidate, candidates: seq<Candidate>) {
    && gofo in candidates && gofo.carrier == "GOFO" && (forall c | c in candidates && c.carrier == "GOFO" :: !GofoExactly(c, gofo))
    && FirstGofo(TiesWith(GofoOrder, gofo, candidates)) == Some(gofo)
  }

  /** There is only one. */
  lemma {:induction false} BestGofoIsUnique(candidates: seq<Candidate>, a: Candidate, b: Candidate)
    requires AllOnGrid(candidates) && BestGofo(a, candidates) && BestGofo(b, candidates)
    ensures a == b
  {
    RankedIsSorted(candidates);
    TiesAgree(GofoOrder, candidates, candidates, a, b);
  }

  /** The carriers GOFO is measured against. */
  predicate IsRival(c: Candidate) {
    c.carrier == "SPEEDX" || c.carrier == "SWIFTX"
  }

  ghost predicate CheapestRival(amount: real, candidates: seq<Candidate>) {
    (exists c | c in candidates :: IsRival(c) && c.amount == amount) && forall c | c in candidates && IsRival(c) :: amount <= c.amount
  }

  lemma {:induction false} FirstGofoIsLeast(candidates: seq<Candidate>, c: Candidate)
    requires AllOnGrid(candidates) && FirstGofo(Ranked(candidates)).Some? && c in candidates && c.carrier == "GOFO"
    ensures !GofoExactly(c, FirstGofo(Ranked(candidates)).value)
  {
    var items := Ranked(candidates);
    RankedIsSorted(candidates);
    FirstGofoIsFirst(items);
    var i :| 0 <= i < |items| && items[i] == FirstGofo(items).value && items[i].carrier == "GOFO"
             && forall j | 0 <= j < i :: items[j].carrier != "GOFO";
    var k :| 0 <= k < |items| && items[k] == c;
    assert items[i] in items && k >= i;
    if k > i { assert !GofoOrder(items[k], items[i]); }
  }

  lemma {:induction false} FirstGofoIsBest(candidates: seq<Candidate>)
    requires AllOnGrid(candidates) && FirstGofo(Ranked(candidates)).Some?
    ensures BestGofo(FirstGofo(Ranked(candidates)).value, candidates)
  {
    var items := Ranked(candidates);
    var gofo := FirstGofo(items).value;
    FirstGofoIsFirst(items);
    assert gofo in items && gofo.carrier == "GOFO";
    SameElements(StableSort(Better, candidates), items);
    SameElements(candidates, StableSort(Better, candidates));
    forall c | c in candidates && c.carrier == "GOFO" ensures !GofoExactly(c, gofo) { FirstGofoIsLeast(candidates, c); }
    FirstGofoOfTies(items, gofo);
    RankedIsStable(candidates, gofo);
  }

  /** The premium is due: the best GOFO offer costs at most its own delta more than the cheapest rival. */
  ghost predicate PremiumDue(candidates: seq<Candidate>, gofo: Candidate, rival: real) {
    BestGofo(gofo, candidates) && CheapestRival(rival, candidates) && gofo.amount <= rival + gofo.delta + TOLERANCE
  }

  ghost predicate Cheapest(choice: Candidate, candidates: seq<Candidate>) {
    choice in candidates && forall c | c in candidates :: !GofoExactly(c, choice)
  }

  lemma {:induction false} PremiumWins(candidates: seq<Candidate>, gofo: Candidate, rival: real)
    requires AllOnGrid(candidates) && PremiumDue(candidates, gofo, rival)
    ensures GofoWins(Ranked(candidates)) && FirstGofo(Ranked(candidates)) == Some(gofo)
  {
    var items := Ranked(candidates);
    RankedIsSorted(candidates);
    CompetitorIsCheapest(items);
    FirstGofoIsFirst(items);
    FirstGofoIsBest(candidates);
    BestGofoIsUnique(candidates, gofo, FirstGofo(items).value);
  }

  lemma {:induction false} RivalOfRanked(candidates: seq<Candidate>)
    requires AllOnGrid(candidates) && Competitor(Ranked(candidates)).Some?
    ensures CheapestRival(Competitor(Ranked(candidates)).value, candidates)
  {
    var items := Ranked(candidates);
    RankedIsSorted(candidates);
    CompetitorIsCheapest(items);
    var c :| c in items && Competes(c) && c.amount == Competitor(items).value;
    assert c in candidates;
  }

  lemma {:induction false} RankedHeadIsCheapest(candidates: seq<Candidate>)
    requires candidates != [] && AllOnGrid(candidates)
    ensures Cheapest(Ranked(candidates)[0], candidates)
  {
    RankedIsSorted(candidates);
    HeadIsLeast(GofoOrder, StableSort(Better, candidates));
  }

  /** Under GOFO rules there is a choice exactly when all quotes are in plain dollars; the refusal tells
      whether two currencies met. */
  lemma {:induction false} GofoAnswers(candidates: seq<Candidate>)
    requires candidates != [] && AllMode(candidates, GofoPremium)
    ensures Selected(candidates, 0) == if Clash(candidates) then Err(MixedCurrencies)
                                       else if Foreign(candidates) then Err(NotDollars) else Ok(GofoPick(Ranked(candidates)))
    ensures Selected(candidates, 0).Ok? <==> forall c | c in candidates :: c.currency == "USD"
  {
    var items := StableSort(Better, candidates);
    SameElements(candidates, items);
    assert items[0] in items;
  }

  /** A cheapest quote under GOFO rules among quotes under other rules is refused. */
  lemma {:induction false} GofoRulesDoNotMix(candidates: seq<Candidate>, c: Candidate)
    requires c in candidates && c.mode != GofoPremium && !Clash(candidates)
    requires StableSort(Better, candidates)[0].mode == GofoPremium
    ensures Selected(candidates, 0) == Err(MixedRules)
  {
    SameElements(candidates, StableSort(Better, candidates));
  }

  /** The premium price is paid exactly when the premium is due, and then to the best GOFO offer; otherwise the
      choice is the least in (amount, priority, tie priority, channel) of all offers. */
  lemma {:induction false} GofoChoice(candidates: seq<Candidate>)
    requires candidates != [] && AllOnGrid(candidates) && AllMode(candidates, GofoPremium)
    requires forall c | c in candidates :: c.currency == "USD"
    ensures Selected(candidates, 0).Ok?
    ensures forall gofo, rival | PremiumDue(candidates, gofo, rival) :: Selected(candidates, 0).value == gofo
    ensures !(exists gofo, rival :: PremiumDue(candidates, gofo, rival)) ==> Cheapest(Selected(candidates, 0).value, candidates)
  {
    var items := Ranked(candidates);
    GofoAnswers(candidates);
    forall gofo, rival | PremiumDue(candidates, gofo, rival) ensures GofoPick(items) == gofo {
      PremiumWins(candidates, gofo, rival);
    }
    if GofoWins(items) {
      FirstGofoIsBest(candidates);
      RivalOfRanked(candidates);
      assert PremiumDue(candidates, FirstGofo(items).value, Competitor(items).value);
    } else {
      RankedHeadIsCheapest(candidates);
    }
  }

  /** Under GOFO rules the price never exceeds the cheapest rival by more than the delta. */
  lemma {:induction false} GofoBound(candidates: seq<Candidate>, delta: real, rival: Candidate)
    requires candidates != [] && AllOnGrid(candidates) && AllMode(candidates, GofoPremium)
    requires forall c | c in candidates :: c.currency == "USD" && 0.0 <= c.delta <= delta
    requires OnGrid(delta) && rival in candidates && Competes(rival)
    ensures Selected(candidates, 0).Ok? && Selected(candidates, 0).value.amount <= rival.amount + delta
  {
    var items := Ranked(candidates);
    GofoAnswers(candidates);
    if GofoWins(items) {
      FirstGofoIsBest(candidates);
      RivalOfRanked(candidates);
      var cheapest := Competitor(items).value;
      var c :| c in candidates && Competes(c) && c.amount == cheapest;
      GridSum(FirstGofo(items).value.amount, cheapest, delta);
    } else {
      RankedHeadIsCheapest(candidates);
      assert !GofoExactly(rival, items[0]);
    }
  }
}
