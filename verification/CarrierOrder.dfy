/** The carrier choice does not depend on the order in which the concurrent quotes arrive. */
module CarrierOrder {
  import opened Common
  import opened StableSorting
  import opened CarrierChoice

  /** The place of arrival is the only trace the order of arrival leaves in a candidate. */
  function Forgotten(c: Candidate): Candidate {
    c.(warehouseIndex := 0)
  }

  function ForgottenChoice(r: Result<Candidate, Refusal>): Result<Candidate, Refusal> {
    match r
    case Ok(c) => Ok(Forgotten(c))
    case Err(e) => Err(e)
  }

  function ForgottenOption(r: Option<Candidate>): Option<Candidate> {
    if r.Some? then Some(Forgotten(r.value)) else None
  }

  // ---- every part of the choice is blind to the place of arrival ----

  lemma {:induction false} WindowForgets(items: seq<Candidate>, minimum: real)
    ensures Mapped(Forgotten, Window(items, minimum)) == Window(Mapped(Forgotten, items), minimum)
  {
    if items != [] {
      var front, last := items[..|items| - 1], items[|items| - 1];
      WindowForgets(front, minimum);
      MappedFront(Forgotten, items);
      MappedLast(Forgotten, Window(front, minimum), last);
      assert InWindow(last, minimum) == InWindow(Forgotten(last), minimum);
      assert !InWindow(last, minimum) ==> Window(items, minimum) == Window(front, minimum);
    }
  }

  lemma {:induction false} OnChannelForgets(items: seq<Candidate>, channel: int)
    ensures Mapped(Forgotten, OnChannel(items, channel)) == OnChannel(Mapped(Forgotten, items), channel)
  {
    if items != [] {
      var front, last := items[..|items| - 1], items[|items| - 1];
      OnChannelForgets(front, channel);
      MappedFront(Forgotten, items);
      MappedLast(Forgotten, OnChannel(front, channel), last);
      assert last.channel != channel ==> OnChannel(items, channel) == OnChannel(front, channel);
    }
  }

  lemma {:induction false} GofoForgets(items: seq<Candidate>)
    ensures ForgottenOption(FirstGofo(items)) == FirstGofo(Mapped(Forgotten, items))
    ensures Competitor(items) == Competitor(Mapped(Forgotten, items))
  {
    if items != [] {
      GofoForgets(items[..|items| - 1]);
      MappedFront(Forgotten, items);
    }
  }

  lemma {:induction false} OrdersAreBlind()
    ensures Blind(Forgotten, Better) && Blind(Forgotten, Favoured) && Blind(Forgotten, GofoOrder)
  {
  }

  lemma {:induction false} ClashForgets(items: seq<Candidate>)
    ensures Clash(items) <==> Clash(Mapped(Forgotten, items))
  {
    var all := Mapped(Forgotten, items);
    MappedMembers(Forgotten, items);
    if a, b :| a in items && b in items && Clashing(a, b) {
      assert Forgotten(a) in all && Forgotten(b) in all && Clashing(Forgotten(a), Forgotten(b));
    }
    if a, b :| a in all && b in all && Clashing(a, b) {
      var x :| x in items && Forgotten(x) == a;
      var y :| y in items && Forgotten(y) == b;
      assert Clashing(x, y);
    }
  }

  lemma {:induction false} ModeForgets(items: seq<Candidate>, mode: Mode)
    ensures AllMode(items, mode) <==> AllMode(Mapped(Forgotten, items), mode)
  {
    MappedMembers(Forgotten, items);
    assert forall c | c in items :: Forgotten(c) in Mapped(Forgotten, items) && Forgotten(c).mode == c.mode;
  }

  lemma {:induction false} ForeignForgets(items: seq<Candidate>)
    ensures Foreign(items) <==> Foreign(Mapped(Forgotten, items))
  {
    MappedMembers(Forgotten, items);
    assert forall c | c in items :: Forgotten(c) in Mapped(Forgotten, items) && Forgotten(c).currency == c.currency;
  }

  lemma {:induction false} WindowSelectedForgets(items: seq<Candidate>)
    requires items != []
    ensures ForgottenChoice(WindowSelected(items)) == WindowSelected(Mapped(Forgotten, items))
  {
    var within := Window(items, items[0].amount);
    OrdersAreBlind();
    WindowForgets(items, items[0].amount);
    MappedSort(Forgotten, Favoured, within);
  }

  lemma {:induction false} GofoPickForgets(items: seq<Candidate>)
    requires items != []
    ensures Forgotten(GofoPick(items)) == GofoPick(Mapped(Forgotten, items))
  {
    GofoForgets(items);
    MappedAt(Forgotten, items, 0);
  }

  lemma {:induction false} GofoSortForgets(items: seq<Candidate>)
    ensures Mapped(Forgotten, StableSort(GofoOrder, items)) == StableSort(GofoOrder, Mapped(Forgotten, items))
  {
    OrdersAreBlind();
    MappedSort(Forgotten, GofoOrder, items);
  }

  lemma {:induction false} GofoSelectedForgets(items: seq<Candidate>)
    requires items != []
    ensures ForgottenChoice(GofoSelected(items)) == GofoSelected(Mapped(Forgotten, items))
  {
    ForeignForgets(items);
    GofoSortForgets(items);
    GofoPickForgets(StableSort(GofoOrder, items));
  }

  lemma {:induction false} SortedSelectedForgets(items: seq<Candidate>)
    requires items != []
    ensures ForgottenChoice(SortedSelected(items)) == SortedSelected(Mapped(Forgotten, items))
  {
    ModeForgets(items, GofoPremium);
    if items[0].mode == GofoPremium { GofoSelectedForgets(items); } else { WindowSelectedForgets(items); }
  }

  lemma {:induction false} PreferredForgets(items: seq<Candidate>, channel: int)
    ensures ForgottenChoice(Preferred(items, channel)) == Preferred(Mapped(Forgotten, items), channel)
  {
    OrdersAreBlind();
    OnChannelForgets(items, channel);
    MappedSort(Forgotten, Better, OnChannel(items, channel));
    if OnChannel(items, channel) != [] { MappedAt(Forgotten, StableSort(Better, OnChannel(items, channel)), 0); }
  }

  lemma {:induction false} ChosenForgets(items: seq<Candidate>, preferred: int)
    requires items != []
    ensures ForgottenChoice(ChosenFrom(items, preferred)) == ChosenFrom(Mapped(Forgotten, items), preferred)
  {
    if preferred == 0 { SortedSelectedForgets(items); } else { PreferredForgets(items, preferred); }
  }

  lemma {:induction false} SortForgets(items: seq<Candidate>)
    ensures Mapped(Forgotten, StableSort(Better, items)) == StableSort(Better, Mapped(Forgotten, items))
  {
    OrdersAreBlind();
    MappedSort(Forgotten, Better, items);
  }

  lemma {:induction false} SelectedForgets(candidates: seq<Candidate>, preferred: int)
    ensures ForgottenChoice(Selected(candidates, preferred)) == Selected(Mapped(Forgotten, candidates), preferred)
  {
    ClashForgets(candidates);
    SortForgets(candidates);
    if candidates != [] {
      ChosenForgets(StableSort(Better, candidates), preferred);
    }
  }

  // ---- the theorem ----

  lemma {:induction false} SelectedIgnoresOrder(a: seq<Candidate>, b: seq<Candidate>, preferred: int)
    requires multiset(a) == multiset(b) && CloseIsTransitive(Amounts(a)) && NoTies(Better, a)
    ensures Selected(a, preferred) == Selected(b, preferred)
  {
    SameElements(a, b);
    BetterIsOrder(a);
    SortIgnoresInputOrder(Better, a, b);
    assert Clash(a) <==> Clash(b);
    assert |a| == |multiset(a)| == |multiset(b)| == |b|;
  }

  /** Two arrivals of the same quotes in any order, no two of them equal in amount, tie priority and channel,
      lead to the same choice and the same refusal, up to the place the warehouse arrived in. This holds for
      every mixture of rules and for a preferred channel as well. */
  lemma {:induction false} ChoiceIgnoresArrival(a: seq<Candidate>, b: seq<Candidate>, preferred: int)
    requires multiset(Mapped(Forgotten, a)) == multiset(Mapped(Forgotten, b))
    requires CloseIsTransitive(Amounts(Mapped(Forgotten, a))) && NoTies(Better, Mapped(Forgotten, a))
    ensures ForgottenChoice(Selected(a, preferred)) == ForgottenChoice(Selected(b, preferred))
  {
    SelectedForgets(a, preferred);
    SelectedForgets(b, preferred);
    SelectedIgnoresOrder(Mapped(Forgotten, a), Mapped(Forgotten, b), preferred);
  }
}
