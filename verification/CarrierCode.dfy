/** The carrier choice as code: the loops of `selectAutomaticChannel`, `selectGOFOPremiumChannel` and
    `selectSubstitutionPriceQuotes`, each equal to its function. */
module CarrierCode {
  import opened Common
  import opened StableSorting
  import opened CarrierChoice
  import opened SubstitutionQuotes
  import Text

  /** The currency loop: it compares each stated currency with the last stated one. */
  method CheckCurrencies(candidates: seq<Candidate>) returns (clash: bool)
    ensures clash == Clash(candidates)
  {
    var currency := "";
    for i := 0 to |candidates|
      invariant forall j | 0 <= j < i :: Currency(candidates[j]) == "" || Currency(candidates[j]) == currency
      invariant currency == "" || exists j | 0 <= j < i :: Currency(candidates[j]) == currency
    {
      var current := Currency(candidates[i]);
      if current != "" {
        if currency != "" && current != currency {
          var j :| 0 <= j < i && Currency(candidates[j]) == currency;
          assert Clashing(candidates[i], candidates[j]);
          return true;
        }
        currency := current;
      }
    }
    return false;
  }

  method FilterWindow(items: seq<Candidate>, minimum: real) returns (within: seq<Candidate>)
    ensures within == Window(items, minimum)
  {
    within := [];
    for i := 0 to |items|
      invariant within == Window(items[..i], minimum)
    {
      assert items[..i + 1][..i] == items[..i];
      var delta := items[i].delta;
      if items[i].mode == LowestPrice {
        delta := 0.0;
      }
      if items[i].amount <= minimum + delta + TOLERANCE {
        within := within + [items[i]];
      }
    }
    assert items[..|items|] == items;
  }

  method FilterChannel(items: seq<Candidate>, channel: int) returns (manual: seq<Candidate>)
    ensures manual == OnChannel(items, channel)
  {
    manual := [];
    for i := 0 to |items|
      invariant manual == OnChannel(items[..i], channel)
    {
      assert items[..i + 1][..i] == items[..i];
      if items[i].channel == channel {
        manual := manual + [items[i]];
      }
    }
    assert items[..|items|] == items;
  }

  method ScanOffers(items: seq<Candidate>) returns (gofo: Option<Candidate>, competitor: Option<real>)
    ensures gofo == FirstGofo(items) && competitor == Competitor(items)
  {
    gofo, competitor := None, None;
    for i := 0 to |items|
      invariant gofo == FirstGofo(items[..i]) && competitor == Competitor(items[..i])
    {
      assert items[..i + 1][..i] == items[..i];
      if items[i].carrier == "GOFO" {
        if gofo.None? {
          gofo := Some(items[i]);
        }
      } else if items[i].carrier == "SWIFTX" || items[i].carrier == "SPEEDX" {
        if competitor.None? || items[i].amount < competitor.value {
          competitor := Some(items[i].amount);
        }
      }
    }
    assert items[..|items|] == items;
  }

  method SelectGofoPremiumChannel(candidates: seq<Candidate>) returns (r: Result<Candidate, Refusal>)
    requires candidates != []
    ensures r == GofoSelected(candidates)
  {
    for i := 0 to |candidates|
      invariant forall j | 0 <= j < i :: candidates[j].currency == "USD"
    {
      if candidates[i].currency != "USD" {
        assert candidates[i] in candidates;
        return Err(NotDollars);
      }
    }
    var items := StableSort(GofoOrder, candidates);
    var gofo, competitor := ScanOffers(items);
    if gofo.Some? && competitor.Some? && gofo.value.amount <= competitor.value + gofo.value.delta + TOLERANCE {
      return Ok(gofo.value);
    }
    return Ok(items[0]);
  }

  method SelectAutomaticChannel(candidates: seq<Candidate>, preferred: int) returns (r: Result<Candidate, Refusal>)
    ensures r == Selected(candidates, preferred)
  {
    if |candidates| == 0 {
      return Err(NoChannel);
    }
    var clash := CheckCurrencies(candidates);
    if clash {
      return Err(MixedCurrencies);
    }
    var items := StableSort(Better, candidates);
    if preferred != 0 {
      var manual := FilterChannel(items, preferred);
      if |manual| == 0 {
        return Err(NotAllowed);
      }
      return Ok(StableSort(Better, manual)[0]);
    }
    if items[0].mode == GofoPremium {
      for i := 0 to |items|
        invariant forall j | 0 <= j < i :: items[j].mode == GofoPremium
      {
        if items[i].mode != GofoPremium {
          assert items[i] in items;
          return Err(MixedRules);
        }
      }
      r := SelectGofoPremiumChannel(items);
      return;
    }
    var within := FilterWindow(items, items[0].amount);
    if |within| == 0 {
      return Err(EmptyWindow);
    }
    return Ok(StableSort(Favoured, within)[0]);
  }

  /** Grouping by warehouse: one list per key. */
  method GroupByWarehouse(cs: seq<Candidate>) returns (groups: map<string, seq<Candidate>>)
    ensures forall k :: k in groups <==> k in Warehouses(cs)
    ensures forall k | k in groups :: groups[k] == OfWarehouse(cs, k)
  {
    groups := map[];
    for i := 0 to |cs|
      invariant forall k :: k in groups <==> k in Warehouses(cs[..i])
      invariant forall k :: OfWarehouse(cs[..i], k) == if k in groups then groups[k] else []
    {
      assert cs[..i + 1][..i] == cs[..i];
      var key := cs[i].warehouse;
      groups := groups[key := (if key in groups then groups[key] else []) + [cs[i]]];
    }
    assert cs[..|cs|] == cs;
  }

  method FindSame(items: seq<Candidate>, choice: Candidate) returns (found: seq<Candidate>)
    ensures found == FirstSame(items, choice)
  {
    for i := 0 to |items|
      invariant FirstSame(items, choice) == FirstSame(items[i..], choice)
    {
      assert items[i..][1..] == items[i + 1..];
      if SameChannel(items[i], choice) {
        return [items[i]];
      }
    }
    return [];
  }

  method ChooseInWarehouses(cs: seq<Candidate>, groups: map<string, seq<Candidate>>, keys: seq<string>) returns (choices: seq<Candidate>)
    requires forall k | k in keys :: k in groups && groups[k] == OfWarehouse(cs, k)
    ensures choices == Choices(cs, keys)
  {
    choices := [];
    for i := 0 to |keys|
      invariant choices == Choices(cs, keys[..i])
    {
      assert keys[..i + 1][..i] == keys[..i];
      var items := groups[keys[i]];
      var choice := SelectAutomaticChannel(items, 0);
      if choice.Ok? {
        var found := FindSame(items, choice.value);
        choices := choices + found;
      }
    }
    assert keys[..|keys|] == keys;
  }

  /** The keys of the groups in any order, sorted: the same list whatever the order. */
  method SelectSubstitutionPriceQuotes(cs: seq<Candidate>) returns (quotes: seq<Candidate>)
    ensures quotes == Quotes(cs)
  {
    var groups := GroupByWarehouse(cs);
    var keys := KeysInOrder(cs, groups);
    var choices := ChooseInWarehouses(cs, groups, keys);
    if |choices| == 0 {
      return [];
    }
    var best := SelectAutomaticChannel(choices, 0);
    return StableSort((a, b) => BestFirst(best, a, b), choices);
  }

  method KeysInOrder(cs: seq<Candidate>, groups: map<string, seq<Candidate>>) returns (keys: seq<string>)
    requires forall k :: k in groups <==> k in Warehouses(cs)
    ensures keys == StableSort(Text.Before, Warehouses(cs))
    ensures forall k | k in keys :: k in groups
  {
    var list: seq<string>, left := [], groups.Keys;
    while left != {}
      invariant left <= groups.Keys && forall k :: k in groups.Keys <==> k in left || k in list
      invariant NoRepeats(list) && forall i | 0 <= i < |list| :: list[i] !in left
      decreases left
    {
      var k :| k in left;
      left := left - {k};
      list := list + [k];
    }
    keys := StableSort(Text.Before, list);
    SortedKeysAgree(cs, list);
    SameElements(list, keys);
  }

  lemma {:induction false} SortedKeysAgree(cs: seq<Candidate>, list: seq<string>)
    requires NoRepeats(list) && forall k :: k in list <==> k in Warehouses(cs)
    ensures StableSort(Text.Before, list) == StableSort(Text.Before, Warehouses(cs))
  {
    WarehousesHold(cs);
    SameMembersSameBag(list, Warehouses(cs));
    Text.BeforeIsOrder();
    SortIgnoresInputOrder(Text.Before, list, Warehouses(cs));
  }

  lemma {:induction false} SameMembersSameBag(s: seq<string>, t: seq<string>)
    requires NoRepeats(s) && NoRepeats(t) && forall k :: k in s <==> k in t
    ensures multiset(s) == multiset(t)
  {
    forall k ensures multiset(s)[k] == multiset(t)[k] {
      OnceAtMost(s, k);
      OnceAtMost(t, k);
    }
  }

  lemma {:induction false} OnceAtMost(s: seq<string>, k: string)
    requires NoRepeats(s)
    ensures multiset(s)[k] == if k in s then 1 else 0
  {
    if s != [] {
      var n := |s| - 1;
      OnceAtMost(s[..n], k);
      assert s == s[..n] + [s[n]];
      if s[n] == k { assert k !in s[..n]; }
    }
  }
}
