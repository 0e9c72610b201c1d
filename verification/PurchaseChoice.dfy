/** The snapshot of a carrier choice: built with the quote (internal/service/service.go
    `buildLabelPurchaseChoice`) and checked when the label is bought (internal/store/postgres.go
    `recordLabelPurchaseChoice`). */
module PurchaseChoice {
  import opened StableSorting
  import opened CarrierChoice
  import opened SubstitutionQuotes

  datatype Entry = Entry(rank: nat, warehouse: string, temuWarehouse: string, channel: int, company: int, carrier: string, amount: real)

  datatype Snapshot = Snapshot(source: string, selected: Entry, top: seq<Entry>)

  /** `labelPurchaseCandidate` */
  function AsEntry(c: Candidate, rank: nat): Entry {
    Entry(rank, c.warehouse, c.temuWarehouse, c.channel, c.company, c.carrier, c.amount)
  }

  function Entries(items: seq<Candidate>): (r: seq<Entry>)
    ensures |r| == |items|
  {
    if items == [] then [] else Entries(items[..|items| - 1]) + [AsEntry(items[|items| - 1], |items|)]
  }

  /** The rank of the last entry on the selected channel, 0 when there is none. */
  function RankOf(items: seq<Candidate>, selected: Candidate): nat {
    if items == [] then 0
    else if SameChannel(items[|items| - 1], selected) then |items| else RankOf(items[..|items| - 1], selected)
  }

  function Top(candidates: seq<Candidate>): seq<Candidate> {
    var items := StableSort(Better, candidates);
    if |items| > 3 then items[..3] else items
  }

  function Built(candidates: seq<Candidate>, selected: Candidate, manual: bool): Snapshot {
    var items := Top(candidates);
    Snapshot(if manual then "manual" else "automatic", AsEntry(selected, RankOf(items, selected)), Entries(items))
  }

  /** `sameLabelPurchaseCandidate` */
  predicate SameEntry(a: Entry, b: Entry) {
    a.warehouse == b.warehouse && a.channel == b.channel && a.company == b.company
  }

  predicate Complete(e: Entry) {
    e.channel != 0 && e.warehouse != "" && e.temuWarehouse != "" && e.amount >= 0.0
  }

  /** Every check of the record step passes. */
  predicate Recordable(s: Snapshot) {
    (s.selected.channel == 0 && s.top == []) ||
    (&& (s.source == "automatic" || s.source == "manual")
     && Complete(s.selected)
     && 1 <= |s.top| <= 3
     && (s.selected.rank > 0 ==> s.selected.rank <= |s.top| && SameEntry(s.selected, s.top[s.selected.rank - 1]))
     && forall i | 0 <= i < |s.top| :: s.top[i].rank == i + 1 && Complete(s.top[i]))
  }

  // ---- the code ----

  method BuildLabelPurchaseChoice(candidates: seq<Candidate>, selected: Candidate, manual: bool) returns (r: Snapshot)
    ensures r == Built(candidates, selected, manual)
  {
    var source := "automatic";
    if manual {
      source := "manual";
    }
    var items := StableSort(Better, candidates);
    if |items| > 3 {
      items := items[..3];
    }
    var top: seq<Entry> := [];
    var rank := 0;
    for index := 0 to |items|
      invariant top == Entries(items[..index]) && rank == RankOf(items[..index], selected)
    {
      assert items[..index + 1][..index] == items[..index];
      top := top + [AsEntry(items[index], index + 1)];
      if SameChannel(items[index], selected) {
        rank := index + 1;
      }
    }
    assert items[..|items|] == items;
    return Snapshot(source, AsEntry(selected, rank), top);
  }

  method RecordLabelPurchaseChoice(choice: Snapshot) returns (ok: bool)
    ensures ok == Recordable(choice)
  {
    if choice.selected.channel == 0 && |choice.top| == 0 {
      return true;
    }
    if choice.source != "automatic" && choice.source != "manual" {
      return false;
    }
    if choice.selected.channel == 0 || choice.selected.warehouse == "" || choice.selected.temuWarehouse == "" {
      return false;
    }
    if |choice.top| == 0 || |choice.top| > 3 {
      return false;
    }
    if choice.selected.amount < 0.0 {
      return false;
    }
    if choice.selected.rank > 0 {
      if choice.selected.rank > |choice.top| || !SameEntry(choice.selected, choice.top[choice.selected.rank - 1]) {
        return false;
      }
    }
    for index := 0 to |choice.top|
      invariant forall i | 0 <= i < index :: choice.top[i].rank == i + 1 && Complete(choice.top[i])
    {
      var c := choice.top[index];
      if c.rank != index + 1 || c.channel == 0 || c.warehouse == "" || c.temuWarehouse == "" {
        return false;
      }
      if c.amount < 0.0 {
        return false;
      }
    }
    return true;
  }

  // ---- the producer satisfies the consumer ----

  lemma {:induction false} EntryAt(items: seq<Candidate>, i: nat)
    requires i < |items|
    ensures Entries(items)[i] == AsEntry(items[i], i + 1)
  {
    if i < |items| - 1 { EntryAt(items[..|items| - 1], i); }
  }

  lemma {:induction false} RankFits(items: seq<Candidate>, selected: Candidate)
    ensures var rank := RankOf(items, selected);
            if rank == 0 then forall c | c in items :: !SameChannel(c, selected)
            else rank <= |items| && SameChannel(items[rank - 1], selected)
  {
    if items != [] {
      var n := |items| - 1;
      RankFits(items[..n], selected);
      assert items == items[..n] + [items[n]];
    }
  }

  lemma {:induction false} TopHolds(candidates: seq<Candidate>)
    ensures |Top(candidates)| == if |candidates| < 3 then |candidates| else 3
    ensures forall c | c in Top(candidates) :: c in candidates
  {
    SameElements(candidates, StableSort(Better, candidates));
  }

  /** What the quotes guarantee about a candidate. */
  predicate Sane(c: Candidate) {
    c.channel != 0 && c.warehouse != "" && c.temuWarehouse != "" && c.amount >= 0.0
  }

  /** Every snapshot built from sane candidates for one of them passes every check of the record step,
      also when the selected one is outside the top three. */
  lemma {:induction false} BuiltIsRecordable(candidates: seq<Candidate>, selected: Candidate, manual: bool)
    requires selected in candidates && forall c | c in candidates :: Sane(c)
    ensures Recordable(Built(candidates, selected, manual))
  {
    var items := Top(candidates);
    TopHolds(candidates);
    EntriesAreComplete(items);
    RankIsValid(items, selected);
  }

  lemma {:induction false} EntriesAreComplete(items: seq<Candidate>)
    requires forall c | c in items :: Sane(c)
    ensures forall i | 0 <= i < |items| :: Entries(items)[i].rank == i + 1 && Complete(Entries(items)[i])
  {
    forall i | 0 <= i < |items| ensures Entries(items)[i].rank == i + 1 && Complete(Entries(items)[i]) {
      EntryAt(items, i);
      assert items[i] in items;
    }
  }

  lemma {:induction false} RankIsValid(items: seq<Candidate>, selected: Candidate)
    ensures var rank := RankOf(items, selected);
            rank > 0 ==> rank <= |items| && SameEntry(AsEntry(selected, rank), Entries(items)[rank - 1])
  {
    var rank := RankOf(items, selected);
    RankFits(items, selected);
    if rank > 0 { EntryAt(items, rank - 1); }
  }

  /** The candidates the snapshot leaves out. */
  function Rest(candidates: seq<Candidate>): seq<Candidate> {
    var items := StableSort(Better, candidates);
    if |items| > 3 then items[3..] else []
  }

  lemma {:induction false} SortedByPrice(candidates: seq<Candidate>, i: nat, j: nat)
    requires AllOnGrid(candidates) && i < j < |candidates|
    ensures !Precedes(StableSort(Better, candidates)[j], StableSort(Better, candidates)[i])
  {
    var items := StableSort(Better, candidates);
    BetterIsOrderOnGrid(candidates);
    SortSorts(Better, candidates);
    SameElements(candidates, items);
    assert items[i] in items && items[j] in items;
    BetterIsPrecedes(items[j], items[i]);
  }

  lemma {:induction false} TopAndRest(candidates: seq<Candidate>)
    ensures Top(candidates) + Rest(candidates) == StableSort(Better, candidates)
    ensures multiset(Top(candidates)) + multiset(Rest(candidates)) == multiset(candidates)
  {
    CutAtThree(StableSort(Better, candidates), Top(candidates), Rest(candidates));
  }

  lemma {:induction false} CutAtThree(items: seq<Candidate>, top: seq<Candidate>, rest: seq<Candidate>)
    requires top == (if |items| > 3 then items[..3] else items) && rest == (if |items| > 3 then items[3..] else [])
    ensures top + rest == items && multiset(top) + multiset(rest) == multiset(items)
  {
    assert top + rest == items;
  }

  lemma {:induction false} TopOrdered(candidates: seq<Candidate>, i: nat, j: nat)
    requires AllOnGrid(candidates) && i < j < |Top(candidates)|
    ensures !Precedes(Top(candidates)[j], Top(candidates)[i])
  {
    SortedByPrice(candidates, i, j);
  }

  lemma {:induction false} RestOrdered(candidates: seq<Candidate>, i: nat, j: nat)
    requires AllOnGrid(candidates) && i < |Top(candidates)| && j < |Rest(candidates)|
    ensures !Precedes(Rest(candidates)[j], Top(candidates)[i])
  {
    SortedByPrice(candidates, i, 3 + j);
  }

  /** The snapshot lists the up to three best candidates in order: its entries and what it leaves out are the
      candidates, no entry is better than an earlier one, and nothing left out is better than any entry. */
  lemma {:induction false} BuiltListsTheBest(candidates: seq<Candidate>, selected: Candidate, manual: bool)
    returns (best: seq<Candidate>, rest: seq<Candidate>)
    requires AllOnGrid(candidates)
    ensures multiset(best) + multiset(rest) == multiset(candidates) && |best| == (if |candidates| < 3 then |candidates| else 3)
    ensures |Built(candidates, selected, manual).top| == |best|
    ensures forall i | 0 <= i < |best| :: Built(candidates, selected, manual).top[i] == AsEntry(best[i], i + 1)
    ensures forall i, j | 0 <= i < j < |best| :: !Precedes(best[j], best[i])
    ensures forall i, j | 0 <= i < |best| && 0 <= j < |rest| :: !Precedes(rest[j], best[i])
  {
    best, rest := Top(candidates), Rest(candidates);
    TopHolds(candidates);
    TopAndRest(candidates);
    forall i | 0 <= i < |best| ensures Built(candidates, selected, manual).top[i] == AsEntry(best[i], i + 1) { EntryAt(best, i); }
    forall i, j | 0 <= i < j < |best| ensures !Precedes(best[j], best[i]) { TopOrdered(candidates, i, j); }
    forall i, j | 0 <= i < |best| && 0 <= j < |rest| ensures !Precedes(rest[j], best[i]) { RestOrdered(candidates, i, j); }
  }

  // ---- the snapshot field by field ----

  /** The entry is this candidate's. */
  predicate Shows(e: Entry, c: Candidate) {
    && (e.warehouse, e.temuWarehouse) == (c.warehouse, c.temuWarehouse)
    && (e.channel, e.company, e.carrier, e.amount) == (c.channel, c.company, c.carrier, c.amount)
  }

  /** A snapshot tells who chose, shows the choice and the best candidates, and ranks the choice by the last entry on
      its channel, if there is one. */
  lemma {:induction false} BuiltMeans(candidates: seq<Candidate>, selected: Candidate, manual: bool)
    ensures var (s, best) := (Built(candidates, selected, manual), Top(candidates));
            && s.source == (if manual then "manual" else "automatic") && Shows(s.selected, selected)
            && |s.top| == |best| && (forall i | 0 <= i < |best| :: s.top[i].rank == i + 1 && Shows(s.top[i], best[i]))
            && s.selected.rank <= |best|
            && (s.selected.rank > 0 ==> SameChannel(best[s.selected.rank - 1], selected))
            && (forall i | s.selected.rank <= i < |best| :: !SameChannel(best[i], selected))
  {
    var best := Top(candidates);
    RankIsLast(best, selected);
    forall i | 0 <= i < |best| ensures Entries(best)[i] == AsEntry(best[i], i + 1) { EntryAt(best, i); }
  }

  lemma {:induction false} RankIsLast(items: seq<Candidate>, selected: Candidate)
    ensures var rank := RankOf(items, selected);
            && rank <= |items| && (rank > 0 ==> SameChannel(items[rank - 1], selected))
            && (forall i | rank <= i < |items| :: !SameChannel(items[i], selected))
  {
    if items != [] { RankIsLast(items[..|items| - 1], selected); }
  }

  /** Exactly which snapshots are recorded: empty ones, and those that say who chose, show a choice and one to three
      ranked candidates with warehouse, channel and price, and whose choice agrees with the entry of its rank. */
  lemma {:induction false} RecordableExactlyWhen(s: Snapshot)
    ensures Recordable(s) <==>
            || (s.selected.channel == 0 && |s.top| == 0)
            || (&& (s.source == "automatic" || s.source == "manual") && |s.top| in {1, 2, 3}
                && (forall e | e in [s.selected] + s.top :: e.channel != 0 && e.warehouse != "" && e.temuWarehouse != "" && e.amount >= 0.0)
                && (forall i | 0 <= i < |s.top| :: s.top[i].rank == i + 1)
                && (s.selected.rank == 0 || exists e | e in s.top ::
                     e.rank == s.selected.rank && e.warehouse == s.selected.warehouse && e.channel == s.selected.channel
                     && e.company == s.selected.company))
  {
    var all := [s.selected] + s.top;
    assert s.selected in all && forall i | 0 <= i < |s.top| :: s.top[i] in all;
    assert forall e | e in all :: e == s.selected || e in s.top;
    if s.selected.rank > 0 && s.selected.rank <= |s.top| { assert s.top[s.selected.rank - 1] in s.top; }
  }
}
