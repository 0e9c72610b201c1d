/** Reconciling a shipped order with the OMS (internal/service/oms_platform_order.go,
    internal/service/warehouse_assignment.go, the sync row of internal/store/postgres.go): the warehouse is
    assigned automatically, and a marker in the stored summary prevents a second assignment. */
module OmsAssignment {
  import opened Common
  import Text

  datatype SyncStatus = Querying | WaitingSync | QueryFailed | Verified | ManualRequired | Terminal

  datatype PlatformOrder = PlatformOrder(orderNo: string, platformNo: string, status: int, warehouseCode: string)
  datatype Lookup = Lookup(orders: seq<PlatformOrder>, matchCount: int)

  /** The assignment marker of the summary. */
  datatype Audit = Audit(succeeded: bool, orderNo: string, account: string, warehouseCode: string)

  /** The sync row, and how many `AssignWarehouse` calls succeeded upstream. */
  datatype Sync = Sync(status: SyncStatus, audit: Option<Audit>, assignments: nat)

  /** The shipment and its warehouse mapping. `confirmed`: shipped, confirmed, with tracking and packages. */
  datatype Facts = Facts(orderNo: string, account: string, confirmed: bool, warehouseId: string, code: string, mappedId: string)

  /** One poll: the lookup (none when the query fails), whether the grace period for a missing order is
      over, the warehouse code of the only route in a ready preview (none when the preview fails or is not
      of this kind), and whether the assignment call succeeds. */
  datatype Poll = Poll(lookup: Option<Lookup>, overdue: bool, preview: Option<string>, accepted: bool)

  datatype Decision = Missing | Manual | Pending | AwaitingLabel | Done

  predicate Fold(a: string, b: string) {
    Text.Lower(a) == Text.Lower(b)
  }

  predicate InAlphabet(c: char) {
    'a' <= c <= 'z' || '0' <= c <= '9' || c == '-' || c == '_'
  }

  /** `normalizeOMSAccount` */
  function Account(raw: string): Option<string> {
    var value := Text.Lower(Text.Trim(raw));
    if value == "" || |value| > 64 || (exists i | 0 <= i < |value| :: !InAlphabet(value[i])) then None else Some(value)
  }

  /** `decideOMSPlatformOrder` */
  function Decided(lookup: Lookup, code: string, overdue: bool): Decision {
    var expected := Text.Trim(code);
    if |lookup.orders| == 0 then (if overdue then Manual else Missing)
    else if |lookup.orders| > 1 then Manual
    else
      var order := lookup.orders[0];
      var actual := Text.Trim(order.warehouseCode);
      if actual != "" && !Fold(actual, expected) then Manual
      else if (order.status == 2 || order.status == 3) && actual == "" then Manual
      else
        match order.status
        case 0 => Pending
        case 1 => AwaitingLabel
        case 2 => Done
        case 3 => Done
        case _ => Manual
  }

  /** `validateWarehouseAssignmentSource` */
  predicate MayAssign(f: Facts, lookup: Lookup) {
    && f.confirmed
    && Text.Trim(f.code) != "" && Text.Trim(f.mappedId) != "" && Fold(Text.Trim(f.mappedId), Text.Trim(f.warehouseId))
    && |lookup.orders| == 1 && lookup.matchCount == 1
    && lookup.orders[0].status == 0 && Fold(Text.Trim(lookup.orders[0].platformNo), Text.Trim(f.orderNo))
    && (Text.Trim(lookup.orders[0].warehouseCode) != "" ==> Fold(Text.Trim(lookup.orders[0].warehouseCode), f.code))
  }

  /** `warehouseAssignmentAuditMatches` */
  predicate Matches(audit: Option<Audit>, account: string, code: string, orderNo: string) {
    && audit.Some? && audit.value.succeeded
    && Fold(Text.Trim(audit.value.account), account)
    && Fold(Text.Trim(audit.value.warehouseCode), Text.Trim(code))
    && Fold(Text.Trim(audit.value.orderNo), Text.Trim(orderNo))
  }

  /** `validateWarehouseAssignmentPreview`: the mapping's code is compared as it is stored. */
  predicate PreviewFits(f: Facts, preview: Option<string>) {
    preview.Some? && Fold(Text.Trim(preview.value), f.code)
  }

  /** What the assignment step makes of the marker; the second part tells whether a call succeeded. */
  function Assigned(f: Facts, account: string, lookup: Lookup, audit: Option<Audit>, poll: Poll): (Option<Audit>, bool) {
    if !MayAssign(f, lookup) then (None, false)
    else if Matches(audit, account, f.code, lookup.orders[0].orderNo) then (audit, false)
    else
      var done := PreviewFits(f, poll.preview) && poll.accepted;
      (Some(Audit(done, lookup.orders[0].orderNo, account, f.code)), done)
  }

  /** `UpdateOMSSync`: a terminal row is not written. */
  function Stored(s: Sync, status: SyncStatus, audit: Option<Audit>): Sync {
    if s.status == Terminal then s else s.(status := status, audit := audit)
  }

  /** `reconcileOMSPlatformOrder` */
  function Reconciled(s: Sync, f: Facts, poll: Poll): Sync {
    match Account(f.account)
    case None => Stored(s, QueryFailed, s.audit)
    case Some(account) =>
      match poll.lookup
      case None => Stored(s, QueryFailed, s.audit)
      case Some(lookup) =>
        match Decided(lookup, f.code, poll.overdue)
        case Pending =>
          var (audit, done) := Assigned(f, account, lookup, s.audit, poll);
          Stored(s.(assignments := s.assignments + if done then 1 else 0), WaitingSync, audit)
        case Done => Stored(s, Verified, s.audit)
        case Manual => Stored(s, ManualRequired, s.audit)
        case Missing => Stored(s, WaitingSync, s.audit)
        case AwaitingLabel => Stored(s, WaitingSync, s.audit)
  }

  /** `StartOMSSync`: finished rows are not polled again. */
  predicate Starts(s: Sync) {
    s.status !in {Verified, ManualRequired, Terminal}
  }

  function Polled(s: Sync, f: Facts, poll: Poll): Sync {
    if Starts(s) then Reconciled(s.(status := Querying), f, poll) else s
  }

  function Run(s: Sync, f: Facts, polls: seq<Poll>): Sync {
    if polls == [] then s else Polled(Run(s, f, polls[..|polls| - 1]), f, polls[|polls| - 1])
  }

  const UNSYNCED := Sync(WaitingSync, None, 0)

  // ---- the code ----

  class SyncRow {
    var status: SyncStatus
    var audit: Option<Audit>
    var assignments: nat

    function State(): Sync
      reads this
    {
      Sync(status, audit, assignments)
    }

    constructor ()
      ensures State() == UNSYNCED
    {
      status, audit, assignments := WaitingSync, None, 0;
    }

    method UpdateOMSSync(wanted: SyncStatus, marker: Option<Audit>)
      modifies this`status, this`audit
      ensures State() == Stored(old(State()), wanted, marker)
    {
      if status != Terminal {
        status, audit := wanted, marker;
      }
    }

    /** `assignPendingOMSPlatformOrder`; a successful call is an effect that is not undone. */
    method AssignPendingOMSPlatformOrder(f: Facts, account: string, lookup: Lookup, previous: Option<Audit>, poll: Poll)
      returns (marker: Option<Audit>, done: bool)
      modifies this`assignments
      ensures (marker, done) == Assigned(f, account, lookup, previous, poll)
      ensures assignments == old(assignments) + if done then 1 else 0
    {
      if !MayAssign(f, lookup) {
        return None, false;
      }
      if Matches(previous, account, f.code, lookup.orders[0].orderNo) {
        return previous, false;
      }
      var attempt := Audit(false, lookup.orders[0].orderNo, account, f.code);
      if !PreviewFits(f, poll.preview) {
        return Some(attempt), false;
      }
      if !poll.accepted {
        return Some(attempt), false;
      }
      assignments := assignments + 1;
      return Some(attempt.(succeeded := true)), true;
    }

    method ReconcileOMSPlatformOrder(f: Facts, poll: Poll)
      modifies this
      ensures State() == Reconciled(old(State()), f, poll)
      ensures old(status) != Terminal ==> KeepsOnce(old(State()), State(), f, poll)
    {
      if status != Terminal { ReconciledKeepsOnce(State(), f, poll); }
      var account := Account(f.account);
      if account.None? || poll.lookup.None? {
        UpdateOMSSync(QueryFailed, audit);
        return;
      }
      var lookup := poll.lookup.value;
      var decision := Decided(lookup, f.code, poll.overdue);
      var marker := audit;
      if decision == Pending {
        var done;
        marker, done := AssignPendingOMSPlatformOrder(f, account.value, lookup, marker, poll);
      }
      match decision {
        case Done => UpdateOMSSync(Verified, marker);
        case Manual => UpdateOMSSync(ManualRequired, marker);
        case Missing | Pending | AwaitingLabel => UpdateOMSSync(WaitingSync, marker);
      }
    }
  }

  // ---- at most one assignment ----

  /** The upstream answers agree with themselves and with the order: the match count is the number of orders,
      and a single order carries our order number and always the same OMS number. */
  predicate Consistent(f: Facts, number: string, poll: Poll) {
    poll.lookup.Some? ==>
      var lookup := poll.lookup.value;
      && lookup.matchCount == |lookup.orders|
      && (|lookup.orders| == 1 ==> Fold(Text.Trim(lookup.orders[0].platformNo), Text.Trim(f.orderNo))
                                   && Fold(Text.Trim(lookup.orders[0].orderNo), Text.Trim(number)))
  }

  /** The mapping's warehouse code carries no stray spaces; otherwise no preview ever fits. */
  predicate CleanCode(f: Facts) {
    Text.Trim(f.code) == f.code
  }

  lemma {:induction false} FittingPreviewIsClean(f: Facts, preview: Option<string>)
    requires PreviewFits(f, preview)
    ensures CleanCode(f)
  {
    Text.LowerMatchIsTrimmed(preview.value, f.code);
  }

  /** Not assigned yet, or assigned once with the marker in place. */
  predicate AtMostOnce(s: Sync, f: Facts, number: string) {
    s.assignments == 0
    || (s.assignments == 1 && CleanCode(f) && Account(f.account).Some? && BasicsHold(f) && Matches(s.audit, Account(f.account).value, f.code, number))
  }

  /** The part of the source check that does not depend on the lookup. */
  predicate BasicsHold(f: Facts) {
    f.confirmed && Text.Trim(f.code) != "" && Text.Trim(f.mappedId) != "" && Fold(Text.Trim(f.mappedId), Text.Trim(f.warehouseId))
  }

  lemma {:induction false} PendingMayAssign(f: Facts, number: string, poll: Poll)
    requires poll.lookup.Some? && Consistent(f, number, poll) && CleanCode(f)
    requires Decided(poll.lookup.value, f.code, poll.overdue) == Pending
    ensures MayAssign(f, poll.lookup.value) <==> BasicsHold(f)
  {
  }

  lemma {:induction false} AccountIsNormal(raw: string)
    ensures Account(raw).Some? ==> Fold(Text.Trim(Account(raw).value), Account(raw).value)
  {
    if Account(raw).Some? {
      var value := Account(raw).value;
      assert InAlphabet(value[0]) && InAlphabet(value[|value| - 1]);
      Text.TrimmedEnds(value);
    }
  }

  lemma {:induction false} FreshMarkerMatches(f: Facts, account: string, orderNo: string, number: string)
    requires Account(f.account) == Some(account) && Fold(Text.Trim(orderNo), Text.Trim(number))
    ensures Matches(Some(Audit(true, orderNo, account, f.code)), account, f.code, number)
  {
    AccountIsNormal(f.account);
  }

  lemma {:induction false} SameNumberMatches(audit: Option<Audit>, account: string, code: string, a: string, b: string)
    requires Fold(Text.Trim(a), Text.Trim(b))
    ensures Matches(audit, account, code, a) <==> Matches(audit, account, code, b)
  {
  }

  /** The assignment step: one success at most, and after it the marker is in place. */
  lemma {:induction false} PendingKeepsOnce(audit: Option<Audit>, f: Facts, number: string, account: string,
                                            lookup: Lookup, poll: Poll)
    requires Account(f.account) == Some(account) && |lookup.orders| == 1 && Fold(Text.Trim(lookup.orders[0].orderNo), Text.Trim(number))
    requires MayAssign(f, lookup) <==> BasicsHold(f)
    ensures var (marker, done) := Assigned(f, account, lookup, audit, poll);
            && (done ==> BasicsHold(f) && !Matches(audit, account, f.code, number) && Matches(marker, account, f.code, number))
            && (BasicsHold(f) && Matches(audit, account, f.code, number) ==> marker == audit && !done)
  {
    SameNumberMatches(audit, account, f.code, lookup.orders[0].orderNo, number);
    FreshMarkerMatches(f, account, lookup.orders[0].orderNo, number);
  }

  /** A poll with consistent answers assigns no order twice. */
  ghost predicate KeepsOnce(s: Sync, r: Sync, f: Facts, poll: Poll) {
    forall number | AtMostOnce(s, f, number) && Consistent(f, number, poll) :: AtMostOnce(r, f, number)
  }

  lemma {:induction false} ReconciledOnce(s: Sync, f: Facts, number: string, poll: Poll)
    requires AtMostOnce(s, f, number) && Consistent(f, number, poll) && s.status != Terminal
    ensures AtMostOnce(Reconciled(s, f, poll), f, number)
  {
    if poll.lookup.Some? && Account(f.account).Some? && Decided(poll.lookup.value, f.code, poll.overdue) == Pending {
      PendingOnce(s, f, number, poll);
    }
  }

  lemma {:induction false} PendingOnce(s: Sync, f: Facts, number: string, poll: Poll)
    requires AtMostOnce(s, f, number) && Consistent(f, number, poll) && s.status != Terminal
    requires poll.lookup.Some? && Account(f.account).Some? && Decided(poll.lookup.value, f.code, poll.overdue) == Pending
    ensures AtMostOnce(Reconciled(s, f, poll), f, number)
  {
    if CleanCode(f) {
      PendingMayAssign(f, number, poll);
      PendingKeepsOnce(s.audit, f, number, Account(f.account).value, poll.lookup.value, poll);
    } else if PreviewFits(f, poll.preview) {
      FittingPreviewIsClean(f, poll.preview);
    }
  }

  lemma {:induction false} ReconciledKeepsOnce(s: Sync, f: Facts, poll: Poll)
    requires s.status != Terminal
    ensures KeepsOnce(s, Reconciled(s, f, poll), f, poll)
  {
    forall number | AtMostOnce(s, f, number) && Consistent(f, number, poll) ensures AtMostOnce(Reconciled(s, f, poll), f, number) {
      ReconciledOnce(s, f, number, poll);
    }
  }

  lemma {:induction false} PollKeepsOnce(s: Sync, f: Facts, number: string, poll: Poll)
    requires AtMostOnce(s, f, number) && Consistent(f, number, poll)
    ensures AtMostOnce(Polled(s, f, poll), f, number)
  {
    if Starts(s) { ReconciledOnce(s.(status := Querying), f, number, poll); }
  }

  /** Over any sequence of automatic polls with consistent answers, query failures included, the warehouse
      is successfully assigned at most once. */
  lemma {:induction false} AssignedAtMostOnce(f: Facts, number: string, polls: seq<Poll>)
    requires forall i | 0 <= i < |polls| :: Consistent(f, number, polls[i])
    ensures AtMostOnce(Run(UNSYNCED, f, polls), f, number) && Run(UNSYNCED, f, polls).assignments <= 1
  {
    if polls != [] {
      var n := |polls| - 1;
      AssignedAtMostOnce(f, number, polls[..n]);
      PollKeepsOnce(Run(UNSYNCED, f, polls[..n]), f, number, polls[n]);
    }
  }

  /** A poll with an answer for the marked order keeps a marker that fits exactly unless the order is pending
      and the source check rejects it: then the marker is erased, and a later poll assigns again. */
  lemma {:induction false} MarkerIsKeptUnless(s: Sync, f: Facts, poll: Poll)
    requires Starts(s) && poll.lookup.Some? && |poll.lookup.value.orders| == 1 && Account(f.account).Some?
    requires Matches(s.audit, Account(f.account).value, f.code, poll.lookup.value.orders[0].orderNo)
    ensures Polled(s, f, poll).assignments == s.assignments
    ensures Polled(s, f, poll).audit == s.audit <==>
            !(Decided(poll.lookup.value, f.code, poll.overdue) == Pending && !MayAssign(f, poll.lookup.value))
  {
  }

  /** A pending order the source check rejects, or that carries another number than the assigned one. */
  predicate LosesMarker(f: Facts, number: string, poll: Poll) {
    && poll.lookup.Some? && Decided(poll.lookup.value, f.code, poll.overdue) == Pending
    && (!MayAssign(f, poll.lookup.value) || !Fold(Text.Trim(poll.lookup.value.orders[0].orderNo), Text.Trim(number)))
  }

  /** After an assignment a poll keeps "assigned once, with the marker in place" exactly unless it loses the marker:
      it erases it, or overwrites it with that of another order number. */
  lemma {:induction false} PollKeepsOnceExactlyWhen(s: Sync, f: Facts, number: string, poll: Poll)
    requires Starts(s) && s.assignments == 1 && AtMostOnce(s, f, number)
    ensures AtMostOnce(Polled(s, f, poll), f, number) <==> !LosesMarker(f, number, poll)
  {
  }

  /** An order the automatic assignment may go out for. */
  predicate Assignable(f: Facts, poll: Poll) {
    && Account(f.account).Some? && poll.lookup.Some?
    && Decided(poll.lookup.value, f.code, poll.overdue) == Pending && MayAssign(f, poll.lookup.value)
  }

  lemma {:induction false} GoodPollAssigns(s: Sync, f: Facts, good: Poll)
    requires Assignable(f, good) && PreviewFits(f, good.preview) && good.accepted && Starts(s) && s.audit == None
    ensures var r := Polled(s, f, good);
            r.assignments == s.assignments + 1 && Starts(r)
  {
  }

  lemma {:induction false} OddPollErases(s: Sync, f: Facts, good: Poll, odd: Poll)
    requires Assignable(f, good) && odd == good.(lookup := Some(good.lookup.value.(matchCount := 2))) && Starts(s)
    ensures var r := Polled(s, f, odd);
            r.assignments == s.assignments && r.audit == None && Starts(r)
  {
  }

  lemma {:induction false} RunOneMore(s: Sync, f: Facts, polls: seq<Poll>, poll: Poll)
    ensures Run(s, f, polls + [poll]) == Polled(Run(s, f, polls), f, poll)
  {
    var all := polls + [poll];
    assert all[..|all| - 1] == polls;
  }

  /** Without consistent answers an order is assigned twice, whenever it can be assigned at all: after one
      answer with another match count the next good answer assigns it again. */
  lemma {:induction false} InconsistentAnswersAssignTwice(f: Facts, good: Poll, odd: Poll)
    requires Assignable(f, good) && PreviewFits(f, good.preview) && good.accepted
    requires odd == good.(lookup := Some(good.lookup.value.(matchCount := 2)))
    ensures Run(UNSYNCED, f, [] + [good] + [odd] + [good]).assignments == 2
  {
    RunOneMore(UNSYNCED, f, [], good);
    RunOneMore(UNSYNCED, f, [] + [good], odd);
    RunOneMore(UNSYNCED, f, [] + [good] + [odd], good);
    var once := Run(UNSYNCED, f, [] + [good]);
    GoodPollAssigns(UNSYNCED, f, good);
    OddPollErases(once, f, good, odd);
    GoodPollAssigns(Run(UNSYNCED, f, [] + [good] + [odd]), f, good);
  }

  /** Losing the marker is what leads to a second assignment: it was made at once, or the next good poll makes it. */
  lemma {:induction false} LostMarkerAssignsAgain(s: Sync, f: Facts, number: string, poll: Poll, good: Poll)
    requires Starts(s) && s.assignments == 1 && AtMostOnce(s, f, number) && LosesMarker(f, number, poll)
    requires Assignable(f, good) && PreviewFits(f, good.preview) && good.accepted
    ensures Starts(Polled(s, f, poll)) && Polled(Polled(s, f, poll), f, good).assignments >= 2
  {
    LostMarker(s, f, number, poll);
    FailedMarkerAssigns(Polled(s, f, poll), f, good);
  }

  /** The marker is gone, marks a failed attempt, or marks a second success. */
  lemma {:induction false} LostMarker(s: Sync, f: Facts, number: string, poll: Poll)
    requires Starts(s) && s.assignments == 1 && AtMostOnce(s, f, number) && LosesMarker(f, number, poll)
    ensures var r := Polled(s, f, poll);
            Starts(r) && (r.assignments == 2 || (r.assignments == 1 && (r.audit == None || !r.audit.value.succeeded)))
  {
  }

  lemma {:induction false} FailedMarkerAssigns(s: Sync, f: Facts, good: Poll)
    requires Assignable(f, good) && PreviewFits(f, good.preview) && good.accepted && Starts(s)
    ensures Polled(s, f, good).assignments >= s.assignments
    ensures s.audit == None || !s.audit.value.succeeded ==> Polled(s, f, good).assignments == s.assignments + 1
  {
  }

  lemma {:induction false} UnmarkedAssigns(s: Sync, f: Facts, poll: Poll)
    requires Assignable(f, poll) && PreviewFits(f, poll.preview) && poll.accepted && Starts(s)
    requires !Matches(s.audit, Account(f.account).value, f.code, poll.lookup.value.orders[0].orderNo)
    ensures Polled(s, f, poll).assignments == s.assignments + 1
    ensures Polled(s, f, poll).audit == Some(Audit(true, poll.lookup.value.orders[0].orderNo, Account(f.account).value, f.code))
    ensures Starts(Polled(s, f, poll))
  {
  }

  /** An answer with another order number leads to a second assignment by itself, for every assignable order. */
  lemma {:induction false} AnotherNumberAssignsTwice(f: Facts, good: Poll, odd: Poll, number: string)
    requires Assignable(f, good) && PreviewFits(f, good.preview) && good.accepted
    requires odd == good.(lookup := Some(good.lookup.value.(orders := [good.lookup.value.orders[0].(orderNo := number)])))
    requires !Fold(Text.Trim(number), Text.Trim(good.lookup.value.orders[0].orderNo))
    ensures Run(UNSYNCED, f, [] + [good] + [odd]).assignments == 2
  {
    RunOneMore(UNSYNCED, f, [], good);
    RunOneMore(UNSYNCED, f, [] + [good], odd);
    UnmarkedAssigns(UNSYNCED, f, good);
    assert Assignable(f, odd);
    UnmarkedAssigns(Run(UNSYNCED, f, [] + [good]), f, odd);
  }

  lemma {:induction false} OneLetter(c: char)
    requires 'a' <= c <= 'z'
    ensures Text.Trim([c]) == [c] && Text.Lower([c]) == [c] && Account([c]) == Some([c])
  {
    assert !Text.IsSpace(c);
    Text.TrimmedEnds([c]);
    assert [c][..0] == "";
  }

  /** There are such orders. */
  lemma {:induction false} AssignableOrder() returns (f: Facts, good: Poll)
    ensures Assignable(f, good) && PreviewFits(f, good.preview) && good.accepted
  {
    f := Facts("p", "a", true, "w", "c", "w");
    good := Poll(Some(Lookup([PlatformOrder("s", "p", 0, "")], 1)), true, Some("c"), true);
    OneLetter('a');
    OneLetter('c');
    OneLetter('w');
    Text.TrimmedEnds("");
  }

  // ---- what one poll makes of the row ----

  predicate IsFinished(status: SyncStatus) {
    status == Verified || status == ManualRequired || status == Terminal
  }

  /** The account is usable and the query was answered. */
  predicate Answered(f: Facts, poll: Poll) {
    Account(f.account).Some? && poll.lookup.Some?
  }

  /** The only order found, in this status. */
  predicate FoundIn(poll: Poll, statuses: set<int>) {
    poll.lookup.Some? && |poll.lookup.value.orders| == 1 && poll.lookup.value.orders[0].status in statuses
  }

  /** The warehouse the only order found is sent from. */
  function SentFrom(poll: Poll): string
    requires poll.lookup.Some? && |poll.lookup.value.orders| == 1
  {
    Text.Trim(poll.lookup.value.orders[0].warehouseCode)
  }

  /** The order is sent from our warehouse, or, while that is allowed, from none yet. */
  predicate SentAsBought(f: Facts, poll: Poll, orNone: bool)
    requires poll.lookup.Some? && |poll.lookup.value.orders| == 1
  {
    if SentFrom(poll) == "" then orNone else Fold(SentFrom(poll), Text.Trim(f.code))
  }

  predicate SameText(a: string, b: string) {
    Text.Lower(Text.Trim(a)) == Text.Lower(Text.Trim(b))
  }

  /** The marker of an earlier success for this account, warehouse and order, up to case. */
  predicate Marked(s: Sync, f: Facts, poll: Poll)
    requires Answered(f, poll) && FoundIn(poll, {0})
  {
    && s.audit.Some? && s.audit.value.succeeded && Text.Lower(Text.Trim(s.audit.value.account)) == Text.Lower(Account(f.account).value)
    && SameText(s.audit.value.warehouseCode, f.code) && SameText(s.audit.value.orderNo, poll.lookup.value.orders[0].orderNo)
  }

  /** A confirmed shipment with a code, of the warehouse its mapping names, and the only match is a pending order with
      its number, sent from that code or from nowhere yet. */
  predicate Admitted(f: Facts, poll: Poll)
    requires Answered(f, poll) && FoundIn(poll, {0})
  {
    var order := poll.lookup.value.orders[0];
    && f.confirmed && Text.Trim(f.code) != "" && Text.Trim(f.mappedId) != "" && SameText(f.mappedId, f.warehouseId)
    && poll.lookup.value.matchCount == 1 && SameText(order.platformNo, f.orderNo)
    && (SentFrom(poll) == "" || Text.Lower(SentFrom(poll)) == Text.Lower(f.code))
  }

  /** What makes a poll assign the warehouse: an admitted order without a marker, a preview of the mapping's code, and
      an accepted call. */
  predicate Assigns(s: Sync, f: Facts, poll: Poll) {
    && Answered(f, poll) && FoundIn(poll, {0}) && SentAsBought(f, poll, true) && Admitted(f, poll) && !Marked(s, f, poll)
    && poll.preview.Some? && Text.Lower(Text.Trim(poll.preview.value)) == Text.Lower(f.code) && poll.accepted
  }

  lemma {:induction false} DecidedMeans(f: Facts, poll: Poll)
    requires Answered(f, poll)
    ensures var decision := Decided(poll.lookup.value, f.code, poll.overdue);
            && (decision == Done <==> FoundIn(poll, {2, 3}) && SentAsBought(f, poll, false))
            && (decision == Pending || decision == AwaitingLabel <==> FoundIn(poll, {0, 1}) && SentAsBought(f, poll, true))
            && (decision == Pending <==> FoundIn(poll, {0}) && SentAsBought(f, poll, true))
            && (decision == Missing <==> |poll.lookup.value.orders| == 0 && !poll.overdue)
  {
  }

  /** Exactly where each poll leaves a row: verified only when the one order found is processed or shipped from the
      warehouse bought from; waiting while it is pending or awaits its label there, or is not yet overdue; and in the
      hands of a person otherwise. A finished row is left alone. */
  lemma {:induction false} PollMeans(s: Sync, f: Facts, poll: Poll)
    ensures var r := Polled(s, f, poll);
            if IsFinished(s.status) then r == s
            else
              && (r.status == QueryFailed <==> !Answered(f, poll))
              && (r.status == Verified <==> Answered(f, poll) && FoundIn(poll, {2, 3}) && SentAsBought(f, poll, false))
              && (r.status == WaitingSync <==>
                   Answered(f, poll) && ((|poll.lookup.value.orders| == 0 && !poll.overdue) || (FoundIn(poll, {0, 1}) && SentAsBought(f, poll, true))))
              && (r.status == ManualRequired <==> r.status != QueryFailed && r.status != Verified && r.status != WaitingSync)
              && (!(Answered(f, poll) && FoundIn(poll, {0}) && SentAsBought(f, poll, true)) ==> r.audit == s.audit)
  {
    if Answered(f, poll) { DecidedMeans(f, poll); }
  }

  /** A pending order that passes the source check, spelled out. */
  lemma {:induction false} AdmittedMeans(f: Facts, poll: Poll)
    requires Answered(f, poll)
    ensures FoundIn(poll, {0}) ==> (MayAssign(f, poll.lookup.value) <==> Admitted(f, poll))
  {
  }

  lemma {:induction false} AssignedMeans(s: Sync, f: Facts, poll: Poll)
    requires Answered(f, poll) && FoundIn(poll, {0}) && (MayAssign(f, poll.lookup.value) <==> Admitted(f, poll)) && SentAsBought(f, poll, true)
    ensures Assigned(f, Account(f.account).value, poll.lookup.value, s.audit, poll).1 <==> Assigns(s, f, poll)
  {
  }

  /** Exactly when a poll assigns the warehouse. */
  lemma {:induction false} PollAssignsExactlyWhen(s: Sync, f: Facts, poll: Poll)
    ensures Polled(s, f, poll).assignments == s.assignments + if !IsFinished(s.status) && Assigns(s, f, poll) then 1 else 0
  {
    if Answered(f, poll) {
      DecidedMeans(f, poll);
      AdmittedMeans(f, poll);
      if FoundIn(poll, {0}) && SentAsBought(f, poll, true) { AssignedMeans(s, f, poll); }
    }
  }

  /** The marker after a poll of a pending order: gone when the source check rejects it, kept when it marks this
      order's success, and otherwise telling how this attempt went. */
  lemma {:induction false} MarkerMeans(s: Sync, f: Facts, poll: Poll)
    requires Starts(s) && Answered(f, poll) && FoundIn(poll, {0}) && SentAsBought(f, poll, true)
    ensures var (audit, order) := (Polled(s, f, poll).audit, poll.lookup.value.orders[0]);
            audit == if !Admitted(f, poll) then None
                     else if Marked(s, f, poll) then s.audit
                     else Some(Audit(Assigns(s, f, poll), order.orderNo, Account(f.account).value, f.code))
  {
  }

  predicate AccountChar(c: char) {
    'a' <= c <= 'z' || 'A' <= c <= 'Z' || '0' <= c <= '9' || c == '-' || c == '_'
  }

  /** An account is usable exactly when it has one to sixty-four letters, digits, dashes and underscores. */
  lemma {:induction false} AccountExactlyWhen(raw: string)
    ensures var trimmed := Text.Trim(raw);
            Account(raw) == if 1 <= |trimmed| <= 64 && (forall i | 0 <= i < |trimmed| :: AccountChar(trimmed[i]))
                            then Some(Text.Lower(trimmed)) else None
  {
    var trimmed := Text.Trim(raw);
    forall i | 0 <= i < |trimmed| ensures InAlphabet(Text.Lower(trimmed)[i]) == AccountChar(trimmed[i]) {
      Text.LowerAt(trimmed, i);
    }
  }
}
