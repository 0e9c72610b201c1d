/** The manual-review row of an order and every statement that writes it (internal/store/order_detail.go,
    review part of `ReplaceOpenOrders` in internal/store/postgres.go). Reasons are a set. */
module ManualReviews {
  import opened Common

  datatype Status = Detected | ManualPending | Approved | Resolved

  datatype Review = Review(reasons: set<string>, status: Status, outcome: string, note: string, active: bool)

  /** The reasons a sync may not drop. */
  const BLOCKING := {"sku_unbound", "inventory_rule", "inventory_scope_incomplete", "warehouse_sku_spec_incomplete", "delivery_address_unsupported"}

  predicate Blocks(reasons: set<string>) {
    reasons * BLOCKING != {}
  }

  /** A person decided the case. */
  predicate Final(r: Review) {
    r.status == Resolved && r.outcome != ""
  }

  datatype Event =
    | Upsert(reasons: set<string>)
    | SyncWith(reasons: set<string>)
    | SyncWithout
    | Close
    | Clear(reason: string)
    | Update(status: Status, outcome: string, note: string)

  /** The status a new detection leaves; `blocking`: a blocking reason is involved. */
  function Redetected(status: Status, blocking: bool): Status {
    if blocking then (if status == Detected then Detected else ManualPending)
    else if status == ManualPending || status == Approved then status
    else Detected
  }

  function Merged(r: Review, reasons: set<string>, blocking: bool): Review {
    r.(reasons := reasons + if r.active then r.reasons * BLOCKING else {}, active := true, status := Redetected(r.status, blocking))
  }

  /** `UpsertManualReview` */
  function Upserted(row: Option<Review>, reasons: set<string>): Option<Review> {
    if reasons == {} then row
    else if row.None? then Some(Review(reasons, Detected, "", "", true))
    else if Final(row.value) then row
    else Some(Merged(row.value, reasons, Blocks(reasons) || (row.value.active && Blocks(row.value.reasons))))
  }

  /** A synced order with a review; here old reasons count even on an inactive row. */
  function SyncedWith(row: Option<Review>, reasons: set<string>): Option<Review> {
    if row.None? then Some(Review(reasons, Detected, "", "", true))
    else if Final(row.value) then row
    else Some(Merged(row.value, reasons, Blocks(row.value.reasons) || Blocks(reasons)))
  }

  /** A synced order without a review. */
  function SyncedWithout(row: Option<Review>): Option<Review> {
    if row.None? || !row.value.active then row
    else
      var r := row.value;
      if Blocks(r.reasons) then Some(r.(active := true, status := if r.status == Detected then Detected else ManualPending))
      else Some(r.(active := false, status := if r.status == Approved then Approved else Resolved))
  }

  /** The order is no longer open. */
  function Closed(row: Option<Review>): Option<Review> {
    if row.None? || !row.value.active then row else Some(row.value.(active := false, status := Resolved))
  }

  /** `ClearManualReviewReason` */
  function Cleared(row: Option<Review>, reason: string): Option<Review> {
    if row.None? || reason !in row.value.reasons || Final(row.value) then row
    else
      var left := row.value.reasons - {reason};
      Some(row.value.(reasons := left, active := left != {},
                      status := if left == {} then Resolved else if row.value.status == Approved then ManualPending else row.value.status))
  }

  /** `UpdateManualReview`: a resolution needs an active row that is pending. */
  predicate MayUpdate(r: Review, status: Status) {
    if status == Resolved then r.active && r.status == ManualPending else status != Detected && !Final(r)
  }

  function Updated(row: Option<Review>, status: Status, outcome: string, note: string): Option<Review> {
    if row.None? || !MayUpdate(row.value, status) then row
    else Some(row.value.(status := status, active := status != Resolved,
                         outcome := if status == Resolved then outcome else "", note := if status == Resolved then note else ""))
  }

  function Next(row: Option<Review>, e: Event): Option<Review> {
    match e
    case Upsert(reasons) => Upserted(row, reasons)
    case SyncWith(reasons) => SyncedWith(row, reasons)
    case SyncWithout => SyncedWithout(row)
    case Close => Closed(row)
    case Clear(reason) => Cleared(row, reason)
    case Update(status, outcome, note) => Updated(row, status, outcome, note)
  }

  function Run(row: Option<Review>, events: seq<Event>): Option<Review> {
    if events == [] then row else Next(Run(row, events[..|events| - 1]), events[|events| - 1])
  }

  /** A stored outcome belongs to a resolved, inactive row. */
  predicate Settled(row: Option<Review>) {
    row.Some? && row.value.outcome != "" ==> row.value.status == Resolved && !row.value.active
  }

  /** A step keeps outcomes on resolved rows, and a decided row as it is. */
  predicate KeepsDecisions(row: Option<Review>, next: Option<Review>) {
    Settled(row) ==> Settled(next) && (row.Some? && Final(row.value) ==> next == row)
  }

  class ReviewRow {
    var row: Option<Review>

    constructor ()
      ensures row == None
    {
      row := None;
    }

    method Detect(reasons: set<string>, blocking: bool)
      requires row.Some? ==> !Final(row.value)
      modifies this
      ensures row == Some(if old(row).None? then Review(reasons, Detected, "", "", true) else Merged(old(row).value, reasons, blocking))
    {
      if row.None? {
        row := Some(Review(reasons, Detected, "", "", true));
        return;
      }
      var r := row.value;
      var kept := if r.active then r.reasons * BLOCKING else {};
      var status := Detected;
      if blocking && r.status != Detected {
        status := ManualPending;
      }
      if !blocking && (r.status == ManualPending || r.status == Approved) {
        status := r.status;
      }
      row := Some(Review(reasons + kept, status, r.outcome, r.note, true));
    }

    method UpsertManualReview(reasons: set<string>)
      modifies this
      ensures row == Upserted(old(row), reasons)
      ensures KeepsDecisions(old(row), row)
    {
      if reasons == {} || (row.Some? && Final(row.value)) {
        return;
      }
      var blocking := Blocks(reasons) || (row.Some? && row.value.active && Blocks(row.value.reasons));
      Detect(reasons, blocking);
    }

    /** The review part of `ReplaceOpenOrders` for one order of the answer. */
    method ReplaceOpenOrder(review: Option<set<string>>)
      modifies this
      ensures row == match review case Some(reasons) => SyncedWith(old(row), reasons) case None => SyncedWithout(old(row))
      ensures KeepsDecisions(old(row), row)
    {
      if review.Some? {
        if row.None? || !Final(row.value) {
          Detect(review.value, (row.Some? && Blocks(row.value.reasons)) || Blocks(review.value));
        }
        return;
      }
      if row.Some? && row.value.active {
        var r := row.value;
        if Blocks(r.reasons) {
          row := Some(r.(status := if r.status == Detected then Detected else ManualPending));
        } else {
          row := Some(r.(active := false, status := if r.status == Approved then Approved else Resolved));
        }
      }
    }

    method CloseOrder()
      modifies this
      ensures row == Closed(old(row))
      ensures KeepsDecisions(old(row), row)
    {
      if row.Some? && row.value.active {
        row := Some(row.value.(active := false, status := Resolved));
      }
    }

    method ClearManualReviewReason(reason: string)
      modifies this
      ensures row == Cleared(old(row), reason)
      ensures KeepsDecisions(old(row), row)
    {
      if row.Some? && reason in row.value.reasons && !Final(row.value) {
        var r := row.value;
        var left := r.reasons - {reason};
        var status := r.status;
        if left == {} {
          status := Resolved;
        } else if r.status == Approved {
          status := ManualPending;
        }
        row := Some(Review(left, status, r.outcome, r.note, left != {}));
      }
    }

    method UpdateManualReview(status: Status, outcome: string, note: string) returns (ok: bool)
      modifies this
      ensures ok == (old(row).Some? && MayUpdate(old(row).value, status)) && row == Updated(old(row), status, outcome, note)
      ensures KeepsDecisions(old(row), row)
    {
      ok := row.Some? && status != Detected
            && (if status == Resolved then row.value.active && row.value.status == ManualPending else !Final(row.value));
      if ok {
        var resolved := status == Resolved;
        row := Some(Review(row.value.reasons, status, if resolved then outcome else "", if resolved then note else "", !resolved));
      }
    }
  }

  // ---- final rows ----

  lemma {:induction false} NextIsSettled(row: Option<Review>, e: Event)
    requires Settled(row)
    ensures Settled(Next(row, e)) && KeepsDecisions(row, Next(row, e))
  {
  }

  lemma {:induction false} RunIsSettled(events: seq<Event>)
    ensures Settled(Run(None, events))
  {
    if events != [] {
      RunIsSettled(events[..|events| - 1]);
      NextIsSettled(Run(None, events[..|events| - 1]), events[|events| - 1]);
    }
  }

  /** A row resolved with an outcome is never changed again, by any later sequence of steps. */
  lemma {:induction false} FinalIsForever(row: Option<Review>, events: seq<Event>)
    requires Settled(row) && row.Some? && Final(row.value)
    ensures Run(row, events) == row
  {
    if events != [] {
      FinalIsForever(row, events[..|events| - 1]);
      NextIsSettled(row, events[|events| - 1]);
    }
  }

  // ---- blocking reasons ----

  predicate Held(row: Option<Review>, reason: string) {
    row.Some? && row.value.active && reason in row.value.reasons
  }

  /** An event that may end a blocking reason: its own clearing, a person's resolution, or the order closing. */
  predicate Ends(e: Event, reason: string) {
    e == Clear(reason) || e.Close? || (e.Update? && e.status == Resolved)
  }

  lemma {:induction false} NextHolds(row: Option<Review>, e: Event, reason: string)
    requires Settled(row) && reason in BLOCKING && Held(row, reason) && !Ends(e, reason)
    ensures Held(Next(row, e), reason)
  {
    assert reason in row.value.reasons * BLOCKING;
    if e.Clear? && e.reason in row.value.reasons {
      assert reason in row.value.reasons - {e.reason};
    }
  }

  /** A blocking reason of an active review survives every sync, upsert, approval and clearing of other
      reasons: only its own clearing, a resolution or the closing of the order ends it. */
  lemma {:induction false} BlockingReasonsPersist(row: Option<Review>, events: seq<Event>, reason: string)
    requires Settled(row) && reason in BLOCKING && Held(row, reason) && forall i | 0 <= i < |events| :: !Ends(events[i], reason)
    ensures Held(Run(row, events), reason) && Settled(Run(row, events))
  {
    if events != [] {
      var front := events[..|events| - 1];
      BlockingReasonsPersist(row, front, reason);
      NextHolds(Run(row, front), events[|events| - 1], reason);
      NextIsSettled(Run(row, front), events[|events| - 1]);
    }
  }

  /** The review condition of the direct bulk query: no decided case, and no active review that is not
      approved or that has a blocking reason. */
  predicate Admits(row: Option<Review>) {
    row.None? || !(Final(row.value) || (row.value.active && (row.value.status != Approved || Blocks(row.value.reasons))))
  }

  /** An order is admitted exactly without a review, or when nobody decided its case and its review is put away or is
      approved and free of blocking reasons. */
  lemma {:induction false} AdmitsExactlyWhen(row: Option<Review>)
    ensures Admits(row) <==>
            row.None? || (!(row.value.status == Resolved && row.value.outcome != "")
                          && (!row.value.active || (row.value.status == Approved && forall x | x in row.value.reasons :: x !in BLOCKING)))
  {
    if row.Some? {
      assert Blocks(row.value.reasons) <==> exists x | x in row.value.reasons :: x in BLOCKING by {
        if x :| x in row.value.reasons && x in BLOCKING { assert x in row.value.reasons * BLOCKING; }
        if x :| x in row.value.reasons * BLOCKING { assert x in BLOCKING; }
      }
    }
  }

  /** So such an order is kept out of every direct batch in the meantime, even when approved. */
  lemma {:induction false} BlockedOrdersStayOut(row: Option<Review>, events: seq<Event>, reason: string)
    requires Settled(row) && reason in BLOCKING && Held(row, reason) && forall i | 0 <= i < |events| :: !Ends(events[i], reason)
    ensures !Admits(Run(row, events))
  {
    BlockingReasonsPersist(row, events, reason);
    assert reason in Run(row, events).value.reasons * BLOCKING;
  }

  /** A sync or a new detection that leaves a blocking reason on an active review also revokes an approval. */
  lemma {:induction false} SyncRevokesApproval(row: Option<Review>, e: Event, reason: string)
    requires Settled(row) && reason in BLOCKING && Held(Next(row, e), reason)
    requires (e.Upsert? && e.reasons != {}) || e.SyncWith? || e.SyncWithout?
    ensures Next(row, e).value.status == Detected || Next(row, e).value.status == ManualPending
  {
    assert reason in Next(row, e).value.reasons * BLOCKING;
    if row.Some? && reason in row.value.reasons { assert reason in row.value.reasons * BLOCKING; }
    if (e.Upsert? || e.SyncWith?) && reason in e.reasons { assert reason in e.reasons * BLOCKING; }
  }

  /** Only a person approves or resolves with an outcome. */
  lemma {:induction false} OnlyPeopleDecide(row: Option<Review>, e: Event)
    requires Settled(row) && !e.Update? && Next(row, e).Some?
    ensures Next(row, e).value.status == Approved ==> row.Some? && row.value.status == Approved
    ensures Final(Next(row, e).value) ==> Next(row, e) == row
  {
  }

  // ---- an active row is open, with one exception ----

  predicate ActiveIsOpen(row: Option<Review>) {
    row.Some? && row.value.active ==> row.value.status != Resolved
  }

  /** Clearing one of several reasons of a row that was resolved without an outcome. */
  predicate Reopens(row: Option<Review>, e: Event) {
    && e.Clear? && row.Some? && row.value.status == Resolved && row.value.outcome == ""
    && e.reason in row.value.reasons && row.value.reasons != {e.reason}
  }

  /** A step leaves an active row with status `resolved` exactly when it clears one of several reasons of a
      resolved row: the statement recomputes `active` but keeps the status. */
  lemma {:induction false} ActiveRowsAreOpenExcept(row: Option<Review>, e: Event)
    requires Settled(row) && ActiveIsOpen(row)
    ensures ActiveIsOpen(Next(row, e)) <==> !Reopens(row, e)
  {
    if e.Clear? && row.Some? && e.reason in row.value.reasons {
      assert row.value.reasons - {e.reason} == {} <==> row.value.reasons == {e.reason};
    }
  }

  /** Such a row does arise: detected, gone from the next sync, one reason cleared. */
  lemma {:induction false} ResolvedRowReactivated()
    ensures var events := [SyncWith({"merge", "address"}), SyncWithout, Clear("merge")];
            Run(None, events) == Some(Review({"address"}, Resolved, "", "", true))
  {
    var events := [SyncWith({"merge", "address"}), SyncWithout, Clear("merge")];
    assert events[..2] == [SyncWith({"merge", "address"}), SyncWithout] && events[..2][..1] == [SyncWith({"merge", "address"})];
    assert events[..2][..1][..0] == [];
    assert Run(None, events[..2][..1]) == Some(Review({"merge", "address"}, Detected, "", "", true));
    assert {"merge", "address"} * BLOCKING == {};
    assert Run(None, events[..2]) == Some(Review({"merge", "address"}, Resolved, "", "", false));
    assert {"merge", "address"} - {"merge"} == {"address"};
  }

  // ---- what each step leaves ----

  /** The status an undecided row gets from a detection: nobody's approval outlives a blocking reason. */
  predicate StatusAfter(before: Status, after: Status, blocked: bool) {
    match before
    case Detected => after == Detected
    case ManualPending => after == ManualPending
    case Approved => after == if blocked then ManualPending else Approved
    case Resolved => after == if blocked then ManualPending else Detected
  }

  /** A detection opens the row for its reasons and the blocking ones of a row that was open; what counts for the
      status is whether a blocking reason is left. A new row is just detected, and a decided one stays. */
  lemma {:induction false} UpsertMeans(row: Option<Review>, reasons: set<string>)
    requires reasons != {} && !(row.Some? && Final(row.value))
    ensures Upserted(row, reasons).Some?
    ensures var n := Upserted(row, reasons).value;
            && n.active
            && (row.None? ==> n.reasons == reasons && n.status == Detected && n.outcome == "" && n.note == "")
            && (row.Some? ==>
                 && (n.outcome, n.note) == (row.value.outcome, row.value.note) && StatusAfter(row.value.status, n.status, Blocks(n.reasons))
                 && forall x :: x in n.reasons <==> x in reasons || (row.value.active && x in row.value.reasons && x in BLOCKING))
  {
    if row.Some? {
      var n := Upserted(row, reasons).value;
      assert n.reasons * BLOCKING == reasons * BLOCKING + if row.value.active then row.value.reasons * BLOCKING else {};
    }
  }

  /** A sync does the same, except that blocking reasons of an inactive row, though dropped, still count. */
  lemma {:induction false} SyncMeans(row: Option<Review>, reasons: set<string>)
    requires !(row.Some? && Final(row.value))
    ensures SyncedWith(row, reasons).Some?
    ensures var n := SyncedWith(row, reasons).value;
            && n.active
            && (row.None? ==> n.reasons == reasons && n.status == Detected && n.outcome == "" && n.note == "")
            && (row.Some? ==>
                 && (n.outcome, n.note) == (row.value.outcome, row.value.note)
                 && StatusAfter(row.value.status, n.status, Blocks(n.reasons) || Blocks(row.value.reasons))
                 && forall x :: x in n.reasons <==> x in reasons || (row.value.active && x in row.value.reasons && x in BLOCKING))
  {
    if row.Some? {
      var n := SyncedWith(row, reasons).value;
      assert n.reasons * BLOCKING == reasons * BLOCKING + if row.value.active then row.value.reasons * BLOCKING else {};
    }
  }

  /** An active review that a sync no longer finds stays open, unapproved, while it has a blocking reason; otherwise it
      is put away, an approval kept. Closing the order puts every active review away. */
  lemma {:induction false} AbsenceMeans(r: Review)
    ensures !r.active ==> SyncedWithout(Some(r)) == Some(r) && Closed(Some(r)) == Some(r)
    ensures r.active && (exists x | x in BLOCKING :: x in r.reasons) ==>
              SyncedWithout(Some(r)) == Some(r.(status := if r.status == Detected then Detected else ManualPending))
    ensures r.active && (forall x | x in BLOCKING :: x !in r.reasons) ==>
              SyncedWithout(Some(r)) == Some(r.(active := false, status := if r.status == Approved then Approved else Resolved))
    ensures r.active ==> Closed(Some(r)) == Some(r.(active := false, status := Resolved))
    ensures SyncedWithout(None) == None && Closed(None) == None
  {
    if x :| x in BLOCKING && x in r.reasons { assert x in r.reasons * BLOCKING; }
    if x :| x in r.reasons * BLOCKING { assert x in BLOCKING; }
  }

  /** Clearing a reason the undecided row has: the last one resolves it, another one takes an approval back. */
  lemma {:induction false} ClearMeans(r: Review, reason: string)
    requires reason in r.reasons && !Final(r)
    ensures Cleared(Some(r), reason) ==
            if r.reasons == {reason} then Some(r.(reasons := {}, active := false, status := Resolved))
            else Some(r.(reasons := r.reasons - {reason}, active := true, status := if r.status == Approved then ManualPending else r.status))
  {
    assert r.reasons - {reason} == {} <==> r.reasons == {reason};
  }

  /** A person resolves an active review that is pending, with outcome and note; approves, or puts back to pending, any
      that is not decided, which opens it again. */
  lemma {:induction false} UpdateMeans(r: Review, status: Status, outcome: string, note: string)
    ensures var n := Updated(Some(r), status, outcome, note);
            match status
            case Resolved =>
              n == if r.active && r.status == ManualPending then Some(r.(status := Resolved, active := false, outcome := outcome, note := note))
                   else Some(r)
            case Approved | ManualPending => n == if Final(r) then Some(r) else Some(r.(status := status, active := true, outcome := "", note := ""))
            case Detected => n == Some(r)
  {
  }
}
