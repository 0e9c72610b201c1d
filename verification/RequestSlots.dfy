/** The request-slot limiter of the platform client (internal/temu/client.go `waitForRequestSlot`): one
    shared field under a mutex. Callers take the mutex one after the other, each with a clock reading of
    its own; readings need not grow. */
module RequestSlots {

  /** The instant a caller is given, and what the field holds afterwards. */
  function Slot(nextAt: int, now: int): int {
    if nextAt > now then nextAt else now
  }

  function NextAfter(nextAt: int, interval: int, readings: seq<int>): int {
    if readings == [] then nextAt
    else Slot(NextAfter(nextAt, interval, readings[..|readings| - 1]), readings[|readings| - 1]) + interval
  }

  /** The instants granted to callers with these readings, in the order they take the mutex. */
  function Slots(nextAt: int, interval: int, readings: seq<int>): (r: seq<int>)
    ensures |r| == |readings|
  {
    if readings == [] then []
    else
      var front := readings[..|readings| - 1];
      Slots(nextAt, interval, front) + [Slot(NextAfter(nextAt, interval, front), readings[|readings| - 1])]
  }

  // ---- the limiter's fields ----

  datatype Fields = Fields(interval: int, nextAt: int)

  const MAX_INTERVAL := 10_000_000_000

  predicate Accepted(wanted: int) {
    0 <= wanted <= MAX_INTERVAL
  }

  /** `SetRequestInterval`, in nanoseconds. */
  function IntervalSet(s: Fields, wanted: int): Fields {
    if Accepted(wanted) then Fields(wanted, 0) else s
  }

  /** The instant a caller with this reading is granted; without an interval nobody waits. */
  function Granted(s: Fields, now: int): int {
    if s.interval <= 0 then now else Slot(s.nextAt, now)
  }

  /** `waitForRequestSlot`, the part under the mutex; without an interval nothing is recorded. */
  function Waited(s: Fields, now: int): Fields {
    if s.interval <= 0 then s else s.(nextAt := Granted(s, now) + s.interval)
  }

  /** An interval from nothing to ten seconds is taken, and then the slots granted are forgotten. */
  lemma {:induction false} IntervalMeans(s: Fields, wanted: int)
    ensures IntervalSet(s, wanted) == if wanted < 0 || wanted > 10_000_000_000 then s else s.(interval := wanted, nextAt := 0)
  {
  }

  /** Without an interval a caller is served at once and nothing is recorded; with one it gets the later of its reading
      and the field, which moves an interval past that. */
  lemma {:induction false} WaitMeans(s: Fields, now: int)
    ensures s.interval <= 0 ==> Granted(s, now) == now && Waited(s, now) == s
    ensures s.interval > 0 ==>
              (Granted(s, now) == now || Granted(s, now) == s.nextAt) && Granted(s, now) >= now && Granted(s, now) >= s.nextAt
              && Waited(s, now) == Fields(s.interval, Granted(s, now) + s.interval)
  {
  }

  class Limiter {
    var interval: int
    var nextAt: int

    function State(): Fields
      reads this
    {
      Fields(interval, nextAt)
    }

    constructor ()
      ensures State() == Fields(0, 0)
    {
      interval, nextAt := 0, 0;
    }

    method SetRequestInterval(wanted: int) returns (ok: bool)
      modifies this
      ensures ok == Accepted(wanted) && State() == IntervalSet(old(State()), wanted)
    {
      if wanted < 0 || wanted > MAX_INTERVAL {
        return false;
      }
      interval, nextAt := wanted, 0;
      return true;
    }

    method WaitForRequestSlot(now: int) returns (slot: int)
      modifies this`nextAt
      ensures slot == Granted(old(State()), now) && State() == Waited(old(State()), now)
    {
      if interval <= 0 {
        return now;
      }
      slot := now;
      if nextAt > slot {
        slot := nextAt;
      }
      nextAt := slot + interval;
    }

    /** Any interleaving of callers: they are served in the order they take the mutex. */
    method Serve(readings: seq<int>) returns (slots: seq<int>)
      requires interval > 0
      modifies this`nextAt
      ensures slots == Slots(old(nextAt), interval, readings) && nextAt == NextAfter(old(nextAt), interval, readings)
    {
      slots := [];
      for i := 0 to |readings|
        invariant slots == Slots(old(nextAt), interval, readings[..i]) && nextAt == NextAfter(old(nextAt), interval, readings[..i])
      {
        assert readings[..i + 1][..i] == readings[..i];
        var slot := WaitForRequestSlot(readings[i]);
        slots := slots + [slot];
      }
      assert readings[..|readings|] == readings;
    }
  }

  // ---- spacing and minimality ----

  /** A schedule a limiter of this interval may grant: nobody before its reading or before `nextAt`, and
      consecutive instants at least an interval apart. */
  ghost predicate Allowed(nextAt: int, interval: int, readings: seq<int>, slots: seq<int>) {
    && |slots| == |readings|
    && (forall i | 0 <= i < |slots| :: readings[i] <= slots[i])
    && (slots != [] ==> nextAt <= slots[0])
    && (forall i | 0 < i < |slots| :: slots[i - 1] + interval <= slots[i])
  }

  lemma {:induction false} NextIsAfterLast(nextAt: int, interval: int, readings: seq<int>)
    ensures NextAfter(nextAt, interval, readings) ==
            if readings == [] then nextAt else Slots(nextAt, interval, readings)[|readings| - 1] + interval
  {
  }

  /** The granted instants are allowed: spaced, never early. */
  lemma {:induction false} SlotsAreAllowed(nextAt: int, interval: int, readings: seq<int>)
    ensures Allowed(nextAt, interval, readings, Slots(nextAt, interval, readings))
  {
    if readings != [] {
      var n := |readings| - 1;
      SlotsAreAllowed(nextAt, interval, readings[..n]);
      NextIsAfterLast(nextAt, interval, readings[..n]);
    }
  }

  /** And they are the earliest: any allowed schedule grants every caller the same instant or a later one. */
  lemma {:induction false} SlotsAreEarliest(nextAt: int, interval: int, readings: seq<int>, other: seq<int>, i: nat)
    requires Allowed(nextAt, interval, readings, other) && i < |readings|
    ensures Slots(nextAt, interval, readings)[i] <= other[i]
  {
    var n := |readings| - 1;
    AllowedFront(nextAt, interval, readings, other);
    if i < n {
      SlotsAreEarliest(nextAt, interval, readings[..n], other[..n], i);
    } else if n > 0 {
      SlotsAreEarliest(nextAt, interval, readings[..n], other[..n], n - 1);
      NextIsAfterLast(nextAt, interval, readings[..n]);
    }
  }

  lemma {:induction false} AllowedFront(nextAt: int, interval: int, readings: seq<int>, other: seq<int>)
    requires readings != [] && Allowed(nextAt, interval, readings, other)
    ensures Allowed(nextAt, interval, readings[..|readings| - 1], other[..|readings| - 1])
  {
  }

  /** Nobody waits without a reason: each instant is the caller's reading, or follows the previous one
      after exactly the interval. */
  lemma {:induction false} NoIdleWaiting(nextAt: int, interval: int, readings: seq<int>, i: nat)
    requires i < |readings|
    ensures var slots := Slots(nextAt, interval, readings);
            slots[i] == readings[i] || slots[i] == if i == 0 then nextAt else slots[i - 1] + interval
  {
    var n := |readings| - 1;
    if i < n {
      NoIdleWaiting(nextAt, interval, readings[..n], i);
    } else {
      NextIsAfterLast(nextAt, interval, readings[..n]);
    }
  }

  // ---- windows ----

  /** How many instants fall into `[start, start + length)`. */
  function InWindow(slots: seq<int>, start: int, length: int): nat {
    if slots == [] then 0
    else InWindow(slots[..|slots| - 1], start, length) +
         if start <= slots[|slots| - 1] < start + length then 1 else 0
  }

  function Times(n: nat, x: int): int {
    if n == 0 then 0 else Times(n - 1, x) + x
  }

  ghost predicate Spaced(slots: seq<int>, interval: int) {
    forall i | 0 < i < |slots| :: slots[i - 1] + interval <= slots[i]
  }

  /** The instants in the window so far, the last of them at most `|slots| - 1`, span their intervals. */
  lemma {:induction false} WindowSpan(slots: seq<int>, interval: int, start: int, length: int)
    requires interval > 0 && Spaced(slots, interval)
    ensures InWindow(slots, start, length) == 0 || Times(InWindow(slots, start, length) - 1, interval) < length
    ensures slots != [] && InWindow(slots, start, length) > 0 ==>
              start + Times(InWindow(slots, start, length) - 1, interval) <= slots[|slots| - 1]
  {
    if slots != [] {
      var n := |slots| - 1;
      WindowSpan(slots[..n], interval, start, length);
      if n > 0 { assert slots[n - 1] + interval <= slots[n]; }
    }
  }

  lemma {:induction false} TimesIsProduct(n: nat, x: int)
    ensures Times(n, x) == n * x
  {
    if n > 0 {
      TimesIsProduct(n - 1, x);
      assert (n - 1) * x + x == n * x;
    }
  }

  function Ceiling(length: nat, interval: int): nat
    requires interval > 0
  {
    (length + interval - 1) / interval
  }

  lemma {:induction false} TimesGrow(m: nat, n: nat, x: int)
    requires m <= n && x >= 0
    ensures Times(m, x) <= Times(n, x)
  {
    if m < n { TimesGrow(m, n - 1, x); }
  }

  lemma {:induction false} DivisionBound(n: nat, d: int, x: nat)
    requires d > 0 && Times(n, d) <= x
    ensures n <= x / d
  {
    var q := x / d;
    assert x == d * q + x % d;
    TimesIsProduct(q, d);
    assert q * d == d * q;
    if n > q { TimesGrow(q + 1, n, d); }
  }

  lemma {:induction false} CountBound(n: nat, interval: int, length: nat)
    requires interval > 0 && n > 0 && Times(n - 1, interval) < length
    ensures n <= Ceiling(length, interval)
  {
    DivisionBound(n, interval, length + interval - 1);
  }

  /** Any half-open window of length `length` holds at most `length / interval`, rounded up, of the granted
      instants, for every interleaving and all clock readings. */
  lemma {:induction false} WindowBound(nextAt: int, interval: int, readings: seq<int>, start: int, length: nat)
    requires interval > 0
    ensures InWindow(Slots(nextAt, interval, readings), start, length) <= Ceiling(length, interval)
  {
    var slots := Slots(nextAt, interval, readings);
    var n := InWindow(slots, start, length);
    SlotsAreAllowed(nextAt, interval, readings);
    WindowSpan(slots, interval, start, length);
    if n > 0 {
      CountBound(n, interval, length);
    }
  }

  // ---- changing the interval ----

  function SetAll(s: Fields, wanted: seq<int>): Fields {
    if wanted == [] then s else IntervalSet(SetAll(s, wanted[..|wanted| - 1]), wanted[|wanted| - 1])
  }

  ghost predicate AllRefused(wanted: seq<int>) {
    forall i | 0 <= i < |wanted| :: !Accepted(wanted[i])
  }

  /** One accepted change is enough to forget the slots granted before. */
  lemma {:induction false} SettingForgets(s: Fields, wanted: seq<int>)
    ensures AllRefused(wanted) ==> SetAll(s, wanted) == s
    ensures !AllRefused(wanted) ==> Accepted(SetAll(s, wanted).interval) && SetAll(s, wanted).nextAt == 0
  {
    if wanted != [] {
      SettingForgets(s, wanted[..|wanted| - 1]);
    }
  }

  /** A caller is granted an instant, the interval is set any number of times, and the next caller comes. The
      two instants keep the interval of the first exactly when every change was refused, or the second caller
      could not have come sooner anyway: its reading is late enough, or the limiter's zero instant is. */
  lemma {:induction false} SpacingKeptExactlyWhen(s: Fields, first: int, wanted: seq<int>, second: int)
    requires s.interval > 0
    ensures var t := Granted(s, first);
            var changed := SetAll(Waited(s, first), wanted);
            Granted(changed, second) >= t + s.interval <==>
            AllRefused(wanted) || second >= t + s.interval || (changed.interval > 0 && 0 >= t + s.interval)
  {
    SettingForgets(Waited(s, first), wanted);
  }

  /** So whoever reads the clock the moment a free slot was granted and the interval then set shares that slot. */
  lemma {:induction false} ResetSharesTheSlot(s: Fields, now: int, wanted: int)
    requires s.interval > 0 && now >= s.nextAt && now >= 0 && Accepted(wanted)
    ensures Granted(s, now) == now && Granted(IntervalSet(Waited(s, now), wanted), now) == now
    ensures Granted(Waited(s, now), now) == now + s.interval
  {
  }
}
