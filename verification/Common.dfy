module Common {
  datatype Option<+T> = None | Some(value: T)

  datatype Result<+T, +E> = Ok(value: T) | Err(error: E)
}

/** The parts of Go's `strings` package the model depends on. */
module Text {

  predicate IsSpace(c: char) {
    || c in "\t\n\r "
    || c as int in {0x0B, 0x0C, 0x85, 0xA0, 0x1680, 0x2028, 0x2029, 0x202F, 0x205F, 0x3000}
    || 0x2000 <= c as int <= 0x200A
  }

  function TrimLeft(s: string): string {
    if s != "" && IsSpace(s[0]) then TrimLeft(s[1..]) else s
  }

  function TrimRight(s: string): string {
    if s != "" && IsSpace(s[|s| - 1]) then TrimRight(s[..|s| - 1]) else s
  }

  /** `strings.TrimSpace` */
  function Trim(s: string): string {
    TrimRight(TrimLeft(s))
  }

  /** `strings.ToUpper` on ASCII letters; other characters stay. */
  function Upper(s: string): (r: string)
    ensures |r| == |s|
  {
    if s == "" then ""
    else
      var last := s[|s| - 1];
      Upper(s[..|s| - 1]) + [if 'a' <= last <= 'z' then (last as int - 32) as char else last]
  }

  /** `strings.ToLower` on ASCII letters. */
  function Lower(s: string): (r: string)
    ensures |r| == |s|
  {
    if s == "" then ""
    else
      var last := s[|s| - 1];
      Lower(s[..|s| - 1]) + [if 'A' <= last <= 'Z' then (last as int + 32) as char else last]
  }

  lemma {:induction false} TrimRightKeepsFront(s: string)
    ensures TrimRight(s) <= s
    ensures TrimRight(s) == "" || !IsSpace(TrimRight(s)[|TrimRight(s)| - 1])
  {
    if s != "" && IsSpace(s[|s| - 1]) {
      TrimRightKeepsFront(s[..|s| - 1]);
    }
  }

  lemma {:induction false} TrimLeftStartsInk(s: string)
    ensures TrimLeft(s) == "" || !IsSpace(TrimLeft(s)[0])
  {
    if s != "" && IsSpace(s[0]) {
      TrimLeftStartsInk(s[1..]);
    }
  }

  /** What has been trimmed stays as it is. */
  lemma {:induction false} TrimIsIdempotent(s: string)
    ensures Trim(Trim(s)) == Trim(s)
  {
    TrimLeftStartsInk(s);
    TrimRightKeepsFront(TrimLeft(s));
  }

  /** Trimmed text neither starts nor ends with a space. */
  lemma {:induction false} TrimmedHasInkEnds(s: string)
    ensures Trim(s) == "" || (!IsSpace(Trim(s)[0]) && !IsSpace(Trim(s)[|Trim(s)| - 1]))
  {
    TrimLeftStartsInk(s);
    TrimRightKeepsFront(TrimLeft(s));
  }

  lemma {:induction false} LowerAt(s: string, i: nat)
    requires i < |s|
    ensures Lower(s)[i] == if 'A' <= s[i] <= 'Z' then (s[i] as int + 32) as char else s[i]
    ensures IsSpace(Lower(s)[i]) == IsSpace(s[i])
  {
    if i < |s| - 1 { LowerAt(s[..|s| - 1], i); }
  }

  /** What matches trimmed text up to case is trimmed itself. */
  lemma {:induction false} LowerMatchIsTrimmed(s: string, t: string)
    requires Lower(Trim(s)) == Lower(t)
    ensures Trim(t) == t
  {
    TrimmedHasInkEnds(s);
    assert |Trim(s)| == |Lower(Trim(s))| == |t|;
    if t != "" {
      LowerAt(t, 0);
      LowerAt(t, |t| - 1);
      LowerAt(Trim(s), 0);
      LowerAt(Trim(s), |t| - 1);
    }
    TrimmedEnds(t);
  }

  lemma {:induction false} UpperIsIdempotent(s: string)
    ensures Upper(Upper(s)) == Upper(s)
  {
    if s != "" {
      UpperIsIdempotent(s[..|s| - 1]);
      assert Upper(s)[..|s| - 1] == Upper(s[..|s| - 1]);
    }
  }

  lemma {:induction false} UpperAt(s: string, i: nat)
    requires i < |s|
    ensures Upper(s)[i] == if 'a' <= s[i] <= 'z' then (s[i] as int - 32) as char else s[i]
  {
    if i < |s| - 1 { UpperAt(s[..|s| - 1], i); }
  }

  lemma {:induction false} TrimmedEnds(s: string)
    requires s == "" || (!IsSpace(s[0]) && !IsSpace(s[|s| - 1]))
    ensures Trim(s) == s
  {
  }

  /** A trimmed and upper-cased key stays as it is under both. */
  lemma {:induction false} NormalIsIdempotent(s: string)
    ensures Upper(Trim(Upper(Trim(s)))) == Upper(Trim(s))
  {
    var t := Trim(s);
    TrimLeftStartsInk(s);
    TrimRightKeepsFront(TrimLeft(s));
    if t != "" {
      assert t[0] == TrimLeft(s)[0];
      UpperAt(t, 0);
      UpperAt(t, |t| - 1);
    }
    TrimmedEnds(Upper(t));
    UpperIsIdempotent(t);
  }

  /** The order Go's `<` puts on strings. */
  predicate Before(a: string, b: string) {
    b != "" && (a == "" || a[0] < b[0] || (a[0] == b[0] && Before(a[1..], b[1..])))
  }

  lemma {:induction false} BeforeIsIrreflexive(a: string)
    ensures !Before(a, a)
  {
    if a != "" { BeforeIsIrreflexive(a[1..]); }
  }

  lemma {:induction false} BeforeIsTransitive(a: string, b: string, c: string)
    requires Before(a, b) && Before(b, c)
    ensures Before(a, c)
  {
    if a != "" && a[0] == b[0] && b[0] == c[0] { BeforeIsTransitive(a[1..], b[1..], c[1..]); }
  }

  lemma {:induction false} BeforeIsTotal(a: string, b: string)
    ensures Before(a, b) || Before(b, a) || a == b
  {
    if a != "" && b != "" && a[0] == b[0] {
      BeforeIsTotal(a[1..], b[1..]);
      assert a == [a[0]] + a[1..] && b == [b[0]] + b[1..];
    }
  }

  lemma {:induction false} BeforeIsOrder()
    ensures forall a :: !Before(a, a)
    ensures forall a, b, c :: Before(a, b) && Before(b, c) ==> Before(a, c)
    ensures forall a, b :: Before(a, b) || Before(b, a) || a == b
  {
    forall a ensures !Before(a, a) { BeforeIsIrreflexive(a); }
    forall a, b, c | Before(a, b) && Before(b, c) ensures Before(a, c) { BeforeIsTransitive(a, b, c); }
    forall a, b ensures Before(a, b) || Before(b, a) || a == b { BeforeIsTotal(a, b); }
  }
}

/** The status column of the fulfillment jobs. */
module Jobs {
  datatype JobStatus = Queued | JobRunning | WaitingLabel | Confirming | WaitingOms | JobCompleted | Skipped | JobFailed
}
