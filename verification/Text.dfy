/** Identifiers and lock names (crates/core/src/db.rs), and the byte order of strings. */
module Text {
  import opened Common

  const NUL: char := '\0'

  /** The characters Unicode classes as white space, which trimming removes. */
  predicate IsSpace(c: char) {
    || '\t' <= c <= '\r' || c == ' '
    || c as int in {0x85, 0xA0, 0x1680, 0x2028, 0x2029, 0x202F, 0x205F, 0x3000}
    || 0x2000 <= c as int <= 0x200A
  }

  function TrimStart(s: string): string {
    if s != [] && IsSpace(s[0]) then TrimStart(s[1..]) else s
  }

  function TrimEnd(s: string): string {
    if s != [] && IsSpace(s[|s| - 1]) then TrimEnd(s[..|s| - 1]) else s
  }

  function Trim(s: string): string { TrimEnd(TrimStart(s)) }

  /** Non-empty, already trimmed, and free of NUL. */
  predicate ValidId(value: string) {
    Trim(value) != [] && value == Trim(value) && NUL !in value
  }

  lemma {:induction false} TrimShortens(s: string)
    ensures |TrimStart(s)| <= |s| && |TrimEnd(s)| <= |s|
    ensures s != [] && IsSpace(s[0]) ==> |TrimStart(s)| < |s|
    ensures s != [] && IsSpace(s[|s| - 1]) ==> |TrimEnd(s)| < |s|
    decreases |s|
  {
    if s != [] {
      if IsSpace(s[0]) { TrimShortens(s[1..]); }
      if IsSpace(s[|s| - 1]) { TrimShortens(s[..|s| - 1]); }
    }
  }

  /** Trimming leaves a value alone exactly when neither end is white space. */
  lemma ValidIdMeans(value: string)
    ensures ValidId(value) <==>
            value != [] && !IsSpace(value[0]) && !IsSpace(value[|value| - 1]) && NUL !in value
  {
    TrimShortens(value);
    TrimShortens(TrimStart(value));
  }

  // ---------------------------------------------------------------- lock names

  /** Everything the system takes a database-wide advisory lock on. */
  datatype LockTarget =
    | DomainLock(account: string, instrument: string)
    | RequestLock(request: string)
    | BalanceLock(account: string, venue: string, asset: string)

  predicate ValidTarget(t: LockTarget) {
    match t
    case DomainLock(a, i) => ValidId(a) && ValidId(i)
    case RequestLock(r) => ValidId(r)
    case BalanceLock(a, v, s) => ValidId(a) && ValidId(v) && ValidId(s)
  }

  function Joined(a: string, b: string): string { a + [NUL] + b }

  /** The text that is hashed into the advisory key: namespace and value, NUL-separated. */
  function LockName(t: LockTarget): string {
    match t
    case DomainLock(a, i) => Joined("execution-domain", Joined(a, i))
    case RequestLock(r) => Joined("reserve-request", r)
    case BalanceLock(a, v, s) => Joined("paper-balance", Joined(Joined(a, v), s))
  }

  lemma JoinedInjective(a: string, b: string, c: string, d: string)
    requires NUL !in a && NUL !in c && Joined(a, b) == Joined(c, d)
    ensures a == c && b == d
  {
    var x, y := Joined(a, b), Joined(c, d);
    assert x[|a|] == NUL && y[|c|] == NUL;
    assert forall k | 0 <= k < |a| :: x[k] == a[k] && a[k] in a;
    assert forall k | 0 <= k < |c| :: y[k] == c[k] && c[k] in c;
    assert |a| == |c|;
    assert x[..|a|] == a && y[..|c|] == c && x[|a| + 1..] == b && y[|c| + 1..] == d;
  }

  /** Distinct lock targets have distinct names, across all three namespaces. */
  lemma LockNamesInjective(s: LockTarget, t: LockTarget)
    requires ValidTarget(s) && ValidTarget(t) && LockName(s) == LockName(t)
    ensures s == t
  {
    hide ValidId;
    NoNul(s);
    NoNul(t);
    var ns, nt := Namespace(s), Namespace(t);
    JoinedInjective(ns, Value(s), nt, Value(t));
    assert ns[0] == nt[0];
    match s
    case RequestLock(r) =>
    case DomainLock(a, i) => JoinedInjective(a, i, t.account, t.instrument);
    case BalanceLock(a, v, asset) =>
      assert Value(s) == Joined(a, Joined(v, asset)) && Value(t) == Joined(t.account, Joined(t.venue, t.asset));
      JoinedInjective(a, Joined(v, asset), t.account, Joined(t.venue, t.asset));
      JoinedInjective(v, asset, t.venue, t.asset);
  }

  function Namespace(t: LockTarget): string {
    match t
    case DomainLock(_, _) => "execution-domain"
    case RequestLock(_) => "reserve-request"
    case BalanceLock(_, _, _) => "paper-balance"
  }

  function Value(t: LockTarget): string {
    match t
    case DomainLock(a, i) => Joined(a, i)
    case RequestLock(r) => r
    case BalanceLock(a, v, s) => Joined(Joined(a, v), s)
  }

  lemma NoNul(t: LockTarget)
    requires ValidTarget(t)
    ensures NUL !in Namespace(t)
    ensures t.DomainLock? ==> NUL !in t.account
    ensures t.BalanceLock? ==> NUL !in t.account && NUL !in t.venue
  {
  }

  // ---------------------------------------------------------------- string order

  predicate Less(a: string, b: string) {
    if b == [] then false
    else if a == [] then true
    else a[0] < b[0] || (a[0] == b[0] && Less(a[1..], b[1..]))
  }

  lemma {:induction false} LessIrreflexive(a: string)
    ensures !Less(a, a)
  {
    if a != [] { LessIrreflexive(a[1..]); }
  }

  lemma {:induction false} LessTransitive(a: string, b: string, c: string)
    requires Less(a, b) && Less(b, c)
    ensures Less(a, c)
  {
    if a != [] && a[0] == b[0] == c[0] { LessTransitive(a[1..], b[1..], c[1..]); }
  }

  lemma {:induction false} LessTotal(a: string, b: string)
    ensures Less(a, b) || a == b || Less(b, a)
  {
    if a != [] && b != [] && a[0] == b[0] {
      LessTotal(a[1..], b[1..]);
      assert a == [a[0]] + a[1..] && b == [b[0]] + b[1..];
    }
  }

  /** Lexicographic order on pairs of strings. */
  predicate PairLess(a: (string, string), b: (string, string)) {
    Less(a.0, b.0) || (a.0 == b.0 && Less(a.1, b.1))
  }

  lemma PairLessIrreflexive(a: (string, string))
    ensures !PairLess(a, a)
  {
    LessIrreflexive(a.0);
    LessIrreflexive(a.1);
  }

  lemma PairLessTransitive(a: (string, string), b: (string, string), c: (string, string))
    requires PairLess(a, b) && PairLess(b, c)
    ensures PairLess(a, c)
  {
    if Less(a.0, b.0) && Less(b.0, c.0) { LessTransitive(a.0, b.0, c.0); }
    if Less(a.1, b.1) && Less(b.1, c.1) { LessTransitive(a.1, b.1, c.1); }
  }

  lemma PairLessTotal(a: (string, string), b: (string, string))
    ensures PairLess(a, b) || a == b || PairLess(b, a)
  {
    LessTotal(a.0, b.0);
    LessTotal(a.1, b.1);
  }
}
