/**
 The PostgreSQL form of the fences: advisory locks numbered by the first sixteen hex digits of a
 checkpoint key, in signed 64-bit space. Distinct keys may share a lock, a session may take a lock it
 already holds, and everything is released when the transaction ends.
 */
module AdvisoryLocks {
  import opened Ordering

  const TWO63 := 0x8000_0000_0000_0000
  const TWO64 := 0x1_0000_0000_0000_0000

  predicate IsHexDigit(c: char) {
    '0' <= c <= '9' || 'a' <= c <= 'f'
  }

  predicate IsHex(s: string) {
    forall i :: 0 <= i < |s| ==> IsHexDigit(s[i])
  }

  /** A SHA-256 digest in lower-case hex. */
  predicate IsKey(s: string) {
    |s| == 64 && IsHex(s)
  }

  function DigitValue(c: char): nat
    requires IsHexDigit(c)
  {
    if c <= '9' then c as int - '0' as int else c as int - 'a' as int + 10
  }

  /** The digits, in the order of their values. */
  lemma KeysAreHex(s: string)
    ensures IsKey(s) <==> |s| == 64 && forall i :: 0 <= i < |s| ==> s[i] in "0123456789abcdef"
    ensures forall c :: IsHexDigit(c) ==> DigitValue(c) < 16 && "0123456789abcdef"[DigitValue(c)] == c
  {
    assert forall c :: IsHexDigit(c) <==> c in "0123456789abcdef";
  }

  function Power16(n: nat): nat { if n == 0 then 1 else 16 * Power16(n - 1) }

  /** `int(s, 16)`. */
  function HexValue(s: string): (v: nat)
    requires IsHex(s)
    ensures v < Power16(|s|)
    decreases |s|
  {
    if s == "" then 0 else
      ValueBound(DigitValue(s[0]), HexValue(s[1..]), Power16(|s| - 1));
      DigitValue(s[0]) * Power16(|s| - 1) + HexValue(s[1..])
  }

  lemma ValueBound(d: nat, rest: nat, p: nat)
    requires d < 16 && rest < p
    ensures d * p + rest < 16 * p
  {
    assert d * p <= 15 * p;
  }

  function Prefix(key: string): (v: nat)
    requires IsKey(key)
    ensures v < TWO64
  {
    assert Power16(16) == TWO64 by { assert Power16(4) == 0x1_0000; assert Power16(8) == 0x1_0000_0000; assert Power16(12) == 0x1_0000_0000_0000; }
    HexValue(key[..16])
  }

  /** `advisory_lock_key`: the prefix, folded into the signed 64-bit range. */
  function LockKey(key: string): (lock: int)
    requires IsKey(key)
    ensures -0x8000_0000_0000_0000 <= lock < 0x8000_0000_0000_0000
    ensures lock == Prefix(key) || lock == Prefix(key) - 0x1_0000_0000_0000_0000
  {
    if Prefix(key) >= TWO63 then Prefix(key) - TWO64 else Prefix(key)
  }

  lemma DigitOrder(c: char, d: char)
    requires IsHexDigit(c) && IsHexDigit(d)
    ensures c < d <==> DigitValue(c) < DigitValue(d)
    ensures c == d <==> DigitValue(c) == DigitValue(d)
  {
  }

  /** The leading digit decides, and the rest breaks ties. */
  lemma LeadingDigit(x: nat, y: nat, p: nat, r: nat, q: nat)
    requires r < p && q < p
    ensures x * p + r < y * p + q <==> x < y || (x == y && r < q)
  {
    if x < y { assert (x + 1) * p <= y * p; }
    if y < x { assert (y + 1) * p <= x * p; }
  }

  /** On hex strings of one length, the order of the text is the order of the numbers. */
  lemma {:induction false} HexOrder(a: string, b: string)
    requires IsHex(a) && IsHex(b) && |a| == |b|
    ensures Less(a, b) <==> HexValue(a) < HexValue(b)
  {
    if a != "" {
      HexOrder(a[1..], b[1..]);
      DigitOrder(a[0], b[0]);
      LeadingDigit(DigitValue(a[0]), DigitValue(b[0]), Power16(|a| - 1), HexValue(a[1..]), HexValue(b[1..]));
    }
  }

  /** The folding loses nothing of the prefix: two keys share a lock exactly when they share their first sixteen digits. */
  lemma LockKeyInjectiveOnPrefixes(a: string, b: string)
    requires IsKey(a) && IsKey(b)
    ensures LockKey(a) == LockKey(b) <==> a[..16] == b[..16]
    ensures LockKey(a) == LockKey(b) <==> Prefix(a) == Prefix(b)
  {
    LessTotal(a[..16], b[..16]);
    HexOrder(a[..16], b[..16]);
    HexOrder(b[..16], a[..16]);
  }

  lemma {:induction false} LessOfPrefixes(a: string, b: string, n: nat)
    requires n <= |a| && n <= |b| && Less(a, b)
    ensures !Less(b[..n], a[..n])
  {
    if n > 0 && a != "" && a[0] == b[0] {
      LessOfPrefixes(a[1..], b[1..], n - 1);
      assert a[1..][..n - 1] == a[..n][1..] && b[1..][..n - 1] == b[..n][1..];
    }
  }

  /** Sorted keys have nondecreasing prefixes. */
  lemma PrefixIsMonotone(a: string, b: string)
    requires IsKey(a) && IsKey(b) && Less(a, b)
    ensures Prefix(a) <= Prefix(b)
  {
    LessOfPrefixes(a, b, 16);
    HexOrder(b[..16], a[..16]);
  }

  // ---- Sessions ------------------------------------------------------------

  /** A transaction: its sorted keys, and how many of them it has locked. */
  datatype Session = Session(keys: seq<string>, taken: nat)

  datatype State = State(owner: map<int, nat>, sessions: map<nat, Session>)

  datatype Action = Begin(session: nat, keys: seq<string>) | Take(session: nat) | Commit(session: nat) | Rollback(session: nat)

  ghost predicate ValidKeys(keys: seq<string>) {
    StrictlySorted(keys) && forall i :: 0 <= i < |keys| ==> IsKey(keys[i])
  }

  ghost predicate Free(s: State, x: nat, lock: int) {
    lock !in s.owner || s.owner[lock] == x
  }

  ghost predicate Enabled(s: State, a: Action) {
    match a
    case Begin(x, keys) => x !in s.sessions && ValidKeys(keys)
    case Take(x) =>
      && x in s.sessions && s.sessions[x].taken < |s.sessions[x].keys|
      && IsKey(s.sessions[x].keys[s.sessions[x].taken])
      && Free(s, x, LockKey(s.sessions[x].keys[s.sessions[x].taken]))
    case Commit(x) => x in s.sessions && s.sessions[x].taken == |s.sessions[x].keys|
    case Rollback(x) => x in s.sessions
  }

  ghost function Close(s: State, x: nat): State {
    State(map o | o in s.owner && s.owner[o] != x :: s.owner[o], s.sessions - {x})
  }

  ghost function Do(s: State, a: Action): State
    requires Enabled(s, a)
  {
    match a
    case Begin(x, keys) => s.(sessions := s.sessions[x := Session(keys, 0)])
    case Take(x) =>
      var t := s.sessions[x];
      State(s.owner[LockKey(t.keys[t.taken]) := x], s.sessions[x := t.(taken := t.taken + 1)])
    case Commit(x) => Close(s, x)
    case Rollback(x) => Close(s, x)
  }

  ghost predicate HasLock(t: Session, lock: int) {
    exists i :: 0 <= i < t.taken <= |t.keys| && IsKey(t.keys[i]) && LockKey(t.keys[i]) == lock
  }

  ghost predicate Inv(s: State) {
    && (forall x :: x in s.sessions ==> ValidKeys(s.sessions[x].keys) && s.sessions[x].taken <= |s.sessions[x].keys|)
    && (forall x, i :: x in s.sessions && 0 <= i < s.sessions[x].taken ==>
          LockKey(s.sessions[x].keys[i]) in s.owner && s.owner[LockKey(s.sessions[x].keys[i])] == x)
    && (forall o :: o in s.owner ==> s.owner[o] in s.sessions && HasLock(s.sessions[s.owner[o]], o))
  }

  lemma StepKeepsInv(s: State, a: Action)
    requires Inv(s) && Enabled(s, a)
    ensures Inv(Do(s, a))
  {
    if a.Take? { TakeKeepsInv(s, a); }
  }

  lemma TakeKeepsInv(s: State, a: Action)
    requires Inv(s) && a.Take? && Enabled(s, a)
    ensures Inv(Do(s, a))
  {
    forall o | o in Do(s, a).owner ensures Do(s, a).owner[o] in Do(s, a).sessions && HasLock(Do(s, a).sessions[Do(s, a).owner[o]], o) {
      TakeKeepsOwner(s, a, o);
    }
    TakeKeepsTaken(s, a);
  }

  lemma TakeKeepsTaken(s: State, a: Action)
    requires Inv(s) && a.Take? && Enabled(s, a)
    ensures var s' := Do(s, a);
      forall x, i :: x in s'.sessions && 0 <= i < s'.sessions[x].taken ==>
        LockKey(s'.sessions[x].keys[i]) in s'.owner && s'.owner[LockKey(s'.sessions[x].keys[i])] == x
  {
    assert Do(s, a).sessions[a.session].keys == s.sessions[a.session].keys;
  }

  lemma TakeKeepsOwner(s: State, a: Action, o: int)
    requires Inv(s) && a.Take? && Enabled(s, a) && o in Do(s, a).owner
    ensures Do(s, a).owner[o] in Do(s, a).sessions && HasLock(Do(s, a).sessions[Do(s, a).owner[o]], o)
  {
    var s', t := Do(s, a), s.sessions[a.session];
    if o == LockKey(t.keys[t.taken]) {
      assert s'.sessions[a.session].keys[t.taken] == t.keys[t.taken];
    } else if s.owner[o] == a.session {
      var i :| 0 <= i < t.taken && LockKey(t.keys[i]) == o;
      assert s'.sessions[a.session].keys[i] == t.keys[i];
    }
  }

  ghost predicate Runnable(s: State, run: seq<Action>)
    decreases |run|
  {
    run == [] || (Enabled(s, run[0]) && Runnable(Do(s, run[0]), run[1..]))
  }

  ghost function Run(s: State, run: seq<Action>): State
    requires Runnable(s, run)
    decreases |run|
  {
    if run == [] then s else Run(Do(s, run[0]), run[1..])
  }

  lemma {:induction false} RunKeepsInv(s: State, run: seq<Action>)
    requires Inv(s) && Runnable(s, run)
    ensures Inv(Run(s, run))
    decreases |run|
  {
    if run != [] {
      StepKeepsInv(s, run[0]);
      RunKeepsInv(Do(s, run[0]), run[1..]);
    }
  }

  /** Keys in order may be asked for by any new transaction, and none is locked yet. */
  lemma TransactionsBegin(s: State, x: nat, keys: seq<string>)
    requires x !in s.sessions && StrictlySorted(keys) && forall i :: 0 <= i < |keys| ==> IsKey(keys[i])
    ensures Enabled(s, Begin(x, keys))
    ensures var s' := Do(s, Begin(x, keys));
      s'.owner == s.owner && s'.sessions == s.sessions[x := Session(keys, 0)]
  {
  }

  /** A transaction may be rolled back at any time, and committed once it holds all its fences; either frees its locks and no others. */
  lemma EndingFreesItsLocks(s: State, x: nat)
    requires x in s.sessions
    ensures Enabled(s, Rollback(x)) && (Enabled(s, Commit(x)) <==> s.sessions[x].taken == |s.sessions[x].keys|)
    ensures forall a :: (a == Rollback(x) || a == Commit(x)) && Enabled(s, a) ==>
      var s' := Do(s, a);
      && s'.sessions == s.sessions - {x}
      && (forall o :: o in s'.owner <==> o in s.owner && s.owner[o] != x)
      && (forall o :: o in s'.owner ==> s'.owner[o] == s.owner[o])
  {
  }

  /** Two transactions that hold all their fences have no key, and no lock, in common. */
  lemma FencesExclude(run: seq<Action>, x: nat, y: nat, i: nat, j: nat)
    requires Runnable(State(map[], map[]), run)
    requires var s := Run(State(map[], map[]), run);
      && x in s.sessions && y in s.sessions && x != y
      && s.sessions[x].taken == |s.sessions[x].keys| && s.sessions[y].taken == |s.sessions[y].keys|
      && i < |s.sessions[x].keys| && j < |s.sessions[y].keys|
    ensures var s := Run(State(map[], map[]), run);
      && IsKey(s.sessions[x].keys[i]) && IsKey(s.sessions[y].keys[j])
      && LockKey(s.sessions[x].keys[i]) != LockKey(s.sessions[y].keys[j])
      && s.sessions[x].keys[i] != s.sessions[y].keys[j]
  {
    RunKeepsInv(State(map[], map[]), run);
  }

  ghost predicate CanAdvance(s: State, x: nat) {
    Enabled(s, Take(x)) || Enabled(s, Commit(x))
  }

  /** If the session that wants the greatest key is blocked, its blocker is not. */
  lemma BlockerOfGreatestAdvances(s: State, x: nat, y: nat)
    requires Inv(s) && x in s.sessions && y in s.sessions
    requires s.sessions[x].taken < |s.sessions[x].keys| && s.sessions[y].taken < |s.sessions[y].keys|
    requires var o := LockKey(s.sessions[x].keys[s.sessions[x].taken]); o in s.owner && s.owner[o] == y
    requires !Less(s.sessions[x].keys[s.sessions[x].taken], s.sessions[y].keys[s.sessions[y].taken])
    ensures Enabled(s, Take(y))
  {
    var t, u := s.sessions[x], s.sessions[y];
    var wanted, next := t.keys[t.taken], u.keys[u.taken];
    var j :| 0 <= j < u.taken && LockKey(u.keys[j]) == LockKey(wanted);
    LockKeyInjectiveOnPrefixes(u.keys[j], wanted);
    PrefixIsMonotone(u.keys[j], next);
    LessTotal(wanted, next);
    if Less(next, wanted) { PrefixIsMonotone(next, wanted); }
    LockKeyInjectiveOnPrefixes(u.keys[j], next);
  }

  /** Deadlock freedom: some open transaction can take its next lock or commit. */
  lemma DeadlockFree(s: State)
    requires Inv(s) && s.sessions != map[]
    ensures exists x :: x in s.sessions && CanAdvance(s, x)
  {
    if x :| x in s.sessions && s.sessions[x].taken == |s.sessions[x].keys| {
      assert Enabled(s, Commit(x));
    } else {
      var wanted := map x | x in s.sessions && s.sessions[x].taken < |s.sessions[x].keys| :: s.sessions[x].keys[s.sessions[x].taken];
      assert wanted.Keys == s.sessions.Keys;
      var top := MaximalExists(wanted.Keys, wanted);
      var o := LockKey(s.sessions[top].keys[s.sessions[top].taken]);
      if Free(s, top, o) {
        assert CanAdvance(s, top);
      } else {
        BlockerOfGreatestAdvances(s, top, s.owner[o]);
        assert CanAdvance(s, s.owner[o]);
      }
    }
  }
}
