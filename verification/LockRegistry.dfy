/**
 The in-process fence registry: lock objects are created on first use, shared by every thread that
 asks for the same key, counted, and dropped when the last user leaves. Threads take their locks in
 sorted key order, one at a time, and may time out at any of them.
 */
module LockRegistry {
  import opened Ordering

  /** A lock object: the key it was made for, and how many threads use it. */
  datatype LockEntry = LockEntry(key: string, users: nat)

  /** The shared table, from keys to lock objects, and the objects themselves; `next` is a fresh object. */
  datatype Table = Table(entries: map<string, nat>, objects: map<nat, LockEntry>, next: nat)

  // ---- Registration, under the guard ---------------------------------------

  function Changed(e: LockEntry, users: nat): LockEntry { e.(users := users) }

  function RegisterOne(r: Table, key: string): Table {
    if key in r.entries && r.entries[key] in r.objects then
      var o := r.entries[key];
      r.(objects := r.objects[o := Changed(r.objects[o], r.objects[o].users + 1)])
    else
      Table(r.entries[key := r.next], r.objects[r.next := LockEntry(key, 1)], r.next + 1)
  }

  function Register(r: Table, keys: seq<string>): Table
    decreases |keys|
  {
    if keys == [] then r else Register(RegisterOne(r, keys[0]), keys[1..])
  }

  /** `entry.users -= 1`, and the key is popped when the count reaches zero. */
  function DeregisterOne(r: Table, key: string, lock: nat): Table {
    if lock in r.objects && r.objects[lock].users > 1 then
      r.(objects := r.objects[lock := Changed(r.objects[lock], r.objects[lock].users - 1)])
    else Table(r.entries - {key}, r.objects - {lock}, r.next)
  }

  function Deregister(r: Table, keys: seq<string>, locks: seq<nat>): Table
    requires |locks| == |keys|
    decreases |keys|
  {
    if keys == [] then r else Deregister(DeregisterOne(r, keys[0], locks[0]), keys[1..], locks[1..])
  }

  /** How many users the entry of a key has; zero without an entry. */
  function Count(r: Table, key: string): nat {
    if key in r.entries && r.entries[key] in r.objects then r.objects[r.entries[key]].users else 0
  }

  /** Entries and lock objects match one to one, and no object is unused. */
  ghost predicate Coherent(r: Table) {
    && (forall k :: k in r.entries ==> r.entries[k] in r.objects && r.objects[r.entries[k]].key == k)
    && (forall o :: o in r.objects ==>
          o < r.next && r.objects[o].users > 0 && r.objects[o].key in r.entries && r.entries[r.objects[o].key] == o)
  }

  lemma RegisterOneEffect(r: Table, key: string)
    requires Coherent(r)
    ensures var r' := RegisterOne(r, key);
      && Coherent(r') && key in r'.entries
      && (forall k :: k in r.entries ==> k in r'.entries && r'.entries[k] == r.entries[k])
      && (forall k :: Count(r', k) == Count(r, k) + if k == key then 1 else 0)
  {
  }

  /** Registering distinct keys adds one user to each, and leaves every other entry alone. */
  lemma {:induction false} RegisterEffect(r: Table, keys: seq<string>)
    requires Coherent(r) && Distinct(keys)
    ensures var r' := Register(r, keys);
      && Coherent(r')
      && (forall k :: k in keys ==> k in r'.entries)
      && (forall k :: k in r.entries ==> k in r'.entries && r'.entries[k] == r.entries[k])
      && (forall k :: Count(r', k) == Count(r, k) + if k in keys then 1 else 0)
    decreases |keys|
  {
    if keys != [] {
      RegisterOneEffect(r, keys[0]);
      RegisterEffect(RegisterOne(r, keys[0]), keys[1..]);
      assert keys[0] !in keys[1..];
      assert forall k :: k in keys <==> k == keys[0] || k in keys[1..];
    }
  }

  lemma DeregisterOneEffect(r: Table, key: string, lock: nat)
    requires Coherent(r) && key in r.entries && r.entries[key] == lock
    ensures var r' := DeregisterOne(r, key, lock);
      && Coherent(r')
      && (forall k :: k in r'.entries ==> k in r.entries && r'.entries[k] == r.entries[k])
      && (forall k :: k in r.entries && k != key ==> k in r'.entries)
      && (forall k :: Count(r', k) == Count(r, k) - if k == key then 1 else 0)
  {
  }

  /** Distinct keys whose entries carry the given lock objects. */
  ghost predicate Registered(r: Table, keys: seq<string>, locks: seq<nat>) {
    && Coherent(r) && Distinct(keys) && |locks| == |keys|
    && forall i :: 0 <= i < |keys| ==> keys[i] in r.entries && r.entries[keys[i]] == locks[i]
  }

  /** Deregistering takes exactly one user from each key. */
  lemma {:induction false} DeregisterEffect(r: Table, keys: seq<string>, locks: seq<nat>)
    requires Registered(r, keys, locks)
    ensures var r' := Deregister(r, keys, locks);
      && Coherent(r')
      && (forall k :: k in r'.entries ==> k in r.entries && r'.entries[k] == r.entries[k])
      && (forall k :: Count(r', k) == Count(r, k) - if k in keys then 1 else 0)
    decreases |keys|
  {
    if keys != [] {
      var r1 := DeregisterOne(r, keys[0], locks[0]);
      DeregisterOneEffect(r, keys[0], locks[0]);
      assert keys[0] !in keys[1..];
      forall i | 0 <= i < |keys[1..]| ensures keys[1..][i] in r1.entries && r1.entries[keys[1..][i]] == locks[1..][i] {
        assert keys[1..][i] == keys[i + 1] && keys[i + 1] != keys[0];
      }
      DeregisterEffect(r1, keys[1..], locks[1..]);
      assert forall k :: k in keys <==> k == keys[0] || k in keys[1..];
    }
  }

  /** The registry object; both methods run while the guard is held. */
  class Registry {
    var entries: map<string, nat>
    var objects: map<nat, LockEntry>
    var next: nat

    ghost function View(): Table
      reads this
    {
      Table(entries, objects, next)
    }

    constructor ()
      ensures View() == Table(map[], map[], 0)
    {
      entries, objects, next := map[], map[], 0;
    }

    /** Find or create the lock object of a key, and count one more user. */
    method AddUser(key: string) returns (lock: nat)
      requires Coherent(View())
      modifies this
      ensures View() == RegisterOne(old(View()), key) && Coherent(View())
      ensures key in entries && entries[key] == lock
      ensures forall k :: k in old(entries) ==> k in entries && entries[k] == old(entries)[k]
    {
      RegisterOneEffect(View(), key);
      if key in entries && entries[key] in objects {
        lock := entries[key];
        objects := objects[lock := Changed(objects[lock], objects[lock].users + 1)];
      } else {
        lock := next;
        entries, objects, next := entries[key := lock], objects[lock := LockEntry(key, 1)], next + 1;
      }
    }

    /** The first guarded block of `hold`: the keys in order, one more user for every one, and the lock object of each. */
    method Enter(requested: seq<string>) returns (keys: seq<string>, locks: seq<nat>)
      requires Coherent(View())
      modifies this
      ensures keys == SortedSet(requested)
      ensures View() == Register(old(View()), keys) && Coherent(View())
      ensures locks == Locks(View(), keys) && forall k :: k in requested ==> k in entries
      ensures forall k :: Count(View(), k) == Count(old(View()), k) + if k in requested then 1 else 0
    {
      keys := SortedSet(requested);
      SortedSetIsStrict(requested);
      StrictIsDistinct(keys);
      RegisterEffect(View(), keys);
      ghost var goal := Register(View(), keys);
      locks := [];
      var i := 0;
      while i < |keys|
        invariant 0 <= i <= |keys| && |locks| == i
        invariant Coherent(View()) && goal == Register(View(), keys[i..])
        invariant forall j :: 0 <= j < i ==> keys[j] in entries && entries[keys[j]] == locks[j]
      {
        assert keys[i..][0] == keys[i] && keys[i..][1..] == keys[i + 1..];
        var lock := AddUser(keys[i]);
        locks := locks + [lock];
        i := i + 1;
      }
    }

    /** The second guarded block: one user less for every captured entry. */
    method Leave(keys: seq<string>, locks: seq<nat>)
      requires |locks| == |keys|
      modifies this
      ensures View() == Deregister(old(View()), keys, locks)
      ensures Registered(old(View()), keys, locks) ==>
        && Coherent(View())
        && (forall k :: Count(View(), k) == Count(old(View()), k) - if k in keys then 1 else 0)
        && (forall k :: k in entries ==> k in old(entries) && entries[k] == old(entries)[k])
        && (forall k :: k in entries <==> Count(View(), k) > 0)
    {
      ghost var goal := Deregister(View(), keys, locks);
      if Registered(View(), keys, locks) { DeregisterEffect(View(), keys, locks); }
      var i := 0;
      while i < |keys|
        invariant 0 <= i <= |keys|
        invariant goal == Deregister(View(), keys[i..], locks[i..])
      {
        assert keys[i..][1..] == keys[i + 1..] && locks[i..][1..] == locks[i + 1..];
        if locks[i] in objects && objects[locks[i]].users > 1 {
          objects := objects[locks[i] := Changed(objects[locks[i]], objects[locks[i]].users - 1)];
        } else {
          entries, objects := entries - {keys[i]}, objects - {locks[i]};
        }
        i := i + 1;
      }
    }
  }

  // ---- Threads -------------------------------------------------------------

  datatype Phase = Acquiring | Inside | Releasing

  /** A thread inside `hold`: its sorted keys, the captured locks, and how many of them it has taken. */
  datatype Thread = Thread(keys: seq<string>, locks: seq<nat>, phase: Phase, taken: nat)

  datatype State = State(table: Table, owner: map<nat, nat>, threads: map<nat, Thread>)

  datatype Action =
    | Enter(thread: nat, requested: seq<string>)
    | Take(thread: nat)
    | Timeout(thread: nat)
    | Proceed(thread: nat)
    | Leave(thread: nat)
    | Release(thread: nat)
    | Exit(thread: nat)

  /** The lock objects of some keys; a key without one reads as an object that does not exist yet. */
  function Locks(r: Table, keys: seq<string>): (locks: seq<nat>)
    ensures |locks| == |keys|
  {
    seq(|keys|, i requires 0 <= i < |keys| => if keys[i] in r.entries then r.entries[keys[i]] else r.next)
  }

  ghost predicate Enabled(s: State, a: Action) {
    if a.Enter? then a.thread !in s.threads
    else
      && a.thread in s.threads
      && var t := s.threads[a.thread];
         && |t.locks| == |t.keys|
         && match a
            case Take(x) =>
              t.phase == Acquiring && t.taken < |t.locks|
              && (t.locks[t.taken] !in s.owner || s.owner[t.locks[t.taken]] == x)
            case Timeout(_) => t.phase == Acquiring && t.taken < |t.locks|
            case Proceed(_) => t.phase == Acquiring && t.taken == |t.locks|
            case Leave(_) => t.phase == Inside
            case Release(_) => t.phase == Releasing && 0 < t.taken <= |t.locks|
            case Exit(_) => t.phase == Releasing && t.taken == 0
            case Enter(_, _) => false
  }

  ghost function Do(s: State, a: Action): State
    requires Enabled(s, a)
  {
    if a.Enter? then
      var keys := SortedSet(a.requested);
      var r := Register(s.table, keys);
      s.(table := r, threads := s.threads[a.thread := Thread(keys, Locks(r, keys), Acquiring, 0)])
    else
      var x, t := a.thread, s.threads[a.thread];
      match a
      case Take(_) => s.(owner := s.owner[t.locks[t.taken] := x], threads := s.threads[x := t.(taken := t.taken + 1)])
      case Timeout(_) => s.(threads := s.threads[x := t.(phase := Releasing)])
      case Proceed(_) => s.(threads := s.threads[x := t.(phase := Inside)])
      case Leave(_) => s.(threads := s.threads[x := t.(phase := Releasing)])
      case Release(_) =>
        s.(owner := s.owner - {t.locks[t.taken - 1]}, threads := s.threads[x := t.(taken := t.taken - 1)])
      case Exit(_) => s.(table := Deregister(s.table, t.keys, t.locks), threads := s.threads - {x})
  }

  // ---- Invariant -----------------------------------------------------------

  /** The threads between registration and deregistration that use a key. */
  ghost function Users(threads: map<nat, Thread>, key: string): set<nat> {
    set x | x in threads && key in threads[x].keys
  }

  /** A thread's captured locks are the current entries of its keys. */
  ghost predicate Captured(r: Table, t: Thread) {
    && |t.locks| == |t.keys| && t.taken <= |t.keys| && StrictlySorted(t.keys)
    && (t.phase == Inside ==> t.taken == |t.keys|)
    && forall i :: 0 <= i < |t.keys| ==> t.keys[i] in r.entries && r.entries[t.keys[i]] == t.locks[i]
  }

  ghost predicate Has(t: Thread, lock: nat) {
    exists i :: 0 <= i < t.taken <= |t.locks| && t.locks[i] == lock
  }

  /** Every count is the number of users. */
  ghost predicate Counted(r: Table, threads: map<nat, Thread>) {
    forall k :: Count(r, k) == |Users(threads, k)|
  }

  ghost predicate AllCaptured(r: Table, threads: map<nat, Thread>) {
    forall x :: x in threads ==> Captured(r, threads[x])
  }

  /** Whatever a thread has taken is its own. */
  ghost predicate TakenIsOwned(owner: map<nat, nat>, threads: map<nat, Thread>) {
    forall x, i :: x in threads && 0 <= i < threads[x].taken <= |threads[x].locks| ==>
      threads[x].locks[i] in owner && owner[threads[x].locks[i]] == x
  }

  /** Whatever is owned has been taken by its owner. */
  ghost predicate OwnedIsTaken(owner: map<nat, nat>, threads: map<nat, Thread>) {
    forall o :: o in owner ==> owner[o] in threads && Has(threads[owner[o]], o)
  }

  ghost predicate Inv(s: State) {
    && Coherent(s.table) && Counted(s.table, s.threads) && AllCaptured(s.table, s.threads)
    && TakenIsOwned(s.owner, s.threads) && OwnedIsTaken(s.owner, s.threads)
  }

  const IDLE := State(Table(map[], map[], 0), map[], map[])

  lemma IdleIsGood()
    ensures Inv(IDLE)
  {
    assert forall k :: Users(IDLE.threads, k) == {};
  }

  lemma StrictIsDistinct(keys: seq<string>)
    requires StrictlySorted(keys)
    ensures Distinct(keys)
  {
    forall i, j | 0 <= i < j < |keys| ensures keys[i] != keys[j] { LessIrreflexive(keys[j]); }
  }

  lemma UsersAfterEnter(threads: map<nat, Thread>, x: nat, t: Thread, k: string)
    requires x !in threads
    ensures |Users(threads[x := t], k)| == |Users(threads, k)| + if k in t.keys then 1 else 0
  {
    var u := Users(threads, k);
    assert Users(threads[x := t], k) == if k in t.keys then u + {x} else u;
  }

  lemma UsersAfterExit(threads: map<nat, Thread>, x: nat, k: string)
    requires x in threads
    ensures |Users(threads - {x}, k)| == |Users(threads, k)| - if k in threads[x].keys then 1 else 0
  {
    var u := Users(threads, k);
    assert Users(threads - {x}, k) == if k in threads[x].keys then u - {x} else u;
  }

  lemma UsersUnchanged(threads: map<nat, Thread>, x: nat, t: Thread, k: string)
    requires x in threads && t.keys == threads[x].keys
    ensures Users(threads[x := t], k) == Users(threads, k)
  {
  }

  lemma EnterKeepsInv(s: State, a: Action)
    requires Inv(s) && a.Enter? && Enabled(s, a)
    ensures Inv(Do(s, a))
  {
    var s', keys := Do(s, a), SortedSet(a.requested);
    SortedSetIsStrict(a.requested);
    StrictIsDistinct(keys);
    RegisterEffect(s.table, keys);
    forall k ensures Count(s'.table, k) == |Users(s'.threads, k)| {
      UsersAfterEnter(s.threads, a.thread, s'.threads[a.thread], k);
    }
    EnterKeepsOwners(s.owner, s.threads, a.thread, s'.threads[a.thread]);
  }

  lemma EnterKeepsOwners(owner: map<nat, nat>, threads: map<nat, Thread>, x: nat, t: Thread)
    requires TakenIsOwned(owner, threads) && OwnedIsTaken(owner, threads) && x !in threads && t.taken == 0
    ensures TakenIsOwned(owner, threads[x := t]) && OwnedIsTaken(owner, threads[x := t])
  {
  }

  /** The last user's departure drops the entry; everyone else's leaves it in place. */
  lemma OthersKeepTheirEntries(s: State, x: nat, y: nat)
    requires Inv(s) && x in s.threads && y in s.threads && x != y
    ensures Captured(Deregister(s.table, s.threads[x].keys, s.threads[x].locks), s.threads[y])
  {
    var t, u := s.threads[x], s.threads[y];
    StrictIsDistinct(t.keys);
    DeregisterEffect(s.table, t.keys, t.locks);
    var r := Deregister(s.table, t.keys, t.locks);
    forall i | 0 <= i < |u.keys| ensures u.keys[i] in r.entries && r.entries[u.keys[i]] == u.locks[i] {
      var k := u.keys[i];
      UsersAfterExit(s.threads, x, k);
      assert y in Users(s.threads - {x}, k);
      assert Count(r, k) >= 1;
    }
  }

  lemma ExitKeepsInv(s: State, a: Action)
    requires Inv(s) && a.Exit? && Enabled(s, a)
    ensures Inv(Do(s, a))
  {
    var s', x, t := Do(s, a), a.thread, s.threads[a.thread];
    StrictIsDistinct(t.keys);
    DeregisterEffect(s.table, t.keys, t.locks);
    forall k ensures Count(s'.table, k) == |Users(s'.threads, k)| { UsersAfterExit(s.threads, x, k); }
    forall y | y in s'.threads ensures Captured(s'.table, s'.threads[y]) { OthersKeepTheirEntries(s, x, y); }
  }

  /** A thread that moves on with the same keys leaves counts and captured locks as they are. */
  lemma MovingKeepsTable(s: State, x: nat, t: Thread)
    requires Inv(s) && x in s.threads && t.keys == s.threads[x].keys && Captured(s.table, t)
    ensures Counted(s.table, s.threads[x := t]) && AllCaptured(s.table, s.threads[x := t])
  {
    forall k ensures Count(s.table, k) == |Users(s.threads[x := t], k)| { UsersUnchanged(s.threads, x, t, k); }
  }

  /** Different positions of one thread hold different locks. */
  lemma LocksDiffer(s: State, x: nat, i: nat, j: nat)
    requires Inv(s) && x in s.threads && i < j < |s.threads[x].locks|
    ensures s.threads[x].locks[i] != s.threads[x].locks[j]
  {
    StrictIsDistinct(s.threads[x].keys);
  }

  lemma TakeKeepsInv(s: State, a: Action)
    requires Inv(s) && a.Take? && Enabled(s, a)
    ensures Inv(Do(s, a))
  {
    var t := s.threads[a.thread];
    MovingKeepsTable(s, a.thread, t.(taken := t.taken + 1));
    TakingKeepsOwners(s.owner, s.threads, a.thread);
  }

  lemma TakingKeepsOwners(owner: map<nat, nat>, threads: map<nat, Thread>, x: nat)
    requires TakenIsOwned(owner, threads) && OwnedIsTaken(owner, threads)
    requires x in threads && threads[x].taken < |threads[x].locks|
    requires var o := threads[x].locks[threads[x].taken]; o !in owner || owner[o] == x
    ensures var t := threads[x];
      var owner', threads' := owner[t.locks[t.taken] := x], threads[x := t.(taken := t.taken + 1)];
      TakenIsOwned(owner', threads') && OwnedIsTaken(owner', threads')
  {
    var t := threads[x];
    var t', lock := t.(taken := t.taken + 1), t.locks[t.taken];
    forall o ensures Has(t', o) <==> Has(t, o) || o == lock {
      if Has(t, o) {
        var i :| 0 <= i < t.taken <= |t.locks| && t.locks[i] == o;
        assert t'.locks[i] == o;
      }
      assert t'.locks[t.taken] == lock;
    }
  }

  lemma LastLockDiffers(s: State, x: nat)
    requires Inv(s) && x in s.threads && 0 < s.threads[x].taken <= |s.threads[x].locks|
    ensures var t := s.threads[x]; forall i :: 0 <= i < t.taken - 1 ==> t.locks[i] != t.locks[t.taken - 1]
  {
    var t := s.threads[x];
    forall i | 0 <= i < t.taken - 1 ensures t.locks[i] != t.locks[t.taken - 1] { LocksDiffer(s, x, i, t.taken - 1); }
  }

  lemma ReleaseKeepsInv(s: State, a: Action)
    requires Inv(s) && a.Release? && Enabled(s, a)
    ensures Inv(Do(s, a))
  {
    var x, t := a.thread, s.threads[a.thread];
    MovingKeepsTable(s, x, t.(taken := t.taken - 1));
    LastLockDiffers(s, x);
    ReleasingKeepsOwners(s.owner, s.threads, x);
  }

  lemma ReleasingKeepsOwners(owner: map<nat, nat>, threads: map<nat, Thread>, x: nat)
    requires TakenIsOwned(owner, threads) && OwnedIsTaken(owner, threads)
    requires x in threads && 0 < threads[x].taken <= |threads[x].locks|
    requires forall i :: 0 <= i < threads[x].taken - 1 ==> threads[x].locks[i] != threads[x].locks[threads[x].taken - 1]
    ensures var t := threads[x];
      var owner', threads' := owner - {t.locks[t.taken - 1]}, threads[x := t.(taken := t.taken - 1)];
      TakenIsOwned(owner', threads') && OwnedIsTaken(owner', threads')
  {
    var t := threads[x];
    var t', lock := t.(taken := t.taken - 1), t.locks[t.taken - 1];
    assert owner[lock] == x;
    forall o | Has(t, o) && o != lock ensures Has(t', o) {
      var i :| 0 <= i < t.taken <= |t.locks| && t.locks[i] == o;
      assert t'.locks[i] == o;
    }
  }

  lemma MoveKeepsInv(s: State, a: Action)
    requires Inv(s) && (a.Timeout? || a.Proceed? || a.Leave?) && Enabled(s, a)
    ensures Inv(Do(s, a))
  {
    var x := a.thread;
    var t := Do(s, a).threads[x];
    MovingKeepsTable(s, x, t);
    MovingKeepsOwners(s.owner, s.threads, x, t);
  }

  lemma MovingKeepsOwners(owner: map<nat, nat>, threads: map<nat, Thread>, x: nat, t: Thread)
    requires TakenIsOwned(owner, threads) && OwnedIsTaken(owner, threads)
    requires x in threads && t.locks == threads[x].locks && t.taken == threads[x].taken
    ensures TakenIsOwned(owner, threads[x := t]) && OwnedIsTaken(owner, threads[x := t])
  {
    forall o | Has(threads[x], o) ensures Has(t, o) {
      var i :| 0 <= i < t.taken <= |t.locks| && threads[x].locks[i] == o;
      assert t.locks[i] == o;
    }
  }

  lemma StepKeepsInv(s: State, a: Action)
    requires Inv(s) && Enabled(s, a)
    ensures Inv(Do(s, a))
  {
    match a {
      case Enter(_, _) => EnterKeepsInv(s, a);
      case Take(_) => TakeKeepsInv(s, a);
      case Release(_) => ReleaseKeepsInv(s, a);
      case Exit(_) => ExitKeepsInv(s, a);
      case Timeout(_) => MoveKeepsInv(s, a);
      case Proceed(_) => MoveKeepsInv(s, a);
      case Leave(_) => MoveKeepsInv(s, a);
    }
  }

  ghost predicate Runnable(s: State, run: seq<Action>)
    decreases |run|
  {
    run == [] || (Enabled(s, run[0]) && Runnable(Do(s, run[0]), run[1..]))
  }

  ghost function Run(s: State, run: seq<Action>): State
    requires Runnable(s, run)
    decreases |run|
  {
    if run == [] then s else Run(Do(s, run[0]), run[1..])
  }

  lemma {:induction false} RunKeepsInv(s: State, run: seq<Action>)
    requires Inv(s) && Runnable(s, run)
    ensures Inv(Run(s, run))
    decreases |run|
  {
    if run != [] {
      StepKeepsInv(s, run[0]);
      RunKeepsInv(Do(s, run[0]), run[1..]);
    }
  }

  // ---- Results -------------------------------------------------------------

  /**
   Mutual exclusion across recycling: in every run, a key has an entry exactly while some thread uses it,
   its count is the number of those threads, they all share one lock object, and no two of them are inside.
   */
  lemma MutualExclusion(run: seq<Action>, x: nat, y: nat, key: string)
    requires Runnable(IDLE, run)
    requires x in Run(IDLE, run).threads && y in Run(IDLE, run).threads
    requires key in Run(IDLE, run).threads[x].keys && key in Run(IDLE, run).threads[y].keys
    ensures var s := Run(IDLE, run);
      && key in s.table.entries && Count(s.table, key) == |Users(s.threads, key)|
      && (exists i, j :: 0 <= i < |s.threads[x].locks| && 0 <= j < |s.threads[y].locks|
           && s.threads[x].locks[i] == s.threads[y].locks[j] == s.table.entries[key])
      && (s.threads[x].phase == Inside && s.threads[y].phase == Inside ==> x == y)
  {
    IdleIsGood();
    RunKeepsInv(IDLE, run);
    var s := Run(IDLE, run);
    var i :| 0 <= i < |s.threads[x].keys| && s.threads[x].keys[i] == key;
    var j :| 0 <= j < |s.threads[y].keys| && s.threads[y].keys[j] == key;
    assert s.threads[x].locks[i] == s.threads[y].locks[j] == s.table.entries[key];
  }

  /** A key is in the registry exactly while its count, the number of its users, is positive. */
  lemma EntryIffUsed(run: seq<Action>, key: string)
    requires Runnable(IDLE, run)
    ensures var s := Run(IDLE, run);
      && (key in s.table.entries <==> Users(s.threads, key) != {})
      && (key in s.table.entries ==>
            var o := s.table.entries[key]; o in s.table.objects && s.table.objects[o].users == |Users(s.threads, key)|)
  {
    IdleIsGood();
    RunKeepsInv(IDLE, run);
    var s := Run(IDLE, run);
    assert Count(s.table, key) == |Users(s.threads, key)|;
  }

  /** However threads leave, by return, error or timeout at any lock, nothing is left behind once they are gone. */
  lemma NothingLeaks(run: seq<Action>, x: nat)
    requires Runnable(IDLE, run) && x !in Run(IDLE, run).threads
    ensures var s := Run(IDLE, run);
      && (forall o :: o in s.owner ==> s.owner[o] != x)
      && (forall key :: x !in Users(s.threads, key) && Count(s.table, key) == |Users(s.threads, key)|)
      && (s.threads == map[] ==> s.table.entries == map[] && s.table.objects == map[] && s.owner == map[])
  {
    IdleIsGood();
    RunKeepsInv(IDLE, run);
    var s := Run(IDLE, run);
    if s.threads == map[] {
      forall k ensures k !in s.table.entries {
        assert Users(s.threads, k) == {};
        assert Count(s.table, k) == 0;
      }
      forall o ensures o !in s.owner && o !in s.table.objects {}
    }
  }

  /** A step some thread inside `hold` takes on its own, timeouts aside. */
  ghost predicate Advances(s: State, a: Action) {
    !a.Enter? && !a.Timeout? && Enabled(s, a)
  }

  ghost predicate CanAdvance(s: State, x: nat) {
    exists a :: Advances(s, a) && a.thread == x
  }

  ghost predicate Waits(s: State, x: nat) {
    x in s.threads && s.threads[x].phase == Acquiring && s.threads[x].taken < |s.threads[x].locks|
  }

  /** Whoever holds the lock that a blocked thread waits for, if it waits too, waits for a larger key. */
  lemma BlockersWaitHigher(s: State, x: nat, y: nat)
    requires Inv(s) && Waits(s, x) && Waits(s, y) && x != y
    requires var o := s.threads[x].locks[s.threads[x].taken]; o in s.owner && s.owner[o] == y
    ensures Less(s.threads[x].keys[s.threads[x].taken], s.threads[y].keys[s.threads[y].taken])
  {
    var t, u := s.threads[x], s.threads[y];
    var o := t.locks[t.taken];
    assert Has(u, o);
    var j :| 0 <= j < u.taken <= |u.locks| && u.locks[j] == o;
    assert s.table.entries[u.keys[j]] == s.table.entries[t.keys[t.taken]];
    assert u.keys[j] == t.keys[t.taken];
  }

  lemma NonWaitersAdvance(s: State, x: nat)
    requires Inv(s) && x in s.threads && !Waits(s, x)
    ensures CanAdvance(s, x)
  {
    var t := s.threads[x];
    var a := if t.phase == Acquiring then Proceed(x) else if t.phase == Inside then Leave(x)
             else if t.taken > 0 then Release(x) else Exit(x);
    assert Advances(s, a) && a.thread == x;
  }

  /** Deadlock freedom: while any thread is inside `hold`, some thread can take a step other than timing out. */
  lemma DeadlockFree(s: State)
    requires Inv(s) && s.threads != map[]
    ensures exists x :: x in s.threads && CanAdvance(s, x)
  {
    if x :| x in s.threads && !Waits(s, x) {
      NonWaitersAdvance(s, x);
    } else {
      var wanted := map x | x in s.threads && Waits(s, x) :: s.threads[x].keys[s.threads[x].taken];
      assert wanted.Keys == s.threads.Keys;
      var top := MaximalExists(wanted.Keys, wanted);
      var o := s.threads[top].locks[s.threads[top].taken];
      if o in s.owner && s.owner[o] != top {
        BlockersWaitHigher(s, top, s.owner[o]);
      }
      assert Advances(s, Take(top)) && Take(top).thread == top;
    }
  }

  // ---- Passages ------------------------------------------------------------

  /** Entering asks for exactly the requested fences, and takes none yet. */
  lemma EntersAsRequested(s: State, x: nat, requested: seq<string>)
    requires Inv(s) && x !in s.threads
    ensures Enabled(s, Enter(x, requested))
    ensures var s' := Do(s, Enter(x, requested));
      && x in s'.threads && s'.threads - {x} == s.threads && s'.owner == s.owner
      && s'.threads[x].phase == Acquiring && s'.threads[x].taken == 0
      && forall k :: k in s'.threads[x].keys <==> k in requested
  {
    SortedSetIsStrict(requested);
    assert (s.threads[x := Do(s, Enter(x, requested)).threads[x]]) - {x} == s.threads;
  }

  /** Steps of one thread that is inside `hold` already. */
  ghost predicate OnlyOf(run: seq<Action>, x: nat) {
    forall i :: 0 <= i < |run| ==> run[i].thread == x && !run[i].Enter?
  }

  lemma FirstStep(s: State, a: Action, rest: seq<Action>)
    requires Enabled(s, a) && Runnable(Do(s, a), rest)
    ensures Runnable(s, [a] + rest) && Run(s, [a] + rest) == Run(Do(s, a), rest)
  {
    assert ([a] + rest)[1..] == rest;
  }

  /** No other thread uses a key of this one. */
  ghost predicate Alone(s: State, x: nat)
    requires x in s.threads
  {
    forall y :: y in s.threads && y != x ==> forall k :: k in s.threads[x].keys ==> k !in s.threads[y].keys
  }

  lemma HoldersUseTheKey(s: State, y: nat, key: string, o: nat)
    requires Inv(s) && y in s.threads && Has(s.threads[y], o) && key in s.table.entries && s.table.entries[key] == o
    ensures key in s.threads[y].keys
  {
    var u := s.threads[y];
    var j :| 0 <= j < u.taken <= |u.locks| && u.locks[j] == o;
    assert s.table.entries[u.keys[j]] == o;
    assert s.table.objects[o].key == key && s.table.objects[o].key == u.keys[j];
  }

  lemma NextLockIsFree(s: State, x: nat)
    requires Inv(s) && Waits(s, x) && Alone(s, x)
    ensures Enabled(s, Take(x))
  {
    var t := s.threads[x];
    var o, key := t.locks[t.taken], t.keys[t.taken];
    assert s.table.entries[key] == o && key in t.keys;
    forall y | y in s.threads && Has(s.threads[y], o) ensures key in s.threads[y].keys { HoldersUseTheKey(s, y, key, o); }
  }

  lemma TakingOne(s: State, x: nat)
    requires Inv(s) && Enabled(s, Take(x)) && Alone(s, x)
    ensures var s' := Do(s, Take(x));
      && Inv(s') && s'.table == s.table && s'.threads - {x} == s.threads - {x}
      && x in s'.threads && s'.threads[x] == s.threads[x].(taken := s.threads[x].taken + 1) && Alone(s', x)
  {
    StepKeepsInv(s, Take(x));
    var s' := Do(s, Take(x));
    assert s'.threads - {x} == s.threads - {x};
    forall y | y in s'.threads && y != x ensures s'.threads[y] == s.threads[y] { }
  }

  /** A thread that shares no key with any other can take all its locks and go inside. */
  lemma {:induction false} CanGoInside(s: State, x: nat) returns (run: seq<Action>)
    requires Inv(s) && x in s.threads && s.threads[x].phase == Acquiring && Alone(s, x)
    ensures Runnable(s, run) && OnlyOf(run, x) && x in Run(s, run).threads
    ensures Run(s, run).threads[x] == s.threads[x].(phase := Inside, taken := |s.threads[x].keys|)
    ensures Run(s, run).table == s.table && Run(s, run).threads - {x} == s.threads - {x}
    decreases |s.threads[x].keys| - s.threads[x].taken
  {
    var t := s.threads[x];
    assert Captured(s.table, t);
    if t.taken < |t.keys| {
      NextLockIsFree(s, x);
      TakingOne(s, x);
      var rest := CanGoInside(Do(s, Take(x)), x);
      run := [Take(x)] + rest;
      FirstStep(s, Take(x), rest);
    } else {
      run := [Proceed(x)];
      assert run[1..] == [];
      assert Do(s, Proceed(x)).threads - {x} == s.threads - {x};
    }
  }

  /** Fences that no thread uses can be entered: inside, the thread holds the lock of every key it asked for. */
  lemma FreeFencesAreEntered(s: State, x: nat, requested: seq<string>) returns (run: seq<Action>)
    requires Inv(s) && x !in s.threads && forall y, k :: y in s.threads && k in s.threads[y].keys ==> k !in requested
    ensures Runnable(s, [Enter(x, requested)] + run) && OnlyOf(run, x)
    ensures var s' := Run(s, [Enter(x, requested)] + run);
      && x in s'.threads && s'.threads[x].phase == Inside && s'.threads - {x} == s.threads
      && forall k :: k in requested ==> k in s'.table.entries && s'.table.entries[k] in s'.owner && s'.owner[s'.table.entries[k]] == x
  {
    var a := Enter(x, requested);
    EntersAsRequested(s, x, requested);
    StepKeepsInv(s, a);
    run := CanGoInside(Do(s, a), x);
    FirstStep(s, a, run);
    RunKeepsInv(s, [a] + run);
    var s' := Run(s, [a] + run);
    forall k | k in requested ensures k in s'.table.entries && s'.table.entries[k] in s'.owner && s'.owner[s'.table.entries[k]] == x {
      var i :| 0 <= i < |s'.threads[x].keys| && s'.threads[x].keys[i] == k;
      assert s'.owner[s'.threads[x].locks[i]] == x;
    }
  }

  /** What the other threads own. */
  ghost function OwnedByOthers(owner: map<nat, nat>, x: nat): map<nat, nat> {
    map o | o in owner && owner[o] != x :: owner[o]
  }

  /** How far a thread is from having left. */
  ghost function StepsLeft(t: Thread): nat {
    t.taken + match t.phase case Acquiring => 3 case Inside => 2 case Releasing => 1
  }

  function NextOut(t: Thread, x: nat): Action {
    match t.phase
    case Acquiring => if t.taken < |t.locks| then Timeout(x) else Proceed(x)
    case Inside => Leave(x)
    case Releasing => if t.taken > 0 then Release(x) else Exit(x)
  }

  lemma OwnsNothing(s: State, x: nat)
    requires Inv(s) && x in s.threads && s.threads[x].taken == 0
    ensures s.owner == OwnedByOthers(s.owner, x)
  {
    forall o | o in s.owner ensures s.owner[o] != x { assert !Has(s.threads[x], o); }
  }

  lemma StepOut(s: State, x: nat)
    requires Inv(s) && x in s.threads
    ensures var a := NextOut(s.threads[x], x);
      && Enabled(s, a) && var s' := Do(s, a);
      && s'.threads - {x} == s.threads - {x} && OwnedByOthers(s'.owner, x) == OwnedByOthers(s.owner, x)
      && (x in s'.threads ==> StepsLeft(s'.threads[x]) < StepsLeft(s.threads[x]))
      && (x !in s'.threads ==> s'.owner == OwnedByOthers(s'.owner, x))
  {
    var t := s.threads[x];
    if t.phase == Releasing {
      if t.taken > 0 { assert s.owner[t.locks[t.taken - 1]] == x; } else { OwnsNothing(s, x); }
    }
  }

  /** From wherever a thread is, waiting or inside, steps of its own take it out, and all the others keep what they have. */
  lemma {:induction false} CanLeave(s: State, x: nat) returns (run: seq<Action>)
    requires Inv(s) && x in s.threads
    ensures Runnable(s, run) && OnlyOf(run, x)
    ensures Run(s, run).threads == s.threads - {x} && Run(s, run).owner == OwnedByOthers(s.owner, x)
    decreases StepsLeft(s.threads[x])
  {
    var a := NextOut(s.threads[x], x);
    StepOut(s, x);
    StepKeepsInv(s, a);
    var s' := Do(s, a);
    var rest := [];
    if x in s'.threads { rest := CanLeave(s', x); }
    run := [a] + rest;
    FirstStep(s, a, rest);
    assert x !in s'.threads ==> s'.threads == s'.threads - {x};
  }
}
