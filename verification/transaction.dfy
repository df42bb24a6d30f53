/**
 * The re-entrant transaction wrapper of the task store (flock/monitor.py,
 * TransactionContext). A depth counter guards one lock and one database
 * connection: the lock is taken when the depth goes from 0 to 1, and the
 * connection is committed and the lock released when it comes back to 0.
 * The lock is a boolean and the connection's commits are entries in a log.
 */
module Transactions {
  import opened Wrappers

  /** What the context does to the lock and to the connection. */
  datatype LockEvent = Acquire | Commit | Release

  /** The context's observable state: its depth, whether it holds the lock, and what it has done so far. */
  datatype Txn = Txn(depth: nat, locked: bool, log: seq<LockEvent>)

  /** The i-th event of a log made of whole Acquire, Commit, Release rounds. */
  function RoundEvent(i: nat): LockEvent {
    if i % 3 == 0 then Acquire else if i % 3 == 1 then Commit else Release
  }

  /**
   * The lock is held exactly while the depth is positive, and the log is a
   * run of Acquire, Commit, Release rounds, the last one left open (after its
   * Acquire) exactly while the lock is held.
   */
  ghost predicate Disciplined(t: Txn) {
    && (t.locked <==> t.depth > 0)
    && |t.log| % 3 == (if t.locked then 1 else 0)
    && forall i :: 0 <= i < |t.log| ==> t.log[i] == RoundEvent(i)
  }

  /** __enter__: take the lock only when no transaction is open, then go one level deeper. */
  function Entered(t: Txn): Txn {
    if t.depth == 0 then Txn(1, true, t.log + [Acquire]) else t.(depth := t.depth + 1)
  }

  /** __exit__: go one level up; on reaching 0 commit and release the lock. */
  function Exited(t: Txn): Txn
    requires t.depth > 0
  {
    if t.depth == 1 then Txn(0, false, t.log + [Commit, Release]) else t.(depth := t.depth - 1)
  }

  /** Entering and leaving keep the lock discipline. */
  lemma StepsKeepDiscipline(t: Txn)
    requires Disciplined(t)
    ensures Disciplined(Entered(t))
    ensures t.depth > 0 ==> Disciplined(Exited(t))
  {
    if t.depth == 0 {
      var l := t.log + [Acquire];
      forall i | 0 <= i < |l| ensures l[i] == RoundEvent(i) {
        if i < |t.log| { assert l[i] == t.log[i]; }
      }
    } else if t.depth == 1 {
      var l := t.log + [Commit, Release];
      forall i | 0 <= i < |l| ensures l[i] == RoundEvent(i) {
        if i < |t.log| { assert l[i] == t.log[i]; }
      }
    }
  }

  /**
   * A sequence of `with` boundaries: true for __enter__, false for __exit__.
   * None when an __exit__ finds no open level, which a `with` block never does.
   */
  function Replay(t: Txn, ops: seq<bool>): Option<Txn>
    decreases |ops|
  {
    if ops == [] then Some(t)
    else if ops[0] then Replay(Entered(t), ops[1..])
    else if t.depth == 0 then None
    else Replay(Exited(t), ops[1..])
  }

  /** Whatever the nesting, the lock is held exactly while a transaction is open, and commits come only paired with releases. */
  lemma {:induction false} ReplayKeepsDiscipline(t: Txn, ops: seq<bool>)
    requires Disciplined(t)
    ensures Replay(t, ops).Some? ==> Disciplined(Replay(t, ops).value)
    decreases |ops|
  {
    if ops != [] {
      StepsKeepDiscipline(t);
      if ops[0] {
        ReplayKeepsDiscipline(Entered(t), ops[1..]);
      } else if t.depth > 0 {
        ReplayKeepsDiscipline(Exited(t), ops[1..]);
      }
    }
  }

  /** n copies of b. */
  function Repeat(b: bool, n: nat): (r: seq<bool>)
    ensures |r| == n && forall i :: 0 <= i < n ==> r[i] == b
  {
    if n == 0 then [] else [b] + Repeat(b, n - 1)
  }

  /** Inner __enter__ calls only deepen the open transaction. */
  lemma {:induction false} InnerEntersLeaveLock(t: Txn, k: nat)
    requires t.depth > 0
    ensures Replay(t, Repeat(true, k)) == Some(t.(depth := t.depth + k))
    decreases k
  {
    if k > 0 {
      assert Repeat(true, k)[1..] == Repeat(true, k - 1);
      InnerEntersLeaveLock(t.(depth := t.depth + 1), k - 1);
    }
  }

  /** __exit__ calls that do not reach depth 0 only make the open transaction shallower. */
  lemma {:induction false} InnerExitsLeaveLock(t: Txn, k: nat)
    requires t.depth > k
    ensures Replay(t, Repeat(false, k)) == Some(t.(depth := t.depth - k))
    decreases k
  {
    if k > 0 {
      assert Repeat(false, k)[1..] == Repeat(false, k - 1);
      InnerExitsLeaveLock(t.(depth := t.depth - 1), k - 1);
    }
  }

  /** Replaying two runs of boundaries one after the other. */
  lemma {:induction false} ReplayAppend(t: Txn, a: seq<bool>, b: seq<bool>)
    requires Replay(t, a).Some?
    ensures Replay(t, a + b) == Replay(Replay(t, a).value, b)
    decreases |a|
  {
    if a == [] {
      assert a + b == b;
    } else {
      assert (a + b)[1..] == a[1..] + b;
      if a[0] {
        ReplayAppend(Entered(t), a[1..], b);
      } else {
        ReplayAppend(Exited(t), a[1..], b);
      }
    }
  }

  /**
   * n nested `with` blocks on an idle context take the lock once, commit once
   * and release once: the outermost block alone touches the lock.
   */
  lemma NestedBlocksCommitOnce(log: seq<LockEvent>, n: nat)
    requires n > 0
    ensures Replay(Txn(0, false, log), Repeat(true, n) + Repeat(false, n))
         == Some(Txn(0, false, log + [Acquire, Commit, Release]))
  {
    var t0 := Txn(0, false, log);
    var t1 := Txn(1, true, log + [Acquire]);
    assert Repeat(true, n) == [true] + Repeat(true, n - 1);
    assert Repeat(false, n) == Repeat(false, n - 1) + [false] by {
      assert Repeat(false, n)[..n - 1] == Repeat(false, n - 1);
    }
    assert Replay(t0, [true]) == Some(t1);
    InnerEntersLeaveLock(t1, n - 1);
    ReplayAppend(t0, [true], Repeat(true, n - 1));
    var tn := t1.(depth := n);
    InnerExitsLeaveLock(tn, n - 1);
    ReplayAppend(t0, Repeat(true, n), Repeat(false, n - 1));
    var t2 := tn.(depth := 1);
    assert Replay(t2, [false]) == Some(Txn(0, false, log + [Acquire] + [Commit, Release]));
    ReplayAppend(t0, Repeat(true, n) + Repeat(false, n - 1), [false]);
    assert Repeat(true, n) + Repeat(false, n - 1) + [false] == Repeat(true, n) + Repeat(false, n);
    assert log + [Acquire] + [Commit, Release] == log + [Acquire, Commit, Release];
  }

  /** The shared transaction context of a task store. */
  class TransactionContext {
    var depth: nat
    var locked: bool
    var log: seq<LockEvent>

    function Snapshot(): Txn
      reads this
    {
      Txn(depth, locked, log)
    }

    ghost predicate Valid()
      reads this
    {
      Disciplined(Snapshot())
    }

    constructor ()
      ensures Valid() && depth == 0 && !locked && log == []
    {
      depth, locked, log := 0, false, [];
    }

    /** __enter__ */
    method Enter()
      requires Valid()
      modifies this
      ensures Valid()
      ensures Snapshot() == Entered(old(Snapshot()))
    {
      StepsKeepDiscipline(Snapshot());
      if depth == 0 {
        locked := true;
        log := log + [Acquire];
      }
      depth := depth + 1;
    }

    /** __exit__, which a `with` block calls only after its __enter__. */
    method Exit()
      requires Valid() && depth > 0
      modifies this
      ensures Valid()
      ensures Snapshot() == Exited(old(Snapshot()))
    {
      StepsKeepDiscipline(Snapshot());
      depth := depth - 1;
      if depth == 0 {
        log := log + [Commit, Release];
        locked := false;
      }
    }
  }
}
