/**
 * The data-access object over the two relational tables (`MySQLDAO` in
 * db/dao.py): a ledger of idempotency keys, unique by the `uq_idem_key`
 * constraint, and an append-only event log.
 */
module Dao {
  import opened Wrappers

  /** A row of `event_logs`; its auto id and server-side timestamp are left to the database. */
  datatype Event = Event(userId: int, event: string, payload: Option<string>)

  /** The contents of both tables: the claimed keys (a set, by the unique constraint) and the events in insertion order. */
  datatype Tables = Tables(keys: set<string>, events: seq<Event>)

  /** The DAO's calls. */
  datatype Op = Acquire(key: string) | Log(entry: Event) | ClearKeys

  /** What each call returns. */
  datatype Reply = Acquired(ok: bool) | Logged | Cleared(count: nat)

  /**
   * One call against the tables. Acquiring inserts the key and answers true,
   * or meets the unique constraint, rolls back and answers false; logging
   * appends one row; clearing deletes every key and answers how many rows went.
   */
  function Step(t: Tables, op: Op): (r: (Tables, Reply))
    ensures op.Acquire? ==> r.1 == Acquired(op.key !in t.keys)
    ensures op.Acquire? ==> r.0.keys == t.keys + {op.key} && r.0.events == t.events
    ensures op.Acquire? && op.key in t.keys ==> r.0 == t
    ensures op.Log? ==> r.0.keys == t.keys && r.0.events == t.events + [op.entry] && r.1 == Logged
    ensures op.ClearKeys? ==> r.0.keys == {} && r.0.events == t.events && r.1 == Cleared(|t.keys|)
  {
    match op
    case Acquire(k) =>
      if k in t.keys then (t, Acquired(false)) else (t.(keys := t.keys + {k}), Acquired(true))
    case Log(e) => (t.(events := t.events + [e]), Logged)
    case ClearKeys => (t.(keys := {}), Cleared(|t.keys|))
  }

  /** The tables after a sequence of calls, first to last. */
  function Run(t: Tables, ops: seq<Op>): Tables
    decreases |ops|
  {
    if ops == [] then t else Step(Run(t, ops[..|ops| - 1]), ops[|ops| - 1]).0
  }

  /** Some call in `ops` acquired `k` and no bulk clear came after it. */
  ghost predicate ClaimedSinceClear(ops: seq<Op>, k: string) {
    exists j :: 0 <= j < |ops| && ops[j] == Acquire(k) && forall l :: j < l < |ops| ==> ops[l] != ClearKeys
  }

  /** One more call: the key is claimed since the last clear when that call acquired it, or it was and the call is no clear. */
  lemma ClaimedSnoc(init: seq<Op>, last: Op, k: string)
    ensures ClaimedSinceClear(init + [last], k) <==> last == Acquire(k) || (last != ClearKeys && ClaimedSinceClear(init, k))
  {
    var ops := init + [last];
    if last == Acquire(k) {
      assert ops[|init|] == Acquire(k);
    } else if last == ClearKeys {
      assert ops[|init|] == ClearKeys;
    } else {
      if ClaimedSinceClear(init, k) {
        var j :| 0 <= j < |init| && init[j] == Acquire(k) && forall l :: j < l < |init| ==> init[l] != ClearKeys;
        assert ops[j] == Acquire(k);
        forall l | j < l < |ops|
          ensures ops[l] != ClearKeys
        {
          if l < |init| {
            assert ops[l] == init[l];
          }
        }
      }
      if ClaimedSinceClear(ops, k) {
        var j :| 0 <= j < |ops| && ops[j] == Acquire(k) && forall l :: j < l < |ops| ==> ops[l] != ClearKeys;
        assert j < |init| && init[j] == Acquire(k);
        forall l | j < l < |init|
          ensures init[l] != ClearKeys
        {
          assert init[l] == ops[l];
        }
      }
    }
  }

  /**
   * After any sequence of calls, a key is claimed exactly when it was
   * acquired since the last bulk clear, or was already claimed and nothing
   * cleared the table since.
   */
  lemma {:induction false} KeysAfterRun(t: Tables, ops: seq<Op>, k: string)
    ensures k in Run(t, ops).keys <==> ClaimedSinceClear(ops, k) || (k in t.keys && ClearKeys !in ops)
    decreases |ops|
  {
    if ops != [] {
      var init, last := ops[..|ops| - 1], ops[|ops| - 1];
      KeysAfterRun(t, init, k);
      assert ops == init + [last];
      assert ClearKeys in ops <==> ClearKeys in init || last == ClearKeys;
      ClaimedSnoc(init, last, k);
    }
  }

  /**
   * The idempotency law: `try_acquire_idempotency(k)` answers true exactly
   * when no earlier call acquired `k` since the last bulk clear (and the table
   * did not already hold it). In particular the first acquire of a key
   * answers true, every later one false, and after a clear true again.
   */
  lemma AcquireAnswers(t: Tables, ops: seq<Op>, k: string)
    ensures Step(Run(t, ops), Acquire(k)).1
         == Acquired(!(ClaimedSinceClear(ops, k) || (k in t.keys && ClearKeys !in ops)))
  {
    KeysAfterRun(t, ops, k);
  }

  /** No call ever removes or rewrites a logged event: the event log only grows. */
  lemma {:induction false} EventsAppendOnly(t: Tables, ops: seq<Op>)
    ensures |t.events| <= |Run(t, ops).events|
    ensures Run(t, ops).events[..|t.events|] == t.events
    decreases |ops|
  {
    if ops != [] {
      EventsAppendOnly(t, ops[..|ops| - 1]);
    }
  }

  class MySQLDAO {
    /** The `idempotency_keys` table. */
    var keys: set<string>
    /** The `event_logs` table. */
    var events: seq<Event>

    ghost function State(): Tables
      reads this
    {
      Tables(keys, events)
    }

    /** A DAO over tables that already hold `db`. */
    constructor (db: Tables)
      ensures State() == db
    {
      keys, events := db.keys, db.events;
    }

    /** `try_acquire_idempotency(key)`: insert-if-absent, reporting whether it was absent. */
    method TryAcquireIdempotency(key: string) returns (acquired: bool)
      modifies this
      ensures (State(), Acquired(acquired)) == Step(old(State()), Acquire(key))
      ensures acquired <==> key !in old(keys)
      ensures keys == old(keys) + {key} && events == old(events)
    {
      if key in keys {
        // the insert violates uq_idem_key: IntegrityError, rollback
        acquired := false;
      } else {
        keys := keys + {key};
        acquired := true;
      }
    }

    /** `log_event(user_id, event, payload=None)`: appends exactly one row. */
    method LogEvent(userId: int, event: string, payload: Option<string> := None)
      modifies this
      ensures (State(), Logged) == Step(old(State()), Log(Event(userId, event, payload)))
      ensures events == old(events) + [Event(userId, event, payload)] && keys == old(keys)
    {
      events := events + [Event(userId, event, payload)];
    }

    /** `clear_idempotency_keys()`: deletes every key and returns how many rows were deleted. */
    method ClearIdempotencyKeys() returns (removed: nat)
      modifies this
      ensures (State(), Cleared(removed)) == Step(old(State()), ClearKeys)
      ensures removed == |old(keys)| && keys == {} && events == old(events)
    {
      removed := |keys|;
      keys := {};
    }
  }
}
