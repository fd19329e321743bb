/**
 * The short-lived per-user session store that conversation flows keep their
 * state in (`SessionStore` in services/session_store.py). Sessions are created
 * lazily on first access, written in place and dropped on `clear`.
 */
module Sessions {

  /** One user's session: the owner's id and a key/value dict of values of type `V`. */
  datatype Session<V> = Session(userId: int, data: map<string, V>)

  /** Every session is stored under the id it is tagged with. */
  ghost predicate Tagged<V>(m: map<int, Session<V>>) {
    forall u :: u in m ==> m[u].userId == u
  }

  /** What `get_value(u, k, default)` answers when the store holds `m`. */
  function ValueOf<V>(m: map<int, Session<V>>, u: int, k: string, default: V): V {
    if u in m && k in m[u].data then m[u].data[k] else default
  }

  /** The operations the store offers, as a caller issues them. */
  datatype Op<V> =
    | Get(user: int)
    | Clear(user: int)
    | SetValue(user: int, key: string, value: V)
    | GetValue(user: int, key: string)

  /** The store after `get(u)`: `u` has a session, a fresh empty one if it had none. */
  function Touch<V>(m: map<int, Session<V>>, u: int): (r: map<int, Session<V>>)
    ensures u in r && r.Keys == m.Keys + {u}
    ensures u in m ==> r == m
    ensures u !in m ==> r == m[u := Session(u, map[])]
  {
    if u in m then m else m[u := Session(u, map[])]
  }

  /** The store after one operation. */
  function Apply<V>(m: map<int, Session<V>>, op: Op<V>): map<int, Session<V>> {
    match op
    case Get(u) => Touch(m, u)
    case Clear(u) => m - {u}
    case SetValue(u, k, v) =>
      var t := Touch(m, u);
      t[u := t[u].(data := t[u].data[k := v])]
    case GetValue(u, _) => Touch(m, u)
  }

  /** The store after a sequence of operations, applied first to last. */
  function Run<V>(m: map<int, Session<V>>, ops: seq<Op<V>>): map<int, Session<V>>
    decreases |ops|
  {
    if ops == [] then m else Apply(Run(m, ops[..|ops| - 1]), ops[|ops| - 1])
  }

  /** `op` can change the answer of `get_value(u, k)`: it clears `u` or sets `k` for `u`. */
  predicate Overwrites<V>(op: Op<V>, u: int, k: string) {
    op == Clear(u) || (op.SetValue? && op.user == u && op.key == k)
  }

  /** Every operation keeps each session under its own id. */
  lemma ApplyTagged<V>(m: map<int, Session<V>>, op: Op<V>)
    requires Tagged(m)
    ensures Tagged(Apply(m, op))
  {
  }

  /** An operation that neither clears `u` nor sets `k` for `u` leaves `get_value(u, k)` alone. */
  lemma ApplyFrame<V>(m: map<int, Session<V>>, op: Op<V>, u: int, k: string, default: V)
    requires !Overwrites(op, u, k)
    ensures ValueOf(Apply(m, op), u, k, default) == ValueOf(m, u, k, default)
  {
  }

  /** `set_value(u, k, v)` makes `get_value(u, k)` answer `v` and changes no other answer. */
  lemma SetValueReads<V>(m: map<int, Session<V>>, u: int, k: string, v: V, default: V)
    ensures ValueOf(Apply(m, SetValue(u, k, v)), u, k, default) == v
    ensures forall u2, k2 :: u2 != u || k2 != k ==>
              ValueOf(Apply(m, SetValue(u, k, v)), u2, k2, default) == ValueOf(m, u2, k2, default)
  {
    forall u2, k2 | u2 != u || k2 != k
      ensures ValueOf(Apply(m, SetValue(u, k, v)), u2, k2, default) == ValueOf(m, u2, k2, default)
    {
      ApplyFrame(m, SetValue(u, k, v), u2, k2, default);
    }
  }

  /**
   * `get_value(u, k)` returns the value of the last `set_value(u, k, v)`, as
   * long as no `clear(u)` and no other `set_value(u, k, _)` came after it.
   */
  lemma {:induction false} ReadsLastSet<V>(m: map<int, Session<V>>, ops: seq<Op<V>>, j: nat, default: V)
    requires j < |ops| && ops[j].SetValue?
    requires forall l :: j < l < |ops| ==> !Overwrites(ops[l], ops[j].user, ops[j].key)
    ensures ValueOf(Run(m, ops), ops[j].user, ops[j].key, default) == ops[j].value
    decreases |ops|
  {
    var (u, k) := (ops[j].user, ops[j].key);
    var init := ops[..|ops| - 1];
    if j < |ops| - 1 {
      assert forall l :: j < l < |init| ==> init[l] == ops[l];
      ReadsLastSet(m, init, j, default);
      ApplyFrame(Run(m, init), ops[|ops| - 1], u, k, default);
    }
  }

  /**
   * Starting from an empty store, `get_value(u, k, d)` returns `d` when every
   * `set_value(u, k, _)` was followed by a `clear(u)` (in particular when
   * `k` was never set for `u`).
   */
  lemma {:induction false} ReadsDefault<V>(ops: seq<Op<V>>, u: int, k: string, default: V)
    requires forall j :: 0 <= j < |ops| && Overwrites(ops[j], u, k) && ops[j].SetValue? ==>
               exists l :: j < l < |ops| && ops[l] == Clear(u)
    ensures ValueOf(Run(map[], ops), u, k, default) == default
    decreases |ops|
  {
    if ops != [] {
      var init := ops[..|ops| - 1];
      var last := ops[|ops| - 1];
      if last == Clear(u) {
      } else {
        assert !Overwrites(last, u, k);
        forall j | 0 <= j < |init| && Overwrites(init[j], u, k) && init[j].SetValue?
          ensures exists l :: j < l < |init| && init[l] == Clear(u)
        {
          var l :| j < l < |ops| && ops[l] == Clear(u);
          assert l < |init| && init[l] == Clear(u);
        }
        ReadsDefault(init, u, k, default);
        ApplyFrame(Run(map[], init), last, u, k, default);
      }
    }
  }

  class SessionStore<V> {
    /** The `_sessions` dict: user id to that user's session. */
    var sessions: map<int, Session<V>>

    ghost predicate Valid()
      reads this
    {
      Tagged(sessions)
    }

    constructor ()
      ensures Valid() && sessions == map[]
    {
      sessions := map[];
    }

    /** `get(u)`: the session of `u`, created empty and tagged with `u` on first access. */
    method Get(userId: int) returns (s: Session<V>)
      requires Valid()
      modifies this
      ensures Valid()
      ensures sessions == Apply(old(sessions), Op.Get(userId))
      ensures s == sessions[userId] && s.userId == userId
      ensures userId in old(sessions) ==> s == old(sessions)[userId] && sessions == old(sessions)
      ensures userId !in old(sessions) ==> s.data == map[]
    {
      if userId !in sessions {
        sessions := sessions[userId := Session(userId, map[])];
      }
      s := sessions[userId];
    }

    /** `clear(u)`: drops the session of `u`; a no-op when `u` has none. */
    method Clear(userId: int)
      requires Valid()
      modifies this
      ensures Valid()
      ensures sessions == Apply(old(sessions), Op.Clear(userId))
      ensures userId !in sessions
      ensures userId !in old(sessions) ==> sessions == old(sessions)
      ensures forall u :: u != userId ==> (u in sessions <==> u in old(sessions))
      ensures forall u :: u != userId && u in sessions ==> sessions[u] == old(sessions)[u]
    {
      sessions := sessions - {userId};
    }

    /** `set_value(u, k, v)`: writes `v` under `k` in the session of `u`, creating it if needed. */
    method SetValue(userId: int, key: string, value: V)
      requires Valid()
      modifies this
      ensures Valid()
      ensures sessions == Apply(old(sessions), Op.SetValue(userId, key, value))
      ensures forall d: V :: ValueOf(sessions, userId, key, d) == value
      ensures forall u, k, d: V :: (u != userId || k != key) ==>
                ValueOf(sessions, u, k, d) == ValueOf(old(sessions), u, k, d)
      ensures forall u :: u != userId && u in old(sessions) ==> u in sessions && sessions[u] == old(sessions)[u]
    {
      var sess := Get(userId);
      sessions := sessions[userId := sess.(data := sess.data[key := value])];
    }

    /**
     * `get_value(u, k, default)`: the value stored under `k` for `u`, or
     * `default`; like `get`, it creates an empty session for `u` if needed.
     */
    method GetValue(userId: int, key: string, default: V) returns (v: V)
      requires Valid()
      modifies this
      ensures Valid()
      ensures sessions == Apply(old(sessions), Op.GetValue(userId, key))
      ensures v == ValueOf(old(sessions), userId, key, default)
      ensures userId !in old(sessions) || key !in old(sessions)[userId].data ==> v == default
    {
      var sess := Get(userId);
      v := if key in sess.data then sess.data[key] else default;
    }
  }
}
