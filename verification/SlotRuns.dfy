/** Runs of one slot: what every step keeps, and what holds over any sequence of steps. */
module SlotRuns {
  import opened Messages
  import opened Stats
  import opened PlainSlot
  import opened PlainContents
  import opened PlainLines

  /** One step under the slot lock. The three sweeps take one step for each timer, delayed message or group they handle. */
  datatype Op =
    | Submit(m: Message, now: Time)
    | Dispatch(p: Priority, now: Time, deadline: Time)
    | Confirm(id: string, epoch: nat)
    | Refuse(id: string, epoch: nat, now: Time, delay: Time, retry: Retry)
    | TimeOut(id: string, now: Time, retry: Retry)
    | ComeDue(m: Message, now: Time)
    | DropOld(k: string, now: Time)
    | Bring(k: string, ms: seq<Message>)
    | BringDelayed(m: Message)
    | Empty

  ghost predicate Enabled(v: Plain, op: Op) {
    match op
    case Submit(m, _) => m.id !in ContentsOf(v).Ids()
    case TimeOut(id, now, _) => id in v.leases && v.leases[id].deadline <= now
    case ComeDue(m, now) => m in v.delayed && !m.Waiting(now)
    case Bring(k, ms) => ms != [] && NewIds(ms, ContentsOf(v).Ids()) && forall m | m in ms :: m.Key() == k
    case BringDelayed(m) => m.id !in ContentsOf(v).Ids() && m.deliverAfter.Some?
    case _ => true
  }

  function Apply(v: Plain, op: Op): Plain
    requires |v.st.ready| == 3
  {
    match op
    case Submit(m, now) => Enqueue(v, m, now)
    case Dispatch(p, now, deadline) => Take(v, p, now, deadline).0
    case Confirm(id, epoch) => Ack(v, id, epoch).0
    case Refuse(id, epoch, now, delay, retry) => Nack(v, id, epoch, now, delay, retry).0
    case TimeOut(id, now, retry) => if id in v.leases then Retire(v, id, now, 0, retry).0 else v
    case ComeDue(m, _) => ReleaseDelayed(v, m)
    case DropOld(k, now) => Expire(v, k, now)
    case Bring(k, ms) => AbsorbGroup(v, k, ms)
    case BringDelayed(m) => AbsorbDelayed(v, m)
    case Empty => Drain(v).0
  }

  /** Every operation keeps the invariant. */
  lemma StepInv(v: Plain, op: Op)
    requires Inv(v) && Enabled(v, op)
    ensures Inv(Apply(v, op))
  {
    match op
    case Submit(m, now) => EnqueueContents(v, m, now); EnqueueLines(v, m, now);
    case Dispatch(p, now, deadline) => TakeKeeps(v, p, now, deadline);
    case Confirm(id, epoch) => AckContents(v, id, epoch); AckLines(v, id, epoch);
    case Refuse(id, epoch, now, delay, retry) => NackKeeps(v, id, epoch, now, delay, retry);
    case TimeOut(id, now, retry) => RetireContents(v, id, now, 0, retry); RetireLines(v, id, now, 0, retry);
    case ComeDue(m, _) => ReleaseDelayedContents(v, m); ReleaseDelayedLines(v, m);
    case DropOld(k, now) => ExpireContents(v, k, now); ExpireLines(v, k, now);
    case Bring(k, ms) => AbsorbGroupContents(v, k, ms); AbsorbGroupLines(v, k, ms);
    case BringDelayed(m) => AbsorbDelayedContents(v, m); SameLinesInv(v, AbsorbDelayed(v, m));
    case Empty => DrainContents(v); DrainLines(v);
  }

  lemma TakeKeeps(v: Plain, p: Priority, now: Time, deadline: Time)
    requires Inv(v)
    ensures Inv(Take(v, p, now, deadline).0)
  {
    if Line(v, p) != [] { PulledLines(v, p); }
    TakeContents(v, p, now, deadline);
    TakeLines(v, p, now, deadline);
  }

  lemma NackKeeps(v: Plain, id: string, epoch: nat, now: Time, delay: Time, retry: Retry)
    requires Inv(v)
    ensures Inv(Nack(v, id, epoch, now, delay, retry).0)
  {
    if id in v.leases && v.leases[id].epoch == epoch {
      RetireContents(v, id, now, delay, retry);
      RetireLines(v, id, now, delay, retry);
    }
  }

  // ---- Runs ----

  ghost predicate Runs(v: Plain, ops: seq<Op>, v': Plain)
    decreases |ops|
  {
    if ops == [] then v' == v
    else |v.st.ready| == 3 && Enabled(v, ops[0]) && Runs(Apply(v, ops[0]), ops[1..], v')
  }

  lemma FirstRun(v: Plain, ops: seq<Op>, v': Plain)
    requires ops != [] && Runs(v, ops, v')
    ensures |v.st.ready| == 3 && Enabled(v, ops[0]) && Runs(Apply(v, ops[0]), ops[1..], v')
  {
    hide Enabled, Apply;
  }

  lemma NoRun(v: Plain, v': Plain)
    requires Runs(v, [], v')
    ensures v' == v
  {
  }

  lemma {:induction false} RunsInv(v: Plain, ops: seq<Op>, v': Plain)
    requires Inv(v) && Runs(v, ops, v')
    ensures Inv(v')
    decreases |ops|
  {
    if ops != [] {
      StepInv(v, ops[0]);
      RunsInv(Apply(v, ops[0]), ops[1..], v');
    }
  }

  lemma {:induction false} RunsConcat(u: Plain, a: seq<Op>, v: Plain, b: seq<Op>, w: Plain)
    requires Runs(u, a, v) && Runs(v, b, w)
    ensures Runs(u, a + b, w)
    decreases |a|
  {
    if a == [] {
      assert a + b == b;
    } else {
      assert (a + b)[1..] == a[1..] + b;
      RunsConcat(Apply(u, a[0]), a[1..], v, b, w);
    }
  }

  lemma RunsOne(v: Plain, op: Op)
    requires |v.st.ready| == 3 && Enabled(v, op)
    ensures Runs(v, [op], Apply(v, op))
  {
    assert [op][1..] == [];
  }

  // ---- What a sweep reports ----

  function AsList(m: Option<Message>): seq<Message> {
    if m.Some? then [m.value] else []
  }

  /** The messages a run of time-outs gave up on, in order. */
  ghost function Deaths(v: Plain, ops: seq<Op>): seq<Message>
    decreases |ops|
  {
    if ops == [] || |v.st.ready| != 3 then []
    else
      (match ops[0]
       case TimeOut(id, now, retry) =>
         if id !in v.leases then [] else AsList(Dead(v.leases[id].msg, now, retry))
       case _ => []) + Deaths(Apply(v, ops[0]), ops[1..])
  }

  lemma {:induction false} DeathsAppend(v: Plain, ops: seq<Op>, v': Plain, id: string, now: Time, retry: Retry)
    requires Runs(v, ops, v') && |v'.st.ready| == 3 && id in v'.leases
    ensures Deaths(v, ops + [TimeOut(id, now, retry)]) ==
            Deaths(v, ops) + AsList(Dead(v'.leases[id].msg, now, retry))
    decreases |ops|
  {
    var op := TimeOut(id, now, retry);
    if ops == [] {
      assert ops + [op] == [op] && [op][1..] == [];
    } else {
      assert (ops + [op])[1..] == ops[1..] + [op];
      DeathsAppend(Apply(v, ops[0]), ops[1..], v', id, now, retry);
    }
  }

  lemma RunsThen(v: Plain, ops: seq<Op>, v1: Plain, op: Op)
    requires Runs(v, ops, v1) && |v1.st.ready| == 3 && Enabled(v1, op)
    ensures Runs(v, ops + [op], Apply(v1, op))
  {
    RunsOne(v1, op);
    RunsConcat(v, ops, v1, [op], Apply(v1, op));
  }

  /** `sweepTTL` leaves the head of the group it looks at unexpired, and every other list alone. */
  lemma ExpireSpec(v: Plain, k: string, now: Time)
    requires |v.st.ready| == 3
    ensures var v' := Expire(v, k, now);
            && v'.leases == v.leases && v'.delayed == v.delayed
            && v'.lists - {k} == v.lists - {k}
            && (ListOf(v'.lists, k) != [] ==> !v'.lists[k][0].Expired(now))
  {
    DropExpiredFrame(v, k, now);
  }
}
