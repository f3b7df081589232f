/** Counting what came in against what went out, and knowing which operations can make a message go. */
module SlotConservation {
  import opened Messages
  import opened Seqs
  import opened Stats
  import opened PlainSlot
  import opened PlainContents
  import opened PlainLines
  import opened SlotRuns

  // ---- By number ----

  function HeldCount(st: Stats): int
    requires |st.ready| == 3
  {
    st.ready[0] + st.ready[1] + st.ready[2] + st.inFlight + st.delayed
  }

  /** What is held, plus every way out the slot counts, minus what was submitted. */
  function Balance(st: Stats): int
    requires |st.ready| == 3
  {
    HeldCount(st) + st.acked + st.expired + st.deadLettered - st.enqueued
  }

  /** What a step brings in from elsewhere, or hands over. */
  function Net(v: Plain, op: Op): int
    requires |v.st.ready| == 3
  {
    match op
    case Bring(_, ms) => |ms|
    case BringDelayed(_) => 1
    case Empty => -HeldCount(v.st)
    case _ => 0
  }

  /** `v'` is balanced against `v` and what came in, `n`. */
  ghost predicate Balanced(v: Plain, v': Plain, n: int)
    requires |v.st.ready| == 3
  {
    |v'.st.ready| == 3 && Balance(v'.st) == Balance(v.st) + n
  }

  lemma MoveBalance(st: Stats, m: Message, from: Where, to: Where)
    requires |st.ready| == 3
    ensures HeldCount(Move(st, m, from, to)) ==
            HeldCount(st) - (if from == Absent then 0 else 1) + (if to == Absent then 0 else 1)
    ensures var st' := Move(st, m, from, to);
            st'.acked == st.acked && st'.expired == st.expired && st'.deadLettered == st.deadLettered && st'.enqueued == st.enqueued
  {
  }

  lemma {:induction false} DropExpiredBalance(v: Plain, k: string, now: Time)
    requires |v.st.ready| == 3
    ensures Balance(DropExpired(v, k, now).st) == Balance(v.st)
    decreases |ListOf(v.lists, k)|
  {
    if ListOf(v.lists, k) != [] && v.lists[k][0].Expired(now) {
      MoveBalance(v.st, v.lists[k][0], Ready, Absent);
      DropExpiredBalance(DropHead(v, k), k, now);
    }
  }

  lemma {:induction false} ArriveBalance(st: Stats, ms: seq<Message>)
    requires |st.ready| == 3
    ensures Balance(ArriveStats(st, ms)) == Balance(st) + |ms|
    decreases |ms|
  {
    if ms != [] {
      MoveBalance(st, ms[0], Absent, Ready);
      ArriveBalance(Move(st, ms[0], Absent, Ready), ms[1..]);
    }
  }

  lemma TakeBalance(v: Plain, p: Priority, now: Time, deadline: Time)
    requires |v.st.ready| == 3
    ensures Balanced(v, Take(v, p, now, deadline).0, 0)
  {
    if Line(v, p) != [] {
      var k := Line(v, p)[0];
      DropExpiredBalance(Pulled(v, p), k, now);
      var v1 := DropExpired(Pulled(v, p), k, now);
      if ListOf(v1.lists, k) != [] { MoveBalance(v1.st, Deliver(v1, k, deadline).1.msg, Ready, InFlight); }
    }
  }

  lemma RetireBalance(v: Plain, id: string, now: Time, delay: Time, retry: Retry)
    requires |v.st.ready| == 3 && id in v.leases
    ensures Balanced(v, Retire(v, id, now, delay, retry).0, 0)
  {
    var m := v.leases[id].msg;
    MoveBalance(v.st, m, InFlight, Absent);
    MoveBalance(v.st, m, InFlight, Ready);
    MoveBalance(v.st, Postponed(m, now, delay), InFlight, Delayed);
  }

  lemma SubmitBalance(v: Plain, m: Message, now: Time)
    requires |v.st.ready| == 3
    ensures Balanced(v, Enqueue(v, m, now), 0)
  {
    MoveBalance(CountEnqueued(v.st), m, Absent, Delayed);
    MoveBalance(CountEnqueued(v.st), m, Absent, Ready);
  }

  lemma AckBalance(v: Plain, id: string, epoch: nat)
    requires |v.st.ready| == 3
    ensures Balanced(v, Ack(v, id, epoch).0, 0)
  {
    if id in v.leases { MoveBalance(v.st, v.leases[id].msg, InFlight, Absent); }
  }

  lemma NackBalance(v: Plain, id: string, epoch: nat, now: Time, delay: Time, retry: Retry)
    requires |v.st.ready| == 3
    ensures Balanced(v, Nack(v, id, epoch, now, delay, retry).0, 0)
  {
    if id in v.leases { RetireBalance(v, id, now, delay, retry); }
  }

  lemma RestBalance(v: Plain, op: Op)
    requires |v.st.ready| == 3 && (op.ComeDue? || op.DropOld? || op.Bring? || op.BringDelayed? || op.Empty?)
    ensures Balanced(v, Apply(v, op), Net(v, op))
  {
    match op
    case ComeDue(m, _) => MoveBalance(v.st, Due(m), Delayed, Ready);
    case DropOld(k, now) => DropExpiredBalance(v, k, now);
    case Bring(k, ms) => ArriveBalance(v.st, ms);
    case BringDelayed(m) => MoveBalance(v.st, m, Absent, Delayed);
    case Empty =>
  }

  /** Every step balances. */
  lemma StepBalance(v: Plain, op: Op)
    requires |v.st.ready| == 3
    ensures |Apply(v, op).st.ready| == 3 && Balance(Apply(v, op).st) == Balance(v.st) + Net(v, op)
  {
    hide Balance, HeldCount, Enqueue, Take, Ack, Nack, Retire, ReleaseDelayed, Expire, AbsorbGroup, AbsorbDelayed, Drain;
    match op
    case Submit(m, now) => SubmitBalance(v, m, now);
    case Dispatch(p, now, deadline) => TakeBalance(v, p, now, deadline);
    case Confirm(id, epoch) => AckBalance(v, id, epoch);
    case Refuse(id, epoch, now, delay, retry) => NackBalance(v, id, epoch, now, delay, retry);
    case TimeOut(id, now, retry) => if id in v.leases { RetireBalance(v, id, now, 0, retry); }
    case _ => RestBalance(v, op);
  }

  ghost function NetOf(v: Plain, ops: seq<Op>): int
    requires |v.st.ready| == 3
    decreases |ops|
  {
    if ops == [] then 0
    else
      StepBalance(v, ops[0]);
      Net(v, ops[0]) + NetOf(Apply(v, ops[0]), ops[1..])
  }

  lemma {:induction false} ReadyIsBuckets(ms: set<Message>)
    ensures |ms| == |InBucket(ms, 0)| + |InBucket(ms, 1)| + |InBucket(ms, 2)|
  {
    assert InBucket(ms, 0) + InBucket(ms, 1) + InBucket(ms, 2) == ms;
  }

  /**
   * After any run: submitted plus brought in equals held plus acked plus expired plus dead-lettered plus handed over,
   * and what the gauges call held is what is there.
   */
  lemma {:induction false} RunBalance(v: Plain, ops: seq<Op>, v': Plain)
    requires Inv(v) && Runs(v, ops, v')
    ensures |v'.st.ready| == 3 && Balance(v'.st) == Balance(v.st) + NetOf(v, ops)
    ensures var c := ContentsOf(v'); HeldCount(v'.st) == |c.ready| + |c.inFlight| + |c.delayed| == |c.All()|
    decreases |ops|
  {
    if ops == [] {
      var c := ContentsOf(v');
      ReadyIsBuckets(c.ready);
      assert |c.ready + c.inFlight| == |c.ready| + |c.inFlight|;
    } else {
      StepBalance(v, ops[0]);
      StepInv(v, ops[0]);
      RunBalance(Apply(v, ops[0]), ops[1..], v');
    }
  }

  /** What the gauges say after any run, band by band. */
  lemma GaugesMean(v: Plain, ops: seq<Op>, v': Plain)
    requires Inv(v) && Runs(v, ops, v')
    ensures var (c, st) := (ContentsOf(v'), v'.st);
            && |st.ready| == 3
            && st.ready[0] == |set m | m in c.ready && m.priority <= 33|
            && st.ready[1] == |set m | m in c.ready && 34 <= m.priority <= 66|
            && st.ready[2] == |set m | m in c.ready && 67 <= m.priority|
            && st.inFlight == |c.inFlight| && st.delayed == |c.delayed|
            && st.bytes == Bytes(c.ready) + Bytes(c.inFlight) + Bytes(c.delayed)
  {
    RunsInv(v, ops, v');
    BandsOf(ContentsOf(v').ready);
    CountsOf(v');
    hide *;
  }

  lemma BandsOf(ms: set<Message>)
    ensures InBucket(ms, 0) == set m | m in ms && m.priority <= 33
    ensures InBucket(ms, 1) == set m | m in ms && 34 <= m.priority <= 66
    ensures InBucket(ms, 2) == set m | m in ms && 67 <= m.priority
  {
  }

  lemma CountsOf(v: Plain)
    requires Inv(v)
    ensures var (c, st) := (ContentsOf(v), v.st);
            && |st.ready| == 3
            && st.ready[0] == |InBucket(c.ready, 0)| && st.ready[1] == |InBucket(c.ready, 1)|
            && st.ready[2] == |InBucket(c.ready, 2)|
            && st.inFlight == |c.inFlight| && st.delayed == |c.delayed|
            && st.bytes == Bytes(c.ready) + Bytes(c.inFlight) + Bytes(c.delayed)
  {
    hide LinesInv, InBucket, Bytes;
  }

  // ---- By name ----

  /** Without a time to live nothing expires. */
  ghost predicate Lasting(ms: set<Message>) {
    forall m | m in ms :: m.expiresAt.None?
  }

  /** A step that cannot remove message `id` on purpose: not its ack, not a drain, and no dead-letter queue. */
  predicate Keeps(op: Op, id: string) {
    match op
    case Submit(m, _) => m.expiresAt.None?
    case Bring(_, ms) => forall m | m in ms :: m.expiresAt.None?
    case BringDelayed(m) => m.expiresAt.None?
    case Confirm(i, _) => i != id
    case Refuse(_, _, _, _, retry) => !retry.hasDeadLetter
    case TimeOut(_, _, retry) => !retry.hasDeadLetter
    case Empty => false
    case _ => true
  }

  /** `v'` still holds message `id`, and holds nothing that can expire. */
  ghost predicate StillHolds(v': Plain, id: string) {
    id in ContentsOf(v').Ids() && Lasting(ContentsOf(v').All())
  }

  lemma ShiftHolds(c: Contents, c': Contents, m: Message, m': Message, from: Where, to: Where, id: string)
    requires id in c.Ids() && Lasting(c.All()) && m'.expiresAt.None? && m'.id == m.id
    requires c' == Shifted(c, m, m', from, to) && from != to && to != Absent
    ensures id in c'.Ids() && Lasting(c'.All())
  {
    var x :| x in c.All() && x.id == id;
    assert m' in c'.All();
    if x != m { assert x in c'.All(); }
  }

  lemma SameHolds(v: Plain, v': Plain, id: string)
    requires StillHolds(v, id) && v'.lists == v.lists && v'.leases == v.leases && v'.delayed == v.delayed
    ensures StillHolds(v', id)
  {
    assert ContentsOf(v') == ContentsOf(v);
  }

  lemma NothingExpires(v: Plain, k: string, now: Time)
    requires Lasting(ContentsOf(v).All()) && |v.st.ready| == 3
    ensures DropExpired(v, k, now) == v
  {
    if ListOf(v.lists, k) != [] {
      assert k in v.lists && v.lists[k][0] in v.lists[k];
      assert v.lists[k][0] in ReadyIn(v.lists);
      assert v.lists[k][0] in ContentsOf(v).All();
    }
  }

  lemma TakeHolds(v: Plain, p: Priority, now: Time, deadline: Time, id: string)
    requires Inv(v) && StillHolds(v, id)
    ensures StillHolds(Take(v, p, now, deadline).0, id)
  {
    if Line(v, p) != [] {
      var k := Line(v, p)[0];
      var v0 := Pulled(v, p);
      PulledLines(v, p);
      SameHolds(v, v0, id);
      NothingExpires(v0, k, now);
      SameContents(v, v0);
      DeliverShape(v0, k, deadline);
      var (v', d) := Deliver(v0, k, deadline);
      assert v0.lists[k][0] in ContentsOf(v0).All();
      ShiftHolds(ContentsOf(v0), ContentsOf(v'), v0.lists[k][0], d.msg, Ready, InFlight, id);
    }
  }

  lemma AppendHolds(v: Plain, v1: Plain, m: Message, m': Message, from: Where, id: string)
    requires ContentsInv(v) && StillHolds(v, id) && m'.id == m.id && m'.expiresAt.None?
    requires Shaped(v1) && m' !in ReadyIn(v1.lists) && (from == Absent || from == Delayed)
    requires var c := ContentsOf(v); ContentsOf(v1).(ready := c.ready + {m'}) == Shifted(c, m, m', from, Ready)
    requires ContentsOf(v1).ready == ContentsOf(v).ready
    ensures StillHolds(Append(v1, m'), id)
  {
    AppendContents(v1, m');
    ShiftHolds(ContentsOf(v), ContentsOf(Append(v1, m')), m, m', from, Ready, id);
  }

  lemma InFlightLasts(v: Plain, j: string)
    requires j in v.leases && Lasting(ContentsOf(v).All())
    ensures v.leases[j].msg in InFlightIn(v.leases) && v.leases[j].msg.expiresAt.None?
  {
    assert v.leases[j].msg in ContentsOf(v).All();
  }

  lemma PostponeHolds(v: Plain, j: string, now: Time, delay: Time, retry: Retry, id: string)
    requires ContentsInv(v) && StillHolds(v, id) && j in v.leases && !retry.hasDeadLetter && delay > 0
    ensures StillHolds(Retired(v, j, now, delay, retry), id)
  {
    var (m, m') := (v.leases[j].msg, Postponed(v.leases[j].msg, now, delay));
    InFlightLasts(v, j);
    PostponedShift(v, j, now, delay, retry);
    assert m'.expiresAt.None? && m'.id == m.id;
    hide *;
    ShiftHolds(ContentsOf(v), ContentsOf(Retired(v, j, now, delay, retry)), m, m', InFlight, Delayed, id);
  }

  lemma PostponedShift(v: Plain, j: string, now: Time, delay: Time, retry: Retry)
    requires ContentsInv(v) && j in v.leases && delay > 0
    requires var m := v.leases[j].msg; !m.Expired(now) && !Exhausted(m, retry)
    ensures var m := v.leases[j].msg;
            ContentsOf(Retired(v, j, now, delay, retry)) == Shifted(ContentsOf(v), m, Postponed(m, now, delay), InFlight, Delayed)
  {
    hide *;
    PartsOk(v);
    RetiredParts(v, j, now, delay, retry);
    InFlightDrop(v.leases, v.epoch, j);
    ContentsAre(v);
    ContentsAre(Retired(v, j, now, delay, retry));
    FromInFlight(ContentsOf(v), v.leases[j].msg, Postponed(v.leases[j].msg, now, delay));
  }

  lemma ContentsAre(v: Plain)
    ensures ContentsOf(v) == Contents(ReadyIn(v.lists), InFlightIn(v.leases), v.delayed)
  {
  }

  lemma FromInFlight(c: Contents, m: Message, m': Message)
    ensures c.(inFlight := c.inFlight - {m}, delayed := c.delayed + {m'}) == Shifted(c, m, m', InFlight, Delayed)
    ensures c.(inFlight := c.inFlight - {m}, ready := c.ready + {m'}) == Shifted(c, m, m', InFlight, Ready)
  {
  }

  lemma RequeuedShift(v: Plain, j: string, now: Time, delay: Time, retry: Retry)
    requires ContentsInv(v) && j in v.leases && delay <= 0
    requires var m := v.leases[j].msg; !m.Expired(now) && !Exhausted(m, retry)
    ensures var m := v.leases[j].msg;
            ContentsOf(Retired(v, j, now, delay, retry)) == Shifted(ContentsOf(v), m, m, InFlight, Ready)
  {
    hide *;
    var m := v.leases[j].msg;
    PartsOk(v);
    RetiredParts(v, j, now, delay, retry);
    InFlightDrop(v.leases, v.epoch, j);
    LentNotReady(v, j);
    ReadyAdd(v.lists, m, [m] + ListOf(v.lists, m.Key()));
    ContentsAre(v);
    ContentsAre(Retired(v, j, now, delay, retry));
    FromInFlight(ContentsOf(v), m, m);
  }

  lemma RequeueHolds(v: Plain, j: string, now: Time, delay: Time, retry: Retry, id: string)
    requires ContentsInv(v) && StillHolds(v, id) && j in v.leases && !retry.hasDeadLetter && delay <= 0
    ensures StillHolds(Retired(v, j, now, delay, retry), id)
  {
    var m := v.leases[j].msg;
    InFlightLasts(v, j);
    RequeuedShift(v, j, now, delay, retry);
    ShiftHolds(ContentsOf(v), ContentsOf(Retired(v, j, now, delay, retry)), m, m, InFlight, Ready, id);
  }

  lemma RetiredHolds(v: Plain, j: string, now: Time, delay: Time, retry: Retry, id: string) returns (v1: Plain)
    requires ContentsInv(v) && StillHolds(v, id) && j in v.leases && !retry.hasDeadLetter
    ensures v1 == Retired(v, j, now, delay, retry) && StillHolds(v1, id)
  {
    v1 := Retired(v, j, now, delay, retry);
    if delay > 0 { PostponeHolds(v, j, now, delay, retry, id); } else { RequeueHolds(v, j, now, delay, retry, id); }
  }

  lemma RetireHolds(v: Plain, j: string, now: Time, delay: Time, retry: Retry, id: string)
    requires ContentsInv(v) && StillHolds(v, id) && j in v.leases && !retry.hasDeadLetter
    ensures StillHolds(Retire(v, j, now, delay, retry).0, id)
  {
    var v1 := RetiredHolds(v, j, now, delay, retry, id);
    SameHolds(v1, Release(v1, v.leases[j].msg.Key()), id);
  }

  lemma NackHolds(v: Plain, j: string, epoch: nat, now: Time, delay: Time, retry: Retry, id: string)
    requires ContentsInv(v) && StillHolds(v, id) && !retry.hasDeadLetter
    ensures StillHolds(Nack(v, j, epoch, now, delay, retry).0, id)
  {
    if j in v.leases && v.leases[j].epoch == epoch { RetireHolds(v, j, now, delay, retry, id); }
  }

  lemma DropOldHolds(v: Plain, k: string, now: Time, id: string)
    requires StillHolds(v, id) && |v.st.ready| == 3
    ensures StillHolds(Expire(v, k, now), id)
  {
    NothingExpires(v, k, now);
    SameHolds(v, Expire(v, k, now), id);
  }

  lemma HoldHolds(v: Plain, v': Plain, m: Message, id: string)
    requires StillHolds(v, id) && m.expiresAt.None?
    requires v'.lists == v.lists && v'.leases == v.leases && v'.delayed == v.delayed + {m}
    ensures StillHolds(v', id)
  {
    ShiftHolds(ContentsOf(v), ContentsOf(v'), m, m, Absent, Delayed, id);
  }

  lemma AcceptHolds(v: Plain, m: Message, id: string)
    requires ContentsInv(v) && StillHolds(v, id) && m.id !in ContentsOf(v).Ids() && m.expiresAt.None?
    ensures StillHolds(Append(Submitted(v, m, Ready), m), id)
  {
    hide *;
    GaugesThree(v);
    SubmittedShape(v, m);
    AppendHolds(v, Submitted(v, m, Ready), m, m, Absent, id);
  }

  lemma SubmitHolds(v: Plain, m: Message, now: Time, id: string)
    requires Inv(v) && StillHolds(v, id) && m.id !in ContentsOf(v).Ids() && m.expiresAt.None?
    ensures StillHolds(Enqueue(v, m, now), id)
  {
    if m.Waiting(now) {
      HoldHolds(v, Enqueue(v, m, now), m, id);
    } else {
      AcceptHolds(v, m, id);
    }
  }

  lemma DueLasts(v: Plain, m: Message)
    requires Lasting(ContentsOf(v).All()) && m in v.delayed
    ensures Due(m).expiresAt.None?
  {
    assert m in ContentsOf(v).All();
  }

  lemma ComeDueHolds(v: Plain, m: Message, id: string)
    requires ContentsInv(v) && StillHolds(v, id) && m in v.delayed
    ensures StillHolds(ReleaseDelayed(v, m), id)
  {
    GaugesThree(v);
    ReleasedShape(v, m);
    DueLasts(v, m);
    hide *;
    AppendHolds(v, Released(v, m), m, Due(m), Delayed, id);
  }

  lemma LeasedUnder(v: Plain, j: string)
    requires Inv(v) && j in v.leases
    ensures v.leases[j].msg.id == j
  {
  }

  lemma StillLasting(c: Contents, c': Contents)
    requires Lasting(c.All()) && c'.All() <= c.All()
    ensures Lasting(c'.All())
  {
  }

  lemma AckHolds(v: Plain, j: string, epoch: nat, id: string)
    requires Inv(v) && StillHolds(v, id) && j != id
    ensures StillHolds(Ack(v, j, epoch).0, id)
  {
    if j in v.leases && v.leases[j].epoch == epoch {
      var c, c' := ContentsOf(v), ContentsOf(Ack(v, j, epoch).0);
      InFlightDrop(v.leases, v.epoch, j);
      LeasedUnder(v, j);
      var x :| x in c.All() && x.id == id;
      assert x != v.leases[j].msg;
      hide Inv, InFlightIn, ReadyIn, Lasting;
      assert c' == c.(inFlight := c.inFlight - {v.leases[j].msg});
      assert x in c'.All();
      StillLasting(c, c');
    }
  }

  lemma RelistFrame(v: Plain, k: string)
    ensures Relist(v, k) == v.(lines := Relist(v, k).lines)
  {
  }

  lemma BringShift(v: Plain, k: string, ms: seq<Message>)
    requires ContentsInv(v) && Enabled(v, Bring(k, ms))
    ensures var c := ContentsOf(v); ContentsOf(AbsorbGroup(v, k, ms)) == c.(ready := c.ready + SetOf(ms))
  {
    NewToList(ContentsOf(v), ms);
    ReadyPrepend(v.lists, k, ms);
    RelistFrame(v.(lists := SetList(v.lists, k, ms + ListOf(v.lists, k)), st := ArriveStats(v.st, ms)), k);
    hide GaugesOk, LeasesOk, Contents.Distinct, ListsOk, NewIds, NoDup, Relist;
  }

  lemma BringHolds(v: Plain, k: string, ms: seq<Message>, id: string)
    requires ContentsInv(v) && StillHolds(v, id) && Enabled(v, Bring(k, ms)) && forall m | m in ms :: m.expiresAt.None?
    ensures StillHolds(AbsorbGroup(v, k, ms), id)
  {
    BringShift(v, k, ms);
    var x :| x in ContentsOf(v).All() && x.id == id;
    assert x in ContentsOf(AbsorbGroup(v, k, ms)).All();
  }

  /** With no time to live and no dead-letter queue, only a message's own ack, or a drain, makes it go. */
  lemma OnlyAckRemoves(v: Plain, op: Op, id: string)
    requires Inv(v) && Enabled(v, op) && StillHolds(v, id) && Keeps(op, id)
    ensures StillHolds(Apply(v, op), id)
  {
    match op
    case Submit(m, now) => SubmitHolds(v, m, now, id);
    case Dispatch(p, now, deadline) => TakeHolds(v, p, now, deadline, id);
    case Confirm(j, epoch) => AckHolds(v, j, epoch, id);
    case Refuse(j, epoch, now, delay, retry) => NackHolds(v, j, epoch, now, delay, retry, id);
    case TimeOut(j, now, retry) => RetireHolds(v, j, now, 0, retry, id);
    case ComeDue(m, _) => ComeDueHolds(v, m, id);
    case DropOld(k, now) => DropOldHolds(v, k, now, id);
    case Bring(k, ms) => BringHolds(v, k, ms, id);
    case BringDelayed(m) => ShiftHolds(ContentsOf(v), ContentsOf(Apply(v, op)), m, m, Absent, Delayed, id);
  }

  lemma {:induction false} NeverLost(v: Plain, ops: seq<Op>, v': Plain, id: string)
    requires Inv(v) && Runs(v, ops, v') && StillHolds(v, id)
    requires forall i | 0 <= i < |ops| :: Keeps(ops[i], id)
    ensures StillHolds(v', id)
    decreases |ops|
  {
    hide *;
    if ops == [] {
      NoRun(v, v');
    } else {
      FirstRun(v, ops, v');
      OnlyAckRemoves(v, ops[0], id);
      StepInv(v, ops[0]);
      NeverLost(Apply(v, ops[0]), ops[1..], v', id);
    }
  }
}
