/** Sequence numbers a slot holds: no step makes one up. */
module SlotNumbers {
  import opened Messages
  import opened Stats
  import opened PlainSlot
  import opened SlotRuns

  ghost predicate AllBelow(ms: seq<Message>, top: nat) {
    forall m | m in ms :: m.seqNo <= top
  }

  ghost predicate ListsBelow(lists: map<string, seq<Message>>, top: nat) {
    forall k | k in lists :: AllBelow(lists[k], top)
  }

  ghost predicate Below(v: Plain, top: nat) {
    && ListsBelow(v.lists, top)
    && (forall id | id in v.leases :: v.leases[id].msg.seqNo <= top)
    && (forall m | m in v.delayed :: m.seqNo <= top)
  }

  lemma BelowMeans(v: Plain, top: nat)
    ensures Below(v, top) <==> forall m | m in ContentsOf(v).All() :: m.seqNo <= top
  {
    if Below(v, top) {
      forall m | m in ReadyIn(v.lists)
        ensures m.seqNo <= top
      {
        var k :| k in v.lists && m in v.lists[k];
        assert AllBelow(v.lists[k], top);
      }
    }
    if forall m | m in ContentsOf(v).All() :: m.seqNo <= top {
      forall k, m | k in v.lists && m in v.lists[k]
        ensures m.seqNo <= top
      {
        assert m in ReadyIn(v.lists) && m in ContentsOf(v).All();
      }
      forall id | id in v.leases
        ensures v.leases[id].msg.seqNo <= top
      {
        assert v.leases[id].msg in InFlightIn(v.leases) && v.leases[id].msg in ContentsOf(v).All();
      }
    }
  }

  lemma SetListBelow(lists: map<string, seq<Message>>, k: string, ms: seq<Message>, top: nat)
    requires ListsBelow(lists, top) && AllBelow(ms, top)
    ensures ListsBelow(SetList(lists, k, ms), top)
  {
  }

  lemma TailBelow(lists: map<string, seq<Message>>, k: string, top: nat)
    requires ListsBelow(lists, top) && ListOf(lists, k) != []
    ensures ListsBelow(SetList(lists, k, lists[k][1..]), top) && lists[k][0].seqNo <= top
  {
    assert AllBelow(lists[k], top) && lists[k][0] in lists[k];
    SetListBelow(lists, k, lists[k][1..], top);
  }

  lemma {:induction false} DropBelow(v: Plain, k: string, now: Time, top: nat)
    requires |v.st.ready| == 3 && Below(v, top)
    ensures Below(DropExpired(v, k, now), top)
    decreases |ListOf(v.lists, k)|
  {
    if ListOf(v.lists, k) != [] && v.lists[k][0].Expired(now) {
      TailBelow(v.lists, k, top);
      DropBelow(DropHead(v, k), k, now, top);
    }
  }

  lemma DeliverBelow(v: Plain, k: string, deadline: Time, top: nat)
    requires ListOf(v.lists, k) != [] && |v.st.ready| == 3 && Below(v, top)
    ensures Below(Deliver(v, k, deadline).0, top)
  {
    TailBelow(v.lists, k, top);
  }

  lemma TakeBelow(v: Plain, p: Priority, now: Time, deadline: Time, top: nat)
    requires |v.st.ready| == 3 && Below(v, top)
    ensures Below(Take(v, p, now, deadline).0, top)
  {
    if Line(v, p) != [] {
      hide Deliver;
      var k := Line(v, p)[0];
      DropBelow(Pulled(v, p), k, now, top);
      var v1 := DropExpired(Pulled(v, p), k, now);
      if ListOf(v1.lists, k) != [] { DeliverBelow(v1, k, deadline, top); }
    }
  }

  lemma AppendBelow(v: Plain, m: Message, top: nat)
    requires Below(v, top) && m.seqNo <= top
    ensures Below(Append(v, m), top)
  {
    if m.Key() in v.lists { assert AllBelow(v.lists[m.Key()], top); }
    SetListBelow(v.lists, m.Key(), ListOf(v.lists, m.Key()) + [m], top);
  }

  lemma RetireBelow(v: Plain, id: string, now: Time, delay: Time, retry: Retry, top: nat)
    requires id in v.leases && |v.st.ready| == 3 && Below(v, top)
    ensures Below(Retire(v, id, now, delay, retry).0, top)
  {
    var m := v.leases[id].msg;
    var k := m.Key();
    if k in v.lists { assert AllBelow(v.lists[k], top); }
    SetListBelow(v.lists, k, [m] + ListOf(v.lists, k), top);
    var v1 := Retired(v, id, now, delay, retry);
    assert Below(v1, top);
  }

  lemma BringBelow(v: Plain, k: string, ms: seq<Message>, top: nat)
    requires |v.st.ready| == 3 && Below(v, top) && AllBelow(ms, top)
    ensures Below(AbsorbGroup(v, k, ms), top)
  {
    if k in v.lists { assert AllBelow(v.lists[k], top); }
    SetListBelow(v.lists, k, ms + ListOf(v.lists, k), top);
  }

  /** A step that brings in no number above `top`. */
  ghost predicate BringsBelow(op: Op, top: nat) {
    match op
    case Submit(m, _) => m.seqNo <= top
    case Bring(_, ms) => AllBelow(ms, top)
    case BringDelayed(m) => m.seqNo <= top
    case _ => true
  }

  lemma StepBelow(v: Plain, op: Op, top: nat)
    requires |v.st.ready| == 3 && Enabled(v, op) && Below(v, top) && BringsBelow(op, top)
    ensures Below(Apply(v, op), top)
  {
    match op
    case Submit(m, now) =>
      if !m.Waiting(now) { AppendBelow(Submitted(v, m, Ready), m, top); }
    case Dispatch(p, now, deadline) => TakeBelow(v, p, now, deadline, top);
    case Confirm(id, epoch) =>
    case Refuse(id, epoch, now, delay, retry) =>
      if id in v.leases { RetireBelow(v, id, now, delay, retry, top); }
    case TimeOut(id, now, retry) => RetireBelow(v, id, now, 0, retry, top);
    case ComeDue(m, _) => AppendBelow(Moved(v.(delayed := v.delayed - {m}), Due(m), Delayed, Ready), Due(m), top);
    case DropOld(k, now) => DropBelow(v, k, now, top);
    case Bring(k, ms) => BringBelow(v, k, ms, top);
    case BringDelayed(m) =>
    case Empty =>
  }

  lemma {:induction false} RunBelow(v: Plain, ops: seq<Op>, v': Plain, top: nat)
    requires Inv(v) && Runs(v, ops, v') && Below(v, top)
    requires forall i | 0 <= i < |ops| :: BringsBelow(ops[i], top)
    ensures Below(v', top)
    decreases |ops|
  {
    if ops != [] {
      StepInv(v, ops[0]);
      StepBelow(v, ops[0], top);
      RunBelow(Apply(v, ops[0]), ops[1..], v', top);
    }
  }
}
