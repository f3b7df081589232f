/** What clients of a slot can rely on over any run: group order, one delivery at a time, receipts, and nothing lost. */
module SlotTheorems {
  import opened Messages
  import opened Stats
  import opened PlainSlot
  import opened PlainContents
  import opened PlainLines
  import opened SlotRuns

  // ---- Order inside a group ----

  ghost predicate Rising(ms: seq<Message>) {
    forall i, j :: 0 <= i < j < |ms| ==> ms[i].seqNo < ms[j].seqNo
  }

  ghost predicate ListsRise(lists: map<string, seq<Message>>, top: nat) {
    forall k | k in lists :: Rising(lists[k]) && forall m | m in lists[k] :: m.seqNo <= top
  }

  ghost predicate LeasesBelow(leases: map<string, Delivery>, top: nat) {
    forall id | id in leases :: leases[id].msg.seqNo <= top
  }

  /** The message in flight comes before everything its group still holds. */
  ghost predicate Leads(d: Delivery, lists: map<string, seq<Message>>) {
    forall m | m in ListOf(lists, d.msg.Key()) :: d.msg.seqNo < m.seqNo
  }

  /** In every group the message in flight comes before the list, and the list rises; nothing is above `top`. */
  ghost predicate InOrder(v: Plain, top: nat) {
    && ListsRise(v.lists, top)
    && LeasesBelow(v.leases, top)
    && (forall id | id in v.leases :: Leads(v.leases[id], v.lists))
  }

  /** A step without delays and without messages from elsewhere; a submitted message has a number above `top`. */
  predicate Ordinary(op: Op, top: nat) {
    match op
    case Submit(m, now) => !m.Waiting(now) && top < m.seqNo
    case Refuse(_, _, _, delay, _) => delay <= 0
    case ComeDue(_, _) => false
    case Bring(_, _) => false
    case BringDelayed(_) => false
    case _ => true
  }

  function NextTop(op: Op, top: nat): nat {
    match op
    case Submit(m, _) => m.seqNo
    case _ => top
  }

  /** Each list of `b` is the end of the list of that group in `a`. */
  ghost predicate Suffixes(a: map<string, seq<Message>>, b: map<string, seq<Message>>) {
    forall k | k in b :: k in a && |b[k]| <= |a[k]| && b[k] == a[k][|a[k]| - |b[k]|..]
  }

  /** Fewer messages, and no delivery that was not there, keep the order. */
  lemma FewerInOrder(v: Plain, v': Plain, top: nat)
    requires InOrder(v, top) && Suffixes(v.lists, v'.lists)
    requires forall id | id in v'.leases :: id in v.leases && v'.leases[id] == v.leases[id]
    ensures InOrder(v', top)
  {
    forall k | k in v'.lists
      ensures Rising(v'.lists[k]) && forall m | m in v'.lists[k] :: m in v.lists[k]
    {
      assert Rising(v.lists[k]);
    }
    forall id | id in v'.leases
      ensures Leads(v'.leases[id], v'.lists)
    {
      assert Leads(v.leases[id], v.lists);
    }
  }

  lemma {:induction false} DropExpiredListed(v: Plain, k: string, now: Time)
    requires |v.st.ready| == 3 && k in DropExpired(v, k, now).lists
    ensures k in v.lists
    decreases |ListOf(v.lists, k)|
  {
    if ListOf(v.lists, k) != [] && v.lists[k][0].Expired(now) {
    }
  }

  lemma DropExpiredInOrder(v: Plain, k: string, now: Time, top: nat)
    requires InOrder(v, top) && |v.st.ready| == 3
    ensures InOrder(DropExpired(v, k, now), top)
  {
    var v' := DropExpired(v, k, now);
    DropExpiredFrame(v, k, now);
    forall j | j in v'.lists
      ensures j in v.lists && |v'.lists[j]| <= |v.lists[j]| && v'.lists[j] == v.lists[j][|v.lists[j]| - |v'.lists[j]|..]
    {
      if j != k {
        assert j in v'.lists - {k} && (v'.lists - {k})[j] == (v.lists - {k})[j];
      } else {
        DropExpiredListed(v, k, now);
      }
    }
    FewerInOrder(v, v', top);
  }

  /** The head of list `k` goes out: the rest of the list still comes after it. */
  lemma HeadLeads(lists: map<string, seq<Message>>, k: string, d: Delivery, top: nat)
    requires ListsRise(lists, top) && ListOf(lists, k) != []
    requires d.msg.Key() == k && d.msg.seqNo == lists[k][0].seqNo
    ensures Leads(d, SetList(lists, k, lists[k][1..])) && d.msg.seqNo <= top
  {
    assert lists[k][0] in lists[k] && Rising(lists[k]);
    forall x | x in lists[k][1..]
      ensures d.msg.seqNo < x.seqNo
    {
      var i :| 0 <= i < |lists[k][1..]| && lists[k][1..][i] == x;
      assert lists[k][i + 1] == x;
    }
  }

  lemma DeliverInOrder(v: Plain, k: string, deadline: Time, top: nat)
    requires InOrder(v, top) && ListOf(v.lists, k) != [] && v.lists[k][0].Key() == k && |v.st.ready| == 3
    ensures InOrder(Deliver(v, k, deadline).0, top)
  {
    var (v', d) := Deliver(v, k, deadline);
    var v1 := v.(lists := v'.lists);
    FewerInOrder(v, v1, top);
    HeadLeads(v.lists, k, d, top);
    forall id | id in v'.leases
      ensures Leads(v'.leases[id], v'.lists) && v'.leases[id].msg.seqNo <= top
    {
      if id != v.lists[k][0].id { assert Leads(v1.leases[id], v1.lists); }
    }
  }

  lemma AppendedRises(lists: map<string, seq<Message>>, m: Message, top: nat)
    requires ListsRise(lists, top) && top < m.seqNo
    ensures ListsRise(SetList(lists, m.Key(), ListOf(lists, m.Key()) + [m]), m.seqNo)
  {
    var k := m.Key();
    if k in lists { assert Rising(lists[k]); }
  }

  lemma AppendInOrder(v: Plain, m: Message, top: nat)
    requires InOrder(v, top) && top < m.seqNo
    ensures InOrder(Append(v, m), m.seqNo)
  {
    var k := m.Key();
    var v' := Append(v, m);
    AppendedRises(v.lists, m, top);
    forall id | id in v'.leases
      ensures Leads(v'.leases[id], v'.lists)
    {
      assert Leads(v.leases[id], v.lists);
    }
  }

  lemma PutBackRises(lists: map<string, seq<Message>>, d: Delivery, top: nat)
    requires ListsRise(lists, top) && Leads(d, lists) && d.msg.seqNo <= top
    ensures ListsRise(SetList(lists, d.msg.Key(), [d.msg] + ListOf(lists, d.msg.Key())), top)
  {
    var k := d.msg.Key();
    if k in lists { assert Rising(lists[k]); }
  }

  /** A message that failed goes back in front of everything that waited behind it. */
  lemma PutBackInOrder(v: Plain, v': Plain, id: string, top: nat)
    requires InOrder(v, top) && LeasesOk(v.leases, v.epoch) && id in v.leases
    requires var m := v.leases[id].msg;
             v'.lists == SetList(v.lists, m.Key(), [m] + ListOf(v.lists, m.Key())) && v'.leases == v.leases - {id}
    ensures InOrder(v', top)
  {
    PutBackRises(v.lists, v.leases[id], top);
    forall i | i in v'.leases
      ensures Leads(v'.leases[i], v'.lists)
    {
      assert v.leases[i].msg.Key() != v.leases[id].msg.Key();
      assert Leads(v.leases[i], v.lists);
    }
  }

  lemma RetiredInOrder(v: Plain, id: string, now: Time, delay: Time, retry: Retry, top: nat)
    requires InOrder(v, top) && LeasesOk(v.leases, v.epoch) && |v.st.ready| == 3 && id in v.leases && delay <= 0
    ensures InOrder(Retired(v, id, now, delay, retry), top)
  {
    var v' := Retired(v, id, now, delay, retry);
    var m := v.leases[id].msg;
    if m.Expired(now) || Exhausted(m, retry) {
      FewerInOrder(v, v', top);
    } else {
      PutBackInOrder(v, v', id, top);
    }
  }

  lemma SameInOrder(v: Plain, v': Plain, top: nat)
    requires InOrder(v, top) && v'.lists == v.lists && v'.leases == v.leases
    ensures InOrder(v', top)
  {
  }

  lemma TakeInOrder(v: Plain, p: Priority, now: Time, deadline: Time, top: nat)
    requires InOrder(v, top) && Inv(v)
    ensures InOrder(Take(v, p, now, deadline).0, top)
  {
    if Line(v, p) != [] {
      var k := Line(v, p)[0];
      var v0 := Pulled(v, p);
      SameInOrder(v, v0, top);
      DropExpiredInOrder(v0, k, now, top);
      SameContents(v, v0);
      DropExpiredContents(v0, k, now);
      if ListOf(DropExpired(v0, k, now).lists, k) != [] {
        DeliverInOrder(DropExpired(v0, k, now), k, deadline, top);
      }
    }
  }

  lemma AckInOrder(v: Plain, id: string, epoch: nat, top: nat)
    requires InOrder(v, top) && |v.st.ready| == 3
    ensures InOrder(Ack(v, id, epoch).0, top)
  {
    FewerInOrder(v, Ack(v, id, epoch).0, top);
  }

  lemma RetireInOrder(v: Plain, id: string, now: Time, delay: Time, retry: Retry, top: nat)
    requires InOrder(v, top) && LeasesOk(v.leases, v.epoch) && |v.st.ready| == 3 && id in v.leases && delay <= 0
    ensures InOrder(Retire(v, id, now, delay, retry).0, top)
  {
    RetiredInOrder(v, id, now, delay, retry, top);
    SameInOrder(Retired(v, id, now, delay, retry), Retire(v, id, now, delay, retry).0, top);
  }

  lemma NackInOrder(v: Plain, id: string, epoch: nat, now: Time, delay: Time, retry: Retry, top: nat)
    requires InOrder(v, top) && LeasesOk(v.leases, v.epoch) && |v.st.ready| == 3 && delay <= 0
    ensures InOrder(Nack(v, id, epoch, now, delay, retry).0, top)
  {
    if id in v.leases && v.leases[id].epoch == epoch { RetireInOrder(v, id, now, delay, retry, top); }
  }

  lemma ExpireInOrder(v: Plain, k: string, now: Time, top: nat)
    requires InOrder(v, top) && |v.st.ready| == 3
    ensures InOrder(Expire(v, k, now), top)
  {
    DropExpiredInOrder(v, k, now, top);
    SameInOrder(DropExpired(v, k, now), Relist(DropExpired(v, k, now), k), top);
  }

  /** Every ordinary step keeps every group in order, whatever fails, expires or is dead-lettered. */
  lemma StepInOrder(v: Plain, op: Op, top: nat)
    requires InOrder(v, top) && Inv(v) && Enabled(v, op) && Ordinary(op, top)
    ensures InOrder(Apply(v, op), NextTop(op, top))
  {
    match op
    case Submit(m, now) => AppendInOrder(Submitted(v, m, Ready), m, top);
    case Dispatch(p, now, deadline) => TakeInOrder(v, p, now, deadline, top);
    case Confirm(id, epoch) => AckInOrder(v, id, epoch, top);
    case Refuse(id, epoch, now, delay, retry) => NackInOrder(v, id, epoch, now, delay, retry, top);
    case TimeOut(id, now, retry) => RetireInOrder(v, id, now, 0, retry, top);
    case DropOld(k, now) => ExpireInOrder(v, k, now, top);
    case Empty =>
  }

  ghost predicate OrdinaryRun(ops: seq<Op>, top: nat)
    decreases |ops|
  {
    ops == [] || (Ordinary(ops[0], top) && OrdinaryRun(ops[1..], NextTop(ops[0], top)))
  }

  function LastTop(ops: seq<Op>, top: nat): nat
    decreases |ops|
  {
    if ops == [] then top else LastTop(ops[1..], NextTop(ops[0], top))
  }

  /** Whole runs: no failure, expiry, dead-letter or ack ever puts a group out of order. */
  lemma {:induction false} RunInOrder(v: Plain, ops: seq<Op>, v': Plain, top: nat)
    requires Inv(v) && InOrder(v, top) && Runs(v, ops, v') && OrdinaryRun(ops, top)
    ensures InOrder(v', LastTop(ops, top))
    decreases |ops|
  {
    if ops != [] {
      StepInOrder(v, ops[0], top);
      StepInv(v, ops[0]);
      RunInOrder(Apply(v, ops[0]), ops[1..], v', NextTop(ops[0], top));
    }
  }

  /** What group exclusivity and order mean for one delivery: it is the smallest number its group still holds. */
  lemma DeliveryIsNext(v: Plain, p: Priority, now: Time, deadline: Time, top: nat)
    requires Inv(v) && InOrder(v, top)
    ensures var (v', d) := Take(v, p, now, deadline);
            d.Some? ==>
              && d.value.msg.id in v'.leases && v'.leases[d.value.msg.id] == d.value
              && (forall m | m in ReadyIn(v'.lists) && m.Key() == d.value.msg.Key() :: d.value.msg.seqNo < m.seqNo)
              && (forall id | id in v'.leases && id != d.value.msg.id :: v'.leases[id].msg.Key() != d.value.msg.Key())
  {
    var (v', d) := Take(v, p, now, deadline);
    TakeInOrder(v, p, now, deadline, top);
    TakeKeeps(v, p, now, deadline);
    if d.Some? {
      assert Leads(v'.leases[d.value.msg.id], v'.lists);
      forall m | m in ReadyIn(v'.lists) && m.Key() == d.value.msg.Key()
        ensures d.value.msg.seqNo < m.seqNo
      {
        ReadyInList(v'.lists, m);
      }
    }
  }

  // ---- Receipts ----

  /** Epoch `e` was handed out and no delivery in progress has it. */
  ghost predicate Dead(v: Plain, e: nat) {
    e <= v.epoch && forall id | id in v.leases :: v.leases[id].epoch != e
  }

  /** No step brings an old delivery back: what is in flight afterwards was before, or has a new epoch. */
  ghost predicate NoOldLease(v: Plain, v': Plain) {
    && v.epoch <= v'.epoch
    && forall id | id in v'.leases :: (id in v.leases && v'.leases[id] == v.leases[id]) || v.epoch < v'.leases[id].epoch
  }

  lemma TakeLeases(v: Plain, p: Priority, now: Time, deadline: Time)
    requires |v.st.ready| == 3
    ensures NoOldLease(v, Take(v, p, now, deadline).0)
  {
    if Line(v, p) != [] { DropExpiredFrame(Pulled(v, p), Line(v, p)[0], now); }
  }

  lemma RetireLeases(v: Plain, id: string, now: Time, delay: Time, retry: Retry)
    requires |v.st.ready| == 3 && id in v.leases
    ensures var v' := Retire(v, id, now, delay, retry).0; v'.leases == v.leases - {id} && v'.epoch == v.epoch
  {
    RetiredFrame(v, id, now, delay, retry);
  }

  lemma NackLeases(v: Plain, id: string, epoch: nat, now: Time, delay: Time, retry: Retry)
    requires |v.st.ready| == 3
    ensures NoOldLease(v, Nack(v, id, epoch, now, delay, retry).0)
  {
    if id in v.leases { RetireLeases(v, id, now, delay, retry); }
  }

  lemma StepLeases(v: Plain, op: Op)
    requires |v.st.ready| == 3
    ensures NoOldLease(v, Apply(v, op))
  {
    match op
    case Dispatch(p, now, deadline) => TakeLeases(v, p, now, deadline);
    case Refuse(id, epoch, now, delay, retry) => NackLeases(v, id, epoch, now, delay, retry);
    case TimeOut(id, now, retry) => if id in v.leases { RetireLeases(v, id, now, 0, retry); }
    case DropOld(k, now) => DropExpiredFrame(v, k, now);
    case _ =>
  }

  /** A delivery that ended never comes back, whatever happens next. */
  lemma DeadStays(v: Plain, op: Op, e: nat)
    requires |v.st.ready| == 3 && Dead(v, e)
    ensures Dead(Apply(v, op), e)
  {
    StepLeases(v, op);
  }

  lemma {:induction false} DeadForever(v: Plain, ops: seq<Op>, v': Plain, e: nat)
    requires Inv(v) && Runs(v, ops, v') && Dead(v, e)
    ensures Dead(v', e)
    decreases |ops|
  {
    if ops != [] {
      StepInv(v, ops[0]);
      DeadStays(v, ops[0], e);
      DeadForever(Apply(v, ops[0]), ops[1..], v', e);
    }
  }

  /** `op` ends the delivery of `id` that is in progress in `v`: an ack, a nack or its deadline. */
  ghost predicate Ends(v: Plain, op: Op, id: string) {
    && id in v.leases
    && match op
       case Confirm(i, e) => i == id && e == v.leases[id].epoch
       case Refuse(i, e, _, _, _) => i == id && e == v.leases[id].epoch
       case TimeOut(i, _, _) => i == id
       case _ => false
  }

  lemma EndLeases(v: Plain, op: Op, id: string)
    requires |v.st.ready| == 3 && Ends(v, op, id)
    ensures Apply(v, op).leases == v.leases - {id} && Apply(v, op).epoch == v.epoch
  {
    match op
    case Confirm(_, _) =>
    case Refuse(_, _, now, delay, retry) => RetireLeases(v, id, now, delay, retry);
    case TimeOut(_, now, retry) => RetireLeases(v, id, now, 0, retry);
  }

  lemma EndIsDead(v: Plain, op: Op, id: string)
    requires LeasesOk(v.leases, v.epoch) && |v.st.ready| == 3 && Ends(v, op, id)
    ensures Dead(Apply(v, op), v.leases[id].epoch)
  {
    EndLeases(v, op, id);
  }

  /** A receipt works only for the delivery it was given for, and only once: later acks and nacks are refused. */
  lemma ReceiptWorksOnce(v: Plain, op: Op, id: string, ops: seq<Op>, w: Plain, i: string, now: Time, delay: Time, retry: Retry)
    requires Inv(v) && Enabled(v, op) && Ends(v, op, id) && Runs(Apply(v, op), ops, w)
    ensures |w.st.ready| == 3
    ensures Ack(w, i, v.leases[id].epoch) == (w, if i in w.leases then LeaseExpired else NotInFlight)
    ensures Nack(w, i, v.leases[id].epoch, now, delay, retry) == (w, None, if i in w.leases then LeaseExpired else NotInFlight)
  {
    EndIsDead(v, op, id);
    StepInv(v, op);
    RunsInv(Apply(v, op), ops, w);
    DeadForever(Apply(v, op), ops, w, v.leases[id].epoch);
  }

  /** Each delivery gets an epoch no delivery of this slot ever had. */
  lemma FreshEpoch(v: Plain, p: Priority, now: Time, deadline: Time)
    requires Inv(v)
    ensures var (v', d) := Take(v, p, now, deadline);
            d.Some? ==> v.epoch < d.value.epoch == v'.epoch && forall id | id in v.leases :: v.leases[id].epoch < d.value.epoch
    ensures var (v', d) := Take(v, p, now, deadline); d.None? ==> v'.epoch == v.epoch && v'.leases == v.leases
  {
    if Line(v, p) != [] { DropExpiredFrame(Pulled(v, p), Line(v, p)[0], now); }
  }
}
