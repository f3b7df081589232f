/** How each operation changes the number of messages a slot holds, which is what a queue's depth is meant to follow. */
module QueueTally {
  import opened Messages
  import opened Seqs
  import opened Stats
  import opened PlainSlot
  import opened PlainContents
  import opened SlotRuns
  import opened SlotSweeps
  import opened SlotTransfer
  import opened SlotConservation

  function HeldNow(v: Plain): int {
    if |v.st.ready| == 3 then HeldCount(v.st) else 0
  }

  /** Nothing was submitted or acknowledged. */
  predicate Quiet(st: Stats, st': Stats) {
    st'.enqueued == st.enqueued && st'.acked == st.acked
  }

  /** Every message that left was counted as expired or dead-lettered. */
  ghost predicate OnlyGone(v: Plain, v': Plain) {
    && |v.st.ready| == 3 && |v'.st.ready| == 3 && Quiet(v.st, v'.st)
    && HeldNow(v') == HeldNow(v) - (Gone(v'.st) - Gone(v.st))
    && v.st.expired <= v'.st.expired && v.st.deadLettered <= v'.st.deadLettered
  }

  lemma {:induction false} DropCounters(v: Plain, k: string, now: Time)
    requires |v.st.ready| == 3
    ensures var st' := DropExpired(v, k, now).st;
            Quiet(v.st, st') && st'.deadLettered == v.st.deadLettered && v.st.expired <= st'.expired
    decreases |ListOf(v.lists, k)|
  {
    if ListOf(v.lists, k) != [] && v.lists[k][0].Expired(now) {
      MoveBalance(v.st, v.lists[k][0], Ready, Absent);
      DropCounters(DropHead(v, k), k, now);
    }
  }

  lemma TakeTally(v: Plain, p: Priority, now: Time, deadline: Time)
    requires |v.st.ready| == 3
    ensures var v' := Take(v, p, now, deadline).0;
            OnlyGone(v, v') && v'.st.deadLettered == v.st.deadLettered
  {
    TakeBalance(v, p, now, deadline);
    if Line(v, p) != [] {
      var k := Line(v, p)[0];
      var v1 := DropExpired(Pulled(v, p), k, now);
      DropCounters(Pulled(v, p), k, now);
      if ListOf(v1.lists, k) != [] { MoveBalance(v1.st, Deliver(v1, k, deadline).1.msg, Ready, InFlight); }
    }
  }

  lemma EnqueueTally(v: Plain, m: Message, now: Time)
    requires |v.st.ready| == 3
    ensures |Enqueue(v, m, now).st.ready| == 3 && HeldNow(Enqueue(v, m, now)) == HeldNow(v) + 1
  {
  }

  lemma AckTally(v: Plain, id: string, epoch: nat)
    requires |v.st.ready| == 3
    ensures var (v', out) := Ack(v, id, epoch);
            && |v'.st.ready| == 3 && HeldNow(v') == HeldNow(v) - (if out == Done then 1 else 0)
            && (out != Done ==> v' == v)
  {
  }

  lemma RetireTally(v: Plain, id: string, now: Time, delay: Time, retry: Retry)
    requires |v.st.ready| == 3 && id in v.leases
    ensures var (v', dead) := Retire(v, id, now, delay, retry);
            && OnlyGone(v, v')
            && v'.st.deadLettered == v.st.deadLettered + (if dead.Some? then 1 else 0)
            && v'.st.expired == v.st.expired + (if v.leases[id].msg.Expired(now) then 1 else 0)
  {
    RetireBalance(v, id, now, delay, retry);
  }

  lemma NackTally(v: Plain, id: string, epoch: nat, now: Time, delay: Time, retry: Retry)
    requires |v.st.ready| == 3
    ensures var (v', dead, out) := Nack(v, id, epoch, now, delay, retry);
            && OnlyGone(v, v') && (out != Done ==> v' == v && dead == None)
            && v'.st.deadLettered == v.st.deadLettered + (if dead.Some? then 1 else 0)
  {
    hide Retire;
    if id in v.leases { RetireTally(v, id, now, delay, retry); }
  }

  lemma SweepStepTally(v: Plain, op: Op)
    requires |v.st.ready| == 3 && Enabled(v, op) && Sweeping(op)
    ensures OnlyGone(v, Apply(v, op))
  {
    match op
    case TimeOut(id, now, retry) => RetireTally(v, id, now, 0, retry);
    case ComeDue(m, _) => MoveBalance(v.st, Due(m), Delayed, Ready);
    case DropOld(k, now) => RestBalance(v, op); DropCounters(v, k, now);
  }

  lemma {:induction false} SweepRunTally(v: Plain, ops: seq<Op>, v': Plain)
    requires Inv(v) && Runs(v, ops, v') && forall i | 0 <= i < |ops| :: Sweeping(ops[i])
    ensures OnlyGone(v, v')
    decreases |ops|
  {
    hide *;
    if ops == [] {
      NoSweep(v, v');
    } else {
      FirstRun(v, ops, v');
      StepInv(v, ops[0]);
      SweepStepTally(v, ops[0]);
      SweepRunTally(Apply(v, ops[0]), ops[1..], v');
      OnlyGoneTwice(v, Apply(v, ops[0]), v');
    }
  }

  lemma NoSweep(v: Plain, v': Plain)
    requires Inv(v) && Runs(v, [], v')
    ensures OnlyGone(v, v')
  {
    GaugesThree(v);
    hide Inv;
  }

  lemma OnlyGoneTwice(v: Plain, v1: Plain, v2: Plain)
    requires OnlyGone(v, v1) && OnlyGone(v1, v2)
    ensures OnlyGone(v, v2)
  {
    hide HeldNow;
  }

  // ---- Absorbing and draining ----

  /** What a slot holds after a batch is what it held and the batch, nothing else. */
  lemma AbsorbedContents(v: Plain, v': Plain, ms: seq<Message>, now: Time)
    requires Absorbed(v, v', ms, now)
    ensures ContentsOf(v').All() == ContentsOf(v).All() + SetOf(ms)
  {
    EachSomewhere(ms, now);
    forall m
      ensures m in ContentsOf(v').All() <==> m in ContentsOf(v).All() || m in ms
    {
      if m in ReadyIn(v'.lists) {
        var k :| k in v'.lists && m in v'.lists[k];
        assert m in ListOf(v'.lists, k);
        assert m in ReadyOf(ms, k, now) || m in ListOf(v.lists, k);
      }
      if m in ReadyIn(v.lists) {
        var k :| k in v.lists && m in v.lists[k];
        assert m in ListOf(v'.lists, k);
      }
      if m in ms && !m.Waiting(now) {
        assert m in ReadyOf(ms, m.Key(), now);
        assert m in ListOf(v'.lists, m.Key());
      }
    }
  }

  lemma HeldIsContents(v: Plain)
    requires Inv(v)
    ensures HeldNow(v) == |ContentsOf(v).All()|
  {
    RunBalance(v, [], v);
  }

  lemma {:induction false} SetOfCount(ms: seq<Message>)
    requires NoDup(ms)
    ensures |SetOf(ms)| == |ms|
  {
    if ms != [] {
      SetOfCount(ms[1..]);
      assert SetOf(ms) == {ms[0]} + SetOf(ms[1..]);
      assert ms[0] !in ms[1..];
    }
  }

  lemma AbsorbTally(v: Plain, v': Plain, ms: seq<Message>, now: Time)
    requires Inv(v) && Inv(v') && Absorbed(v, v', ms, now) && NewIds(ms, ContentsOf(v).Ids())
    ensures HeldNow(v') == HeldNow(v) + |ms|
  {
    hide Inv, Absorbed, ContentsOf;
    AbsorbedContents(v, v', ms, now);
    HeldIsContents(v);
    HeldIsContents(v');
    NewNotHeld(ContentsOf(v), ms);
    SetOfCount(ms);
    assert |ContentsOf(v).All() + SetOf(ms)| == |ContentsOf(v).All()| + |SetOf(ms)|;
  }

  lemma NewNotHeld(c: Contents, ms: seq<Message>)
    requires NewIds(ms, c.Ids())
    ensures NoDup(ms) && c.All() !! SetOf(ms)
  {
    MembersHaveIds(c);
    forall m | m in ms
      ensures m !in c.All()
    {
      var i :| 0 <= i < |ms| && ms[i] == m;
    }
  }

  lemma DrainTally(v: Plain, out: seq<Message>)
    requires Inv(v) && NoDup(out) && SetOf(out) == ContentsOf(v).All()
    ensures HeldNow(Drain(v).0) == 0 && HeldNow(v) == |out|
  {
    HeldIsContents(v);
    SetOfCount(out);
  }
}
