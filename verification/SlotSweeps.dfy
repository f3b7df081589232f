/** The three sweeps as runs of single steps: one for each timer, delayed message or group they handle. */
module SlotSweeps {
  import opened Messages
  import opened Seqs
  import opened GroupIndex
  import opened Stats
  import opened PlainSlot
  import opened PlainContents
  import opened SlotState
  import opened SlotView
  import opened SlotRefines
  import opened SlotRuns

  // ---- What is left after each sweep ----

  ghost predicate NoneOverdue(v: Plain, now: Time) {
    forall id | id in v.leases :: now < v.leases[id].deadline
  }

  ghost predicate NoneDue(v: Plain, now: Time) {
    forall m | m in v.delayed :: m.Waiting(now)
  }

  ghost predicate HeadsFresh(v: Plain, now: Time, ks: set<string>) {
    forall k | k in ks && ListOf(v.lists, k) != [] :: !ListOf(v.lists, k)[0].Expired(now)
  }

  ghost predicate TimeOuts(ops: seq<Op>, now: Time, retry: Retry) {
    forall i :: 0 <= i < |ops| ==> ops[i].TimeOut? && ops[i] == TimeOut(ops[i].id, now, retry)
  }

  ghost predicate Releases(ops: seq<Op>, now: Time) {
    forall i :: 0 <= i < |ops| ==> ops[i].ComeDue? && ops[i] == ComeDue(ops[i].m, now)
  }

  ghost predicate DropsOld(ops: seq<Op>, now: Time) {
    forall i :: 0 <= i < |ops| ==> ops[i].DropOld? && ops[i] == DropOld(ops[i].k, now)
  }

  // ---- Heaps ----

  lemma {:induction false} EarliestTimer(ts: set<Timer>)
    requires ts != {}
    ensures exists t :: t in ts && forall u | u in ts :: t.at <= u.at
  {
    var x :| x in ts;
    var rest := ts - {x};
    if rest == {} {
      assert ts == {x};
      assert forall u | u in ts :: x.at <= u.at;
    } else {
      EarliestTimer(rest);
      var t :| t in rest && forall u | u in rest :: t.at <= u.at;
      var least := if x.at < t.at then x else t;
      assert least in ts && forall u | u in ts :: least.at <= u.at;
    }
  }

  function DueAt(m: Message): Time {
    if m.deliverAfter.Some? then m.deliverAfter.value else 0
  }

  lemma {:induction false} EarliestDelayed(ms: set<Message>)
    requires ms != {}
    ensures exists m :: m in ms && forall u | u in ms :: DueAt(m) <= DueAt(u)
  {
    var x :| x in ms;
    var rest := ms - {x};
    if rest == {} {
      assert ms == {x};
      assert forall u | u in ms :: DueAt(x) <= DueAt(u);
    } else {
      EarliestDelayed(rest);
      var m :| m in rest && forall u | u in rest :: DueAt(m) <= DueAt(u);
      var least := if DueAt(x) < DueAt(m) then x else m;
      assert least in ms && forall u | u in ms :: DueAt(least) <= DueAt(u);
    }
  }

  // ---- sweepLeases ----

  ghost function Fired(s: State, ops: seq<Op>, t: Timer, now: Time, retry: Retry): seq<Op> {
    if t.id in s.leases && s.leases[t.id].epoch == t.epoch then ops + [TimeOut(t.id, now, retry)] else ops
  }

  lemma FireShape(s: State, t: Timer, now: Time, retry: Retry)
    requires LeasesInIndex(s) && |s.st.ready| == 3
    ensures FireS(s, t, now, retry).0.timers == s.timers - {t}
  {
  }

  lemma LeasesAreDeliveries(s: State, id: string)
    requires TableOk(s.ix) && id in s.leases
    ensures id in View(s).leases && View(s).leases[id].msg == s.leases[id].msg
    ensures View(s).leases[id].deadline == s.leases[id].deadline && View(s).st == s.st
  {
  }

  lemma TimeOutRuns(v0: Plain, ops: seq<Op>, v: Plain, id: string, now: Time, retry: Retry)
    requires Runs(v0, ops, v) && |v.st.ready| == 3 && TimeOuts(ops, now, retry)
    requires id in v.leases && v.leases[id].deadline <= now
    ensures var ops' := ops + [TimeOut(id, now, retry)];
            && Runs(v0, ops', Retire(v, id, now, 0, retry).0) && TimeOuts(ops', now, retry)
            && Deaths(v0, ops') == Deaths(v0, ops) + AsList(Retire(v, id, now, 0, retry).1)
  {
    hide Runs, Deaths, Retired, Release;
    var op := TimeOut(id, now, retry);
    RunsThen(v0, ops, v, op);
    DeathsAppend(v0, ops, v, id, now, retry);
  }

  /** A popped timer is one time-out of the lease it names, or no step at all. */
  lemma FireStep(s: State, t: Timer, now: Time, retry: Retry, v0: Plain, ops: seq<Op>)
    requires CoreInv(s) && t in s.timers && t.at <= now
    requires Runs(v0, ops, View(s)) && TimeOuts(ops, now, retry)
    ensures LeasesInIndex(s) && |s.st.ready| == 3
    ensures var (s', dead) := FireS(s, t, now, retry);
            var ops' := Fired(s, ops, t, now, retry);
            && CoreInv(s') && s'.timers == s.timers - {t}
            && Runs(v0, ops', View(s')) && TimeOuts(ops', now, retry)
            && Deaths(v0, ops') == Deaths(v0, ops) + AsList(dead)
  {
    hide CoreInv, FireS, View, Retire, Runs, Deaths, TimeOuts, LeasesInIndex;
    CoreIsIndexed(s);
    FireRefines(s, t, now, retry);
    FireShape(s, t, now, retry);
    if t.id in s.leases && s.leases[t.id].epoch == t.epoch {
      LeasesAreDeliveries(s, t.id);
      TimeOutRuns(v0, ops, View(s), t.id, now, retry);
    } else {
      assert Deaths(v0, ops) + [] == Deaths(v0, ops);
    }
  }

  /** A lease keeps its own timer, so with no timer left to fire no lease is overdue. */
  lemma AllFired(s: State, now: Time)
    requires CoreInv(s) && forall t | t in s.timers :: now < t.at
    ensures NoneOverdue(View(s), now)
  {
    forall id | id in View(s).leases
      ensures now < View(s).leases[id].deadline
    {
      assert Timer(id, s.leases[id].epoch, s.leases[id].deadline) in s.timers;
    }
  }

  // ---- releaseDelayed ----

  lemma ReleaseStep(s: State, m: Message, spare: Group, now: Time, v0: Plain, ops: seq<Op>)
    requires CoreInv(s) && m in s.delayed && DueAt(m) <= now && CanAdmit(s.ix, m.Key(), spare)
    requires Runs(v0, ops, View(s)) && Releases(ops, now)
    ensures TableOk(s.ix) && |s.st.ready| == 3
    ensures var s' := ReleaseS(s, m, spare);
            var ops' := ops + [ComeDue(m, now)];
            CoreInv(s') && s'.delayed == s.delayed - {m} && Runs(v0, ops', View(s')) && Releases(ops', now)
  {
    hide CoreInv, ReleaseS, View, ReleaseDelayed, Runs, Releases;
    CoreIsIndexed(s);
    ReleaseRefines(s, m, spare);
    ReleaseShape(s, m, spare);
    DelayedAreHeld(s, m);
    RunsThen(v0, ops, View(s), ComeDue(m, now));
    ReleasesMore(ops, m, now);
  }

  lemma ReleasesMore(ops: seq<Op>, m: Message, now: Time)
    requires Releases(ops, now)
    ensures Releases(ops + [ComeDue(m, now)], now)
  {
  }

  lemma ReleaseShape(s: State, m: Message, spare: Group)
    requires TableOk(s.ix) && |s.st.ready| == 3
    ensures ReleaseS(s, m, spare).delayed == s.delayed - {m}
  {
  }

  lemma DelayedAreHeld(s: State, m: Message)
    requires CoreInv(s) && m in s.delayed
    ensures m in View(s).delayed && m.deliverAfter.Some? && |View(s).st.ready| == 3
  {
  }

  lemma AllReleased(s: State, now: Time)
    requires CoreInv(s) && forall m | m in s.delayed :: now < DueAt(m)
    ensures NoneDue(View(s), now)
  {
    forall m | m in View(s).delayed
      ensures m.Waiting(now)
    {
      DelayedAreHeld(s, m);
    }
  }

  // ---- sweepTTL ----

  lemma ExpireTable(s: State, k: string, now: Time)
    requires TableOk(s.ix) && k in s.ix.table && |s.st.ready| == 3
    ensures var s' := ExpireS(s, k, now);
            forall j | j in s.ix.table && j != k :: j in s'.ix.table && s'.ix.table[j] == s.ix.table[j]
  {
  }

  lemma ExpireTail(v: Plain, k: string, now: Time, done: set<string>)
    requires |v.st.ready| == 3 && HeadsFresh(v, now, done)
    ensures HeadsFresh(Expire(v, k, now), now, done + {k})
  {
    hide Expire;
    ExpireSpec(v, k, now);
    var v' := Expire(v, k, now);
    forall j | j in done + {k} && ListOf(v'.lists, j) != []
      ensures !ListOf(v'.lists, j)[0].Expired(now)
    {
      if j != k {
        assert j in v'.lists - {k} && j in v.lists - {k};
      }
    }
  }

  lemma ExpireStep(s: State, k: string, now: Time, v0: Plain, ops: seq<Op>, done: set<string>)
    requires CoreInv(s) && TableOk(s.ix) && k in s.ix.table
    requires Runs(v0, ops, View(s)) && DropsOld(ops, now) && HeadsFresh(View(s), now, done)
    ensures |s.st.ready| == 3
    ensures var s' := ExpireS(s, k, now);
            var ops' := ops + [DropOld(k, now)];
            && CoreInv(s') && Runs(v0, ops', View(s')) && DropsOld(ops', now)
            && HeadsFresh(View(s'), now, done + {k})
            && forall j | j in s.ix.table && j != k :: j in s'.ix.table && s'.ix.table[j] == s.ix.table[j]
  {
    hide CoreInv, ExpireS, View, Expire, Runs, DropsOld, HeadsFresh, Inv;
    CoreIsIndexed(s);
    ExpireCore(s, k, now);
    ExpireTable(s, k, now);
    ExpireTail(View(s), k, now, done);
    RunsThen(v0, ops, View(s), DropOld(k, now));
    DropsMore(ops, k, now);
  }

  lemma DropsMore(ops: seq<Op>, k: string, now: Time)
    requires DropsOld(ops, now)
    ensures DropsOld(ops + [DropOld(k, now)], now)
  {
  }

  lemma ExpireCore(s: State, k: string, now: Time)
    requires CoreInv(s) && TableOk(s.ix) && k in s.ix.table
    ensures |s.st.ready| == 3 && |View(s).st.ready| == 3
    ensures var s' := ExpireS(s, k, now);
            CoreInv(s') && View(s') == Expire(View(s), k, now)
  {
    hide ExpireS, Expire, View, Sound, ContentsInv, LinesInv;
    CoreIsIndexed(s);
    assert |View(s).st.ready| == 3 by { ViewStats(s); }
    ExpireRefines(s, k, now);
    StepInv(View(s), DropOld(k, now));
    AssembleCore(ExpireS(s, k, now), Expire(View(s), k, now));
  }

  /** Lists live in the table, so looking at every group of the table looks at every list. */
  lemma AllLooked(s: State, now: Time, done: set<string>)
    requires CoreInv(s) && TableOk(s.ix) && HeadsFresh(View(s), now, done)
    requires forall k | k in s.ix.table :: k in done
    ensures HeadsFresh(View(s), now, View(s).lists.Keys)
  {
  }

  // ---- All three in a row ----

  /** Messages that left by expiry or dead-lettering, ever. */
  function Gone(st: Stats): nat {
    st.expired + st.deadLettered
  }

  function Young(leases: map<string, Delivery>, now: Time): map<string, Delivery> {
    map id | id in leases && now < leases[id].deadline :: leases[id]
  }

  function StillWaiting(ms: set<Message>, now: Time): set<Message> {
    set m | m in ms && m.Waiting(now)
  }

  /**
   * What a sweep leaves: of the deliveries in progress exactly those whose deadline lies ahead, untouched; of the delayed
   * messages exactly those not due; and no list with an expired head.
   */
  ghost predicate Swept(v: Plain, v': Plain, now: Time) {
    && v'.leases == Young(v.leases, now)
    && v'.delayed == StillWaiting(v.delayed, now)
    && HeadsFresh(v', now, v'.lists.Keys)
  }

  lemma {:induction false} ReleasesLeave(v: Plain, ops: seq<Op>, v': Plain, now: Time)
    requires Runs(v, ops, v') && Releases(ops, now)
    ensures v'.leases == v.leases && StillWaiting(v'.delayed, now) == StillWaiting(v.delayed, now)
    decreases |ops|
  {
    if ops != [] {
      var m := ops[0].m;
      var v1 := ReleaseDelayed(v, m);
      assert v1.leases == v.leases && v1.delayed == v.delayed - {m};
      ReleasesLeave(v1, ops[1..], v', now);
    }
  }

  lemma RetireLeaves(v: Plain, id: string, now: Time, retry: Retry)
    requires |v.st.ready| == 3 && id in v.leases
    ensures var v' := Retire(v, id, now, 0, retry).0; v'.leases == v.leases - {id} && v'.delayed == v.delayed
  {
  }

  lemma {:induction false} TimeOutsLeave(v: Plain, ops: seq<Op>, v': Plain, now: Time, retry: Retry)
    requires Runs(v, ops, v') && TimeOuts(ops, now, retry)
    ensures v'.delayed == v.delayed && Young(v'.leases, now) == Young(v.leases, now)
    decreases |ops|
  {
    if ops != [] {
      hide Retire;
      var id := ops[0].id;
      assert ops[0] == TimeOut(id, now, retry);
      RetireLeaves(v, id, now, retry);
      var v1 := Apply(v, ops[0]);
      assert Young(v1.leases, now) == Young(v.leases, now);
      TimeOutsLeave(v1, ops[1..], v', now, retry);
    }
  }

  lemma {:induction false} DropsLeave(v: Plain, ops: seq<Op>, v': Plain, now: Time)
    requires Runs(v, ops, v') && DropsOld(ops, now)
    ensures v'.delayed == v.delayed && v'.leases == v.leases
    decreases |ops|
  {
    if ops != [] {
      hide Expire;
      ExpireSpec(v, ops[0].k, now);
      DropsLeave(Apply(v, ops[0]), ops[1..], v', now);
    }
  }

  lemma SweepLeaves(v: Plain, a: seq<Op>, v1: Plain, b: seq<Op>, v2: Plain, c: seq<Op>, v3: Plain, now: Time, retry: Retry)
    requires Runs(v, a, v1) && Releases(a, now) && NoneDue(v1, now)
    requires Runs(v1, b, v2) && TimeOuts(b, now, retry) && NoneOverdue(v2, now)
    requires Runs(v2, c, v3) && DropsOld(c, now) && HeadsFresh(v3, now, v3.lists.Keys)
    ensures Runs(v, a + b + c, v3) && Swept(v, v3, now)
  {
    ReleasesLeave(v, a, v1, now);
    TimeOutsLeave(v1, b, v2, now, retry);
    DropsLeave(v2, c, v3, now);
    RunsConcat(v, a, v1, b, v2);
    RunsConcat(v, a + b, v2, c, v3);
    assert StillWaiting(v1.delayed, now) == v1.delayed;
    assert Young(v2.leases, now) == v2.leases;
  }

  /** A step only a sweep takes. */
  predicate Sweeping(op: Op) {
    op.TimeOut? || op.ComeDue? || op.DropOld?
  }

  /** The messages a sweep gives up on: overdue, not expired, their retries used up. */
  ghost function GivenUp(leases: map<string, Delivery>, now: Time, retry: Retry): set<Message> {
    set id | id in leases && leases[id].deadline <= now && Dead(leases[id].msg, now, retry).Some? :: leases[id].msg
  }

  /** `ms` are the messages given up on among the leases that are gone, each once. */
  ghost predicate EndedDead(leases: map<string, Delivery>, leases': map<string, Delivery>, ms: seq<Message>, now: Time, retry: Retry) {
    && NoDup(ms)
    && forall m :: m in ms <==>
         m.id in leases && leases[m.id].msg == m && m.id !in leases' && Dead(m, now, retry).Some?
  }

  /** A run of time-outs gives up on the messages of the leases it ended, each once. */
  lemma {:induction false} DeathsAre(v: Plain, ops: seq<Op>, v': Plain, now: Time, retry: Retry)
    requires Inv(v) && Runs(v, ops, v') && TimeOuts(ops, now, retry)
    ensures forall id | id in v'.leases :: id in v.leases && v'.leases[id] == v.leases[id]
    ensures EndedDead(v.leases, v'.leases, Deaths(v, ops), now, retry)
    decreases |ops|
  {
    if ops != [] {
      hide *;
      FirstTimeOut(v, ops, v', now, retry);
      var id := ops[0].id;
      StepInv(v, ops[0]);
      LeaseNames(v, id);
      var v1 := Apply(v, ops[0]);
      DeathsAre(v1, ops[1..], v', now, retry);
      FirstDeath(v, ops);
      EndedOneMore(v.leases, id, v'.leases, Deaths(v1, ops[1..]), now, retry);
    }
  }

  lemma FirstTimeOut(v: Plain, ops: seq<Op>, v': Plain, now: Time, retry: Retry)
    requires ops != [] && Runs(v, ops, v') && TimeOuts(ops, now, retry)
    ensures var id := ops[0].id;
            && |v.st.ready| == 3 && Enabled(v, ops[0]) && ops[0] == TimeOut(id, now, retry) && id in v.leases
            && Apply(v, ops[0]).leases == v.leases - {id}
            && Runs(Apply(v, ops[0]), ops[1..], v') && TimeOuts(ops[1..], now, retry)
  {
    hide Retire;
    RetireLeaves(v, ops[0].id, now, retry);
  }

  lemma EndedOneMore(leases: map<string, Delivery>, id: string, leases': map<string, Delivery>, ms: seq<Message>,
                     now: Time, retry: Retry)
    requires id in leases && leases[id].msg.id == id && EndedDead(leases - {id}, leases', ms, now, retry)
    requires forall i | i in leases' :: i in leases && i != id
    ensures EndedDead(leases, leases', AsList(Dead(leases[id].msg, now, retry)) + ms, now, retry)
  {
    var first := AsList(Dead(leases[id].msg, now, retry));
    NoDupAppend(first, ms);
    forall m
      ensures m in first + ms <==>
                m.id in leases && leases[m.id].msg == m && m.id !in leases' && Dead(m, now, retry).Some?
    {
      assert m in first + ms <==> m in first || m in ms;
    }
  }

  lemma LeaseNames(v: Plain, id: string)
    requires Inv(v) && id in v.leases
    ensures v.leases[id].msg.id == id
  {
  }

  lemma FirstDeath(v: Plain, ops: seq<Op>)
    requires ops != [] && ops[0].TimeOut? && ops[0].id in v.leases && |v.st.ready| == 3
    ensures Deaths(v, ops) ==
            AsList(Dead(v.leases[ops[0].id].msg, ops[0].now, ops[0].retry)) + Deaths(Apply(v, ops[0]), ops[1..])
  {
  }

  lemma SweepGivesUp(v: Plain, a: seq<Op>, v1: Plain, b: seq<Op>, v2: Plain, now: Time, retry: Retry)
    requires Inv(v) && Runs(v, a, v1) && Releases(a, now)
    requires Runs(v1, b, v2) && TimeOuts(b, now, retry) && NoneOverdue(v2, now)
    ensures NoDup(Deaths(v1, b)) && SetOf(Deaths(v1, b)) == GivenUp(v.leases, now, retry)
  {
    hide Inv, Runs, Deaths, Dead;
    ReleasesLeave(v, a, v1, now);
    RunsInv(v, a, v1);
    DeathsAre(v1, b, v2, now, retry);
    TimeOutsLeave(v1, b, v2, now, retry);
    forall id | id in v1.leases
      ensures v1.leases[id].msg.id == id && (id in v2.leases <==> now < v1.leases[id].deadline)
    {
      LeaseNames(v1, id);
      assert id in Young(v1.leases, now) <==> id in Young(v2.leases, now);
    }
  }

  lemma AllSweeping(a: seq<Op>, b: seq<Op>, c: seq<Op>, now: Time, retry: Retry)
    requires Releases(a, now) && TimeOuts(b, now, retry) && DropsOld(c, now)
    ensures forall i | 0 <= i < |a + b + c| :: Sweeping((a + b + c)[i])
  {
  }

  // ---- take ----

  lemma ServeSteps(s: State, g: Group, now: Time, deadline: Time)
    requires g in s.ix.recs && |s.st.ready| == 3
    ensures var f := PopExpired(s.ix.recs[g].msgs, now, s.st);
            var s1 := Fetched(s, g, now);
            ServeS(s, g, now, deadline) ==
              match First(f)
              case None => (s1.(ix := DropIdle(s1.ix, g)), None)
              case Some(m) => (Lent(s1, g, m, deadline), Some(Delivery(Attempted(m), NextEpoch(s.epoch), deadline)))
  {
    hide DropIdle, PopExpired, Move;
    var r := s.ix.recs[g];
    var f := PopExpired(r.msgs, now, s.st);
    UpdateTwice(s.ix.recs, g, r.(msgs := Rest(f)), r.(msgs := Rest(f), locked := true));
  }

  lemma TakeSteps(s: State, p: Priority, now: Time, deadline: Time, ix1: Index, got: Option<Group>, s2: State, d: Option<Delivery>)
    requires CanTake(s, p) && (ix1, got) == TakeGroup(s.ix, p)
    requires if got.None? then s2 == s.(ix := ix1) && d == None else (s2, d) == ServeS(s.(ix := ix1), got.value, now, deadline)
    ensures (s2, d) == TakeS(s, p, now, deadline) && Taken(s, p, now, deadline, Refresh(s2), d)
  {
  }

  // ---- ack and nack ----

  /** A receipt for anything but the latest delivery changes nothing. */
  lemma AckCases(s: State, id: string, epoch: nat)
    requires LeasesInIndex(s) && |s.st.ready| == 3
    ensures id !in s.leases ==> AckS(s, id, epoch) == (s, NotInFlight)
    ensures id in s.leases && s.leases[id].epoch != epoch ==> AckS(s, id, epoch) == (s, LeaseExpired)
    ensures id in s.leases && s.leases[id].epoch == epoch ==> AckS(s, id, epoch).1 == Done
  {
  }

  lemma NackCases(s: State, id: string, epoch: nat, now: Time, delay: Time, retry: Retry)
    requires LeasesInIndex(s) && |s.st.ready| == 3
    ensures id !in s.leases ==> NackS(s, id, epoch, now, delay, retry) == (s, None, NotInFlight)
    ensures id in s.leases && s.leases[id].epoch != epoch ==> NackS(s, id, epoch, now, delay, retry) == (s, None, LeaseExpired)
  {
  }

  lemma FireCases(s: State, t: Timer, now: Time, retry: Retry)
    requires LeasesInIndex(s) && |s.st.ready| == 3
    ensures var s1 := s.(timers := s.timers - {t});
            && LeasesInIndex(s1)
            && (if t.id in s.leases && s.leases[t.id].epoch == t.epoch
                then FireS(s, t, now, retry) == (NackS(s1, t.id, t.epoch, now, 0, retry).0, NackS(s1, t.id, t.epoch, now, 0, retry).1)
                     && NackS(s1, t.id, t.epoch, now, 0, retry).0.st.requeued == s.st.requeued
                        + (if !s.leases[t.id].msg.Expired(now) && !Exhausted(s.leases[t.id].msg, retry) then 1 else 0)
                else FireS(s, t, now, retry) == (s1, None))
  {
  }

  lemma NoStep(v: Plain, now: Time, retry: Retry)
    ensures Runs(v, [], v) && TimeOuts([], now, retry) && Deaths(v, []) == []
    ensures Releases([], now) && DropsOld([], now) && HeadsFresh(v, now, {})
  {
  }

  lemma AsListIs(ms: seq<Message>, m: Option<Message>)
    ensures ms + AsList(m) == if m.Some? then ms + [m.value] else ms
  {
  }

  lemma RefreshFrame(s: State)
    ensures Refresh(s).st == s.st && Refresh(s).ix == s.ix
  {
  }

  lemma ExpireIsOnGroup(s: State, k: string, now: Time)
    requires TableOk(s.ix) && k in s.ix.table && |s.st.ready| == 3
    ensures var g := s.ix.table[k];
            var f := PopExpired(s.ix.recs[g].msgs, now, s.st);
            ExpireS(s, k, now) == s.(ix := ExpireIx(s.ix, g, f.msgs), st := f.st)
    ensures ExpireS(s, k, now).ix.table.Keys <= s.ix.table.Keys
  {
  }
}
