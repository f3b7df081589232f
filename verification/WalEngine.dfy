/** A slot and its log: what each step writes, and what replaying it brings back. */
module WalEngine {
  import opened Messages
  import opened Seqs
  import opened Stats
  import opened PlainSlot
  import opened PlainContents
  import opened SlotRuns
  import opened SlotConservation
  import opened SlotRefines
  import opened SlotTransfer
  import opened QueueTally
  import opened WalReplay

  // ---- What each step writes ----

  function Enqueues(ms: seq<Message>): (es: seq<Entry>)
    ensures |es| == |ms| && forall i :: 0 <= i < |ms| ==> es[i] == WalReplay.Enqueue(PayloadFromMessage(ms[i]))
  {
    seq(|ms|, i requires 0 <= i < |ms| => WalReplay.Enqueue(PayloadFromMessage(ms[i])))
  }

  function Endings(m: Option<Message>): seq<Entry> {
    if m.Some? then [Terminal(m.value.id, 2)] else []
  }

  /**
   * The records of one step. Only an enqueue, a delivery, an ack and a dead-letter write: a message that expires, waits or
   * comes due leaves no trace. One that arrives from another owner is written without its attempts.
   */
  function Written(v: Plain, op: Op): seq<Entry>
    requires |v.st.ready| == 3
  {
    match op
    case Submit(m, _) => Enqueues([m])
    case Dispatch(p, now, deadline) =>
      var d := Take(v, p, now, deadline).1;
      if d.Some? then [Attempt(d.value.msg.id, d.value.msg.attempts, d.value.epoch)] else []
    case Confirm(id, epoch) => if Ack(v, id, epoch).1 == Done then [Terminal(id, 1)] else []
    case Refuse(id, epoch, now, delay, retry) => Endings(Nack(v, id, epoch, now, delay, retry).1)
    case TimeOut(id, now, retry) => if id in v.leases then Endings(Dead(v.leases[id].msg, now, retry)) else []
    case Bring(_, ms) => Enqueues(ms)
    case BringDelayed(m) => Enqueues([m])
    case _ => []
  }

  // ---- What the log says of a slot ----

  /** The logged form of a held message: the delay may differ, and the attempts do exactly for the ids in `behind`. */
  predicate Matches(logged: Message, held: Message, behind: set<string>) {
    && logged == held.(deliverAfter := logged.deliverAfter, attempts := logged.attempts)
    && (logged.attempts == held.attempts <==> held.id !in behind)
  }

  ghost predicate Holds(v: Plain, id: string) {
    exists m :: m in ContentsOf(v).All() && m.id == id
  }

  /** Everything held is live in the log, and whatever else is live there has expired by `now`. */
  ghost predicate Logged(v: Plain, live: map<string, Message>, now: Time, behind: set<string>) {
    && (forall m | m in ContentsOf(v).All() :: m.id in live && Matches(live[m.id], m, behind))
    && (forall id | id in live :: live[id].id == id && (Holds(v, id) || live[id].Expired(now)))
  }

  /** `v'` holds what `v` held, without `gone` and with `come`. */
  ghost predicate Becomes(v: Plain, v': Plain, gone: set<Message>, come: set<Message>) {
    ContentsOf(v').All() == (ContentsOf(v).All() - gone) + come
  }

  // ---- Steps and the log ----

  lemma KeepDropped(v: Plain, v': Plain, gone: set<Message>, live: map<string, Message>, now: Time, behind: set<string>)
    requires Logged(v, live, now, behind) && Becomes(v, v', gone, {}) && forall m | m in gone :: m.Expired(now)
    ensures Logged(v', live, now, behind)
  {
    forall id | id in live
      ensures Holds(v', id) || live[id].Expired(now)
    {
      if Holds(v, id) {
        var m :| m in ContentsOf(v).All() && m.id == id;
        assert Matches(live[m.id], m, behind);
        if m !in gone { assert m in ContentsOf(v').All() && m.id == id; }
      }
    }
  }

  lemma KeepReplaced(v: Plain, v': Plain, m: Message, x: Message, live: map<string, Message>, now: Time, behind: set<string>)
    requires Logged(v, live, now, behind) && Becomes(v, v', {m}, {x}) && m in ContentsOf(v).All()
    requires x == m.(deliverAfter := x.deliverAfter)
    ensures Logged(v', live, now, behind)
  {
    assert Matches(live[m.id], m, behind);
    forall id | id in live
      ensures Holds(v', id) || live[id].Expired(now)
    {
      if Holds(v, id) {
        var a :| a in ContentsOf(v).All() && a.id == id;
        var b := if a == m then x else a;
        assert b in ContentsOf(v').All() && b.id == id;
      }
    }
  }

  lemma KeepEnded(v: Plain, v': Plain, m: Message, live: map<string, Message>, now: Time, behind: set<string>)
    requires Logged(v, live, now, behind) && Becomes(v, v', {m}, {}) && m in ContentsOf(v).All()
    requires ContentsOf(v).Distinct()
    ensures Logged(v', live - {m.id}, now, behind)
  {
    var live' := live - {m.id};
    forall id | id in live'
      ensures Holds(v', id) || live'[id].Expired(now)
    {
      if Holds(v, id) {
        var a :| a in ContentsOf(v).All() && a.id == id;
        assert a in ContentsOf(v').All() && a.id == id;
      }
    }
    forall x | x in ContentsOf(v').All()
      ensures x.id in live' && Matches(live'[x.id], x, behind)
    {
      assert x in ContentsOf(v).All() && x != m;
    }
  }

  lemma KeepAttempted(v: Plain, v': Plain, m: Message, live: map<string, Message>, now: Time, behind: set<string>)
    requires Logged(v, live, now, behind) && Becomes(v, v', {m}, {Attempted(m)}) && m in ContentsOf(v).All()
    requires ContentsOf(v).Distinct()
    ensures m.id in live && Logged(v', live[m.id := live[m.id].(attempts := m.attempts + 1)], now, behind - {m.id})
  {
    assert Matches(live[m.id], m, behind);
    var live' := live[m.id := live[m.id].(attempts := m.attempts + 1)];
    forall id | id in live'
      ensures Holds(v', id) || live'[id].Expired(now)
    {
      if Holds(v, id) {
        var a :| a in ContentsOf(v).All() && a.id == id;
        var b := if a == m then Attempted(m) else a;
        assert b in ContentsOf(v').All() && b.id == id;
      }
    }
    forall x | x in ContentsOf(v').All()
      ensures x.id in live' && Matches(live'[x.id], x, behind - {m.id})
    {
      if x != Attempted(m) {
        assert x in ContentsOf(v).All() && x != m;
      }
    }
  }

  /** The log after a batch of new messages: each under its id without attempts, everything else as it was. */
  ghost predicate Adds(live: map<string, Message>, live': map<string, Message>, ms: seq<Message>) {
    && (forall m | m in ms :: m.id in live' && live'[m.id] == m.(attempts := 0))
    && (forall id | id in live :: id in live' && ((forall m | m in ms :: m.id != id) ==> live'[id] == live[id]))
    && (forall id | id in live' :: id in live || exists m :: m in ms && m.id == id)
  }

  function NamesOf(ms: seq<Message>): set<string> {
    set m | m in ms :: m.id
  }

  function Tried(ms: seq<Message>): set<string> {
    set m | m in ms && m.attempts > 0 :: m.id
  }

  lemma KeepAdded(v: Plain, v': Plain, ms: seq<Message>, live: map<string, Message>, live': map<string, Message>,
                  now: Time, behind: set<string>, behind': set<string>)
    requires Logged(v, live, now, behind) && Becomes(v, v', {}, SetOf(ms)) && Adds(live, live', ms)
    requires NewIds(ms, {}) && forall m | m in ms :: m.id !in live
    requires behind' == (behind - NamesOf(ms)) + Tried(ms)
    ensures Logged(v', live', now, behind')
  {
    forall id | id in live'
      ensures live'[id].id == id && (Holds(v', id) || live'[id].Expired(now))
    {
      if id in live {
        if Holds(v, id) {
          var a :| a in ContentsOf(v).All() && a.id == id;
          assert a in ContentsOf(v').All() && a.id == id;
        }
      } else {
        var m :| m in ms && m.id == id;
        assert m in ContentsOf(v').All() && m.id == id;
      }
    }
    forall x | x in ContentsOf(v').All()
      ensures x.id in live' && Matches(live'[x.id], x, behind')
    {
      if x !in ms {
        assert x in ContentsOf(v).All();
        assert x.id in live && x.id !in NamesOf(ms);
      } else {
        TriedIs(ms, x);
      }
    }
  }

  lemma TriedIs(ms: seq<Message>, x: Message)
    requires NewIds(ms, {}) && x in ms
    ensures x.id in Tried(ms) <==> x.attempts > 0
  {
    forall m | m in ms && m.id == x.id
      ensures m == x
    {
      SameIdSame(ms, {}, m, x);
    }
  }

  // ---- What each step does to what is held ----

  /** All the messages after one moved, arrived or left. */
  lemma ShiftedAll(c: Contents, c': Contents, m: Message, m': Message, from: Where, to: Where)
    requires c.Distinct() && from != to && c' == Shifted(c, m, m', from, to)
    requires from != Absent ==> m in c.At(from)
    ensures from != Absent ==> m in c.All()
    ensures c'.All() == (c.All() - (if from == Absent then {} else {m})) + (if to == Absent then {} else {m'})
  {
  }

  lemma EnqueueEffect(v: Plain, m: Message, now: Time)
    requires ContentsInv(v) && m.id !in ContentsOf(v).Ids() && |v.st.ready| == 3
    ensures Becomes(v, PlainSlot.Enqueue(v, m, now), {}, {m})
  {
    hide GaugesOk, Append, Contents.Ids, Contents.All;
    var v' := PlainSlot.Enqueue(v, m, now);
    if m.Waiting(now) {
      assert ContentsOf(v') == Shifted(ContentsOf(v), m, m, Absent, Delayed);
      ShiftedAll(ContentsOf(v), ContentsOf(v'), m, m, Absent, Delayed);
    } else {
      var v1 := Submitted(v, m, Ready);
      assert ContentsOf(v1) == ContentsOf(v) && Shaped(v1);
      NewNotReady(v, m);
      AppendContents(v1, m);
      ShiftedAll(ContentsOf(v), ContentsOf(v'), m, m, Absent, Ready);
    }
  }

  lemma DropHeadEffect(v: Plain, k: string)
    requires ContentsInv(v) && ListOf(v.lists, k) != [] && |v.st.ready| == 3
    ensures Becomes(v, DropHead(v, k), {v.lists[k][0]}, {})
  {
    hide GaugesOk, Contents.All, Contents.Distinct;
    ReadyPop(v.lists, k);
    var h := v.lists[k][0];
    ShiftedAll(ContentsOf(v), ContentsOf(DropHead(v, k)), h, h, Ready, Absent);
  }

  lemma BecomesThen(a: Plain, b: Plain, c: Plain, x: Message, gone: set<Message>)
    requires Becomes(a, b, {x}, {}) && Becomes(b, c, gone, {})
    ensures Becomes(a, c, gone + {x}, {})
  {
  }

  lemma {:induction false} DropEffect(v: Plain, k: string, now: Time) returns (gone: set<Message>)
    requires ContentsInv(v) && |v.st.ready| == 3
    ensures Becomes(v, DropExpired(v, k, now), gone, {}) && forall m | m in gone :: m.Expired(now)
    decreases |ListOf(v.lists, k)|
  {
    hide ContentsInv, Becomes;
    gone := {};
    if ListOf(v.lists, k) != [] && v.lists[k][0].Expired(now) {
      DropHeadContents(v, k);
      DropHeadEffect(v, k);
      var rest := DropEffect(DropHead(v, k), k, now);
      BecomesThen(v, DropHead(v, k), DropExpired(v, k, now), v.lists[k][0], rest);
      gone := rest + {v.lists[k][0]};
    } else {
      NothingBecomes(v);
    }
  }

  lemma NothingBecomes(v: Plain)
    ensures Becomes(v, v, {}, {})
  {
  }

  lemma DeliverEffect(v: Plain, k: string, deadline: Time)
    requires ContentsInv(v) && ListOf(v.lists, k) != [] && k !in Busy(v.leases) && |v.st.ready| == 3
    ensures var h := v.lists[k][0];
            h in ContentsOf(v).All() && Becomes(v, Deliver(v, k, deadline).0, {h}, {Attempted(h)})
  {
    hide GaugesOk, Contents.All, Contents.Distinct, ContentsOf, Shifted, Deliver;
    DeliverShape(v, k, deadline);
    DeliverMsg(v, k, deadline);
    var h := v.lists[k][0];
    InReady(v, h);
    ShiftedAll(ContentsOf(v), ContentsOf(Deliver(v, k, deadline).0), h, Attempted(h), Ready, InFlight);
  }

  lemma InReady(v: Plain, m: Message)
    requires m in ReadyIn(v.lists)
    ensures m in ContentsOf(v).At(Ready)
  {
  }

  lemma DeliverMsg(v: Plain, k: string, deadline: Time)
    requires ListOf(v.lists, k) != [] && |v.st.ready| == 3
    ensures Deliver(v, k, deadline).1.msg == Attempted(v.lists[k][0])
  {
  }

  /** A delivery ended and its message left, or waits. */
  lemma EndEffect(v: Plain, v': Plain, id: string, m': Message, to: Where)
    requires ContentsInv(v) && id in v.leases && (to == Absent || to == Delayed)
    requires v'.leases == v.leases - {id} && v'.lists == v.lists
    requires v'.delayed == if to == Delayed then v.delayed + {m'} else v.delayed
    ensures var m := v.leases[id].msg;
            m in ContentsOf(v).All() && Becomes(v, v', {m}, if to == Delayed then {m'} else {})
  {
    hide GaugesOk, Contents.All, Contents.Distinct;
    var m := v.leases[id].msg;
    InFlightDrop(v.leases, v.epoch, id);
    assert m in InFlightIn(v.leases);
    ShiftedAll(ContentsOf(v), ContentsOf(v'), m, m', InFlight, to);
  }

  lemma AckEffect(v: Plain, id: string, epoch: nat)
    requires ContentsInv(v) && id in v.leases && v.leases[id].epoch == epoch && |v.st.ready| == 3
    ensures var m := v.leases[id].msg; m in ContentsOf(v).All() && Becomes(v, Ack(v, id, epoch).0, {m}, {})
  {
    hide ContentsInv, Becomes, ContentsOf;
    EndEffect(v, Ack(v, id, epoch).0, id, v.leases[id].msg, Absent);
  }

  lemma ReleaseFrame(v: Plain, k: string)
    ensures Release(v, k) == v.(lines := Release(v, k).lines)
  {
  }

  lemma RetireEffect(v: Plain, id: string, now: Time, delay: Time, retry: Retry)
    requires ContentsInv(v) && id in v.leases && |v.st.ready| == 3
    ensures var m := v.leases[id].msg;
            var v' := Retire(v, id, now, delay, retry).0;
            && m in ContentsOf(v).All()
            && (if m.Expired(now) || Exhausted(m, retry) then Becomes(v, v', {m}, {})
                else if delay > 0 then Becomes(v, v', {m}, {Postponed(m, now, delay)})
                else Becomes(v, v', {m}, {m}))
  {
    hide ContentsInv, Becomes, ContentsOf, Move, Release, Contents.All;
    var m := v.leases[id].msg;
    var v' := Retire(v, id, now, delay, retry).0;
    ReleaseFrame(Retired(v, id, now, delay, retry), m.Key());
    if m.Expired(now) || Exhausted(m, retry) {
      EndEffect(v, v', id, m, Absent);
    } else if delay > 0 {
      EndEffect(v, v', id, Postponed(m, now, delay), Delayed);
    } else {
      RequeueEffect(v, id, now, delay, retry);
    }
  }

  lemma RequeueEffect(v: Plain, id: string, now: Time, delay: Time, retry: Retry)
    requires ContentsInv(v) && id in v.leases && |v.st.ready| == 3 && delay <= 0
    requires var m := v.leases[id].msg; !m.Expired(now) && !Exhausted(m, retry)
    ensures var m := v.leases[id].msg;
            m in ContentsOf(v).All() && Becomes(v, Retire(v, id, now, delay, retry).0, {m}, {m})
  {
    hide GaugesOk, Contents.All, Contents.Distinct, Retired, Release, Shifted;
    var m := v.leases[id].msg;
    var v1 := Retired(v, id, now, delay, retry);
    RequeuedShift(v, id, now, delay, retry);
    ReleaseFrame(v1, m.Key());
    assert ContentsOf(Retire(v, id, now, delay, retry).0) == ContentsOf(v1);
    assert m in InFlightIn(v.leases);
    ShiftedAll(ContentsOf(v), ContentsOf(v1), m, m, InFlight, Ready);
  }

  lemma ComeDueEffect(v: Plain, m: Message)
    requires ContentsInv(v) && m in v.delayed && |v.st.ready| == 3
    ensures m in ContentsOf(v).All() && Becomes(v, ReleaseDelayed(v, m), {m}, {Due(m)})
  {
    hide GaugesOk, Move, Append, Contents.All, Contents.Distinct;
    var v1 := Moved(v.(delayed := v.delayed - {m}), Due(m), Delayed, Ready);
    DueNotReady(v, m);
    AppendContents(v1, Due(m));
    assert ContentsOf(ReleaseDelayed(v, m)) == Shifted(ContentsOf(v), m, Due(m), Delayed, Ready);
    ShiftedAll(ContentsOf(v), ContentsOf(ReleaseDelayed(v, m)), m, Due(m), Delayed, Ready);
  }

  lemma ExpireEffect(v: Plain, k: string, now: Time) returns (gone: set<Message>)
    requires ContentsInv(v)
    ensures Becomes(v, Expire(v, k, now), gone, {}) && forall m | m in gone :: m.Expired(now)
  {
    GaugesThree(v);
    gone := DropEffect(v, k, now);
    var v1 := DropExpired(v, k, now);
    assert ContentsOf(Relist(v1, k)) == ContentsOf(v1);
  }

  lemma BringEffect(v: Plain, k: string, ms: seq<Message>)
    requires ContentsInv(v) && Enabled(v, Bring(k, ms))
    ensures Becomes(v, AbsorbGroup(v, k, ms), {}, SetOf(ms))
  {
    BringShift(v, k, ms);
  }

  // ---- One step ----

  predicate Before(op: Op, now: Time) {
    match op
    case Submit(_, t) => t <= now
    case Dispatch(_, t, _) => t <= now
    case Refuse(_, _, t, _, _) => t <= now
    case TimeOut(_, t, _) => t <= now
    case ComeDue(_, t) => t <= now
    case DropOld(_, t) => t <= now
    case _ => true
  }

  function Incoming(op: Op): seq<Message> {
    match op
    case Submit(m, _) => [m]
    case Bring(_, ms) => ms
    case BringDelayed(m) => [m]
    case _ => []
  }

  /** The message a step delivers. */
  function Served(v: Plain, op: Op): set<string>
    requires |v.st.ready| == 3
  {
    match op
    case Dispatch(p, now, deadline) =>
      var d := Take(v, p, now, deadline).1;
      if d.Some? then {d.value.msg.id} else {}
    case _ => {}
  }

  /**
   * The ids whose attempts the log does not know: of messages that arrived with attempts and were not delivered since, for
   * a delivery writes the count itself.
   */
  function BehindStep(v: Plain, op: Op, behind: set<string>): set<string>
    requires |v.st.ready| == 3
  {
    (behind - Served(v, op) - NamesOf(Incoming(op))) + Tried(Incoming(op))
  }

  /** A step of a slot that keeps its log: time passed no further than `now`, and no id the log knows comes in. */
  ghost predicate Loggable(op: Op, es: seq<Entry>, now: Time) {
    && !op.Empty? && Before(op, now)
    && (forall m | m in Incoming(op) :: forall i | 0 <= i < |es| :: IdOf(es[i]) != m.id)
    && (op.Submit? ==> op.m.attempts == 0)
  }

  lemma {:induction false} UnknownIsOut(es: seq<Entry>, id: string)
    requires forall i | 0 <= i < |es| :: IdOf(es[i]) != id
    ensures id !in Fold(START, es).live
  {
    if es != [] { UnknownIsOut(es[..|es| - 1], id); }
  }

  lemma {:induction false} EnqueuesAdd(s: Live, ms: seq<Message>)
    requires NewIds(ms, {})
    ensures Adds(s.live, Fold(s, Enqueues(ms)).live, ms)
  {
    if ms != [] {
      var n := |ms| - 1;
      var (front, last) := (ms[..n], ms[n]);
      FrontDiffers(ms, {});
      EnqueuesAdd(s, front);
      assert Enqueues(ms)[..n] == Enqueues(front);
      assert ms == front + [last];
      hide Adds;
      AddsOne(s.live, Fold(s, Enqueues(front)).live, front, last);
    }
  }

  lemma AddsOne(live: map<string, Message>, live': map<string, Message>, front: seq<Message>, last: Message)
    requires Adds(live, live', front) && forall m | m in front :: m.id != last.id
    ensures Adds(live, live'[last.id := last.(attempts := 0)], front + [last])
  {
  }

  lemma OneAdds(s: Live, m: Message)
    ensures Adds(s.live, Fold(s, Enqueues([m])).live, [m]) && SetOf([m]) == {m}
  {
    EnqueuesAdd(s, [m]);
  }

  lemma FoldOne(s: Live, e: Entry)
    ensures Fold(s, [e]) == WalReplay.Apply(s, e) && Fold(s, []) == s
  {
    assert [e][..0] == [];
  }

  lemma DispatchLogged(v: Plain, s: Live, op: Op, now: Time, behind: set<string>)
    requires Inv(v) && op.Dispatch? && op.now <= now && Logged(v, s.live, now, behind)
    ensures |v.st.ready| == 3
    ensures Logged(SlotRuns.Apply(v, op), Fold(s, Written(v, op)).live, now, behind - Served(v, op))
  {
    hide GaugesOk, Deliver, DropExpired, Logged, Becomes;
    GaugesThree(v);
    var (p, t, deadline) := (op.p, op.now, op.deadline);
    assert behind - {} == behind;
    if Line(v, p) == [] {
      FoldOne(s, Terminal("", 0));
    } else {
      var k := Line(v, p)[0];
      PulledHolds(v, p, s.live, now, behind);
      var v1 := DropExpired(Pulled(v, p), k, t);
      SameContents(v, Pulled(v, p));
      var gone := DropEffect(Pulled(v, p), k, t);
      DropExpiredContents(Pulled(v, p), k, t);
      GaugesThree(v1);
      KeepDropped(Pulled(v, p), v1, gone, s.live, now, behind);
      if ListOf(v1.lists, k) == [] {
        FoldOne(s, Terminal("", 0));
      } else {
        FirstIsFree(v, p, t);
        DeliverEffect(v1, k, deadline);
        var h := v1.lists[k][0];
        KeepAttempted(v1, Deliver(v1, k, deadline).0, h, s.live, now, behind);
        DeliverMsg(v1, k, deadline);
        var d := Deliver(v1, k, deadline).1;
        FoldOne(s, Attempt(h.id, h.attempts + 1, d.epoch));
      }
    }
  }

  lemma PulledHolds(v: Plain, p: Priority, live: map<string, Message>, now: Time, behind: set<string>)
    requires Line(v, p) != [] && Logged(v, live, now, behind)
    ensures Logged(Pulled(v, p), live, now, behind)
  {
    assert ContentsOf(Pulled(v, p)) == ContentsOf(v);
  }

  lemma FirstIsFree(v: Plain, p: Priority, t: Time)
    requires Inv(v) && Line(v, p) != []
    ensures Line(v, p)[0] !in Busy(DropExpired(Pulled(v, p), Line(v, p)[0], t).leases)
  {
    assert LineOk(v, p);
    assert Line(v, p)[0] in v.lines[p] && Serves(v, p, Line(v, p)[0]);
    DropExpiredFrame(Pulled(v, p), Line(v, p)[0], t);
  }

  lemma DistinctIds(v: Plain)
    requires ContentsInv(v)
    ensures ContentsOf(v).Distinct()
  {
  }

  lemma ExpiredLater(m: Message, t: Time, now: Time)
    requires m.Expired(t) && t <= now
    ensures m.Expired(now)
  {
  }

  lemma RetireDead(v: Plain, id: string, t: Time, delay: Time, retry: Retry)
    requires id in v.leases && |v.st.ready| == 3
    ensures Retire(v, id, t, delay, retry).1 == Dead(v.leases[id].msg, t, retry)
  {
  }

  lemma RetireLogged(v: Plain, s: Live, id: string, t: Time, delay: Time, retry: Retry, now: Time, behind: set<string>)
    requires ContentsInv(v) && id in v.leases && t <= now && Logged(v, s.live, now, behind)
    ensures var (v', dead) := Retire(v, id, t, delay, retry);
            Logged(v', Fold(s, Endings(dead)).live, now, behind)
  {
    hide ContentsInv, Retire, Logged, Becomes, Fold, ContentsOf, Contents.Distinct, Contents.All, Exhausted, Message.Expired;
    GaugesThree(v);
    DistinctIds(v);
    RetireDead(v, id, t, delay, retry);
    var m := v.leases[id].msg;
    var v' := Retire(v, id, t, delay, retry).0;
    RetireEffect(v, id, t, delay, retry);
    FoldOne(s, Terminal(m.id, 2));
    if m.Expired(t) {
      ExpiredLater(m, t, now);
      KeepDropped(v, v', {m}, s.live, now, behind);
    } else if Exhausted(m, retry) {
      KeepEnded(v, v', m, s.live, now, behind);
    } else if delay > 0 {
      KeepReplaced(v, v', m, Postponed(m, t, delay), s.live, now, behind);
    } else {
      KeepReplaced(v, v', m, m, s.live, now, behind);
    }
  }

  lemma AckLogged(v: Plain, s: Live, id: string, epoch: nat, now: Time, behind: set<string>)
    requires Inv(v) && Logged(v, s.live, now, behind)
    ensures Logged(Ack(v, id, epoch).0, Fold(s, Written(v, Confirm(id, epoch))).live, now, behind)
  {
    hide Logged, Becomes, GaugesOk;
    FoldOne(s, Terminal(id, 1));
    GaugesThree(v);
    if id in v.leases && v.leases[id].epoch == epoch {
      AckEffect(v, id, epoch);
      assert v.leases[id].msg.id == id;
      KeepEnded(v, Ack(v, id, epoch).0, v.leases[id].msg, s.live, now, behind);
    }
  }

  /** Every step keeps the log in step with the slot. */
  lemma StepLogged(v: Plain, es: seq<Entry>, op: Op, now: Time, behind: set<string>)
    requires Inv(v) && Enabled(v, op) && Loggable(op, es, now) && Logged(v, Fold(START, es).live, now, behind)
    ensures |v.st.ready| == 3
    ensures Logged(SlotRuns.Apply(v, op), Fold(START, es + Written(v, op)).live, now, BehindStep(v, op, behind))
  {
    hide Logged, Becomes, GaugesOk, LinesInv, Fold, Enqueues, Adds, ContentsInv, Take, Dead, LineOk;
    GaugesThree(v);
    var (s, v') := (Fold(START, es), SlotRuns.Apply(v, op));
    FoldAppend(START, es, Written(v, op));
    FoldOne(s, Terminal("", 0));
    forall m | m in Incoming(op)
      ensures m.id !in s.live
    {
      UnknownIsOut(es, m.id);
    }
    BehindWhen(v, op, behind);
    hide BehindStep;
    match op
    case Submit(m, t) =>
      EnqueueEffect(v, m, t);
      OneAdds(s, m);
      KeepAdded(v, v', [m], s.live, Fold(s, Enqueues([m])).live, now, behind, BehindStep(v, op, behind));
    case Dispatch(p, t, deadline) => DispatchLogged(v, s, op, now, behind);
    case Confirm(id, epoch) => AckLogged(v, s, id, epoch, now, behind);
    case Refuse(id, epoch, t, delay, retry) =>
      if id in v.leases && v.leases[id].epoch == epoch { RetireLogged(v, s, id, t, delay, retry, now, behind); }
    case TimeOut(id, t, retry) => RetireLogged(v, s, id, t, 0, retry, now, behind);
    case ComeDue(m, _) =>
      ComeDueEffect(v, m);
      KeepReplaced(v, v', m, Due(m), s.live, now, behind);
    case DropOld(k, t) =>
      var gone := ExpireEffect(v, k, t);
      KeepDropped(v, v', gone, s.live, now, behind);
    case Bring(k, ms) =>
      BringEffect(v, k, ms);
      NewAnywhere(ms, ContentsOf(v).Ids());
      EnqueuesAdd(s, ms);
      KeepAdded(v, v', ms, s.live, Fold(s, Enqueues(ms)).live, now, behind, BehindStep(v, op, behind));
    case BringDelayed(m) =>
      OneAdds(s, m);
      assert Becomes(v, v', {}, {m}) by { BringDelayedEffect(v, m); }
      KeepAdded(v, v', [m], s.live, Fold(s, Enqueues([m])).live, now, behind, BehindStep(v, op, behind));
  }

  lemma NewAnywhere(ms: seq<Message>, ids: set<string>)
    requires NewIds(ms, ids)
    ensures NewIds(ms, {})
  {
  }

  lemma BehindWhen(v: Plain, op: Op, behind: set<string>)
    requires |v.st.ready| == 3
    ensures op.Dispatch? ==> BehindStep(v, op, behind) == behind - Served(v, op)
    ensures Incoming(op) == [] && !op.Dispatch? ==> BehindStep(v, op, behind) == behind
    ensures !op.Dispatch? ==> BehindStep(v, op, behind) == (behind - NamesOf(Incoming(op))) + Tried(Incoming(op))
  {
    hide Take;
  }

  lemma BringDelayedEffect(v: Plain, m: Message)
    requires |v.st.ready| == 3
    ensures Becomes(v, AbsorbDelayed(v, m), {}, {m})
  {
  }

  // ---- Runs ----

  /** The log a run of steps leaves, each step writing as it happens. */
  ghost function LogAfter(v: Plain, es: seq<Entry>, ops: seq<Op>): seq<Entry>
    decreases |ops|
  {
    if ops == [] || |v.st.ready| != 3 then es
    else LogAfter(SlotRuns.Apply(v, ops[0]), es + Written(v, ops[0]), ops[1..])
  }

  ghost predicate LoggableRun(v: Plain, es: seq<Entry>, ops: seq<Op>, now: Time)
    decreases |ops|
  {
    ops == [] ||
    (|v.st.ready| == 3 && Loggable(ops[0], es, now) && LoggableRun(SlotRuns.Apply(v, ops[0]), es + Written(v, ops[0]), ops[1..], now))
  }

  ghost function BehindAfter(v: Plain, ops: seq<Op>, behind: set<string>): set<string>
    decreases |ops|
  {
    if ops == [] || |v.st.ready| != 3 then behind
    else BehindAfter(SlotRuns.Apply(v, ops[0]), ops[1..], BehindStep(v, ops[0], behind))
  }

  lemma FirstLogged(v: Plain, es: seq<Entry>, ops: seq<Op>, v': Plain, now: Time)
    requires Inv(v) && ops != [] && Runs(v, ops, v') && LoggableRun(v, es, ops, now)
    ensures Enabled(v, ops[0]) && |v.st.ready| == 3 && Loggable(ops[0], es, now)
    ensures var (v1, es1) := (SlotRuns.Apply(v, ops[0]), es + Written(v, ops[0]));
            && Runs(v1, ops[1..], v') && LoggableRun(v1, es1, ops[1..], now)
            && LogAfter(v, es, ops) == LogAfter(v1, es1, ops[1..])
    ensures forall behind ::
              BehindAfter(v, ops, behind) == BehindAfter(SlotRuns.Apply(v, ops[0]), ops[1..], BehindStep(v, ops[0], behind))
  {
    hide Loggable, Written, Enabled, Inv, SlotRuns.Apply, BehindStep;
  }

  lemma {:induction false} RunLogged(v: Plain, es: seq<Entry>, ops: seq<Op>, v': Plain, now: Time, behind: set<string>)
    requires Inv(v) && Runs(v, ops, v') && LoggableRun(v, es, ops, now) && Logged(v, Fold(START, es).live, now, behind)
    ensures Logged(v', Fold(START, LogAfter(v, es, ops)).live, now, BehindAfter(v, ops, behind))
    decreases |ops|
  {
    hide *;
    if ops == [] {
      NothingLogged(v, es, ops, v', behind);
    } else {
      FirstLogged(v, es, ops, v', now);
      var (v1, es1) := (SlotRuns.Apply(v, ops[0]), es + Written(v, ops[0]));
      StepLogged(v, es, ops[0], now, behind);
      StepInv(v, ops[0]);
      RunLogged(v1, es1, ops[1..], v', now, BehindStep(v, ops[0], behind));
    }
  }

  lemma NothingLogged(v: Plain, es: seq<Entry>, ops: seq<Op>, v': Plain, behind: set<string>)
    requires ops == [] && Runs(v, ops, v')
    ensures v' == v && LogAfter(v, es, ops) == es && BehindAfter(v, ops, behind) == behind
  {
  }

  /**
   * After any run of a slot, replaying its log gives back every message the slot holds, as it is but for a delay; with its
   * attempts exactly if it did not arrive with attempts, or was delivered since. Any other message of the replay has
   * expired.
   */
  lemma ReplayBringsBack(v0: Plain, ops: seq<Op>, v: Plain, now: Time)
    requires v0 == PlainSlot.EMPTY && Runs(v0, ops, v) && LoggableRun(v0, [], ops, now)
    ensures var msgs := Listing(Fold(START, LogAfter(v0, [], ops)));
            && (forall m | m in ContentsOf(v).All() :: exists x :: x in msgs && Matches(x, m, BehindAfter(v0, ops, {})))
            && (forall x | x in msgs :: Holds(v, x.id) || x.Expired(now))
  {
    hide *;
    var es := LogAfter(v0, [], ops);
    EmptyLogged(v0, now);
    RunLogged(v0, [], ops, v, now, {});
    ListingIsLive(es);
    ReadLog(v, Fold(START, es).live, Listing(Fold(START, es)), now, BehindAfter(v0, ops, {}));
  }

  lemma EmptyLogged(v: Plain, now: Time)
    requires v == PlainSlot.EMPTY
    ensures Inv(v) && Logged(v, Fold(START, []).live, now, {})
  {
    hide Inv, Logged;
    EmptyPlainOk();
    EmptyHoldsNothing(v, now);
  }

  lemma EmptyHoldsNothing(v: Plain, now: Time)
    requires v.lists == map[] && v.leases == map[] && v.delayed == {}
    ensures Logged(v, Fold(START, []).live, now, {})
  {
    assert ContentsOf(v).ready == {} && ContentsOf(v).inFlight == {} && ContentsOf(v).delayed == {};
  }

  lemma ReadLog(v: Plain, live: map<string, Message>, msgs: seq<Message>, now: Time, behind: set<string>)
    requires Logged(v, live, now, behind)
    requires forall m :: m in msgs <==> m.id in live && live[m.id] == m
    ensures forall m | m in ContentsOf(v).All() :: exists x :: x in msgs && Matches(x, m, behind)
    ensures forall x | x in msgs :: Holds(v, x.id) || x.Expired(now)
  {
    forall m | m in ContentsOf(v).All()
      ensures exists x :: x in msgs && Matches(x, m, behind)
    {
      assert live[m.id] in msgs && Matches(live[m.id], m, behind);
    }
  }

  /** It happens: a message that arrived with attempts and was not delivered since comes back without them. */
  lemma AttemptsForgotten(v0: Plain, m: Message, now: Time) returns (ops: seq<Op>, v: Plain)
    requires v0 == PlainSlot.EMPTY && m.attempts > 0
    ensures Runs(v0, ops, v) && LoggableRun(v0, [], ops, now)
    ensures m in ContentsOf(v).All() && m.id in BehindAfter(v0, ops, {})
    ensures forall x | x in Listing(Fold(START, LogAfter(v0, [], ops))) && x.id == m.id :: x.attempts != m.attempts
  {
    hide *;
    EmptyLogged(v0, now);
    OneArrives(v0, m, now);
    ops, v := [Bring(m.Key(), [m])], AbsorbGroup(v0, m.Key(), [m]);
    ReplayBringsBack(v0, ops, v, now);
    ListingIsLive(LogAfter(v0, [], ops));
    OnlyWithout(Listing(Fold(START, LogAfter(v0, [], ops))), Fold(START, LogAfter(v0, [], ops)).live, m, BehindAfter(v0, ops, {}));
  }

  lemma OneArrives(v0: Plain, m: Message, now: Time)
    requires v0 == PlainSlot.EMPTY && Inv(v0) && m.attempts > 0
    ensures |v0.st.ready| == 3
    ensures var (ops, v) := ([Bring(m.Key(), [m])], AbsorbGroup(v0, m.Key(), [m]));
            && Runs(v0, ops, v) && LoggableRun(v0, [], ops, now)
            && m in ContentsOf(v).All() && BehindAfter(v0, ops, {}) == {m.id}
  {
    hide ContentsInv, LinesInv, AbsorbGroup, ContentsOf, Written;
    assert ContentsInv(v0);
    GaugesThree(v0);
    NothingHeld(v0);
    assert ContentsOf(v0).All() + {} == {};
    assert ContentsOf(v0).Ids() == {};
    var op := Bring(m.Key(), [m]);
    assert [op][1..] == [] && m in Incoming(op);
    BringEffect(v0, m.Key(), [m]);
    assert Tried([m]) == {m.id};
  }

  lemma OnlyWithout(msgs: seq<Message>, live: map<string, Message>, m: Message, behind: set<string>)
    requires forall x :: x in msgs <==> x.id in live && live[x.id] == x
    requires m.id in behind && exists x :: x in msgs && Matches(x, m, behind)
    ensures forall x | x in msgs && x.id == m.id :: x.attempts != m.attempts
  {
  }

  // ---- What ended stays ended ----

  /** A message whose end was written does not come back, as long as its id is not used again. */
  lemma {:induction false} EndedStaysOut(es: seq<Entry>, more: seq<Entry>, id: string, why: nat)
    requires forall i | 0 <= i < |more| :: !(more[i].Enqueue? && more[i].p.id == id)
    ensures id !in Fold(START, es + [Terminal(id, why)] + more).live
    decreases |more|
  {
    var all := es + [Terminal(id, why)] + more;
    if more == [] {
      assert all[..|all| - 1] == es;
    } else {
      EndedStaysOut(es, more[..|more| - 1], id, why);
      assert all[..|all| - 1] == es + [Terminal(id, why)] + more[..|more| - 1];
    }
  }

  /** The step ended the message: it was acked, or handed to the dead-letter queue. */
  predicate Ends(v: Plain, op: Op, id: string)
    requires |v.st.ready| == 3
  {
    match op
    case Confirm(i, epoch) => i == id && Ack(v, i, epoch).1 == Done
    case Refuse(i, epoch, now, delay, retry) =>
      var dead := Nack(v, i, epoch, now, delay, retry).1;
      dead.Some? && dead.value.id == id
    case TimeOut(i, now, retry) => i in v.leases && var dead := Retire(v, i, now, 0, retry).1; dead.Some? && dead.value.id == id
    case _ => false
  }

  ghost predicate EndedIn(v: Plain, ops: seq<Op>, id: string)
    decreases |ops|
  {
    ops != [] && |v.st.ready| == 3 && (Ends(v, ops[0], id) || EndedIn(SlotRuns.Apply(v, ops[0]), ops[1..], id))
  }

  lemma EndIsWritten(v: Plain, op: Op, id: string) returns (why: nat)
    requires |v.st.ready| == 3 && Ends(v, op, id)
    ensures Written(v, op) == [Terminal(id, why)]
  {
    why := if op.Confirm? then 1 else 2;
  }

  ghost predicate Mentions(es: seq<Entry>, id: string) {
    exists i :: 0 <= i < |es| && IdOf(es[i]) == id
  }

  ghost predicate NoEnqueue(es: seq<Entry>, id: string) {
    forall i | 0 <= i < |es| :: !(es[i].Enqueue? && es[i].p.id == id)
  }

  lemma MentionedIsNotEnqueued(v: Plain, es: seq<Entry>, op: Op, now: Time, id: string)
    requires |v.st.ready| == 3 && Loggable(op, es, now) && Mentions(es, id)
    ensures NoEnqueue(Written(v, op), id)
  {
    hide Take, Ack, Nack, Dead;
    var w := Written(v, op);
    var k :| 0 <= k < |es| && IdOf(es[k]) == id;
    forall i | 0 <= i < |w| && w[i].Enqueue?
      ensures w[i].p.id != id
    {
      var ms := Incoming(op);
      assert w == Enqueues(ms) && ms[i] in ms;
    }
  }

  /** A run never enqueues again an id its log mentions. */
  lemma {:induction false} NotAgain(v: Plain, es: seq<Entry>, ops: seq<Op>, v': Plain, now: Time, id: string)
    returns (more: seq<Entry>)
    requires Inv(v) && Runs(v, ops, v') && LoggableRun(v, es, ops, now) && Mentions(es, id)
    ensures LogAfter(v, es, ops) == es + more && NoEnqueue(more, id)
    decreases |ops|
  {
    if ops == [] {
      more := [];
      NothingLogged(v, es, ops, v', {});
      assert es + [] == es;
    } else {
      hide *;
      FirstLogged(v, es, ops, v', now);
      MentionedIsNotEnqueued(v, es, ops[0], now, id);
      StepInv(v, ops[0]);
      var w := Written(v, ops[0]);
      MentionsMore(es, w, id);
      var rest := NotAgain(SlotRuns.Apply(v, ops[0]), es + w, ops[1..], v', now, id);
      more := w + rest;
      Glue(es, w, rest);
      NoEnqueueJoin(w, rest, id);
    }
  }

  lemma MentionsMore(es: seq<Entry>, w: seq<Entry>, id: string)
    requires Mentions(es, id)
    ensures Mentions(es + w, id)
  {
    var i :| 0 <= i < |es| && IdOf(es[i]) == id;
    assert IdOf((es + w)[i]) == id;
  }

  lemma NoEnqueueJoin(a: seq<Entry>, b: seq<Entry>, id: string)
    requires NoEnqueue(a, id) && NoEnqueue(b, id)
    ensures NoEnqueue(a + b, id)
  {
  }

  lemma {:induction false} EndedIsOut(v: Plain, es: seq<Entry>, ops: seq<Op>, v': Plain, now: Time, id: string)
    requires Inv(v) && Runs(v, ops, v') && LoggableRun(v, es, ops, now) && EndedIn(v, ops, id)
    ensures id !in Fold(START, LogAfter(v, es, ops)).live && Mentions(LogAfter(v, es, ops), id)
    decreases |ops|
  {
    var (v1, es1) := (SlotRuns.Apply(v, ops[0]), es + Written(v, ops[0]));
    FirstLogged(v, es, ops, v', now);
    StepInv(v, ops[0]);
    hide Inv, Runs, LoggableRun, LogAfter, Fold, Written, SlotRuns.Apply, Loggable, Enabled;
    if Ends(v, ops[0], id) {
      var why := EndIsWritten(v, ops[0], id);
      assert IdOf(es1[|es|]) == id;
      var more := NotAgain(v1, es1, ops[1..], v', now, id);
      EndedStaysOut(es, more, id, why);
      MentionsMore(es1, more, id);
    } else {
      EndedIsOut(v1, es1, ops[1..], v', now, id);
    }
  }

  /**
   * Nothing that a run acked or dead-lettered returns: replaying the log of the run does not list it, and so a restart does
   * not bring it back, whether it would have expired or not.
   */
  lemma EndedNeverReturns(v0: Plain, ops: seq<Op>, v: Plain, now: Time, id: string, v1: Plain, later: Time)
    requires v0 == PlainSlot.EMPTY && Runs(v0, ops, v) && LoggableRun(v0, [], ops, now) && EndedIn(v0, ops, id)
    requires Absorbed(v0, v1, SortBySeq(Listing(Fold(START, LogAfter(v0, [], ops)))), later)
    ensures forall x | x in Listing(Fold(START, LogAfter(v0, [], ops))) :: x.id != id
    ensures !Holds(v1, id)
  {
    hide *;
    EmptyLogged(v0, now);
    EndedIsOut(v0, [], ops, v, now, id);
    var es := LogAfter(v0, [], ops);
    ListingIsLive(es);
    var msgs := Listing(Fold(START, es));
    NotListed(msgs, Fold(START, es).live, id);
    SortKeeps(msgs);
    AbsorbedContents(v0, v1, SortBySeq(msgs), later);
    NothingHeld(v0);
    NoneHolds(v1, msgs, id);
  }

  lemma NotListed(msgs: seq<Message>, live: map<string, Message>, id: string)
    requires id !in live && forall m :: m in msgs <==> m.id in live && live[m.id] == m
    ensures forall x | x in msgs :: x.id != id
  {
  }

  lemma NoneHolds(v: Plain, msgs: seq<Message>, id: string)
    requires ContentsOf(v).All() == SetOf(msgs) && forall x | x in msgs :: x.id != id
    ensures !Holds(v, id)
  {
    hide ContentsOf;
  }

  // ---- Recovery ----

  /** No id is enqueued after its end. */
  ghost predicate EndsLast(es: seq<Entry>) {
    forall i, j :: 0 <= i < j < |es| && es[i].Terminal? && es[j].Enqueue? ==> es[i].id != es[j].p.id
  }

  lemma EndsLastMore(v: Plain, es: seq<Entry>, op: Op, now: Time)
    requires |v.st.ready| == 3 && Loggable(op, es, now) && EndsLast(es)
    ensures EndsLast(es + Written(v, op))
  {
    hide Take, Ack, Nack, Dead, ContentsOf;
    var w := Written(v, op);
    forall i, j | 0 <= i < j < |es + w| && (es + w)[i].Terminal? && (es + w)[j].Enqueue?
      ensures (es + w)[i].id != (es + w)[j].p.id
    {
      if j >= |es| {
        var ms := Incoming(op);
        assert w == Enqueues(ms) && ms[j - |es|] in ms;
      }
    }
  }

  lemma {:induction false} RunEndsLast(v: Plain, es: seq<Entry>, ops: seq<Op>, v': Plain, now: Time)
    requires Inv(v) && Runs(v, ops, v') && LoggableRun(v, es, ops, now) && EndsLast(es)
    ensures EndsLast(LogAfter(v, es, ops))
    decreases |ops|
  {
    if ops != [] {
      hide Loggable, Written, Enabled, Inv, EndsLast;
      EndsLastMore(v, es, ops[0], now);
      StepInv(v, ops[0]);
      RunEndsLast(SlotRuns.Apply(v, ops[0]), es + Written(v, ops[0]), ops[1..], v', now);
    }
  }

  lemma EndsLastNotReused(es: seq<Entry>, id: string)
    requires EndsLast(es)
    ensures !Reused(es, id)
  {
  }

  lemma {:induction false} OccursTwice(ms: seq<Message>, i: nat, j: nat)
    requires i < j < |ms| && ms[i].id == ms[j].id
    ensures Occurrences(ms, ms[i].id) >= 2
    decreases |ms|
  {
    var front := ms[..|ms| - 1];
    if j < |front| {
      OccursTwice(front, i, j);
    } else {
      OccursOnce(front, i);
    }
  }

  lemma {:induction false} OccursOnce(ms: seq<Message>, i: nat)
    requires i < |ms|
    ensures Occurrences(ms, ms[i].id) >= 1
    decreases |ms|
  {
    if i < |ms| - 1 { OccursOnce(ms[..|ms| - 1], i); }
  }

  lemma ListedOnce(es: seq<Entry>)
    requires EndsLast(es)
    ensures NewIds(Listing(Fold(START, es)), {})
  {
    hide Listing, Fold;
    var ms := Listing(Fold(START, es));
    forall i, j | 0 <= i < j < |ms|
      ensures ms[i].id != ms[j].id
    {
      if ms[i].id == ms[j].id {
        OccursTwice(ms, i, j);
        ListedTwiceIff(es, ms[i].id);
        EndsLastNotReused(es, ms[i].id);
      }
    }
  }

  /** What the replay hands to recovery can be absorbed: no message is in it twice. */
  lemma RecoveryIsFresh(v0: Plain, ops: seq<Op>, v: Plain, now: Time)
    requires v0 == PlainSlot.EMPTY && Runs(v0, ops, v) && LoggableRun(v0, [], ops, now)
    ensures NewIds(Listing(Fold(START, LogAfter(v0, [], ops))), {})
  {
    hide Runs, LoggableRun, Listing, Fold, Inv;
    EmptyPlainOk();
    RunEndsLast(v0, [], ops, v, now);
    ListedOnce(LogAfter(v0, [], ops));
  }

  /**
   * A restart loses nothing live: replayed and absorbed into a new slot, the log of any run gives a slot that holds every
   * message held before, and besides those only messages that had expired.
   */
  lemma RestartLosesNothing(v0: Plain, ops: seq<Op>, v: Plain, now: Time, v1: Plain, later: Time)
    requires v0 == PlainSlot.EMPTY && Runs(v0, ops, v) && LoggableRun(v0, [], ops, now)
    requires Absorbed(v0, v1, SortBySeq(Listing(Fold(START, LogAfter(v0, [], ops)))), later)
    ensures forall m | m in ContentsOf(v).All() :: exists x :: x in ContentsOf(v1).All() && Matches(x, m, BehindAfter(v0, ops, {}))
    ensures forall x | x in ContentsOf(v1).All() :: Holds(v, x.id) || x.Expired(now)
  {
    hide *;
    var msgs := Listing(Fold(START, LogAfter(v0, [], ops)));
    ReplayBringsBack(v0, ops, v, now);
    SortKeeps(msgs);
    AbsorbedContents(v0, v1, SortBySeq(msgs), later);
    NothingHeld(v0);
    InSet(msgs);
  }

  lemma NothingHeld(v: Plain)
    requires v == PlainSlot.EMPTY
    ensures forall s: set<Message> :: ContentsOf(v).All() + s == s
  {
    NoContents(v);
  }

  lemma NoContents(v: Plain)
    requires v.lists == map[] && v.leases == map[] && v.delayed == {}
    ensures ContentsOf(v).All() == {}
  {
    assert ContentsOf(v).ready == {} && ContentsOf(v).inFlight == {};
  }

  lemma InSet(ms: seq<Message>)
    ensures forall m :: m in SetOf(ms) <==> m in ms
  {
  }
}
