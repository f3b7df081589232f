/** Every operation of the plain slot keeps each held message in exactly one place, with gauges that count it there. */
module PlainContents {
  import opened Messages
  import opened Seqs
  import opened Stats
  import opened PlainSlot

  // ---- Lists ----

  lemma ReadyOfWritten(lists: map<string, seq<Message>>, k: string, ms: seq<Message>, m: Message)
    requires ListsOk(lists) && (forall x | x in ms :: x.Key() == k)
    ensures m in ReadyIn(SetList(lists, k, ms)) <==> if m.Key() == k then m in ms else m in ReadyIn(lists)
  {
    var lists' := SetList(lists, k, ms);
    if m in ReadyIn(lists') {
      var j :| j in lists' && m in lists'[j];
      assert m.Key() == j;
      if j != k { assert j in lists && m in lists[j]; }
    }
    if m.Key() == k && m in ms { assert k in lists' && m in lists'[k]; }
    if m.Key() != k && m in ReadyIn(lists) {
      var j :| j in lists && m in lists[j];
      assert j in lists' && m in lists'[j];
    }
  }

  lemma ReadyInList(lists: map<string, seq<Message>>, m: Message)
    requires ListsOk(lists)
    ensures m in ReadyIn(lists) <==> m in ListOf(lists, m.Key())
  {
  }

  /** Adding one message to its group's list, at either end, adds it to what is ready. */
  lemma ReadyAdd(lists: map<string, seq<Message>>, m: Message, ms: seq<Message>)
    requires ListsOk(lists) && m !in ReadyIn(lists)
    requires ms == ListOf(lists, m.Key()) + [m] || ms == [m] + ListOf(lists, m.Key())
    ensures ListsOk(SetList(lists, m.Key(), ms))
    ensures ReadyIn(SetList(lists, m.Key(), ms)) == ReadyIn(lists) + {m}
  {
    var k := m.Key();
    ReadyInList(lists, m);
    assert NoDup(ms) by { assert NoDup(ListOf(lists, k)); }
    forall x | x in ms
      ensures x.Key() == k
    {
      assert x == m || x in ListOf(lists, k);
    }
    forall x
      ensures x in ReadyIn(SetList(lists, k, ms)) <==> x in ReadyIn(lists) + {m}
    {
      ReadyOfWritten(lists, k, ms, x);
      ReadyInList(lists, x);
    }
  }

  /** Taking the head of a list takes that message out of what is ready. */
  lemma ReadyPop(lists: map<string, seq<Message>>, k: string)
    requires ListsOk(lists) && ListOf(lists, k) != []
    ensures ListsOk(SetList(lists, k, lists[k][1..]))
    ensures lists[k][0] in ReadyIn(lists) && lists[k][0].Key() == k
    ensures ReadyIn(SetList(lists, k, lists[k][1..])) == ReadyIn(lists) - {lists[k][0]}
  {
    var ms := lists[k];
    assert NoDup(ms[1..]);
    assert ms[0] !in ms[1..];
    assert k in lists && ms[0] in lists[k];
    assert ms == [ms[0]] + ms[1..];
    forall x
      ensures x in ReadyIn(SetList(lists, k, ms[1..])) <==> x in ReadyIn(lists) - {ms[0]}
    {
      ReadyOfWritten(lists, k, ms[1..], x);
      ReadyInList(lists, x);
    }
  }

  // ---- Leases ----

  lemma InFlightAdd(leases: map<string, Delivery>, id: string, d: Delivery)
    requires id !in leases
    ensures InFlightIn(leases[id := d]) == InFlightIn(leases) + {d.msg}
    ensures Busy(leases[id := d]) == Busy(leases) + {d.msg.Key()}
  {
    var l := leases[id := d];
    assert id in l;
    forall i | i in leases
      ensures l[i] == leases[i] && i in l
    {
    }
  }

  lemma InFlightDrop(leases: map<string, Delivery>, epoch: nat, id: string)
    requires LeasesOk(leases, epoch) && id in leases
    ensures InFlightIn(leases - {id}) == InFlightIn(leases) - {leases[id].msg}
    ensures Busy(leases - {id}) == Busy(leases) - {leases[id].msg.Key()}
    ensures LeasesOk(leases - {id}, epoch)
  {
    var l := leases - {id};
    forall i | i in l
      ensures i in leases && i != id && l[i] == leases[i]
    {
    }
  }

  lemma IdsOf(v: Plain)
    requires LeasesOk(v.leases, v.epoch) && ContentsOf(v).Distinct()
    ensures forall m | m in ReadyIn(v.lists) :: m.id !in v.leases
  {
    var c := ContentsOf(v);
    forall m, id | m in ReadyIn(v.lists) && id in v.leases
      ensures m.id != id
    {
      var n := v.leases[id].msg;
      assert n in c.inFlight && m in c.ready && n != m;
      assert m in c.All() && n in c.All();
    }
  }

  // ---- Operations ----

  lemma GaugesThree(v: Plain)
    requires ContentsInv(v)
    ensures |v.st.ready| == 3
  {
  }

  /** `Append` lists a message that is ready in `v` but in no list yet. */
  lemma AppendContents(v: Plain, m: Message)
    requires Shaped(v) && m !in ReadyIn(v.lists)
    ensures Shaped(Append(v, m)) && Append(v, m).st == v.st
    ensures var c := ContentsOf(v); ContentsOf(Append(v, m)) == c.(ready := c.ready + {m})
  {
    ReadyAdd(v.lists, m, ListOf(v.lists, m.Key()) + [m]);
  }

  lemma EnqueueContents(v: Plain, m: Message, now: Time)
    requires ContentsInv(v) && m.id !in ContentsOf(v).Ids()
    ensures ContentsInv(Enqueue(v, m, now))
  {
    if m.Waiting(now) {
      SubmittedWaiting(v, m);
    } else {
      SubmittedReady(v, m);
      assert Enqueue(v, m, now) == Append(Submitted(v, m, Ready), m);
    }
  }

  lemma SubmittedReady(v: Plain, m: Message)
    requires ContentsInv(v) && m.id !in ContentsOf(v).Ids()
    ensures ContentsInv(Append(Submitted(v, m, Ready), m))
  {
    GaugesThree(v);
    SubmittedShape(v, m);
    hide *;
    AppendCounted(v, Submitted(v, m, Ready), m, m, Absent);
  }

  lemma SubmittedShape(v: Plain, m: Message)
    requires ContentsInv(v) && m.id !in ContentsOf(v).Ids() && |v.st.ready| == 3
    ensures var (v1, c) := (Submitted(v, m, Ready), ContentsOf(v));
            && Shaped(v1) && m !in ReadyIn(v1.lists)
            && ContentsOf(v1).(ready := c.ready + {m}) == Shifted(c, m, m, Absent, Ready) && ContentsOf(v1).ready == c.ready
            && SameGauges(v1.st, Move(v.st, m, Absent, Ready))
  {
    NewNotReady(v, m);
    ArriveShifts(v.st, ContentsOf(v), m);
    SubmittedGauges(v.st, m);
    hide GaugesOk, LeasesOk, ListsOk, Contents.Distinct, Move, Shifted, SameGauges, Contents.Ids;
    assert ContentsOf(Submitted(v, m, Ready)) == ContentsOf(v);
  }

  lemma NewNotReady(v: Plain, m: Message)
    requires m.id !in ContentsOf(v).Ids()
    ensures m !in ReadyIn(v.lists)
  {
    MembersHaveIds(ContentsOf(v));
    assert m in ReadyIn(v.lists) ==> m in ContentsOf(v).All();
  }

  lemma SubmittedGauges(st: Stats, m: Message)
    requires |st.ready| == 3
    ensures SameGauges(Move(CountEnqueued(st), m, Absent, Ready), Move(st, m, Absent, Ready))
  {
  }

  lemma SubmittedWaiting(v: Plain, m: Message)
    requires ContentsInv(v) && m.id !in ContentsOf(v).Ids() && m.deliverAfter.Some?
    ensures ContentsInv(Submitted(v.(delayed := v.delayed + {m}), m, Delayed))
  {
    GaugesThree(v);
    hide GaugesOk, LeasesOk, ListsOk, Contents.Distinct;
    var v' := Submitted(v.(delayed := v.delayed + {m}), m, Delayed);
    Shift(v.st, ContentsOf(v), v'.st, ContentsOf(v'), m, m, Absent, Delayed);
  }

  /** `v1` is `v` with `m` taken from `from`; appending it to its group as `m'` puts it back. */
  lemma AppendCounted(v: Plain, v1: Plain, m: Message, m': Message, from: Where)
    requires ContentsInv(v) && Shaped(v1) && from != Ready && m' !in ReadyIn(v1.lists)
    requires m'.id == m.id && m'.priority == m.priority && m'.payload == m.payload
    requires if from == Absent then m.id !in ContentsOf(v).Ids() else m in ContentsOf(v).At(from)
    requires var c := ContentsOf(v); ContentsOf(v1).(ready := c.ready + {m'}) == Shifted(c, m, m', from, Ready)
    requires ContentsOf(v1).ready == ContentsOf(v).ready
    requires SameGauges(v1.st, Move(v.st, m', from, Ready))
    ensures ContentsInv(Append(v1, m'))
  {
    AppendContents(v1, m');
    Shift(v.st, ContentsOf(v), v1.st, ContentsOf(Append(v1, m')), m, m', from, Ready);
  }

  lemma DropHeadShape(v: Plain, k: string)
    requires ContentsInv(v) && ListOf(v.lists, k) != [] && |v.st.ready| == 3
    ensures var (m, v') := (v.lists[k][0], DropHead(v, k));
            && Shaped(v') && m in ContentsOf(v).At(Ready)
            && ContentsOf(v') == Shifted(ContentsOf(v), m, m, Ready, Absent)
            && SameGauges(v'.st, Move(v.st, m, Ready, Absent))
  {
    hide GaugesOk, LeasesOk, Contents.Distinct, Move;
    ReadyPop(v.lists, k);
  }

  lemma DropHeadContents(v: Plain, k: string)
    requires ContentsInv(v) && ListOf(v.lists, k) != []
    ensures ContentsInv(DropHead(v, k))
  {
    var m := v.lists[k][0];
    GaugesThree(v);
    var v' := DropHead(v, k);
    DropHeadShape(v, k);
    hide *;
    Shift(v.st, ContentsOf(v), v'.st, ContentsOf(v'), m, m, Ready, Absent);
  }

  lemma {:induction false} DropExpiredContents(v: Plain, k: string, now: Time)
    requires ContentsInv(v)
    ensures ContentsInv(DropExpired(v, k, now))
    decreases |ListOf(v.lists, k)|
  {
    if ListOf(v.lists, k) != [] && v.lists[k][0].Expired(now) {
      DropHeadContents(v, k);
      DropExpiredContents(DropHead(v, k), k, now);
    }
  }

  lemma DeliverShape(v: Plain, k: string, deadline: Time)
    requires Shaped(v) && ContentsOf(v).Distinct() && ListOf(v.lists, k) != [] && k !in Busy(v.leases) && |v.st.ready| == 3
    ensures var (v', d) := Deliver(v, k, deadline);
            && Shaped(v')
            && v.lists[k][0] in ReadyIn(v.lists)
            && ContentsOf(v') == Shifted(ContentsOf(v), v.lists[k][0], d.msg, Ready, InFlight)
  {
    var m := v.lists[k][0];
    var (v', d) := Deliver(v, k, deadline);
    ReadyPop(v.lists, k);
    IdsOf(v);
    InFlightAdd(v.leases, m.id, d);
    forall i | i in v.leases
      ensures v.leases[i].msg.Key() != k
    {
      assert v.leases[i].msg.Key() in Busy(v.leases);
    }
  }

  lemma DeliverContents(v: Plain, k: string, deadline: Time)
    requires ContentsInv(v) && ListOf(v.lists, k) != [] && k !in Busy(v.leases)
    ensures ContentsInv(Deliver(v, k, deadline).0)
  {
    var (v', d) := Deliver(v, k, deadline);
    DeliverShape(v, k, deadline);
    Shift(v.st, ContentsOf(v), v'.st, ContentsOf(v'), v.lists[k][0], d.msg, Ready, InFlight);
  }

  /** Dropping expired heads touches one list and the counters. */
  lemma {:induction false} DropExpiredFrame(v: Plain, k: string, now: Time)
    requires |v.st.ready| == 3
    ensures var v' := DropExpired(v, k, now);
            && v' == v.(lists := v'.lists, st := v'.st)
            && v'.lists - {k} == v.lists - {k}
            && |ListOf(v'.lists, k)| <= |ListOf(v.lists, k)|
            && ListOf(v'.lists, k) == ListOf(v.lists, k)[|ListOf(v.lists, k)| - |ListOf(v'.lists, k)|..]
            && (ListOf(v'.lists, k) != [] ==> !ListOf(v'.lists, k)[0].Expired(now))
    decreases |ListOf(v.lists, k)|
  {
    if ListOf(v.lists, k) != [] && v.lists[k][0].Expired(now) {
      assert DropHead(v, k).lists - {k} == v.lists - {k} && ListOf(DropHead(v, k).lists, k) == v.lists[k][1..];
      DropExpiredFrame(DropHead(v, k), k, now);
    }
  }

  lemma SameContents(v: Plain, v': Plain)
    requires ContentsInv(v) && v' == v.(lines := v'.lines)
    ensures ContentsInv(v')
  {
    assert ContentsOf(v') == ContentsOf(v);
  }

  lemma ServeContents(v: Plain, k: string, now: Time, deadline: Time)
    requires ContentsInv(v) && k !in Busy(v.leases)
    ensures ContentsInv(Serve(v, k, now, deadline).0)
  {
    DropExpiredContents(v, k, now);
    DropExpiredFrame(v, k, now);
    var v1 := DropExpired(v, k, now);
    if ListOf(v1.lists, k) != [] { DeliverContents(v1, k, deadline); }
  }

  lemma TakeContents(v: Plain, p: Priority, now: Time, deadline: Time)
    requires ContentsInv(v) && (Line(v, p) != [] ==> Line(v, p)[0] !in Busy(v.leases))
    ensures ContentsInv(Take(v, p, now, deadline).0)
  {
    if Line(v, p) != [] {
      SameContents(v, Pulled(v, p));
      ServeContents(Pulled(v, p), Line(v, p)[0], now, deadline);
    }
  }

  /** The delivery of `id` ended: its message, as `m'`, is now at `to`. */
  lemma EndContents(v: Plain, v': Plain, id: string, m': Message, to: Where)
    requires ContentsInv(v) && id in v.leases && to != InFlight
    requires var m := v.leases[id].msg; m'.id == m.id && m'.priority == m.priority && m'.payload == m.payload
    requires v'.leases == v.leases - {id} && v'.epoch == v.epoch && ListsOk(v'.lists)
    requires ReadyIn(v'.lists) == if to == Ready then ReadyIn(v.lists) + {m'} else ReadyIn(v.lists)
    requires v'.delayed == if to == Delayed then v.delayed + {m'} else v.delayed
    requires to == Delayed ==> m'.deliverAfter.Some?
    requires SameGauges(v'.st, Move(v.st, m', InFlight, to))
    ensures ContentsInv(v')
  {
    InFlightDrop(v.leases, v.epoch, id);
    assert v.leases[id].msg in InFlightIn(v.leases);
    hide GaugesOk, Contents.Distinct, ListsOk, Move;
    Shift(v.st, ContentsOf(v), v'.st, ContentsOf(v'), v.leases[id].msg, m', InFlight, to);
  }

  lemma ReleaseContents(v: Plain, k: string)
    requires ContentsInv(v)
    ensures ContentsInv(Release(v, k))
  {
    SameContents(v, Release(v, k));
  }

  lemma AckedParts(v: Plain, id: string)
    requires id in v.leases && |v.st.ready| == 3
    ensures var v' := Acked(v, id);
            && v'.leases == v.leases - {id} && v'.epoch == v.epoch && v'.lists == v.lists && v'.delayed == v.delayed
            && SameGauges(v'.st, Move(v.st, v.leases[id].msg, InFlight, Absent))
  {
  }

  lemma AckIs(v: Plain, id: string, epoch: nat)
    requires |v.st.ready| == 3
    ensures Ack(v, id, epoch).0 ==
            if id in v.leases && v.leases[id].epoch == epoch then Release(Acked(v, id), v.leases[id].msg.Key()) else v
  {
  }

  lemma AckContents(v: Plain, id: string, epoch: nat)
    requires ContentsInv(v)
    ensures ContentsInv(Ack(v, id, epoch).0)
  {
    hide *;
    PartsOk(v);
    AckIs(v, id, epoch);
    if id in v.leases && v.leases[id].epoch == epoch {
      AckedParts(v, id);
      EndContents(v, Acked(v, id), id, v.leases[id].msg, Absent);
      ReleaseContents(Acked(v, id), v.leases[id].msg.Key());
    }
  }

  /** What a failed delivery leaves of each part, for each of its outcomes. */
  lemma RetiredParts(v: Plain, id: string, now: Time, delay: Time, retry: Retry)
    requires id in v.leases && |v.st.ready| == 3
    ensures var (v', m) := (Retired(v, id, now, delay, retry), v.leases[id].msg);
            && v'.leases == v.leases - {id} && v'.epoch == v.epoch
            && if m.Expired(now) || Exhausted(m, retry) then
                 v'.lists == v.lists && v'.delayed == v.delayed && SameGauges(v'.st, Move(v.st, m, InFlight, Absent))
               else if delay > 0 then
                 && v'.lists == v.lists && v'.delayed == v.delayed + {Postponed(m, now, delay)}
                 && SameGauges(v'.st, Move(v.st, Postponed(m, now, delay), InFlight, Delayed))
               else
                 && v'.lists == SetList(v.lists, m.Key(), [m] + ListOf(v.lists, m.Key())) && v'.delayed == v.delayed
                 && SameGauges(v'.st, Move(v.st, m, InFlight, Ready))
  {
  }

  lemma PostponedKeeps(m: Message, now: Time, delay: Time)
    ensures var m' := Postponed(m, now, delay);
            m'.id == m.id && m'.priority == m.priority && m'.payload == m.payload && m'.deliverAfter.Some?
  {
  }

  lemma PartsOk(v: Plain)
    requires ContentsInv(v)
    ensures |v.st.ready| == 3 && ListsOk(v.lists) && LeasesOk(v.leases, v.epoch)
  {
  }

  lemma LentNotReady(v: Plain, id: string)
    requires ContentsInv(v) && id in v.leases
    ensures v.leases[id].msg !in ReadyIn(v.lists)
  {
    hide ListsOk, LeasesOk, GaugesOk;
    assert v.leases[id].msg in ContentsOf(v).inFlight;
  }

  lemma RetiredContents(v: Plain, id: string, now: Time, delay: Time, retry: Retry)
    requires ContentsInv(v) && id in v.leases
    ensures ContentsInv(Retired(v, id, now, delay, retry))
  {
    hide *;
    PartsOk(v);
    RetiredParts(v, id, now, delay, retry);
    var m := v.leases[id].msg;
    var v' := Retired(v, id, now, delay, retry);
    if m.Expired(now) || Exhausted(m, retry) {
      EndContents(v, v', id, m, Absent);
    } else if delay > 0 {
      PostponedKeeps(m, now, delay);
      EndContents(v, v', id, Postponed(m, now, delay), Delayed);
    } else {
      LentNotReady(v, id);
      ReadyAdd(v.lists, m, [m] + ListOf(v.lists, m.Key()));
      EndContents(v, v', id, m, Ready);
    }
  }

  lemma RetireContents(v: Plain, id: string, now: Time, delay: Time, retry: Retry)
    requires ContentsInv(v) && id in v.leases
    ensures ContentsInv(Retire(v, id, now, delay, retry).0)
  {
    RetiredContents(v, id, now, delay, retry);
    ReleaseContents(Retired(v, id, now, delay, retry), v.leases[id].msg.Key());
  }

  lemma ReleaseDelayedContents(v: Plain, m: Message)
    requires ContentsInv(v) && m in v.delayed
    ensures ContentsInv(ReleaseDelayed(v, m))
  {
    GaugesThree(v);
    ReleasedShape(v, m);
    hide *;
    AppendCounted(v, Released(v, m), m, Due(m), Delayed);
  }

  /** `v` after `m` came due, before it joins its group. */
  function Released(v: Plain, m: Message): Plain
    requires |v.st.ready| == 3
  {
    Moved(v.(delayed := v.delayed - {m}), Due(m), Delayed, Ready)
  }

  lemma ReleasedShape(v: Plain, m: Message)
    requires ContentsInv(v) && m in v.delayed && |v.st.ready| == 3
    ensures var (v1, c) := (Released(v, m), ContentsOf(v));
            && Shaped(v1) && Due(m) !in ReadyIn(v1.lists) && m in c.At(Delayed)
            && Due(m).id == m.id && Due(m).priority == m.priority && Due(m).payload == m.payload
            && ContentsOf(v1).(ready := c.ready + {Due(m)}) == Shifted(c, m, Due(m), Delayed, Ready)
            && ContentsOf(v1).ready == c.ready
            && SameGauges(v1.st, Move(v.st, Due(m), Delayed, Ready))
            && Append(v1, Due(m)) == ReleaseDelayed(v, m)
  {
    hide *;
    ReleasedParts(v, m);
    DueNotReady(v, m);
    DueKeeps(m);
    LessDelayed(v, Released(v, m), m);
    DelayedToReady(ContentsOf(v), m, Due(m));
  }

  lemma DueKeeps(m: Message)
    ensures Due(m).id == m.id && Due(m).priority == m.priority && Due(m).payload == m.payload
  {
  }

  lemma LessDelayed(v: Plain, v1: Plain, m: Message)
    requires ContentsInv(v) && m in v.delayed
    requires v1.lists == v.lists && v1.leases == v.leases && v1.epoch == v.epoch && v1.delayed == v.delayed - {m}
    ensures Shaped(v1) && m in ContentsOf(v).delayed
    ensures ContentsOf(v1) == ContentsOf(v).(delayed := ContentsOf(v).delayed - {m})
  {
    hide GaugesOk, LeasesOk, ListsOk, Contents.Distinct;
  }

  lemma DelayedToReady(c: Contents, m: Message, m': Message)
    requires m in c.delayed
    ensures m in c.At(Delayed)
    ensures c.(ready := c.ready + {m'}, delayed := c.delayed - {m}) == Shifted(c, m, m', Delayed, Ready)
  {
  }

  lemma ReleasedParts(v: Plain, m: Message)
    requires |v.st.ready| == 3
    ensures var v1 := Released(v, m);
            && v1.lists == v.lists && v1.leases == v.leases && v1.epoch == v.epoch && v1.delayed == v.delayed - {m}
            && SameGauges(v1.st, Move(v.st, Due(m), Delayed, Ready)) && Append(v1, Due(m)) == ReleaseDelayed(v, m)
  {
  }

  lemma DueNotReady(v: Plain, m: Message)
    requires ContentsInv(v) && m in v.delayed
    ensures Due(m) !in ReadyIn(v.lists) && Due(m) != m
  {
    hide ListsOk, LeasesOk, GaugesOk;
    var c := ContentsOf(v);
    assert Due(m).id == m.id && m in c.All();
    assert Due(m) in c.ready ==> Due(m) in c.All();
  }

  lemma ExpireContents(v: Plain, k: string, now: Time)
    requires ContentsInv(v)
    ensures ContentsInv(Expire(v, k, now))
  {
    DropExpiredContents(v, k, now);
    SameContents(DropExpired(v, k, now), Relist(DropExpired(v, k, now), k));
  }

  lemma DrainContents(v: Plain)
    requires ContentsInv(v)
    ensures ContentsInv(Drain(v).0)
  {
    var c := ContentsOf(Drain(v).0);
    assert c == Contents({}, {}, {});
    assert forall b :: InBucket({}, b) == {};
  }

  // ---- Absorb ----

  /** Messages that can arrive: no id here already, no id twice. */
  ghost predicate NewIds(ms: seq<Message>, ids: set<string>) {
    && (forall i | 0 <= i < |ms| :: ms[i].id !in ids)
    && (forall i, j | 0 <= i < j < |ms| :: ms[i].id != ms[j].id)
  }

  function SetOf(ms: seq<Message>): set<Message> {
    set m | m in ms
  }

  lemma ArriveIds(c: Contents, m: Message)
    ensures c.(ready := c.ready + {m}).Ids() == c.Ids() + {m.id}
  {
    assert c.(ready := c.ready + {m}).All() == c.All() + {m};
  }

  lemma ArriveShifts(st: Stats, c: Contents, m: Message)
    ensures c.(ready := c.ready + {m}) == Shifted(c, m, m, Absent, Ready)
    ensures SameGauges(st, st)
  {
  }

  lemma ArriveOne(st: Stats, c: Contents, m: Message)
    requires |st.ready| == 3 && Counted(st, c) && m.id !in c.Ids()
    ensures var c1 := c.(ready := c.ready + {m});
            Counted(Move(st, m, Absent, Ready), c1) && c1.Ids() == c.Ids() + {m.id}
  {
    hide *;
    var c1 := c.(ready := c.ready + {m});
    ArriveIds(c, m);
    ArriveShifts(Move(st, m, Absent, Ready), c, m);
    Shift(st, c, Move(st, m, Absent, Ready), c1, m, m, Absent, Ready);
  }

  lemma NewIdsTail(ms: seq<Message>, ids: set<string>)
    requires ms != [] && NewIds(ms, ids)
    ensures NewIds(ms[1..], ids + {ms[0].id})
  {
    forall i | 0 <= i < |ms[1..]|
      ensures ms[1..][i].id !in ids + {ms[0].id}
    {
      assert ms[1..][i] == ms[i + 1];
    }
  }

  lemma {:induction false} ArriveCounts(st: Stats, c: Contents, ms: seq<Message>, c': Contents)
    requires Counted(st, c) && NewIds(ms, c.Ids())
    requires c' == c.(ready := c.ready + SetOf(ms))
    ensures Counted(ArriveStats(st, ms), c')
    decreases |ms|
  {
    if ms == [] {
      assert c.ready + SetOf(ms) == c.ready;
    } else {
      ArriveOne(st, c, ms[0]);
      NewIdsTail(ms, c.Ids());
      SetOfTail(c.ready, ms);
      ArriveCounts(Move(st, ms[0], Absent, Ready), c.(ready := c.ready + {ms[0]}), ms[1..], c');
    }
  }

  lemma SetOfTail(a: set<Message>, ms: seq<Message>)
    requires ms != []
    ensures a + {ms[0]} + SetOf(ms[1..]) == a + SetOf(ms)
  {
    assert ms == [ms[0]] + ms[1..];
  }

  lemma NewToList(c: Contents, ms: seq<Message>)
    requires NewIds(ms, c.Ids())
    ensures forall m | m in ms :: m !in c.ready
    ensures NoDup(ms)
  {
    MembersHaveIds(c);
  }

  lemma ReadyPrepend(lists: map<string, seq<Message>>, k: string, ms: seq<Message>)
    requires ListsOk(lists) && ms != [] && NoDup(ms)
    requires forall m | m in ms :: m.Key() == k && m !in ReadyIn(lists)
    ensures ListsOk(SetList(lists, k, ms + ListOf(lists, k)))
    ensures ReadyIn(SetList(lists, k, ms + ListOf(lists, k))) == ReadyIn(lists) + SetOf(ms)
  {
    var rest := ListOf(lists, k);
    forall x | x in ms
      ensures x !in rest
    {
      ReadyInList(lists, x);
    }
    NoDupAppend(ms, rest);
    forall x | x in ms + rest
      ensures x.Key() == k
    {
    }
    forall x
      ensures x in ReadyIn(SetList(lists, k, ms + rest)) <==> x in ReadyIn(lists) + SetOf(ms)
    {
      ReadyOfWritten(lists, k, ms + rest, x);
      ReadyInList(lists, x);
    }
  }

  /** A group's share of a transfer joins what is ready, message by message. */
  lemma AbsorbGroupContents(v: Plain, k: string, ms: seq<Message>)
    requires ContentsInv(v) && ms != [] && NewIds(ms, ContentsOf(v).Ids())
    requires forall m | m in ms :: m.Key() == k
    ensures ContentsInv(AbsorbGroup(v, k, ms))
  {
    var c := ContentsOf(v);
    var v1 := v.(lists := SetList(v.lists, k, ms + ListOf(v.lists, k)), st := ArriveStats(v.st, ms));
    NewToList(c, ms);
    ReadyPrepend(v.lists, k, ms);
    ArriveCounts(v.st, c, ms, ContentsOf(v1));
    SameContents(v1, Relist(v1, k));
  }

  lemma AbsorbDelayedContents(v: Plain, m: Message)
    requires ContentsInv(v) && m.id !in ContentsOf(v).Ids() && m.deliverAfter.Some?
    ensures ContentsInv(AbsorbDelayed(v, m))
  {
    var v' := AbsorbDelayed(v, m);
    Shift(v.st, ContentsOf(v), v'.st, ContentsOf(v'), m, m, Absent, Delayed);
  }
}
