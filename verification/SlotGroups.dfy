/** What the group of a message means to a client, said of the group it names. */
module SlotGroups {
  import opened Messages
  import opened Stats
  import opened PlainSlot
  import opened PlainContents
  import opened PlainLines
  import opened SlotRefines
  import opened SlotRuns
  import opened SlotTheorems

  // ---- Named groups ----

  /** After any run no two deliveries in progress are of the same named group. */
  lemma OneLeasePerGroup(v: Plain, ops: seq<Op>, v': Plain, i: string, j: string)
    requires Inv(v) && Runs(v, ops, v') && i in v'.leases && j in v'.leases && i != j
    requires v'.leases[i].msg.groupId != ""
    ensures v'.leases[i].msg.groupId != v'.leases[j].msg.groupId
  {
    RunsInv(v, ops, v');
    assert v'.leases[i].msg.Key() != v'.leases[j].msg.Key();
  }

  lemma NewInOrder(v0: Plain, top: nat)
    requires v0 == PlainSlot.EMPTY
    ensures InOrder(v0, top)
  {
  }

  /**
   * From a new slot on, in runs without delays and absorbs: what is delivered of a named group has a lower number than
   * every message of that group that is ready, and nothing else of the group is in flight.
   */
  lemma GroupInOrder(v0: Plain, ops: seq<Op>, v: Plain, top: nat, p: Priority, now: Time, deadline: Time)
    requires v0 == PlainSlot.EMPTY && Runs(v0, ops, v) && OrdinaryRun(ops, top)
    ensures |v.st.ready| == 3
    ensures var (v', d) := Take(v, p, now, deadline);
            d.Some? && d.value.msg.groupId != "" ==>
              && (forall m | m in ReadyIn(v'.lists) && m.groupId == d.value.msg.groupId :: d.value.msg.seqNo < m.seqNo)
              && (forall id | id in v.leases :: v.leases[id].msg.groupId != d.value.msg.groupId)
  {
    hide *;
    EmptyPlainOk();
    NewInOrder(v0, top);
    RunsInv(v0, ops, v);
    RunInOrder(v0, ops, v, top);
    GaugesThree(v);
    DeliveryIsNext(v, p, now, deadline, LastTop(ops, top));
    var (v', d) := Take(v, p, now, deadline);
    NotInFlightYet(v, p, now, deadline);
    if d.Some? && d.value.msg.groupId != "" {
      KeyOfNamed(d.value.msg);
    }
  }

  /** Messages of one named group have one key. */
  lemma KeyOfNamed(m: Message)
    requires m.groupId != ""
    ensures forall n: Message | n.groupId == m.groupId :: n.Key() == m.Key()
  {
  }

  /** Other deliveries are as they were when one begins. */
  lemma NotInFlightYet(v: Plain, p: Priority, now: Time, deadline: Time)
    requires Inv(v)
    ensures var (v', d) := Take(v, p, now, deadline);
            d.Some? ==>
              forall id | id in v.leases :: id != d.value.msg.id && id in v'.leases && v'.leases[id] == v.leases[id]
  {
    if Line(v, p) != [] {
      var k := Line(v, p)[0];
      var v0 := Pulled(v, p);
      SameContents(v, v0);
      DropExpiredContents(v0, k, now);
      DropExpiredFrame(v0, k, now);
      hide *;
      DeliveredAnew(DropExpired(v0, k, now), k, deadline);
      TakeIs(v, p, now, deadline);
    }
  }

  lemma TakeIs(v: Plain, p: Priority, now: Time, deadline: Time)
    requires |v.st.ready| == 3
    ensures Line(v, p) == [] ==> Take(v, p, now, deadline) == (v, None)
    ensures Line(v, p) != [] ==>
              var (k, v1) := (Line(v, p)[0], DropExpired(Pulled(v, p), Line(v, p)[0], now));
              && v1.leases == v.leases
              && Take(v, p, now, deadline) ==
                 if ListOf(v1.lists, k) == [] then (v1, None)
                 else (Deliver(v1, k, deadline).0, Some(Deliver(v1, k, deadline).1))
  {
    if Line(v, p) != [] { DropExpiredFrame(Pulled(v, p), Line(v, p)[0], now); }
  }

  lemma DeliveredAnew(v: Plain, k: string, deadline: Time)
    requires ContentsInv(v)
    ensures |v.st.ready| == 3
    ensures ListOf(v.lists, k) != [] ==>
              var (v', d) := Deliver(v, k, deadline);
              forall id | id in v.leases :: id != d.msg.id && id in v'.leases && v'.leases[id] == v.leases[id]
  {
    if ListOf(v.lists, k) != [] {
      IdsOf(v);
      assert v.lists[k][0] in v.lists[k];
      assert v.lists[k][0] in ReadyIn(v.lists);
    }
  }

  // ---- Who waits for whom ----

  /** The group of `m` stands in a line: nothing in flight keeps it from being served. */
  ghost predicate Servable(v: Plain, m: Message) {
    exists p: Priority, k :: k in Line(v, p) && k in v.lists && m in v.lists[k]
  }

  lemma ServableByKey(v: Plain, m: Message)
    requires Inv(v) && m in ReadyIn(v.lists)
    ensures Servable(v, m) <==> m.Key() !in Busy(v.leases)
  {
    hide *;
    InItsList(v, m);
    if m.Key() !in Busy(v.leases) {
      StandsInLine(v, m.Key());
      IsServable(v, v.lists[m.Key()][0].priority, m.Key(), m);
    }
    if Servable(v, m) {
      var p, k := ServedFrom(v, m);
      StandingServes(v, p, k);
    }
  }

  lemma InItsList(v: Plain, m: Message)
    requires Inv(v) && m in ReadyIn(v.lists)
    ensures m.Key() in v.lists && m in v.lists[m.Key()] && v.lists[m.Key()] != []
    ensures forall k | k in v.lists && m in v.lists[k] :: m.Key() == k
  {
  }

  lemma IsServable(v: Plain, p: Priority, k: string, m: Message)
    requires k in Line(v, p) && k in v.lists && m in v.lists[k]
    ensures Servable(v, m)
  {
  }

  lemma ServedFrom(v: Plain, m: Message) returns (p: Priority, k: string)
    requires Servable(v, m)
    ensures k in Line(v, p) && k in v.lists && m in v.lists[k]
  {
    p, k :| k in Line(v, p) && k in v.lists && m in v.lists[k];
  }

  lemma StandsInLine(v: Plain, k: string)
    requires Inv(v) && k in v.lists && k !in Busy(v.leases)
    ensures v.lists[k] != [] && k in Line(v, v.lists[k][0].priority)
  {
    hide GaugesOk, LeasesOk;
    assert LineOk(v, v.lists[k][0].priority) && Serves(v, v.lists[k][0].priority, k);
  }

  lemma StandingServes(v: Plain, p: Priority, k: string)
    requires Inv(v) && k in Line(v, p)
    ensures k !in Busy(v.leases)
  {
    assert LineOk(v, p);
  }

  /**
   * After any run, a message that names no group is kept waiting by a delivery in progress exactly when the message in
   * flight names the other's id as its group.
   */
  lemma WaitsForNamesakeOnly(v: Plain, ops: seq<Op>, v': Plain, m: Message)
    requires Inv(v) && Runs(v, ops, v') && m in ReadyIn(v'.lists) && m.groupId == ""
    ensures Servable(v', m) <==> m.id == "" || forall id | id in v'.leases :: v'.leases[id].msg.groupId != m.id
  {
    hide *;
    RunsInv(v, ops, v');
    ServableByKey(v', m);
    ReadyNotLent(v', m);
    NamesakeBusy(v'.leases, v'.epoch, m);
  }

  lemma NamesakeBusy(leases: map<string, Delivery>, epoch: nat, m: Message)
    requires LeasesOk(leases, epoch) && m.groupId == "" && m.id !in leases
    ensures m.Key() in Busy(leases) <==> m.id != "" && exists id :: id in leases && leases[id].msg.groupId == m.id
  {
    if m.Key() in Busy(leases) {
      var id :| id in leases && leases[id].msg.Key() == m.id;
    }
    if m.id != "" && exists id :: id in leases && leases[id].msg.groupId == m.id {
      var id :| id in leases && leases[id].msg.groupId == m.id;
      assert leases[id].msg.Key() == m.id;
    }
  }

  lemma ReadyNotLent(v: Plain, m: Message)
    requires Inv(v) && m in ReadyIn(v.lists)
    ensures m.id !in v.leases && LeasesOk(v.leases, v.epoch)
  {
    hide LinesInv, GaugesOk, ListsOk;
    IdsOf(v);
  }

  /**
   * After any run, a message of a named group waits exactly while another of its group is in flight, or a message that names
   * no group and has the group's name for its id.
   */
  lemma WaitsForItsGroupOnly(v: Plain, ops: seq<Op>, v': Plain, m: Message)
    requires Inv(v) && Runs(v, ops, v') && m in ReadyIn(v'.lists) && m.groupId != ""
    ensures Servable(v', m) <==>
            forall id | id in v'.leases ::
              var n := v'.leases[id].msg; n.groupId != m.groupId && !(n.groupId == "" && n.id == m.groupId)
  {
    hide *;
    RunsInv(v, ops, v');
    ServableByKey(v', m);
    GroupBusy(v'.leases, m);
  }

  lemma GroupBusy(leases: map<string, Delivery>, m: Message)
    requires m.groupId != ""
    ensures m.Key() in Busy(leases) <==>
            exists id :: id in leases &&
              (leases[id].msg.groupId == m.groupId || (leases[id].msg.groupId == "" && leases[id].msg.id == m.groupId))
  {
    if m.Key() in Busy(leases) {
      var id :| id in leases && leases[id].msg.Key() == m.groupId;
    }
    if id :| id in leases &&
             (leases[id].msg.groupId == m.groupId || (leases[id].msg.groupId == "" && leases[id].msg.id == m.groupId)) {
      assert leases[id].msg.Key() == m.Key();
    }
  }

  /** A message that names no group, alone under its id, is first in its group and stands in the line of its own priority. */
  lemma AloneIsFirst(v: Plain, m: Message)
    requires Inv(v) && m in ReadyIn(v.lists) && m.groupId == ""
    requires forall n | n in ContentsOf(v).All() :: n.groupId == "" || n.groupId != m.id
    ensures exists k :: k in Line(v, m.priority) && k in v.lists && v.lists[k] == [m]
  {
    AloneInList(v, m);
    AloneNotBusy(v, m);
    StandsInLine(v, m.Key());
    assert m.Key() in Line(v, m.priority) && v.lists[m.Key()] == [m];
  }

  lemma AloneInList(v: Plain, m: Message)
    requires ContentsInv(v) && m in ReadyIn(v.lists) && m.groupId == ""
    requires forall n | n in ContentsOf(v).All() :: n.groupId == "" || n.groupId != m.id
    ensures m.Key() in v.lists && v.lists[m.Key()] == [m]
  {
    hide GaugesOk, LeasesOk;
    ReadyInList(v.lists, m);
    var l := v.lists[m.Key()];
    forall i | 0 <= i < |l|
      ensures l[i] == m
    {
      assert l[i] in l && l[i].Key() == m.Key();
      assert l[i] in ReadyIn(v.lists) && l[i] in ContentsOf(v).All() && m in ContentsOf(v).All();
    }
    assert l[0] == l[|l| - 1] == m;
  }

  lemma AloneNotBusy(v: Plain, m: Message)
    requires Inv(v) && m in ReadyIn(v.lists) && m.groupId == ""
    requires forall n | n in ContentsOf(v).All() :: n.groupId == "" || n.groupId != m.id
    ensures m.Key() !in Busy(v.leases)
  {
    ReadyNotLent(v, m);
    NamesakeBusy(v.leases, v.epoch, m);
    hide Inv, LeasesOk, Busy;
    forall id | id in v.leases
      ensures v.leases[id].msg in ContentsOf(v).All()
    {
      assert v.leases[id].msg in InFlightIn(v.leases);
    }
  }

  // ---- A message that names no group can wait all the same ----

  /** Enqueue `b`, which names `a`'s id as its group, deliver it, and enqueue `a`: `a` waits for `b`. */
  lemma NamesakeBlocks(v0: Plain, a: Message, b: Message, now: Time) returns (ops: seq<Op>, v: Plain)
    requires v0 == PlainSlot.EMPTY && a.groupId == "" && b.groupId == a.id && a.id != "" && b.id != a.id
    requires a.expiresAt.None? && b.expiresAt.None? && a.deliverAfter.None? && b.deliverAfter.None?
    ensures Runs(v0, ops, v) && a in ReadyIn(v.lists) && !Servable(v, a)
  {
    hide *;
    EmptyPlainOk();
    FirstEnters(v0, b, now);
    var v1 := Enqueue(v0, b, now);
    FirstLeaves(v1, b, now);
    var v2 := Take(v1, b.priority, now, now).0;
    SecondEnters(v2, a, b, now);
    var first, second, third := Submit(b, now), Dispatch(b.priority, now, now), Submit(a, now);
    RunsOne(v0, first);
    RunsThen(v0, [first], v1, second);
    RunsThen(v0, [first] + [second], v2, third);
    ops, v := [first] + [second] + [third], Enqueue(v2, a, now);
    WaitsForNamesakeOnly(v0, ops, v, a);
  }

  lemma FirstEnters(v0: Plain, b: Message, now: Time)
    requires v0 == PlainSlot.EMPTY && b.deliverAfter.None? && b.groupId != ""
    ensures |v0.st.ready| == 3 && Enabled(v0, Submit(b, now)) && Apply(v0, Submit(b, now)) == Enqueue(v0, b, now)
    ensures var v1 := Enqueue(v0, b, now);
            && |v1.st.ready| == 3 && v1.lists == map[b.groupId := [b]] && v1.leases == map[] && v1.delayed == {}
            && Line(v1, b.priority) == [b.groupId]
  {
    assert ContentsOf(v0).All() == {};
    assert [] + [b] == [b] && [] + [b.groupId] == [b.groupId];
  }

  lemma FirstLeaves(v1: Plain, b: Message, now: Time)
    requires |v1.st.ready| == 3 && v1.lists == map[b.groupId := [b]] && v1.leases == map[] && v1.delayed == {}
    requires Line(v1, b.priority) == [b.groupId] && b.expiresAt.None?
    ensures var op := Dispatch(b.priority, now, now); Enabled(v1, op) && Apply(v1, op) == Take(v1, b.priority, now, now).0
    ensures var v2 := Take(v1, b.priority, now, now).0;
            && |v2.st.ready| == 3 && v2.lists == map[] && v2.delayed == {}
            && v2.leases.Keys == {b.id} && v2.leases[b.id].msg == Attempted(b)
  {
    assert DropExpired(Pulled(v1, b.priority), b.groupId, now) == Pulled(v1, b.priority);
    assert [b][1..] == [];
  }

  lemma SecondEnters(v2: Plain, a: Message, b: Message, now: Time)
    requires |v2.st.ready| == 3 && v2.lists == map[] && v2.delayed == {}
    requires v2.leases.Keys == {b.id} && v2.leases[b.id].msg == Attempted(b)
    requires a.groupId == "" && b.groupId == a.id && a.id != "" && b.id != a.id && a.deliverAfter.None?
    ensures Enabled(v2, Submit(a, now)) && Apply(v2, Submit(a, now)) == Enqueue(v2, a, now)
    ensures var v := Enqueue(v2, a, now);
            && a in ReadyIn(v.lists) && b.id in v.leases && v.leases[b.id].msg.groupId == a.id
  {
    assert ReadyIn(v2.lists) == {};
    assert forall m | m in ContentsOf(v2).All() :: m == Attempted(b);
    var v := Enqueue(v2, a, now);
    assert a.id in v.lists && a in v.lists[a.id];
  }
}
