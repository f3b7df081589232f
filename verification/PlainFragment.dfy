/**
 * Slots that hold ungrouped messages only, with no time to live and no delay, and see nothing but enqueues, deliveries and
 * acks. There a band is a queue by sequence number and the cached hint is exact.
 */
module PlainFragment {
  import opened Messages
  import opened GroupIndex
  import opened Stats
  import opened PlainSlot
  import opened SlotState
  import opened SlotView
  import opened SlotRefines
  import opened Dispatch

  /** A message the fragment is about: alone in its group, never expiring, never waiting. */
  predicate Ordinary(m: Message) {
    m.groupId == "" && m.expiresAt.None? && m.deliverAfter.None?
  }

  ghost predicate LoneLists(lists: map<string, seq<Message>>) {
    forall k | k in lists :: |lists[k]| == 1 && Ordinary(lists[k][0]) && lists[k][0].id == k
  }

  function HeadNo(lists: map<string, seq<Message>>, k: string): nat {
    if ListOf(lists, k) == [] then 0 else lists[k][0].seqNo
  }

  /** A line rises by the sequence numbers of its groups' heads. */
  ghost predicate LineRises(l: seq<string>, lists: map<string, seq<Message>>) {
    forall i, j :: 0 <= i < j < |l| ==> HeadNo(lists, l[i]) < HeadNo(lists, l[j])
  }

  lemma RisesTail(l: seq<string>, lists: map<string, seq<Message>>)
    requires LineRises(l, lists) && l != []
    ensures LineRises(l[1..], lists)
  {
  }

  lemma RisesSame(l: seq<string>, lists: map<string, seq<Message>>, lists': map<string, seq<Message>>)
    requires LineRises(l, lists) && forall k | k in l :: HeadNo(lists', k) == HeadNo(lists, k)
    ensures LineRises(l, lists')
  {
    forall i, j | 0 <= i < j < |l|
      ensures HeadNo(lists', l[i]) < HeadNo(lists', l[j])
    {
      assert l[i] in l && l[j] in l;
    }
  }

  lemma RisesAppend(l: seq<string>, lists: map<string, seq<Message>>, k: string)
    requires LineRises(l, lists) && forall j | j in l :: HeadNo(lists, j) < HeadNo(lists, k)
    ensures LineRises(l + [k], lists)
  {
    forall i, j | 0 <= i < j < |l + [k]|
      ensures HeadNo(lists, (l + [k])[i]) < HeadNo(lists, (l + [k])[j])
    {
      assert l[i] in l;
    }
  }

  ghost predicate LinesRise(v: Plain) {
    forall p: Priority :: LineRises(Line(v, p), v.lists)
  }

  ghost predicate Simple(v: Plain, top: nat) {
    && LoneLists(v.lists)
    && (forall k | k in v.lists :: HeadNo(v.lists, k) <= top)
    && (forall id | id in v.leases :: Ordinary(v.leases[id].msg))
    && v.delayed == {}
    && LinesRise(v)
  }

  lemma HeadIsHeld(v: Plain, k: string)
    requires k in v.lists && v.lists[k] != []
    ensures v.lists[k][0] in ContentsOf(v).ready && v.lists[k][0] in ContentsOf(v).All()
  {
    assert v.lists[k][0] in v.lists[k];
  }

  lemma LentIsHeld(v: Plain, id: string)
    requires id in v.leases
    ensures v.leases[id].msg in ContentsOf(v).inFlight && v.leases[id].msg in ContentsOf(v).All()
  {
  }

  lemma NotHere(v: Plain, m: Message)
    requires m.groupId == "" && m.id !in ContentsOf(v).Ids()
    requires LoneLists(v.lists) && forall id | id in v.leases :: Ordinary(v.leases[id].msg)
    ensures m.id !in v.lists && m.id !in Busy(v.leases)
  {
    hide ContentsOf;
    MembersHaveIds(ContentsOf(v));
    if m.id in v.lists {
      HeadIsHeld(v, m.id);
    }
    if m.id in Busy(v.leases) {
      var id :| id in v.leases && v.leases[id].msg.Key() == m.id;
      LentIsHeld(v, id);
    }
  }

  /** Enqueueing such a message starts a group and puts it last in its band. */
  lemma EnqueueAlone(v: Plain, m: Message, now: Time)
    requires Ordinary(m) && m.id !in v.lists && m.id !in Busy(v.leases) && |v.st.ready| == 3
    ensures var v' := Enqueue(v, m, now);
            && v'.lists == v.lists[m.id := [m]] && v'.leases == v.leases && v'.delayed == v.delayed
            && forall p: Priority :: Line(v', p) == if p == m.priority then Line(v, p) + [m.id] else Line(v, p)
  {
    assert [] + [m] == [m];
    assert v.lists[m.id := [m]][m.id][0] == m;
  }

  lemma LineInLists(v: Plain, p: Priority)
    requires LinesInv(v)
    ensures forall k | k in Line(v, p) :: k in v.lists && v.lists[k] != [] && v.lists[k][0].priority == p && k !in Busy(v.leases)
  {
    assert LineOk(v, p);
    assert forall k | k in v.lines[p] :: Serves(v, p, k);
  }

  lemma SimpleAppend(v: Plain, m: Message, now: Time, top: nat)
    requires Inv(v) && Simple(v, top) && Ordinary(m) && top < m.seqNo && m.id !in ContentsOf(v).Ids()
    ensures Simple(Enqueue(v, m, now), m.seqNo)
    ensures Enqueue(v, m, now).lists == v.lists[m.id := [m]]
  {
    hide Enqueue, ContentsOf, Inv, LinesInv, LineRises, Line;
    InvParts(v);
    NotHere(v, m);
    EnqueueAlone(v, m, now);
    var v' := Enqueue(v, m, now);
    forall p: Priority
      ensures LineRises(Line(v', p), v'.lists)
    {
      LineInLists(v, p);
      RisesSame(Line(v, p), v.lists, v'.lists);
      RisesAppend(Line(v, p), v'.lists, m.id);
    }
  }

  lemma InvParts(v: Plain)
    requires Inv(v)
    ensures LinesInv(v) && |v.st.ready| == 3
  {
  }

  /** A line's first group goes out whole, and leaves the line. */
  lemma TakeAlone(v: Plain, p: Priority, now: Time, deadline: Time)
    requires |v.st.ready| == 3
    requires Line(v, p) != [] ==> var k := Line(v, p)[0]; k in v.lists && |v.lists[k]| == 1 && Ordinary(v.lists[k][0])
    ensures var (v', d) := Take(v, p, now, deadline);
            if Line(v, p) == [] then (v', d) == (v, None)
            else
              var k := Line(v, p)[0];
              var m := v.lists[k][0];
              && d.Some? && d.value.msg == Attempted(m) && v'.lists == v.lists - {k}
              && v'.leases == v.leases[m.id := d.value] && v'.delayed == v.delayed
              && forall q: Priority :: Line(v', q) == if q == p then Line(v, p)[1..] else Line(v, q)
  {
    if Line(v, p) != [] {
      var k := Line(v, p)[0];
      assert v.lists[k][1..] == [];
      assert DropExpired(Pulled(v, p), k, now) == Pulled(v, p);
    }
  }

  lemma SimpleTake(v: Plain, p: Priority, now: Time, deadline: Time, top: nat)
    requires Inv(v) && Simple(v, top)
    ensures Simple(Take(v, p, now, deadline).0, top)
    ensures var (v', d) := Take(v, p, now, deadline);
            if Line(v, p) == [] then (v', d) == (v, None)
            else
              var k := Line(v, p)[0];
              && k in v.lists && |v.lists[k]| == 1 && d.Some? && d.value.msg == Attempted(v.lists[k][0])
              && v'.lists == v.lists - {k}
  {
    hide Take, Inv, LinesInv, LineRises, Line;
    InvParts(v);
    LineInLists(v, p);
    TakeAlone(v, p, now, deadline);
    var v' := Take(v, p, now, deadline).0;
    if Line(v, p) != [] {
      forall q: Priority
        ensures LineRises(Line(v', q), v'.lists)
      {
        TakenRises(v, v', p, q);
      }
    }
  }

  lemma TakenRises(v: Plain, v': Plain, p: Priority, q: Priority)
    requires LinesInv(v) && LinesRise(v) && Line(v, p) != [] && v'.lists == v.lists - {Line(v, p)[0]}
    requires Line(v', q) == if q == p then Line(v, p)[1..] else Line(v, q)
    ensures LineRises(Line(v', q), v'.lists)
  {
    hide LineRises;
    var k := Line(v, p)[0];
    LineInLists(v, p);
    LineInLists(v, q);
    assert LineRises(Line(v, q), v.lists);
    assert k !in Line(v', q) by { assert LineOk(v, p); }
    if q == p { RisesTail(Line(v, p), v.lists); }
    assert forall j | j in Line(v', q) :: j in Line(v, q);
    RisesSame(Line(v', q), v.lists, v'.lists);
  }

  /** A message in flight is alone in its group, so nothing waits behind it. */
  lemma LoneBusy(v: Plain, id: string)
    requires ContentsInv(v) && LoneLists(v.lists) && id in v.leases && Ordinary(v.leases[id].msg)
    ensures v.leases[id].msg.Key() !in v.lists
  {
    hide ContentsOf, GaugesOk;
    var m := v.leases[id].msg;
    LentIsHeld(v, id);
    if m.Key() in v.lists {
      HeadIsHeld(v, m.Key());
    }
  }

  lemma SimpleAck(v: Plain, id: string, epoch: nat, top: nat)
    requires Inv(v) && Simple(v, top)
    ensures Simple(Ack(v, id, epoch).0, top) && Ack(v, id, epoch).0.lists == v.lists
  {
    hide LineRises, ContentsOf, GaugesOk, LinesInv;
    InvParts(v);
    if id in v.leases && v.leases[id].epoch == epoch {
      LoneBusy(v, id);
      var v' := Ack(v, id, epoch).0;
      assert v'.lines == v.lines && v'.lists == v.lists;
      assert forall p: Priority :: Line(v', p) == Line(v, p);
    }
  }

  // ---- Bands without stale entries ----

  ghost predicate AllCurrent(ix: Index) {
    forall p: Priority :: Crisp(Band(ix, p), ix.recs)
  }

  ghost predicate Crisp(es: seq<Entry>, recs: map<Group, Record>) {
    forall i :: 0 <= i < |es| ==> Current(es[i], recs)
  }

  lemma {:induction false} CrispLive(es: seq<Entry>, recs: map<Group, Record>)
    requires Crisp(es, recs)
    ensures |Live(es, recs)| == |es| && forall i | 0 <= i < |es| :: Live(es, recs)[i] == es[i].g
  {
    if es != [] {
      assert Current(es[0], recs);
      assert forall i | 0 <= i < |es| - 1 :: es[1..][i] == es[i + 1];
      CrispLive(es[1..], recs);
    }
  }

  /** The hint is the best line, and the head's number is the number of the first message of that line. */
  ghost predicate HintExact(s: State)
    requires TableOk(s.ix)
  {
    && s.hint <= MAX_PRIORITY + 1
    && (forall q: Priority | s.hint <= q :: Line(View(s), q) == [])
    && (s.hint > 0 ==>
          var l := Line(View(s), s.hint - 1);
          l != [] && ListOf(View(s).lists, l[0]) != [] && s.headSeq == ListOf(View(s).lists, l[0])[0].seqNo)
  }

  lemma HintIsExact(s: State)
    requires TableOk(s.ix) && SlotInv(s) && AllCurrent(s.ix)
    ensures HintExact(s)
  {
    HintBounds(s);
    forall q: Priority | s.hint <= q
      ensures Line(View(s), q) == []
    {
      assert Offers(View(s), q) <==> Line(View(s), q) != [];
    }
    if s.hint > 0 {
      HeadIsFirst(s, s.hint - 1);
    }
  }

  lemma HeadIsFirst(s: State, p: Priority)
    requires TableOk(s.ix) && SlotInv(s) && AllCurrent(s.ix) && p in s.ix.bands && s.hint == p + 1
    ensures var l := Line(View(s), p);
            l != [] && ListOf(View(s).lists, l[0]) != [] && s.headSeq == ListOf(View(s).lists, l[0])[0].seqNo
  {
    HeadSeqIs(s, p);
    FrontIsCurrent(s, p);
    hide AllCurrent, View, Line, HeadSeqOf, IndexInv, Band;
    BandIsServable(s.ix, p);
    HeadFound(Band(s.ix, p), s.ix.recs, HEAD_SCAN);
    HeadIsLive(Band(s.ix, p), s.ix.recs, HEAD_SCAN);
    FrontOfBand(s, p);
  }

  lemma HeadSeqIs(s: State, p: Priority)
    requires HintOk(s) && s.hint == p + 1
    ensures var m := HeadMessage(Band(s.ix, p), s.ix.recs, HEAD_SCAN); m.Some? ==> s.headSeq == m.value.seqNo
  {
  }

  lemma FrontIsCurrent(s: State, p: Priority)
    requires SlotInv(s) && AllCurrent(s.ix) && p in s.ix.bands
    ensures StaleFront(Band(s.ix, p), s.ix.recs) == 0 && LiveLine(s.ix, p) != [] && 0 < HEAD_SCAN
    ensures LiveLine(s.ix, p) == Live(Band(s.ix, p), s.ix.recs) && IndexInv(s.ix, {})
  {
    hide GroupOk, LineRises, LinkOk, TimersOk, ContentsInv, LinesInv;
    CrispLive(Band(s.ix, p), s.ix.recs);
    assert Current(Band(s.ix, p)[0], s.ix.recs);
  }

  /** A new group's first entry makes no other entry stale. */
  lemma AdmitCurrent(ix: Index, m: Message, spare: Group)
    requires IndexInv(ix, {}) && AllCurrent(ix) && m.Key() !in ix.table && spare !in ix.recs && spare.id == m.Key()
    ensures AllCurrent(Admit(ix, m, spare))
  {
    var ix' := Admit(ix, m, spare);
    AdmitNewSteps(ix, m, spare);
    forall p: Priority
      ensures Crisp(Band(ix', p), ix'.recs)
    {
      assert Crisp(Band(ix, p), ix.recs);
      forall i | 0 <= i < |Band(ix, p)|
        ensures Current(Band(ix, p)[i], ix'.recs)
      {
        assert Current(Band(ix, p)[i], ix.recs);
      }
    }
  }

  lemma CrispSuffix(es: seq<Entry>, rest: seq<Entry>, recs: map<Group, Record>, recs': map<Group, Record>)
    requires Crisp(es, recs) && |rest| <= |es| && rest == es[|es| - |rest|..]
    requires forall g | g in recs :: g in recs' && recs'[g].version == recs[g].version
    ensures Crisp(rest, recs')
  {
    forall i | 0 <= i < |rest|
      ensures Current(rest[i], recs')
    {
      assert Current(es[|es| - |rest| + i], recs);
    }
  }

  lemma TakeCurrent(ix: Index, p: Priority)
    requires IndexInv(ix, {}) && AllCurrent(ix)
    ensures AllCurrent(TakeGroup(ix, p).0)
  {
    hide TakeGroup, IndexInv, PopCurrent, Crisp;
    var (ix', got) := TakeGroup(ix, p);
    BandIsServable(ix, p);
    PopCurrentSpec(Band(ix, p), ix.recs);
    forall q: Priority
      ensures Crisp(Band(ix', q), ix'.recs)
    {
      TakeGroupBands(ix, p, q);
      assert Crisp(Band(ix, q), ix.recs);
      CrispSuffix(Band(ix, q), Band(ix', q), ix.recs, ix'.recs);
    }
  }

  /** Changing a record but not its version changes no entry. */
  lemma SameVersions(ix: Index, ix': Index)
    requires AllCurrent(ix) && ix'.bands == ix.bands
    requires forall g | g in ix.recs :: g in ix'.recs && ix'.recs[g].version == ix.recs[g].version
    ensures AllCurrent(ix')
  {
    forall p: Priority
      ensures Crisp(Band(ix', p), ix'.recs)
    {
      assert Crisp(Band(ix, p), ix.recs);
      assert forall i | 0 <= i < |Band(ix, p)| :: Current(Band(ix, p)[i], ix.recs);
    }
  }

  lemma TakeStaysCurrent(s: State, p: Priority, now: Time, deadline: Time)
    requires Sound(s) && AllCurrent(s.ix) && CanTake(s, p)
    ensures AllCurrent(TakeS(s, p, now, deadline).0.ix)
  {
    hide TakeGroup, AllCurrent;
    TakeCurrent(s.ix, p);
    var (ix1, got) := TakeGroup(s.ix, p);
    if got.Some? {
      SameVersions(ix1, TakeS(s, p, now, deadline).0.ix);
    }
  }

  /** With nothing waiting behind the message, its ack lists nothing. */
  lemma AckStaysCurrent(s: State, id: string, epoch: nat)
    requires AllCurrent(s.ix) && LeasesInIndex(s) && |s.st.ready| == 3
    requires id in s.leases ==> s.ix.recs[s.leases[id].g].msgs == []
    ensures AllCurrent(AckS(s, id, epoch).0.ix)
  {
    SameVersions(s.ix, AckS(s, id, epoch).0.ix);
  }

  /** What the dispatcher needs of an enqueue: if no entry was stale and the group is new, none is stale now. */
  ghost predicate KeptCurrent(s: State, k: string, s': State) {
    AllCurrent(s.ix) && k !in s.ix.table ==> AllCurrent(s'.ix)
  }

  lemma EnqueueCurrent(s: State, m: Message, spare: Group)
    requires CoreInv(s) && CanAdmit(s.ix, m.Key(), spare)
    ensures TableOk(s.ix) && |s.st.ready| == 3
    ensures KeptCurrent(s, m.Key(), Refresh(EnqueueReadyS(s, m, spare)))
  {
    if AllCurrent(s.ix) && m.Key() !in s.ix.table {
      AdmitCurrent(s.ix, m, spare);
    }
  }

  lemma WaitingCurrent(s: State, m: Message)
    requires |s.st.ready| == 3
    ensures KeptCurrent(s, m.Key(), EnqueueWaitingS(s, m))
  {
  }

  /** Nothing waits behind message `id`. */
  ghost predicate NothingBehind(s: State, id: string) {
    LeasesInIndex(s) && (id in s.leases ==> s.ix.recs[s.leases[id].g].msgs == [])
  }

  ghost predicate AckedCurrent(s: State, id: string, s': State) {
    AllCurrent(s.ix) && NothingBehind(s, id) ==> AllCurrent(s'.ix)
  }

  lemma AckCurrent(s: State, id: string, epoch: nat)
    requires LeasesInIndex(s) && |s.st.ready| == 3
    ensures AckedCurrent(s, id, AckS(s, id, epoch).0) && AckedCurrent(s, id, Refresh(AckS(s, id, epoch).0))
    ensures AckedCurrent(s, id, s)
  {
    if AllCurrent(s.ix) && NothingBehind(s, id) {
      AckStaysCurrent(s, id, epoch);
    }
  }
}
