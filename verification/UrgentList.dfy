/** The list a queue is meant to be: the most urgent message first, the oldest first among equals. */
module UrgentList {
  import opened Messages
  import opened GroupIndex
  import opened Stats
  import opened PlainSlot
  import opened SlotState
  import opened SlotView
  import opened PlainFragment
  import opened SlotRefines

  predicate Before(a: Message, b: Message) {
    a.priority > b.priority || (a.priority == b.priority && a.seqNo < b.seqNo)
  }

  ghost predicate Sorted(l: seq<Message>) {
    forall i, j :: 0 <= i < j < |l| ==> Before(l[i], l[j])
  }

  /** `l` with `m` where it belongs. */
  function Insert(l: seq<Message>, m: Message): (r: seq<Message>)
    ensures forall x :: x in r <==> x in l || x == m
  {
    if l == [] || Before(m, l[0]) then [m] + l
    else
      assert l == [l[0]] + l[1..];
      [l[0]] + Insert(l[1..], m)
  }

  lemma {:induction false} InsertSorted(l: seq<Message>, m: Message)
    requires Sorted(l) && forall x | x in l :: x.seqNo != m.seqNo
    ensures Sorted(Insert(l, m))
  {
    if l != [] && !Before(m, l[0]) {
      InsertSorted(l[1..], m);
      assert Before(l[0], m);
      var r := Insert(l[1..], m);
      assert forall x | x in l[1..] :: Before(l[0], x);
    } else {
      forall i | 0 <= i < |l|
        ensures Before(m, l[i])
      {
        assert i > 0 ==> Before(l[0], l[i]);
      }
    }
  }

  // ---- A queue's slots and the list ----

  /** Slot number `i` of the fragment. */
  ghost predicate Plainly(s: State, top: nat) {
    SlotInv(s) && AllCurrent(s.ix) && Simple(View(s), top)
  }

  ghost function ReadyHere(s: State): set<Message> {
    if TableOk(s.ix) then ReadyIn(View(s).lists) else {}
  }

  ghost predicate HeldBy(ss: seq<State>, m: Message) {
    exists i :: 0 <= i < |ss| && m in ReadyHere(ss[i])
  }

  /** The slots together hold exactly the messages of the sorted list `l`, each in one slot. */
  ghost predicate IsList(ss: seq<State>, l: seq<Message>, top: nat) {
    && (forall i :: 0 <= i < |ss| ==> Plainly(ss[i], top))
    && (forall i, j :: 0 <= i < j < |ss| ==> ReadyHere(ss[i]) !! ReadyHere(ss[j]))
    && Sorted(l) && (forall m :: m in l <==> HeldBy(ss, m))
  }

  /** The scan's choice among the slots that offer anything. */
  ghost predicate IsBest(ss: seq<State>, b: nat) {
    && b < |ss| && ss[b].hint > 0
    && forall j :: 0 <= j < |ss| && ss[j].hint > 0 ==>
         ss[j].hint < ss[b].hint || (ss[j].hint == ss[b].hint && ss[b].headSeq <= ss[j].headSeq)
  }

  /** A ready message stands in the line of its priority. */
  lemma ReadyInLine(s: State, top: nat, m: Message)
    requires Plainly(s, top) && m in ReadyHere(s)
    ensures var v := View(s);
            m.id in v.lists && v.lists[m.id] == [m] && m.id in Line(v, m.priority) && m.seqNo <= top && Ordinary(m)
  {
    hide AllCurrent, Sound, HintOk, LineRises, GaugesOk;
    var v := View(s);
    var k :| k in v.lists && m in v.lists[k];
    assert v.lists[k][0] == m && m.id == k;
    assert HeadNo(v.lists, k) <= top;
    if k in Busy(v.leases) {
      var id :| id in v.leases && v.leases[id].msg.Key() == k;
      LoneBusy(v, id);
    }
    assert LineOk(v, m.priority);
    assert Serves(v, m.priority, k);
  }

  lemma LineHeadIsLeast(l: seq<string>, lists: map<string, seq<Message>>, k: string)
    requires LineRises(l, lists) && k in l
    ensures HeadNo(lists, l[0]) <= HeadNo(lists, k)
  {
    var i :| 0 <= i < |l| && l[i] == k;
  }

  /** A ready message shows in its slot's hint. */
  lemma ReadyShows(s: State, top: nat, m: Message)
    requires Plainly(s, top) && m in ReadyHere(s)
    ensures m.priority < s.hint
    ensures s.hint == m.priority + 1 ==> s.headSeq <= m.seqNo
  {
    hide *;
    PlainlyParts(s, top);
    ReadyInLine(s, top, m);
    HintIsExact(s);
    LineShows(s, m);
  }

  lemma PlainlyParts(s: State, top: nat)
    requires Plainly(s, top)
    ensures SlotInv(s) && AllCurrent(s.ix) && TableOk(s.ix) && LinesRise(View(s))
  {
    hide AllCurrent, LineRises, ContentsInv, LinesInv;
    SlotIsCore(s);
  }

  lemma LineShows(s: State, m: Message)
    requires TableOk(s.ix) && HintExact(s) && LinesRise(View(s))
    requires var v := View(s); m.id in v.lists && v.lists[m.id] == [m] && m.id in Line(v, m.priority)
    ensures m.priority < s.hint
    ensures s.hint == m.priority + 1 ==> s.headSeq <= m.seqNo
  {
    hide View, Line;
    var v := View(s);
    LineHeadIsLeast(Line(v, m.priority), v.lists, m.id);
  }

  /** The message the hint stands for is ready, at the hint's priority and number. */
  lemma ShownIsReady(s: State, top: nat) returns (m: Message)
    requires Plainly(s, top) && 0 < s.hint
    ensures s.hint - 1 <= MAX_PRIORITY && Line(View(s), s.hint - 1) != []
    ensures var k := Line(View(s), s.hint - 1)[0]; k in View(s).lists && View(s).lists[k] == [m]
    ensures m in ReadyHere(s) && m.priority == s.hint - 1 && m.seqNo == s.headSeq && m.id == Line(View(s), s.hint - 1)[0]
  {
    hide AllCurrent, IndexInv, LinkOk, TimersOk, HintOk, LineRises, ContentsInv;
    PlainlyParts(s, top);
    HintIsExact(s);
    var v := View(s);
    var k := Line(v, s.hint - 1)[0];
    LineInLists(v, s.hint - 1);
    m := v.lists[k][0];
    assert m in v.lists[k] && v.lists[k] == [m];
  }

  /** The scan finds the first message of the list. */
  lemma BestIsFirst(ss: seq<State>, l: seq<Message>, top: nat, b: nat) returns (m: Message)
    requires IsList(ss, l, top) && IsBest(ss, b)
    ensures ss[b].hint - 1 <= MAX_PRIORITY && Line(View(ss[b]), ss[b].hint - 1) != []
    ensures l != [] && l[0] == m && m in ReadyHere(ss[b])
    ensures var k := Line(View(ss[b]), ss[b].hint - 1)[0]; k in View(ss[b]).lists && View(ss[b]).lists[k] == [m] && k == m.id
  {
    hide Plainly, View, Line, ReadyHere;
    m := ShownIsReady(ss[b], top);
    assert HeldBy(ss, m);
    var f := l[0];
    assert HeldBy(ss, f);
    var i :| 0 <= i < |ss| && f in ReadyHere(ss[i]);
    ReadyShows(ss[i], top, f);
  }

  /** Nothing offered anywhere means the list is empty. */
  lemma NothingShownIsEmpty(ss: seq<State>, l: seq<Message>, top: nat)
    requires IsList(ss, l, top) && forall i :: 0 <= i < |ss| ==> ss[i].hint == 0
    ensures l == []
  {
    hide Plainly, ReadyHere;
    if l != [] {
      assert l[0] in l && HeldBy(ss, l[0]);
      var i :| 0 <= i < |ss| && l[0] in ReadyHere(ss[i]);
      ReadyShows(ss[i], top, l[0]);
    }
  }

  // ---- Steps ----

  lemma ListGrows(ss: seq<State>, l: seq<Message>, top: nat, ss': seq<State>, i: nat, m: Message)
    requires IsList(ss, l, top) && i < |ss| == |ss'| && top < m.seqNo
    requires forall j :: 0 <= j < |ss| && j != i ==> ss'[j] == ss[j]
    requires Plainly(ss'[i], m.seqNo) && ReadyHere(ss'[i]) == ReadyHere(ss[i]) + {m}
    ensures IsList(ss', Insert(l, m), m.seqNo)
  {
    hide Plainly, ReadyHere, Sorted;
    forall x | x in l
      ensures x.seqNo <= top
    {
      assert HeldBy(ss, x);
      var j :| 0 <= j < |ss| && x in ReadyHere(ss[j]);
      ReadyInLine(ss[j], top, x);
    }
    InsertSorted(l, m);
    forall j | 0 <= j < |ss| && j != i
      ensures Plainly(ss'[j], m.seqNo) && m !in ReadyHere(ss[j])
    {
      HigherTop(ss[j], top, m.seqNo);
      assert m in ReadyHere(ss[j]) ==> HeldBy(ss, m);
    }
    forall x
      ensures x in Insert(l, m) <==> HeldBy(ss', x)
    {
      if HeldBy(ss', x) {
        var j :| 0 <= j < |ss'| && x in ReadyHere(ss'[j]);
        assert x in ReadyHere(ss[j]) || x == m;
        assert x != m ==> HeldBy(ss, x);
      }
      if HeldBy(ss, x) {
        var j :| 0 <= j < |ss| && x in ReadyHere(ss[j]);
        assert x in ReadyHere(ss'[j]);
      }
    }
  }

  lemma HigherTop(s: State, top: nat, top': nat)
    requires Plainly(s, top) && top <= top'
    ensures Plainly(s, top')
  {
  }

  lemma ListShrinks(ss: seq<State>, l: seq<Message>, top: nat, ss': seq<State>, i: nat)
    requires IsList(ss, l, top) && i < |ss| == |ss'| && l != []
    requires forall j :: 0 <= j < |ss| && j != i ==> ss'[j] == ss[j]
    requires Plainly(ss'[i], top) && l[0] in ReadyHere(ss[i]) && ReadyHere(ss'[i]) == ReadyHere(ss[i]) - {l[0]}
    ensures IsList(ss', l[1..], top)
  {
    hide Plainly, ReadyHere;
    forall x
      ensures x in l[1..] <==> HeldBy(ss', x)
    {
      if x in l[1..] {
        var j :| 1 <= j < |l| && l[j] == x;
        assert Before(l[0], l[j]);
        assert HeldBy(ss, x);
        var n :| 0 <= n < |ss| && x in ReadyHere(ss[n]);
        assert x in ReadyHere(ss'[n]);
      }
      if HeldBy(ss', x) {
        var n :| 0 <= n < |ss'| && x in ReadyHere(ss'[n]);
        assert x in ReadyHere(ss[n]) && HeldBy(ss, x) && x != l[0];
      }
    }
  }

  lemma ListStays(ss: seq<State>, l: seq<Message>, top: nat, ss': seq<State>, i: nat)
    requires IsList(ss, l, top) && i < |ss| == |ss'|
    requires forall j :: 0 <= j < |ss| && j != i ==> ss'[j] == ss[j]
    requires Plainly(ss'[i], top) && ReadyHere(ss'[i]) == ReadyHere(ss[i])
    ensures IsList(ss', l, top)
  {
    hide Plainly, ReadyHere;
    forall x
      ensures HeldBy(ss, x) <==> HeldBy(ss', x)
    {
      if HeldBy(ss, x) {
        var n :| 0 <= n < |ss| && x in ReadyHere(ss[n]);
        assert x in ReadyHere(ss'[n]);
      }
      if HeldBy(ss', x) {
        var n :| 0 <= n < |ss'| && x in ReadyHere(ss'[n]);
        assert x in ReadyHere(ss[n]);
      }
    }
  }

  // ---- One slot's part in a step ----

  lemma ReadyIs(s: State, v: Plain)
    requires SlotInv(s) && View(s) == v
    ensures ReadyHere(s) == ReadyIn(v.lists)
  {
  }

  lemma RemoveLone(lists: map<string, seq<Message>>, k: string, m: Message)
    requires LoneLists(lists) && k in lists && lists[k] == [m]
    ensures ReadyIn(lists - {k}) == ReadyIn(lists) - {m}
  {
    forall x
      ensures x in ReadyIn(lists - {k}) <==> x in ReadyIn(lists) && x != m
    {
      if x in ReadyIn(lists) && x != m {
        var j :| j in lists && x in lists[j];
        assert j in lists - {k};
      }
      if x in ReadyIn(lists - {k}) {
        var j :| j in lists - {k} && x in (lists - {k})[j];
        assert x in lists[j] && lists[j][0] == x;
      }
    }
  }

  lemma AddLone(lists: map<string, seq<Message>>, m: Message)
    requires m.id !in lists
    ensures ReadyIn(lists[m.id := [m]]) == ReadyIn(lists) + {m}
  {
    var lists' := lists[m.id := [m]];
    forall x
      ensures x in ReadyIn(lists') <==> x in ReadyIn(lists) || x == m
    {
      if x in ReadyIn(lists) {
        var j :| j in lists && x in lists[j];
        assert x in lists'[j];
      }
      assert m in lists'[m.id];
    }
  }

  lemma TakenIsCurrent(s: State, p: Priority, now: Time, deadline: Time, s': State, d: Option<Delivery>)
    requires SlotInv(s) && AllCurrent(s.ix) && Taken(s, p, now, deadline, s', d)
    ensures AllCurrent(s'.ix)
  {
    hide AllCurrent, IndexInv, LinkOk, TimersOk, Inv, TakeGroup, ServeS;
    TakeStaysCurrent(s, p, now, deadline);
  }

  lemma PlainlyTake(s: State, top: nat, p: Priority, now: Time, deadline: Time, s': State, d: Option<Delivery>, m: Message)
    requires Plainly(s, top) && SlotInv(s') && Taken(s, p, now, deadline, s', d)
    requires (View(s'), d) == Take(View(s), p, now, deadline) && Line(View(s), p) != []
    requires var k := Line(View(s), p)[0]; k in View(s).lists && View(s).lists[k] == [m]
    ensures Plainly(s', top) && d.Some? && d.value.msg == Attempted(m) && ReadyHere(s') == ReadyHere(s) - {m}
  {
    hide SlotInv, AllCurrent, View, Take, Taken, LinesRise, Inv, Line, ReadyHere;
    SlotIsCore(s);
    SlotIsCore(s');
    CoreParts(s);
    TakenIsCurrent(s, p, now, deadline, s', d);
    SimpleTake(View(s), p, now, deadline, top);
    RemoveLone(View(s).lists, Line(View(s), p)[0], m);
    ReadyIs(s, View(s));
    ReadyIs(s', View(s'));
  }

  lemma CoreParts(s: State)
    requires CoreInv(s)
    ensures TableOk(s.ix) && Inv(View(s)) && |View(s).st.ready| == 3
  {
  }

  lemma PlainlyEnqueue(s: State, top: nat, m: Message, now: Time, s': State)
    requires Plainly(s, top) && SlotInv(s') && Ordinary(m) && top < m.seqNo && m.id !in ContentsOf(View(s)).Ids()
    requires View(s') == Enqueue(View(s), m, now) && KeptCurrent(s, m.Key(), s')
    ensures Plainly(s', m.seqNo) && ReadyHere(s') == ReadyHere(s) + {m}
  {
    hide SlotInv, AllCurrent, View, Enqueue, LinesRise, Inv, Line, ReadyHere, ContentsOf;
    SlotIsCore(s);
    SlotIsCore(s');
    CoreParts(s);
    SimpleAppend(View(s), m, now, top);
    NotHere(View(s), m);
    AddLone(View(s).lists, m);
    NotInTable(s, m.id);
    ReadyIs(s, View(s));
    ReadyIs(s', View(s'));
  }

  lemma NotInTable(s: State, k: string)
    requires SlotInv(s) && k !in View(s).lists && k !in Busy(View(s).leases)
    ensures k !in s.ix.table
  {
    InTable(s.ix, k);
    assert Locked(s.ix) == Busy(Deliveries(s.leases));
  }

  lemma AloneInFlight(s: State, top: nat, id: string)
    requires Plainly(s, top)
    ensures NothingBehind(s, id)
  {
    hide AllCurrent, LinesRise, TimersOk, HintOk, LineOk, GaugesOk;
    SlotIsCore(s);
    if id in s.leases {
      assert View(s).leases[id].msg == s.leases[id].msg;
      LoneBusy(View(s), id);
      var g := s.leases[id].g;
      assert Listed(s.ix, g) && g.id == s.leases[id].msg.Key();
      assert ListOf(View(s).lists, g.id) == s.ix.recs[g].msgs;
    }
  }

  lemma PlainlyAck(s: State, top: nat, id: string, epoch: nat, s': State)
    requires Plainly(s, top) && SlotInv(s') && |View(s).st.ready| == 3
    requires View(s') == Ack(View(s), id, epoch).0 && AckedCurrent(s, id, s')
    ensures Plainly(s', top) && ReadyHere(s') == ReadyHere(s)
  {
    hide SlotInv, AllCurrent, View, Ack, LinesRise, Inv, Line, ReadyHere, NothingBehind;
    SlotIsCore(s);
    SlotIsCore(s');
    CoreParts(s);
    AloneInFlight(s, top, id);
    SimpleAck(View(s), id, epoch, top);
    ReadyIs(s, View(s));
    ReadyIs(s', View(s'));
  }

  lemma NewIsPlain(s: State, top: nat)
    requires s == EMPTY_STATE
    ensures Plainly(s, top) && ReadyHere(s) == {}
  {
    hide SlotInv, View, AllCurrent, Simple, ReadyHere;
    NewSlotOk(s);
    SlotIsCore(s);
    EmptyIsCurrent(s.ix);
    EmptyIsSimple(View(s), top);
    ReadyIs(s, View(s));
  }

  lemma EmptyIsCurrent(ix: Index)
    requires ix == GroupIndex.EMPTY
    ensures AllCurrent(ix)
  {
  }

  lemma EmptyIsSimple(v: Plain, top: nat)
    requires v == PlainSlot.EMPTY
    ensures Simple(v, top) && ReadyIn(v.lists) == {}
  {
  }
}
