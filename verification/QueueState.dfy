/** All the slots of a queue, as values. */
module QueueState {
  import opened Messages
  import opened Seqs
  import opened GroupIndex
  import opened Stats
  import opened PlainSlot
  import opened PlainContents
  import opened SlotState
  import opened SlotView
  import opened SlotRefines
  import opened SlotRuns
  import opened SlotSweeps
  import opened SlotTransfer
  import opened SlotConservation
  import opened SlotNumbers
  import opened Dispatch
  import opened PlainFragment
  import opened UrgentList
  import opened QueueTally

  /** A slot between operations that holds no number above `top`. */
  ghost predicate SlotOk(s: State, top: nat) {
    SlotInv(s) && Below(View(s), top)
  }

  ghost predicate SlotsOk(ss: seq<State>, top: nat) {
    forall i :: 0 <= i < |ss| ==> SlotOk(ss[i], top)
  }

  function NewState(): State {
    EMPTY_STATE
  }

  lemma NewStateOk(s: State, top: nat)
    requires s == NewState()
    ensures SlotOk(s, top)
  {
    hide SlotInv, View, Below;
    NewSlotOk(s);
    SlotIsCore(s);
    NewIsBelow(View(s), top);
  }

  lemma NewIsBelow(v: Plain, top: nat)
    requires v == PlainSlot.EMPTY
    ensures Below(v, top)
  {
  }

  function HeldIn(s: State): int {
    if |s.st.ready| == 3 then HeldCount(s.st) else 0
  }

  function TotalHeld(ss: seq<State>): int {
    if ss == [] then 0 else HeldIn(ss[0]) + TotalHeld(ss[1..])
  }

  function TotalEntries(ss: seq<State>): nat {
    if ss == [] then 0 else Entries(ss[0]) + TotalEntries(ss[1..])
  }

  lemma {:induction false} TotalHeldUpdate(ss: seq<State>, i: nat, s: State)
    requires i < |ss|
    ensures TotalHeld(ss[i := s]) == TotalHeld(ss) - HeldIn(ss[i]) + HeldIn(s)
  {
    if i == 0 {
      assert ss[i := s][1..] == ss[1..];
    } else {
      TotalHeldUpdate(ss[1..], i - 1, s);
      assert ss[i := s][1..] == ss[1..][i - 1 := s];
    }
  }

  lemma {:induction false} TotalEntriesUpdate(ss: seq<State>, i: nat, s: State)
    requires i < |ss|
    ensures TotalEntries(ss[i := s]) == TotalEntries(ss) - Entries(ss[i]) + Entries(s)
  {
    if i == 0 {
      assert ss[i := s][1..] == ss[1..];
    } else {
      TotalEntriesUpdate(ss[1..], i - 1, s);
      assert ss[i := s][1..] == ss[1..][i - 1 := s];
    }
  }

  /** A new, empty slot at position `i`. */
  function WithSlot(ss: seq<State>, i: nat): seq<State>
    requires i <= |ss|
  {
    ss[..i] + [NewState()] + ss[i..]
  }

  lemma {:induction false} TotalHeldWithSlot(ss: seq<State>, i: nat)
    requires i <= |ss|
    ensures TotalHeld(WithSlot(ss, i)) == TotalHeld(ss) && TotalEntries(WithSlot(ss, i)) == TotalEntries(ss)
  {
    if i == 0 {
      assert WithSlot(ss, i)[1..] == ss;
      NoEntries(MAX_PRIORITY + 1);
    } else {
      TotalHeldWithSlot(ss[1..], i - 1);
      assert WithSlot(ss, i)[1..] == WithSlot(ss[1..], i - 1);
    }
  }

  lemma {:induction false} NoEntries(n: nat)
    requires n <= MAX_PRIORITY + 1
    ensures EntryCount(GroupIndex.EMPTY, n) == 0
  {
    if n != 0 {
      NoEntries(n - 1);
    }
  }

  lemma SlotsOkWithSlot(ss: seq<State>, top: nat, i: nat)
    requires SlotsOk(ss, top) && i <= |ss|
    ensures SlotsOk(WithSlot(ss, i), top)
  {
    hide SlotOk, NewState;
    NewStateOk(NewState(), top);
    var ss' := WithSlot(ss, i);
    forall j | 0 <= j < |ss'|
      ensures SlotOk(ss'[j], top)
    {
      if j < i {
        assert ss'[j] == ss[j];
      } else if j > i {
        assert ss'[j] == ss[j - 1];
      }
    }
  }

  lemma SlotsOkUpdate(ss: seq<State>, top: nat, top': nat, i: nat, s: State)
    requires SlotsOk(ss, top) && top <= top' && i < |ss| && SlotOk(s, top')
    ensures SlotsOk(ss[i := s], top')
  {
    hide SlotOk;
    var ss' := ss[i := s];
    forall j | 0 <= j < |ss'|
      ensures SlotOk(ss'[j], top')
    {
      assert SlotOk(ss[j], top);
      SlotOkMore(ss[j], top, top');
    }
  }

  lemma SlotOkMore(s: State, top: nat, top': nat)
    requires SlotOk(s, top) && top <= top'
    ensures SlotOk(s, top')
  {
    hide SlotInv, View;
    assert TableOk(s.ix) by { SlotIsCore(s); }
    BelowMore(View(s), top, top');
  }

  lemma BelowMore(v: Plain, top: nat, top': nat)
    requires Below(v, top) && top <= top'
    ensures Below(v, top')
  {
    assert forall k | k in v.lists :: AllBelow(v.lists[k], top);
  }

  lemma HeldInView(s: State)
    requires SlotInv(s)
    ensures |View(s).st.ready| == 3 && HeldNow(View(s)) == HeldIn(s) && Inv(View(s))
  {
  }

  // ---- The scan ----

  /** The scan's choice: of the slots in service that offer anything, the highest band, then the lowest head number. */
  ghost predicate IsChoice(ss: seq<State>, frozen: seq<bool>, b: nat)
    requires |frozen| == |ss|
  {
    && b < |ss| && !frozen[b] && ss[b].hint > 0
    && forall j :: 0 <= j < |ss| && !frozen[j] && ss[j].hint > 0 ==> !Better(ss[j], ss[b])
  }

  predicate Better(s: State, t: State) {
    s.hint > t.hint || (s.hint == t.hint && s.headSeq < t.headSeq)
  }

  /** What a scan of the first `n` slots has settled on: none is better, and none before it is as good. */
  ghost predicate ScanUpTo(ss: seq<State>, frozen: seq<bool>, n: nat, best: Option<nat>) {
    && n <= |frozen| == |ss|
    && match best
       case None => forall j :: 0 <= j < n && !frozen[j] ==> ss[j].hint == 0
       case Some(b) =>
         && b < n && !frozen[b] && ss[b].hint > 0
         && (forall j :: 0 <= j < n && !frozen[j] && ss[j].hint > 0 ==> !Better(ss[j], ss[b]))
         && (forall j :: 0 <= j < b && !frozen[j] && ss[j].hint > 0 ==> Better(ss[b], ss[j]))
  }

  lemma ScanStart(ss: seq<State>, frozen: seq<bool>)
    requires |frozen| == |ss|
    ensures ScanUpTo(ss, frozen, 0, None)
  {
  }

  lemma ScanBound(ss: seq<State>, frozen: seq<bool>, n: nat, best: Option<nat>)
    requires ScanUpTo(ss, frozen, n, best)
    ensures best.Some? ==> best.value < n <= |ss|
  {
  }

  lemma ScanMore(ss: seq<State>, frozen: seq<bool>, n: nat, best: Option<nat>)
    requires ScanUpTo(ss, frozen, n, best) && n < |ss| == |frozen|
    ensures best.Some? ==> best.value < |ss|
    ensures var s := ss[n];
            var taken := !frozen[n] && s.hint > 0 && (best.None? ||
                         s.hint > ss[best.value].hint || (s.hint == ss[best.value].hint && s.headSeq < ss[best.value].headSeq));
            ScanUpTo(ss, frozen, n + 1, if taken then Some(n) else best)
  {
  }

  lemma ScanResult(ss: seq<State>, frozen: seq<bool>, best: Option<nat>)
    requires ScanUpTo(ss, frozen, |ss|, best) && |frozen| == |ss|
    ensures best.None? ==> NothingOffered(ss, frozen)
    ensures best.Some? ==> IsChoice(ss, frozen, best.value)
  {
  }

  ghost predicate NothingOffered(ss: seq<State>, frozen: seq<bool>)
    requires |frozen| == |ss|
  {
    forall j :: 0 <= j < |ss| && !frozen[j] ==> ss[j].hint == 0
  }

  lemma ChoiceIsOffered(ss: seq<State>, frozen: seq<bool>, b: nat)
    requires |frozen| == |ss| && IsChoice(ss, frozen, b)
    ensures !NothingOffered(ss, frozen)
  {
  }

  /** No slot in service has a line above `p`. */
  ghost predicate NoneAbove(ss: seq<State>, frozen: seq<bool>, p: int)
    requires |frozen| == |ss|
  {
    forall j, q: Priority :: 0 <= j < |ss| && !frozen[j] && TableOk(ss[j].ix) && Offers(View(ss[j]), q) ==> q <= p
  }

  lemma ChoiceIsTop(ss: seq<State>, frozen: seq<bool>, top: nat, b: nat)
    requires SlotsOk(ss, top) && |frozen| == |ss| && IsChoice(ss, frozen, b)
    ensures ss[b].hint - 1 <= MAX_PRIORITY && ss[b].hint - 1 in ss[b].ix.bands
    ensures NoneAbove(ss, frozen, ss[b].hint - 1)
  {
    hide SlotInv, View, Offers;
    assert SlotOk(ss[b], top);
    HintBounds(ss[b]);
    forall j, q: Priority | 0 <= j < |ss| && !frozen[j] && TableOk(ss[j].ix) && Offers(View(ss[j]), q)
      ensures q <= ss[b].hint - 1
    {
      assert SlotOk(ss[j], top);
      HintBounds(ss[j]);
      assert !Better(ss[j], ss[b]);
    }
  }

  lemma NothingOfferedIsNone(ss: seq<State>, frozen: seq<bool>, top: nat)
    requires SlotsOk(ss, top) && |frozen| == |ss| && NothingOffered(ss, frozen)
    ensures NoneAbove(ss, frozen, -1)
  {
    hide SlotInv, View, Offers;
    forall j, q: Priority | 0 <= j < |ss| && !frozen[j] && TableOk(ss[j].ix)
      ensures !Offers(View(ss[j]), q)
    {
      assert SlotOk(ss[j], top);
      HintBounds(ss[j]);
    }
  }

  /** One take at the band the hint names. */
  lemma TakeStep(s: State, top: nat, p: Priority, now: Time, deadline: Time, s': State, d: Option<Delivery>)
    requires SlotOk(s, top) && SlotInv(s') && (View(s'), d) == Take(View(s), p, now, deadline)
    ensures SlotOk(s', top)
    ensures HeldIn(s') == HeldIn(s) - (s'.st.expired - s.st.expired) && s.st.expired <= s'.st.expired
    ensures Unexpired(View(s), now) ==> (d.None? ==> View(s') == View(s)) && (d.Some? ==> d.value.msg.priority == p)
  {
    hide SlotInv, Take, Below, Inv, Unexpired;
    SlotIsCore(s);
    SlotIsCore(s');
    HeldInView(s);
    HeldInView(s');
    ViewStats(s);
    ViewStats(s');
    TakeBelow(View(s), p, now, deadline, top);
    TakeTally(View(s), p, now, deadline);
    if Unexpired(View(s), now) { TakeFresh(View(s), p, now, deadline); }
  }

  lemma TakeUsesEntries(s: State, p: Priority, now: Time, deadline: Time, s': State, d: Option<Delivery>)
    requires SlotInv(s) && Taken(s, p, now, deadline, s', d) && p in s.ix.bands
    ensures Entries(s') < Entries(s)
  {
    hide Taken, SlotInv, CoreInv, Entries;
    SlotIsCore(s);
    TakeShrinks(s, p, now, deadline, s', d);
  }

  lemma TakeAccount(ss: seq<State>, top: nat, b: nat, p: Priority, now: Time, deadline: Time, s': State, d: Option<Delivery>)
    requires SlotsOk(ss, top) && b < |ss| && SlotInv(s') && p in ss[b].ix.bands
    requires TableOk(ss[b].ix) && TableOk(s'.ix) && |View(ss[b]).st.ready| == 3
    requires Taken(ss[b], p, now, deadline, s', d) && (View(s'), d) == Take(View(ss[b]), p, now, deadline)
    ensures SlotsOk(ss[b := s'], top)
    ensures TotalHeld(ss[b := s']) == TotalHeld(ss) - (s'.st.expired - ss[b].st.expired) && ss[b].st.expired <= s'.st.expired
    ensures TotalEntries(ss[b := s']) < TotalEntries(ss)
  {
    hide SlotInv, View, Take, Taken, HeldIn, Entries, TableOk, Below;
    assert SlotOk(ss[b], top);
    TakeStep(ss[b], top, p, now, deadline, s', d);
    TakeUsesEntries(ss[b], p, now, deadline, s', d);
    TotalHeldUpdate(ss, b, s');
    TotalEntriesUpdate(ss, b, s');
    SlotsOkUpdate(ss, top, top, b, s');
  }

  // ---- Whole dispatches ----

  ghost predicate AllFresh(ss: seq<State>, frozen: seq<bool>, now: Time)
    requires |frozen| == |ss|
  {
    forall j :: 0 <= j < |ss| && !frozen[j] ==> TableOk(ss[j].ix) && Unexpired(View(ss[j]), now)
  }

  /** What the slots stand for is unchanged; only entries nobody needs any more may have gone. */
  ghost predicate SameViews(ss: seq<State>, ss': seq<State>) {
    |ss| == |ss'| && forall j :: 0 <= j < |ss| ==> SameView(ss[j], ss'[j])
  }

  ghost predicate SameView(s: State, s': State) {
    TableOk(s.ix) && TableOk(s'.ix) && View(s) == View(s')
  }

  lemma SameViewsStart(ss: seq<State>, top: nat)
    requires SlotsOk(ss, top)
    ensures SameViews(ss, ss)
  {
    hide View, SlotInv;
    forall j | 0 <= j < |ss|
      ensures SameView(ss[j], ss[j])
    {
      assert SlotOk(ss[j], top);
      SlotIsCore(ss[j]);
    }
  }

  lemma SameViewsMore(ss: seq<State>, ss1: seq<State>, b: nat, s': State)
    requires SameViews(ss, ss1) && b < |ss| && SameView(ss1[b], s')
    ensures SameViews(ss, ss1[b := s'])
  {
    var ss2 := ss1[b := s'];
    forall j | 0 <= j < |ss|
      ensures SameView(ss[j], ss2[j])
    {
      assert SameView(ss[j], ss1[j]);
    }
  }

  lemma SameViewsAt(ss: seq<State>, ss1: seq<State>, b: nat, s': State)
    requires SameViews(ss, ss1) && b < |ss| && TableOk(s'.ix)
    ensures SameViews(ss[b := s'], ss1[b := s'])
  {
    hide View;
    var a, c := ss[b := s'], ss1[b := s'];
    forall j | 0 <= j < |ss|
      ensures SameView(a[j], c[j])
    {
      assert SameView(ss[j], ss1[j]);
    }
  }

  lemma NoneAboveSame(ss: seq<State>, ss1: seq<State>, frozen: seq<bool>, p: int)
    requires |frozen| == |ss| && SameViews(ss, ss1) && NoneAbove(ss1, frozen, p)
    ensures NoneAbove(ss, frozen, p)
  {
    hide View, Offers;
    forall j, q: Priority | 0 <= j < |ss| && !frozen[j] && TableOk(ss[j].ix) && Offers(View(ss[j]), q)
      ensures q <= p
    {
      assert SameView(ss[j], ss1[j]);
    }
  }

  /** With nothing expired a failed take changed no view, and one that delivered served the band it was asked for. */
  lemma FreshTake(ss: seq<State>, ss1: seq<State>, frozen: seq<bool>, top: nat, b: nat, p: Priority, now: Time,
                  deadline: Time, s': State, d: Option<Delivery>)
    requires SlotsOk(ss1, top) && |frozen| == |ss| && AllFresh(ss, frozen, now) && SameViews(ss, ss1)
    requires IsChoice(ss1, frozen, b) && p == ss1[b].hint - 1
    requires SlotInv(s') && TableOk(ss1[b].ix) && |View(ss1[b]).st.ready| == 3 && TableOk(s'.ix)
    requires (View(s'), d) == Take(View(ss1[b]), p, now, deadline)
    ensures d.None? ==> SameViews(ss, ss1[b := s'])
    ensures d.Some? ==> d.value.msg.priority == p && NoneAbove(ss, frozen, p)
    ensures TableOk(ss[b].ix) && View(ss[b]) == View(ss1[b]) && SameViews(ss[b := s'], ss1[b := s'])
  {
    hide View, SlotInv, Take, Unexpired, NoneAbove, Below, HeldIn;
    assert SlotOk(ss1[b], top) && SameView(ss[b], ss1[b]);
    TakeStep(ss1[b], top, p, now, deadline, s', d);
    SameViewsAt(ss, ss1, b, s');
    if d.None? {
      SameViewsMore(ss, ss1, b, s');
    } else {
      ChoiceIsTop(ss1, frozen, top, b);
      NoneAboveSame(ss, ss1, frozen, p);
    }
  }

  // ---- The fragment in which the queue is one sorted list ----

  ghost predicate InService(frozen: seq<bool>) {
    forall j :: 0 <= j < |frozen| ==> !frozen[j]
  }

  /** `d` is what taking from the list `l` gives, and the slots now hold the rest. */
  ghost predicate ListAfter(l: seq<Message>, ss: seq<State>, top: nat, d: Option<Delivery>) {
    if l == [] then d.None? && IsList(ss, l, top)
    else d.Some? && d.value.msg == Attempted(l[0]) && IsList(ss, l[1..], top)
  }

  lemma ListTake(ss: seq<State>, frozen: seq<bool>, l: seq<Message>, top: nat, b: nat, p: Priority, now: Time,
                 deadline: Time, s': State, d: Option<Delivery>)
    requires IsList(ss, l, top) && |frozen| == |ss| && InService(frozen) && IsChoice(ss, frozen, b) && p == ss[b].hint - 1
    requires SlotInv(s') && Taken(ss[b], p, now, deadline, s', d)
    requires TableOk(ss[b].ix) && |View(ss[b]).st.ready| == 3 && TableOk(s'.ix)
    requires (View(s'), d) == Take(View(ss[b]), p, now, deadline)
    ensures d.Some? && ListAfter(l, ss[b := s'], top, d)
  {
    hide SlotInv, View, Plainly, Taken, Take, Line, ReadyHere, Sorted;
    forall j | 0 <= j < |ss| && ss[j].hint > 0
      ensures ss[j].hint < ss[b].hint || (ss[j].hint == ss[b].hint && ss[b].headSeq <= ss[j].headSeq)
    {
      assert !Better(ss[j], ss[b]);
    }
    var m := BestIsFirst(ss, l, top, b);
    PlainlyTake(ss[b], top, p, now, deadline, s', d, m);
    ListShrinks(ss, l, top, ss[b := s'], b);
  }

  lemma ListIsEmpty(ss: seq<State>, frozen: seq<bool>, l: seq<Message>, top: nat)
    requires IsList(ss, l, top) && |frozen| == |ss| && InService(frozen) && NothingOffered(ss, frozen)
    ensures ListAfter(l, ss, top, None)
  {
    hide Plainly, ReadyHere, Sorted;
    NothingShownIsEmpty(ss, l, top);
  }

  lemma TakeLease(v: Plain, p: Priority, now: Time, deadline: Time)
    requires |v.st.ready| == 3
    ensures var (v', d) := Take(v, p, now, deadline);
            d.Some? ==> d.value.msg.id in v'.leases && v'.leases[d.value.msg.id] == d.value && d.value.deadline == deadline
  {
  }

  lemma ListTakes(ss: seq<State>, frozen: seq<bool>, top: nat, b: nat, p: Priority, now: Time,
                  deadline: Time, s': State, d: Option<Delivery>)
    requires |frozen| == |ss| && IsChoice(ss, frozen, b) && p == ss[b].hint - 1
    requires SlotInv(s') && Taken(ss[b], p, now, deadline, s', d)
    requires TableOk(ss[b].ix) && |View(ss[b]).st.ready| == 3 && TableOk(s'.ix)
    requires (View(s'), d) == Take(View(ss[b]), p, now, deadline)
    ensures b < |ss|
    ensures forall l | IsList(ss, l, top) && InService(frozen) :: d.Some? && ListAfter(l, ss[b := s'], top, d)
  {
    hide *;
    ChoiceBound(ss, frozen, b);
    forall l | IsList(ss, l, top) && InService(frozen)
      ensures d.Some? && ListAfter(l, ss[b := s'], top, d)
    {
      ListTake(ss, frozen, l, top, b, p, now, deadline, s', d);
    }
  }

  lemma ListsAreEmpty(ss: seq<State>, frozen: seq<bool>, top: nat)
    requires |frozen| == |ss| && NothingOffered(ss, frozen)
    ensures forall l | IsList(ss, l, top) && InService(frozen) :: ListAfter(l, ss, top, None)
  {
    hide *;
    forall l | IsList(ss, l, top) && InService(frozen)
      ensures ListAfter(l, ss, top, None)
    {
      ListIsEmpty(ss, frozen, l, top);
    }
  }

  lemma ChoiceBound(ss: seq<State>, frozen: seq<bool>, b: nat)
    requires |frozen| == |ss| && IsChoice(ss, frozen, b)
    ensures b < |ss| && !frozen[b] && ss[b].hint > 0
  {
  }

  /** A new slot leaves the list as it was. */
  lemma ListWithSlot(ss: seq<State>, l: seq<Message>, top: nat, i: nat)
    requires IsList(ss, l, top) && i <= |ss|
    ensures IsList(WithSlot(ss, i), l, top)
  {
    hide Plainly, ReadyHere, NewState, Sorted;
    var ss' := WithSlot(ss, i);
    NewStateIsPlain(NewState(), top);
    forall j | 0 <= j < |ss'|
      ensures ss'[j] == if j < i then ss[j] else if j == i then NewState() else ss[j - 1]
    {
    }
    forall j, k | 0 <= j < k < |ss'|
      ensures ReadyHere(ss'[j]) !! ReadyHere(ss'[k])
    {
      var j' := if j < i then j else j - 1;
      var k' := if k < i then k else k - 1;
      if j != i && k != i { assert ReadyHere(ss[j']) !! ReadyHere(ss[k']); }
    }
    forall m
      ensures HeldBy(ss, m) <==> HeldBy(ss', m)
    {
      if HeldBy(ss, m) {
        var j :| 0 <= j < |ss| && m in ReadyHere(ss[j]);
        assert m in ReadyHere(ss'[if j < i then j else j + 1]);
      }
      if HeldBy(ss', m) {
        var j :| 0 <= j < |ss'| && m in ReadyHere(ss'[j]);
        assert m in ReadyHere(ss[if j < i then j else j - 1]);
      }
    }
  }

  lemma NewStateIsPlain(s: State, top: nat)
    requires s == NewState()
    ensures Plainly(s, top) && ReadyHere(s) == {}
  {
    NewIsPlain(s, top);
  }

  lemma ListsWithSlot(ss: seq<State>, frozen: seq<bool>, top: nat, i: nat)
    requires i <= |ss| == |frozen|
    ensures forall l | IsList(ss, l, top) && InService(frozen) ::
              IsList(WithSlot(ss, i), l, top) && InService(frozen[..i] + [false] + frozen[i..])
  {
    forall l | IsList(ss, l, top) && InService(frozen)
      ensures IsList(WithSlot(ss, i), l, top) && InService(frozen[..i] + [false] + frozen[i..])
    {
      hide IsList;
      ListWithSlot(ss, l, top, i);
    }
  }

  lemma NewStateView(s: State)
    requires s == NewState()
    ensures TableOk(s.ix) && View(s) == PlainSlot.EMPTY
  {
    hide View, SlotInv;
    NewSlotOk(s);
    SlotIsCore(s);
  }

  // ---- Enqueueing ----

  lemma EnqueueStep(ss: seq<State>, top: nat, b: nat, m: Message, now: Time, s': State)
    requires SlotsOk(ss, top) && b < |ss| && top < m.seqNo
    requires SlotInv(s') && TableOk(ss[b].ix) && TableOk(s'.ix) && |View(ss[b]).st.ready| == 3
    requires m.id !in ContentsOf(View(ss[b])).Ids() && View(s') == Enqueue(View(ss[b]), m, now)
    ensures SlotsOk(ss[b := s'], m.seqNo)
    ensures TotalHeld(ss[b := s']) == TotalHeld(ss) + 1
  {
    hide SlotInv, View, Enqueue, Below, HeldIn, HeldNow, Inv, ContentsOf;
    assert SlotOk(ss[b], top);
    HeldInView(ss[b]);
    HeldInView(s');
    EnqueueTally(View(ss[b]), m, now);
    BelowMore(View(ss[b]), top, m.seqNo);
    StepBelow(View(ss[b]), Submit(m, now), m.seqNo);
    SlotsOkUpdate(ss, top, m.seqNo, b, s');
    TotalHeldUpdate(ss, b, s');
  }

  /** Enqueueing a message of the fragment puts it where it belongs in the list. */
  lemma ListEnqueue(ss: seq<State>, l: seq<Message>, top: nat, b: nat, m: Message, now: Time, s': State)
    requires IsList(ss, l, top) && b < |ss| && top < m.seqNo && Ordinary(m)
    requires SlotInv(s') && TableOk(ss[b].ix) && TableOk(s'.ix) && |View(ss[b]).st.ready| == 3
    requires m.id !in ContentsOf(View(ss[b])).Ids() && View(s') == Enqueue(View(ss[b]), m, now)
    requires KeptCurrent(ss[b], m.Key(), s')
    ensures IsList(ss[b := s'], Insert(l, m), m.seqNo)
  {
    hide SlotInv, View, Enqueue, Plainly, KeptCurrent, ReadyHere, Sorted, ContentsOf, Insert;
    PlainlyEnqueue(ss[b], top, m, now, s');
    ListGrows(ss, l, top, ss[b := s'], b, m);
  }

  lemma ListsEnqueue(ss: seq<State>, top: nat, b: nat, m: Message, now: Time, s': State)
    requires b < |ss| && top < m.seqNo
    requires SlotInv(s') && TableOk(ss[b].ix) && TableOk(s'.ix) && |View(ss[b]).st.ready| == 3
    requires m.id !in ContentsOf(View(ss[b])).Ids() && View(s') == Enqueue(View(ss[b]), m, now)
    requires KeptCurrent(ss[b], m.Key(), s')
    ensures forall l | IsList(ss, l, top) && Ordinary(m) :: IsList(ss[b := s'], Insert(l, m), m.seqNo)
  {
    hide *;
    forall l | IsList(ss, l, top) && Ordinary(m)
      ensures IsList(ss[b := s'], Insert(l, m), m.seqNo)
    {
      ListEnqueue(ss, l, top, b, m, now, s');
    }
  }

  /** A number that was handed out and not used changes nothing. */
  lemma ListsHigher(ss: seq<State>, top: nat, top': nat)
    requires top <= top'
    ensures SlotsOk(ss, top) ==> SlotsOk(ss, top')
    ensures forall l | IsList(ss, l, top) :: IsList(ss, l, top')
  {
    hide Plainly, SlotOk, ReadyHere, Sorted;
    forall i | 0 <= i < |ss|
      ensures Plainly(ss[i], top) ==> Plainly(ss[i], top')
      ensures SlotOk(ss[i], top) ==> SlotOk(ss[i], top')
    {
      if Plainly(ss[i], top) { HigherTop(ss[i], top, top'); }
      if SlotOk(ss[i], top) { SlotOkMore(ss[i], top, top'); }
    }
  }

  // ---- Ack and nack ----

  lemma AckStep(ss: seq<State>, top: nat, b: nat, id: string, epoch: nat, s': State, out: Outcome)
    requires SlotsOk(ss, top) && b < |ss|
    requires SlotInv(s') && TableOk(ss[b].ix) && TableOk(s'.ix) && |View(ss[b]).st.ready| == 3
    requires (View(s'), out) == Ack(View(ss[b]), id, epoch)
    ensures SlotsOk(ss[b := s'], top)
    ensures TotalHeld(ss[b := s']) == TotalHeld(ss) - (if out == Done then 1 else 0)
  {
    hide SlotInv, View, Ack, Below, HeldIn, HeldNow, Inv;
    assert SlotOk(ss[b], top);
    HeldInView(ss[b]);
    HeldInView(s');
    AckTally(View(ss[b]), id, epoch);
    StepBelow(View(ss[b]), Confirm(id, epoch), top);
    SlotsOkUpdate(ss, top, top, b, s');
    TotalHeldUpdate(ss, b, s');
  }

  lemma ListsAck(ss: seq<State>, top: nat, b: nat, id: string, epoch: nat, s': State)
    requires b < |ss| && SlotInv(s') && TableOk(ss[b].ix) && TableOk(s'.ix) && |View(ss[b]).st.ready| == 3
    requires View(s') == Ack(View(ss[b]), id, epoch).0 && AckedCurrent(ss[b], id, s')
    ensures forall l | IsList(ss, l, top) :: IsList(ss[b := s'], l, top)
  {
    hide SlotInv, View, Ack, Plainly, AckedCurrent, ReadyHere, Sorted;
    forall l | IsList(ss, l, top)
      ensures IsList(ss[b := s'], l, top)
    {
      PlainlyAck(ss[b], top, id, epoch, s');
      ListStays(ss, l, top, ss[b := s'], b);
    }
  }

  lemma NackStep(ss: seq<State>, top: nat, b: nat, id: string, epoch: nat, now: Time, delay: Time, retry: Retry,
                 s': State, dead: Option<Message>, out: Outcome)
    requires SlotsOk(ss, top) && b < |ss|
    requires SlotInv(s') && TableOk(ss[b].ix) && TableOk(s'.ix) && |View(ss[b]).st.ready| == 3
    requires (View(s'), dead, out) == Nack(View(ss[b]), id, epoch, now, delay, retry)
    ensures SlotsOk(ss[b := s'], top) && ss[b].st.expired <= s'.st.expired
    ensures TotalHeld(ss[b := s']) ==
            TotalHeld(ss) - (if dead.Some? then 1 else 0) - (s'.st.expired - ss[b].st.expired)
    ensures out != Done ==> dead.None?
  {
    hide SlotInv, View, Nack, Below, HeldIn, HeldNow, Inv;
    assert SlotOk(ss[b], top);
    HeldInView(ss[b]);
    HeldInView(s');
    ViewStats(ss[b]);
    ViewStats(s');
    NackTally(View(ss[b]), id, epoch, now, delay, retry);
    StepBelow(View(ss[b]), Refuse(id, epoch, now, delay, retry), top);
    SlotsOkUpdate(ss, top, top, b, s');
    TotalHeldUpdate(ss, b, s');
  }

  // ---- The reserve ----

  /** The highest band any of the first `n` slots in service names. */
  ghost predicate TopUpTo(ss: seq<State>, frozen: seq<bool>, n: nat, top: Option<Priority>) {
    && n <= |frozen| == |ss|
    && match top
       case None => forall j :: 0 <= j < n && !frozen[j] ==> ss[j].hint == 0
       case Some(p) =>
         && (forall j :: 0 <= j < n && !frozen[j] ==> ss[j].hint <= p + 1)
         && (exists j :: 0 <= j < n && !frozen[j] && ss[j].hint == p + 1)
  }

  lemma TopStart(ss: seq<State>, frozen: seq<bool>)
    requires |frozen| == |ss|
    ensures TopUpTo(ss, frozen, 0, None)
  {
  }

  lemma TopMore(ss: seq<State>, frozen: seq<bool>, n: nat, top: Option<Priority>)
    requires TopUpTo(ss, frozen, n, top) && n < |ss| == |frozen| && ss[n].hint <= MAX_PRIORITY + 1
    ensures var h := ss[n].hint;
            TopUpTo(ss, frozen, n + 1, if !frozen[n] && h > 0 && (top.None? || h - 1 > top.value) then Some(h - 1) else top)
  {
    var h := ss[n].hint;
    if !frozen[n] && h > 0 && (top.None? || h - 1 > top.value) {
      assert !frozen[n] && ss[n].hint == (h - 1) + 1;
    } else if top.Some? {
      var j :| 0 <= j < n && !frozen[j] && ss[j].hint == top.value + 1;
      assert 0 <= j < n + 1;
    }
  }

  lemma HintSmall(s: State, top: nat)
    requires SlotOk(s, top)
    ensures s.hint <= MAX_PRIORITY + 1
  {
    HintBounds(s);
  }

  const SCAN_LIMIT := 16

  /** How many of `n` slots the scan for starved work looks at. */
  function Scanned(n: nat): (r: nat)
    ensures r <= n && r <= 16 && (r == n || r == 16)
  {
    if n < SCAN_LIMIT then n else SCAN_LIMIT
  }

  /** The slot the scan looks at in step `i`. */
  function ScanAt(cursor: nat, i: nat, n: nat): (b: nat)
    requires n > 0
    ensures b < n
  {
    (cursor % n + i) % n
  }

  /** `p` is the lowest starved band of a slot. */
  ghost predicate LowestStarved(s: State, p: Option<Priority>, cutoff: Time) {
    && (p.Some? ==> Starved(s, p.value, cutoff))
    && forall q: Priority | p.Some? ==> q < p.value :: !Starved(s, q, cutoff)
  }

  /** None of the first `n` slots the scan looks at is in service and has a starved band below `best`. */
  ghost predicate NoneStarved(ss: seq<State>, frozen: seq<bool>, cursor: nat, n: nat, best: Priority, cutoff: Time)
    requires |frozen| == |ss| && n <= |ss|
  {
    forall i: nat | i < n ::
      var b := ScanAt(cursor, i, |ss|); frozen[b] || forall q: Priority | q < best :: !Starved(ss[b], q, cutoff)
  }

  /**
   * Slot number `b` is the first of those the scan looks at that is in service and has a starved band below `best`; `p` is
   * its lowest.
   */
  ghost predicate ScanFinds(ss: seq<State>, frozen: seq<bool>, cursor: nat, best: Priority, cutoff: Time, b: nat, p: Priority)
    requires |frozen| == |ss|
  {
    && b < |ss| && !frozen[b] && p < best && LowestStarved(ss[b], Some(p), cutoff)
    && exists i: nat :: i < Scanned(|ss|) && b == ScanAt(cursor, i, |ss|) && NoneStarved(ss, frozen, cursor, i, best, cutoff)
  }

  lemma ScanAtIs(cursor: nat, i: nat, n: nat)
    requires n > 0
    ensures ScanAt(cursor, i, n) == (cursor % n + i) % n
    ensures i < Scanned(n) <==> i < 16 && i < n
  {
  }

  lemma NoTopWhenEmpty(ss: seq<State>, frozen: seq<bool>, top: Option<Priority>)
    requires TopUpTo(ss, frozen, |ss|, top) && |ss| == 0
    ensures top.None?
  {
  }

  lemma ScanBegins(ss: seq<State>, frozen: seq<bool>, cursor: nat, best: Priority, cutoff: Time)
    requires |frozen| == |ss|
    ensures NoneStarved(ss, frozen, cursor, 0, best, cutoff)
  {
  }

  lemma ScanPasses(ss: seq<State>, frozen: seq<bool>, cursor: nat, i: nat, best: Priority, cutoff: Time, p: Option<Priority>)
    requires |frozen| == |ss| && i < |ss| && NoneStarved(ss, frozen, cursor, i, best, cutoff)
    requires var b := ScanAt(cursor, i, |ss|);
             frozen[b] || (LowestStarved(ss[b], p, cutoff) && (p.None? || p.value >= best))
    ensures NoneStarved(ss, frozen, cursor, i + 1, best, cutoff)
  {
    hide ScanAt, Starved;
  }

  lemma ScanStops(ss: seq<State>, frozen: seq<bool>, cursor: nat, i: nat, best: Priority, cutoff: Time, p: Priority)
    requires |frozen| == |ss| && i < Scanned(|ss|) && NoneStarved(ss, frozen, cursor, i, best, cutoff)
    requires var b := ScanAt(cursor, i, |ss|); !frozen[b] && LowestStarved(ss[b], Some(p), cutoff) && p < best
    ensures ScanFinds(ss, frozen, cursor, best, cutoff, ScanAt(cursor, i, |ss|), p)
  {
  }

  /** A scan finds a slot or none, not both. */
  lemma ScanFindsOrNot(ss: seq<State>, frozen: seq<bool>, cursor: nat, best: Priority, cutoff: Time, b: nat, p: Priority)
    requires |frozen| == |ss| && ScanFinds(ss, frozen, cursor, best, cutoff, b, p)
    ensures !NoneStarved(ss, frozen, cursor, Scanned(|ss|), best, cutoff)
  {
    var i: nat :| i < Scanned(|ss|) && b == ScanAt(cursor, i, |ss|) && NoneStarved(ss, frozen, cursor, i, best, cutoff);
    assert Starved(ss[ScanAt(cursor, i, |ss|)], p, cutoff);
  }

  /** `d` is what a take of band `p` gives: its first message, which has waited since before `cutoff`, until `deadline`. */
  ghost predicate Rescued(v: Plain, p: Priority, cutoff: Time, deadline: Time, d: Delivery) {
    && Line(v, p) != [] && ListOf(v.lists, Line(v, p)[0]) != []
    && var m := v.lists[Line(v, p)[0]][0];
       m.priority == p && m.enqueuedAt < cutoff && d.msg == Attempted(m) && d.deadline == deadline
  }

  /** What a try at the reserve comes to when nothing has expired: the scan finds something and its head goes out, or neither. */
  ghost predicate Escape(ss: seq<State>, frozen: seq<bool>, cursor: nat, best: Option<Priority>, cutoff: Time, deadline: Time,
                         ss': seq<State>, b: nat, d: Option<Delivery>)
    requires |frozen| == |ss|
  {
    match d
    case None => ss' == ss && (best.Some? ==> NoneStarved(ss, frozen, cursor, Scanned(|ss|), best.value, cutoff))
    case Some(d) =>
      && best.Some? && b < |ss| == |ss'| && ss' == ss[b := ss'[b]] && TableOk(ss[b].ix)
      && exists p: Priority ::
           ScanFinds(ss, frozen, cursor, best.value, cutoff, b, p) && Rescued(View(ss[b]), p, cutoff, deadline, d)
  }

  lemma NoEscape(ss: seq<State>, frozen: seq<bool>, cursor: nat, best: Option<Priority>, cutoff: Time, deadline: Time, b: nat)
    requires |frozen| == |ss|
    requires best.Some? ==> NoneStarved(ss, frozen, cursor, Scanned(|ss|), best.value, cutoff)
    ensures Escape(ss, frozen, cursor, best, cutoff, deadline, ss, b, None)
  {
  }

  lemma Escapes(ss: seq<State>, frozen: seq<bool>, cursor: nat, best: Priority, cutoff: Time, deadline: Time,
                b: nat, p: Priority, s': State, d: Delivery)
    requires |frozen| == |ss| && b < |ss| && TableOk(ss[b].ix)
    requires ScanFinds(ss, frozen, cursor, best, cutoff, b, p) && Rescued(View(ss[b]), p, cutoff, deadline, d)
    ensures Escape(ss, frozen, cursor, Some(best), cutoff, deadline, ss[b := s'], b, Some(d))
  {
    hide ScanFinds, Rescued;
  }

  /** The scan for starved work has nothing to find. */
  ghost predicate NothingStarved(ss: seq<State>, frozen: seq<bool>, cursor: nat, cutoff: Time)
    requires |frozen| == |ss|
  {
    forall best: Priority, b: nat, p: Priority | TopUpTo(ss, frozen, |ss|, Some(best)) ::
      !ScanFinds(ss, frozen, cursor, best, cutoff, b, p)
  }

  lemma TopIsOne(ss: seq<State>, frozen: seq<bool>, a: Option<Priority>, b: Option<Priority>)
    requires TopUpTo(ss, frozen, |ss|, a) && TopUpTo(ss, frozen, |ss|, b)
    ensures a == b
  {
    if a.Some? {
      var j :| 0 <= j < |ss| && !frozen[j] && ss[j].hint == a.value + 1;
      assert b.Some? && a.value <= b.value;
    }
    if b.Some? {
      var j :| 0 <= j < |ss| && !frozen[j] && ss[j].hint == b.value + 1;
      assert a.Some? && b.value <= a.value;
    }
  }

  lemma ScanFindsOne(ss: seq<State>, frozen: seq<bool>, cursor: nat, best: Priority, cutoff: Time,
                     b: nat, p: Priority, c: nat, q: Priority)
    requires |frozen| == |ss|
    requires ScanFinds(ss, frozen, cursor, best, cutoff, b, p) && ScanFinds(ss, frozen, cursor, best, cutoff, c, q)
    ensures b == c && p == q
  {
    hide ScanAt, Starved;
    var i: nat :| i < Scanned(|ss|) && b == ScanAt(cursor, i, |ss|) && NoneStarved(ss, frozen, cursor, i, best, cutoff);
    var j: nat :| j < Scanned(|ss|) && c == ScanAt(cursor, j, |ss|) && NoneStarved(ss, frozen, cursor, j, best, cutoff);
    assert Starved(ss[b], p, cutoff) && Starved(ss[c], q, cutoff);
  }

  /** Whatever the scan finds is what escaped. */
  lemma EscapedIs(ss: seq<State>, frozen: seq<bool>, cursor: nat, top: Option<Priority>, cutoff: Time, deadline: Time,
                  ss': seq<State>, b: nat, d: Option<Delivery>, best: Priority, c: nat, q: Priority)
    requires |frozen| == |ss| && Escape(ss, frozen, cursor, top, cutoff, deadline, ss', b, d) && TopUpTo(ss, frozen, |ss|, top)
    requires TopUpTo(ss, frozen, |ss|, Some(best)) && ScanFinds(ss, frozen, cursor, best, cutoff, c, q)
    ensures d.Some? && c == b < |ss| && TableOk(ss[b].ix) && Rescued(View(ss[b]), q, cutoff, deadline, d.value)
  {
    hide TopUpTo, ScanFinds, NoneStarved, Rescued, View;
    TopIsOne(ss, frozen, top, Some(best));
    ScanFindsOrNot(ss, frozen, cursor, best, cutoff, c, q);
    assert d.Some?;
    var p: Priority :|
      ScanFinds(ss, frozen, cursor, best, cutoff, b, p) && Rescued(View(ss[b]), p, cutoff, deadline, d.value);
    ScanFindsOne(ss, frozen, cursor, best, cutoff, b, p, c, q);
  }

  lemma NothingEscapes(ss: seq<State>, frozen: seq<bool>, cursor: nat, top: Option<Priority>, cutoff: Time, deadline: Time,
                       ss': seq<State>, b: nat, d: Option<Delivery>)
    requires |frozen| == |ss| && Escape(ss, frozen, cursor, top, cutoff, deadline, ss', b, d) && TopUpTo(ss, frozen, |ss|, top)
    ensures NothingStarved(ss, frozen, cursor, cutoff) <==> d.None?
    ensures d.None? ==> ss' == ss
  {
    hide TopUpTo, ScanFinds, NoneStarved, Rescued, View;
    forall best: Priority, c: nat, p: Priority | TopUpTo(ss, frozen, |ss|, Some(best))
      ensures ScanFinds(ss, frozen, cursor, best, cutoff, c, p) ==> d.Some?
    {
      if ScanFinds(ss, frozen, cursor, best, cutoff, c, p) {
        EscapedIs(ss, frozen, cursor, top, cutoff, deadline, ss', b, d, best, c, p);
      }
    }
  }

  /** With nothing expired, a starved band delivers its head. */
  lemma StarvedTake(ss: seq<State>, frozen: seq<bool>, top: nat, b: nat, p: Priority,
                    cutoff: Time, now: Time, deadline: Time, s': State, d: Option<Delivery>)
    requires SlotsOk(ss, top) && |frozen| == |ss| && b < |ss| && !frozen[b]
    requires AllFresh(ss, frozen, now) && Starved(ss[b], p, cutoff)
    requires TableOk(s'.ix) && |View(ss[b]).st.ready| == 3
    requires (View(s'), d) == Take(View(ss[b]), p, now, deadline)
    ensures TableOk(ss[b].ix) && d.Some? && Rescued(View(ss[b]), p, cutoff, deadline, d.value)
  {
    hide SlotInv, View, Line, Unexpired, Below, Inv, Take, Starved;
    assert SlotOk(ss[b], top);
    HeldInView(ss[b]);
    StarvedIff(ss[b], p, cutoff);
    TakeFresh(View(ss[b]), p, now, deadline);
    TakeLease(View(ss[b]), p, now, deadline);
  }

  lemma ScanFacts(s: State, top: nat)
    requires SlotOk(s, top)
    ensures EntriesOk(s.ix) && MaskOk(s.ix)
  {
  }

  lemma AfterMeans(ss: seq<State>, top: nat, d: Option<Delivery>)
    ensures forall l | ListAfter(l, ss, top, d) ::
              if l == [] then d.None? && IsList(ss, l, top)
              else d.Some? && d.value.msg == Attempted(l[0]) && IsList(ss, l[1..], top)
  {
  }

  // ---- Sweep ----

  lemma SweepStep(ss: seq<State>, top: nat, b: nat, ops: seq<Op>, s': State)
    requires SlotsOk(ss, top) && b < |ss|
    requires SlotInv(s') && TableOk(ss[b].ix) && TableOk(s'.ix)
    requires Runs(View(ss[b]), ops, View(s')) && forall i | 0 <= i < |ops| :: Sweeping(ops[i])
    ensures SlotsOk(ss[b := s'], top)
    ensures TotalHeld(ss[b := s']) == TotalHeld(ss) - (Gone(s'.st) - Gone(ss[b].st))
  {
    hide SlotInv, View, Below, HeldIn, HeldNow, Inv, Runs, Gone;
    assert SlotOk(ss[b], top);
    HeldInView(ss[b]);
    HeldInView(s');
    ViewStats(ss[b]);
    ViewStats(s');
    SweepRunTally(View(ss[b]), ops, View(s'));
    SweepRunBelow(View(ss[b]), ops, View(s'), top);
    SlotsOkUpdate(ss, top, top, b, s');
    TotalHeldUpdate(ss, b, s');
  }

  lemma SweepRunBelow(v: Plain, ops: seq<Op>, v': Plain, top: nat)
    requires Inv(v) && Runs(v, ops, v') && Below(v, top) && forall i | 0 <= i < |ops| :: Sweeping(ops[i])
    ensures Below(v', top)
  {
    hide Inv, Runs, Below;
    RunBelow(v, ops, v', top);
  }

  /** What a sweep did to the first `n` slots; the others are as they were. */
  ghost predicate SweptUpTo(ss: seq<State>, ss': seq<State>, frozen: seq<bool>, n: nat, now: Time) {
    && |ss'| == |ss| == |frozen|
    && forall i :: 0 <= i < |ss| ==> if i < n && !frozen[i] then SweptAt(ss[i], ss'[i], now) else ss'[i] == ss[i]
  }

  ghost predicate SweptAt(s: State, s': State, now: Time) {
    TableOk(s.ix) && TableOk(s'.ix) && Swept(View(s), View(s'), now)
  }

  /** What a sweep of one slot gives up on. */
  ghost function GivenUpIn(s: State, now: Time, retry: Retry): set<Message> {
    if TableOk(s.ix) then GivenUp(View(s).leases, now, retry) else {}
  }

  /** `list` names what the first `n` slots, those in service, gave up on, each under its slot's id. */
  ghost predicate Reported(list: seq<(nat, Message)>, ids: seq<nat>, ss: seq<State>, frozen: seq<bool>, n: nat, now: Time,
                           retry: Retry)
    requires |ids| == |ss| == |frozen|
  {
    forall id: nat, m: Message :: (id, m) in list <==>
      exists j :: 0 <= j < n && j < |ss| && ids[j] == id && !frozen[j] && m in GivenUpIn(ss[j], now, retry)
  }

  lemma ReportedMore(list: seq<(nat, Message)>, more: seq<(nat, Message)>, dead: seq<Message>, ids: seq<nat>, ss: seq<State>,
                     frozen: seq<bool>, n: nat, now: Time, retry: Retry)
    requires |ids| == |ss| == |frozen| && n < |ss| && Reported(list, ids, ss, frozen, n, now, retry)
    requires |more| == |dead| && forall i | 0 <= i < |more| :: more[i] == (ids[n], dead[i])
    requires SetOf(dead) == if frozen[n] then {} else GivenUpIn(ss[n], now, retry)
    ensures Reported(list + more, ids, ss, frozen, n + 1, now, retry)
  {
    hide GivenUpIn;
    forall id: nat, m: Message
      ensures (id, m) in list + more <==>
              exists j :: 0 <= j < n + 1 && j < |ss| && ids[j] == id && !frozen[j] && m in GivenUpIn(ss[j], now, retry)
    {
      assert (id, m) in list + more <==> (id, m) in list || (id, m) in more;
      assert m in dead <==> m in SetOf(dead);
      if (id, m) in more {
        var i :| 0 <= i < |more| && more[i] == (id, m);
        assert dead[i] in dead;
      }
      if id == ids[n] && m in dead {
        var i :| 0 <= i < |dead| && dead[i] == m;
        assert more[i] == (id, m);
      }
    }
  }

  lemma NoneReported(ids: seq<nat>, ss: seq<State>, frozen: seq<bool>, now: Time, retry: Retry)
    requires |ids| == |ss| == |frozen|
    ensures Reported([], ids, ss, frozen, 0, now, retry)
  {
  }

  lemma NoMessages()
    ensures SetOf([]) == {}
  {
  }

  lemma SweptStart(ss: seq<State>, frozen: seq<bool>, now: Time)
    requires |frozen| == |ss|
    ensures SweptUpTo(ss, ss, frozen, 0, now)
  {
  }

  lemma NotSweptYet(ss: seq<State>, ss': seq<State>, frozen: seq<bool>, n: nat, now: Time)
    requires SweptUpTo(ss, ss', frozen, n, now) && n < |ss|
    ensures ss'[n] == ss[n]
  {
  }

  lemma SweptMore(ss: seq<State>, ss': seq<State>, frozen: seq<bool>, n: nat, now: Time, s': State)
    requires SweptUpTo(ss, ss', frozen, n, now) && n < |ss|
    requires if frozen[n] then s' == ss'[n] else SweptAt(ss'[n], s', now)
    ensures SweptUpTo(ss, ss'[n := s'], frozen, n + 1, now)
  {
    hide SweptAt;
  }

  lemma DrainStep(ss: seq<State>, top: nat, b: nat, out: seq<Message>, s': State)
    requires SlotsOk(ss, top) && b < |ss|
    requires SlotInv(s') && TableOk(ss[b].ix) && TableOk(s'.ix) && View(s') == Drain(View(ss[b])).0
    requires NoDup(out) && SetOf(out) == ContentsOf(View(ss[b])).All()
    ensures SlotsOk(ss[b := s'], top)
    ensures TotalHeld(ss[b := s']) == TotalHeld(ss) - |out| && |out| == |ContentsOf(View(ss[b])).All()|
  {
    hide SlotInv, View, Below, HeldIn, HeldNow, Inv, NoDup, SetOf, ContentsOf, Drain;
    assert SlotOk(ss[b], top);
    HeldInView(ss[b]);
    HeldInView(s');
    DrainTally(View(ss[b]), out);
    SetOfCount(out);
    StepBelow(View(ss[b]), Empty, top);
    SlotsOkUpdate(ss, top, top, b, s');
    TotalHeldUpdate(ss, b, s');
  }

  lemma DrainTwice(v: Plain)
    ensures Drain(Drain(v).0).0 == Drain(v).0
  {
  }

  // ---- Absorb ----

  /** The largest sequence number of a batch, or `top` if that is larger. */
  function Highest(ms: seq<Message>, top: nat): (r: nat)
    ensures top <= r && forall m | m in ms :: m.seqNo <= r
    ensures r == top || exists m :: m in ms && m.seqNo == r
  {
    if ms == [] then top
    else
      var h := Highest(ms[1..], top);
      if ms[0].seqNo > h then ms[0].seqNo else h
  }

  lemma SortedIds(ms: seq<Message>, ids: set<string>)
    requires NewIds(ms, ids)
    ensures NewIds(SortBySeq(ms), ids) && |SortBySeq(ms)| == |ms|
  {
    var r := SortBySeq(ms);
    SortKeeps(ms);
    NewIdsNoDup(ms, ids);
    forall i | 0 <= i < |r|
      ensures r[i] in ms && r[i].id !in ids
    {
      assert r[i] in SetOf(r) && r[i] in SetOf(ms);
      var j :| 0 <= j < |ms| && ms[j] == r[i];
    }
    forall i, j | 0 <= i < j < |r|
      ensures r[i].id != r[j].id
    {
      if r[i].id == r[j].id {
        SameIdSame(ms, ids, r[i], r[j]);
      }
    }
  }

  lemma NewIdsNoDup(ms: seq<Message>, ids: set<string>)
    requires NewIds(ms, ids)
    ensures NoDup(ms)
  {
  }

  lemma AbsorbStep(ss: seq<State>, top: nat, b: nat, ms: seq<Message>, now: Time, s': State, top': nat)
    requires SlotsOk(ss, top) && b < |ss| && top' == Highest(ms, top)
    requires SlotInv(s') && TableOk(ss[b].ix) && TableOk(s'.ix)
    requires NewIds(SortBySeq(ms), ContentsOf(View(ss[b])).Ids()) && |SortBySeq(ms)| == |ms|
    requires Absorbed(View(ss[b]), View(s'), SortBySeq(ms), now)
    ensures SlotsOk(ss[b := s'], top') && TotalHeld(ss[b := s']) == TotalHeld(ss) + |ms|
  {
    hide SlotInv, View, Below, HeldIn, HeldNow, Inv, NewIds, ContentsOf, Absorbed, SortBySeq;
    assert SlotOk(ss[b], top);
    HeldInView(ss[b]);
    HeldInView(s');
    AbsorbTally(View(ss[b]), View(s'), SortBySeq(ms), now);
    AbsorbedBelow(View(ss[b]), View(s'), ms, now, top, top');
    SlotsOkUpdate(ss, top, top', b, s');
    TotalHeldUpdate(ss, b, s');
  }

  lemma AbsorbedBelow(v: Plain, v': Plain, ms: seq<Message>, now: Time, top: nat, top': nat)
    requires Absorbed(v, v', SortBySeq(ms), now) && Below(v, top) && top' == Highest(ms, top)
    ensures Below(v', top')
  {
    hide Absorbed, ContentsOf, SortBySeq, Below;
    AbsorbedContents(v, v', SortBySeq(ms), now);
    SortKeeps(ms);
    BelowMeans(v, top);
    BelowMeans(v', top');
    forall m | m in ContentsOf(v').All()
      ensures m.seqNo <= top'
    {
      if m !in ContentsOf(v).All() { assert m in SetOf(ms); }
    }
  }

  // ---- A slot handed over ----

  lemma PartsShow(v: Plain)
    requires Inv(v)
    ensures v.lists != map[] ==> ContentsOf(v).ready != {}
    ensures v.leases != map[] ==> ContentsOf(v).inFlight != {}
  {
    var c := ContentsOf(v);
    if v.lists != map[] {
      var k :| k in v.lists;
      assert v.lists[k][0] in v.lists[k];
      assert v.lists[k][0] in c.ready;
    }
    if v.leases != map[] {
      var id :| id in v.leases;
      assert v.leases[id].msg in c.inFlight;
    }
  }

  lemma EmptyParts(v: Plain)
    requires Inv(v) && ContentsOf(v).All() == {}
    ensures v.lists == map[] && v.leases == map[] && v.delayed == {}
  {
    hide Inv;
    PartsShow(v);
    var c := ContentsOf(v);
    assert c.ready == {} && c.inFlight == {} && c.delayed == {};
  }

  /**
   * What the freeze copied out of `v`, absorbed into an empty slot, is there again: the same messages, the ones in flight
   * ready once more, the ones not due yet still waiting, and every group in the order of its sequence numbers.
   */
  lemma HandedOver(v: Plain, out: seq<Message>, v0: Plain, v': Plain, now: Time)
    requires SetOf(out) == ContentsOf(v).All()
    requires Inv(v0) && ContentsOf(v0).All() == {} && Absorbed(v0, v', SortBySeq(out), now)
    ensures ContentsOf(v').All() == ContentsOf(v).All() && v'.leases == map[]
    ensures v'.delayed == StillWaiting(ContentsOf(v).All(), now)
    ensures ReadyIn(v'.lists) == ContentsOf(v).All() - StillWaiting(ContentsOf(v).All(), now)
    ensures forall k, i, j | 0 <= i < j < |ListOf(v'.lists, k)| :: ListOf(v'.lists, k)[i].seqNo <= ListOf(v'.lists, k)[j].seqNo
  {
    hide ContentsOf, Inv, SortBySeq;
    var s := SortBySeq(out);
    EmptyParts(v0);
    SortKeeps(out);
    AbsorbedContents(v0, v', s, now);
    EachSomewhere(s, now);
    forall m | m in s && m.Waiting(now)
      ensures m in v'.delayed
    {
    }
    forall k
      ensures BySeq(ListOf(v'.lists, k))
    {
      PartsBySeq(s, k, now);
      assert ListOf(v'.lists, k) == ReadyOf(s, k, now);
    }
    ReadyAre(v', s, now);
  }

  lemma ReadyAre(v': Plain, s: seq<Message>, now: Time)
    requires forall k :: ListOf(v'.lists, k) == ReadyOf(s, k, now)
    ensures ReadyIn(v'.lists) == SetOf(s) - StillWaiting(SetOf(s), now)
  {
    EachSomewhere(s, now);
    forall m
      ensures m in ReadyIn(v'.lists) <==> m in s && !m.Waiting(now)
    {
      if m in s && !m.Waiting(now) {
        assert m in ListOf(v'.lists, m.Key());
      }
      if m in ReadyIn(v'.lists) {
        var k :| k in v'.lists && m in v'.lists[k];
        assert m in ListOf(v'.lists, k);
      }
    }
  }
}
