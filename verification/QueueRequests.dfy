/** What the order of deliveries means for the requests that were made. */
module QueueRequests {
  import opened Messages
  import opened GroupIndex
  import opened Stats
  import opened PlainSlot
  import opened SlotState
  import opened SlotView
  import opened SlotNumbers
  import opened SlotGroups
  import opened SlotRuns
  import SlotRetries
  import opened Dispatch
  import opened PlainFragment
  import opened UrgentList
  import opened QueueState
  import opened Queue

  // ---- Priority over messages that may go out ----

  /**
   * With no line above `p` in service, no message there above `p` that names no group, and whose id no message held names as
   * its group, is left ready.
   */
  lemma NoneAboveMeans(ss: seq<State>, frozen: seq<bool>, top: nat, p: int, j: nat, m: Message)
    requires SlotsOk(ss, top) && |frozen| == |ss| && NoneAbove(ss, frozen, p)
    requires j < |ss| && !frozen[j] && TableOk(ss[j].ix) && m in ReadyIn(View(ss[j]).lists) && m.groupId == ""
    requires forall n | n in ContentsOf(View(ss[j])).All() :: n.groupId == "" || n.groupId != m.id
    ensures m.priority <= p
  {
    hide View, ContentsOf, Inv, ReadyIn, SlotInv, Below;
    assert SlotOk(ss[j], top);
    HeldInView(ss[j]);
    AloneIsFirst(View(ss[j]), m);
    assert Offers(View(ss[j]), m.priority);
  }

  // ---- Two requests ----

  datatype Request = Request(slot: nat, options: Options, id: string, at: Time)

  /** No group, no delay, and no time to live, of its own or of the queue. */
  predicate Undated(r: Request, defaultTtl: Time) {
    && r.options.groupId == "" && r.options.deliverAfter <= 0
    && (if r.options.ttl != 0 then r.options.ttl else defaultTtl) <= 0
  }

  /** What a queue that is the list `l` still has to deliver, when `m` is to come before `n`. */
  ghost predicate Ahead(l: seq<Message>, m: Message, n: Message) {
    exists i, j :: 0 <= i < j < |l| && l[i] == m && l[j] == n
  }

  lemma SortedAhead(l: seq<Message>, m: Message, n: Message)
    requires Sorted(l) && m in l && n in l && (m.priority > n.priority || (m.priority == n.priority && m.seqNo < n.seqNo))
    ensures Ahead(l, m, n)
  {
    var i :| 0 <= i < |l| && l[i] == m;
    var j :| 0 <= j < |l| && l[j] == n;
  }

  lemma StaysAhead(l: seq<Message>, m: Message, n: Message)
    requires Ahead(l, m, n) && l[0] != m
    ensures Ahead(l[1..], m, n)
  {
    var i, j :| 0 <= i < j < |l| && l[i] == m && l[j] == n;
    assert l[1..][i - 1] == m && l[1..][j - 1] == n;
  }

  lemma LastIsNotFirst(l: seq<Message>, m: Message, n: Message)
    requires Sorted(l) && Ahead(l, m, n)
    ensures l != [] && l[0] != n
  {
  }

  lemma AwayIs(v: Plain, id: string)
    ensures SlotRetries.Away(v, id) <==> id !in ContentsOf(v).Ids()
  {
    if SlotRetries.Away(v, id) {
      forall m | m in ContentsOf(v).All()
        ensures m.id != id
      {
        if m in ReadyIn(v.lists) {
          var k :| k in v.lists && m in v.lists[k];
          assert SlotRetries.EachIn(v.lists[k], (m: Message) => m.id != id);
        }
      }
    }
    if id !in ContentsOf(v).Ids() {
      forall k, m | k in v.lists && m in v.lists[k]
        ensures m.id != id
      {
        assert m in ReadyIn(v.lists) && m in ContentsOf(v).All();
      }
      forall i | i in v.leases
        ensures v.leases[i].msg.id != id
      {
        assert v.leases[i].msg in InFlightIn(v.leases) && v.leases[i].msg in ContentsOf(v).All();
      }
    }
  }

  /** An enqueue brings in no id but its own. */
  lemma NoOtherId(v: Plain, m: Message, now: Time, id: string)
    requires |v.st.ready| == 3 && m.id != id && m.id !in ContentsOf(v).Ids() && id !in ContentsOf(v).Ids()
    ensures id !in ContentsOf(Enqueue(v, m, now)).Ids()
  {
    hide Enqueue, ContentsOf, Contents.Ids, SlotRetries.Away;
    AwayIs(v, id);
    SlotRetries.StepAway(v, Submit(m, now), id);
    AwayIs(Enqueue(v, m, now), id);
  }

  lemma ListIsSorted(q: Queue, l: seq<Message>)
    requires q.Lists(l)
    ensures Sorted(l)
  {
  }

  /** The message made of such a request. */
  lemma UndatedIsOrdinary(r: Request, m: Message, defaultTtl: Time)
    requires Undated(r, defaultTtl) && m.groupId == r.options.groupId
    requires var ttl := if r.options.ttl != 0 then r.options.ttl else defaultTtl;
             forall t: Time :: m.Expired(t) <==> ttl > 0 && r.at + ttl <= t
    requires forall t: Time :: m.Waiting(t) <==> r.options.deliverAfter > 0 && t < r.at + r.options.deliverAfter
    ensures Ordinary(m)
  {
    assert m.expiresAt.Some? ==> m.Expired(m.expiresAt.value);
    assert m.deliverAfter.Some? ==> m.Waiting(m.deliverAfter.value - 1);
  }

  lemma AttemptedKeeps(m: Message)
    ensures Attempted(m).id == m.id && Attempted(m).payload == m.payload
  {
  }

  lemma SomethingAhead(l: seq<Message>, m: Message, n: Message)
    requires Ahead(l, m, n)
    ensures l != []
  {
  }

  /** Deliveries until one of two messages comes. */
  method FirstOfTwo(q: Queue, a: string, b: string, now: Time, ghost l: seq<Message>, ghost m: Message, ghost n: Message)
    returns (h: Option<Handout>)
    requires q.Good() && q.Lists(l) && !q.frozen && !q.config.starvationAvoidance && Ahead(l, m, n)
    requires {a, b} == {m.id, n.id} && forall k | k in l && (k.id == a || k.id == b) :: k == m || k == n
    modifies q, q.localView, q.Records()
    ensures q.Good() && h.Some? && q.Outstanding(h.value) && h.value.msg == Attempted(m)
  {
    hide *;
    h := None;
    ghost var cur := l;
    while h.None?
      invariant q.Good() && !q.frozen && !q.config.starvationAvoidance && Ahead(cur, m, n)
      invariant q.localView == old(q.localView) && q.Records() == old(q.Records())
      invariant h.None? ==> q.Lists(cur)
      invariant forall k | k in cur && (k.id == a || k.id == b) :: k == m || k == n
      invariant h.Some? ==> q.Outstanding(h.value) && h.value.msg == Attempted(m)
      decreases if h.None? then |cur| + 1 else 0
    {
      ListIsSorted(q, cur);
      SomethingAhead(cur, m, n);
      AttemptedKeeps(cur[0]);
      LastIsNotFirst(cur, m, n);
      q.ReserveIs();
      var out := q.Dequeue(now);
      q.ReserveIs();
      NoTick(q.dispatched, q.config.starvationAvoidance, q.config.starvationReserve);
      if out.value.msg.id == a || out.value.msg.id == b {
        h := out;
      } else {
        StaysAhead(cur, m, n);
        cur := cur[1..];
      }
    }
  }

  /** The slot of that number holds no message of that id. */
  ghost predicate New(q: Queue, slot: nat, id: string)
    reads q, q.slots.Values
  {
    id !in ContentsOf(q.ViewOf(slot)).Ids()
  }

  lemma NewMeans(q: Queue, slot: nat, id: string)
    ensures New(q, slot, id) <==> id !in ContentsOf(q.ViewOf(slot)).Ids()
  {
  }

  /** One request of a queue that is the list `l`. */
  method Accept(q: Queue, r: Request, ghost l: seq<Message>, ghost slot: nat, ghost id: string) returns (a: Answer)
    requires q.Good() && q.Lists(l) && Undated(r, q.config.defaultTtl) && New(q, r.slot, r.id)
    modifies q`slots, q`localView, q`seqNo, q`depth, q`reserved, q.localView, q.Records()
    ensures q.Good() && old(q.seqNo) <= q.seqNo && (old(New(q, slot, id)) && id != r.id ==> New(q, slot, id))
    ensures a.Enqueued? ==>
              && q.Lists(Insert(l, a.msg)) && old(q.seqNo) < a.msg.seqNo == q.seqNo && a.msg.id == r.id
              && a.msg.payload == r.options.payload && a.msg.priority == r.options.priority
    ensures forall j | 0 <= j < |q.localView| :: q.localView[j] in old(q.localView) || fresh(q.localView[j])
    ensures forall g | g in q.Records() :: g in old(q.Records()) || fresh(g)
  {
    NewMeans(q, r.slot, r.id);
    NewMeans(q, slot, id);
    hide *;
    ghost var v0 := q.ViewOf(r.slot);
    a := q.EnqueueToSlot(r.slot, r.options, r.id, r.at, true);
    NewMeans(q, slot, id);
    if a.Enqueued? { UndatedIsOrdinary(r, a.msg, q.config.defaultTtl); }
    if old(New(q, slot, id)) && id != r.id && a.Enqueued? && slot == r.slot { NoOtherId(v0, a.msg, r.at, id); }
  }

  /**
   * Two requests made of a queue that holds whatever it holds, and then deliveries until one of the two comes: it is the one
   * asked for at the higher priority, and the first of the two when they were asked for at the same.
   */
  method Race(q: Queue, x: Request, y: Request, now: Time, ghost l: seq<Message>)
    returns (ax: Answer, ay: Answer, first: Option<Handout>)
    requires q.Good() && q.Lists(l) && !q.frozen && !q.config.starvationAvoidance
    requires Undated(x, q.config.defaultTtl) && Undated(y, q.config.defaultTtl)
    requires x.id != y.id && New(q, x.slot, x.id) && New(q, y.slot, y.id) && forall m | m in l :: m.id != x.id && m.id != y.id
    modifies q, q.localView, q.Records()
    ensures q.Good()
    ensures ax.Enqueued? && ay.Enqueued? ==>
              && first.Some? && q.Outstanding(first.value)
              && if y.options.priority > x.options.priority
                 then first.value.msg.id == y.id && first.value.msg.payload == y.options.payload
                 else first.value.msg.id == x.id && first.value.msg.payload == x.options.payload
  {
    hide *;
    first := None;
    ax := Accept(q, x, l, y.slot, y.id);
    if ax.Refused? {
      ay := ax;
      return;
    }
    ghost var l1 := Insert(l, ax.msg);
    ay := Accept(q, y, l1, y.slot, y.id);
    if ay.Refused? {
      return;
    }
    ghost var cur := Insert(l1, ay.msg);
    ListIsSorted(q, cur);
    AttemptedKeeps(ax.msg);
    AttemptedKeeps(ay.msg);
    if y.options.priority > x.options.priority {
      SortedAhead(cur, ay.msg, ax.msg);
      first := FirstOfTwo(q, x.id, y.id, now, cur, ay.msg, ax.msg);
    } else {
      SortedAhead(cur, ax.msg, ay.msg);
      first := FirstOfTwo(q, x.id, y.id, now, cur, ax.msg, ay.msg);
    }
  }
}
