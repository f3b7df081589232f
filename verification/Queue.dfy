/** A queue over its slots: numbering, depth, dispatch, and what crosses slots. */
module Queue {
  import opened Messages
  import opened Seqs
  import opened GroupIndex
  import opened Stats
  import opened PlainSlot
  import opened PlainContents
  import opened SlotState
  import opened SlotView
  import opened SlotRefines
  import opened SlotRuns
  import opened SlotSweeps
  import opened SlotTransfer
  import opened Dispatch
  import opened PlainFragment
  import opened UrgentList
  import opened QueueState
  import opened Slot

  const MAX_RETRIES := 4

  /** `1 << 40`: a sequence number is an ownership generation above, a count of messages below. */
  const GENERATION := 0x100_0000_0000

  datatype Config = Config(
    visibility: Time,
    retry: Retry,
    defaultTtl: Time,
    maxDepth: int,
    starvationAvoidance: bool,
    starvationReserve: real,
    starvationThreshold: Time)

  datatype Options = Options(
    payload: seq<Byte>,
    priority: nat,
    groupId: string,
    ttl: Time,
    deliverAfter: Time)

  datatype Refusal = QueueFrozen | BadSlot | BadPriority | QueueFull | SlotFrozen | LogFailed

  datatype Answer = Enqueued(msg: Message) | Refused(why: Refusal)

  /** Whatever a queue of a later generation numbers comes after all that an earlier one numbered. */
  lemma GenerationsApart(g: nat, n: nat, later: nat, m: nat)
    requires g < later && n < 0x100_0000_0000
    ensures g * GENERATION + n < later * GENERATION + m
  {
    assert (later - g) * GENERATION >= GENERATION;
  }

  /** The message an enqueue makes. A time to live of zero means the queue's own; a negative one, none. */
  function MessageOf(o: Options, id: string, seqNo: nat, now: Time, defaultTtl: Time): Message
    requires o.priority <= MAX_PRIORITY
  {
    var ttl := if o.ttl == 0 then defaultTtl else o.ttl;
    Message(id, o.payload, o.priority, o.groupId, seqNo, now,
            if ttl > 0 then Some(now + ttl) else None,
            if o.deliverAfter > 0 then Some(now + o.deliverAfter) else None, 0)
  }

  lemma MessageHas(o: Options, id: string, seqNo: nat, now: Time, defaultTtl: Time, m: Message)
    requires o.priority <= MAX_PRIORITY && m == MessageOf(o, id, seqNo, now, defaultTtl)
    ensures m.id == id && m.seqNo == seqNo && m.enqueuedAt == now && m.attempts == 0
    ensures m.payload == o.payload && m.priority == o.priority && m.groupId == o.groupId
    ensures var ttl := if o.ttl != 0 then o.ttl else defaultTtl; forall t: Time :: m.Expired(t) <==> ttl > 0 && now + ttl <= t
    ensures forall t: Time :: m.Waiting(t) <==> o.deliverAfter > 0 && t < now + o.deliverAfter
  {
  }

  datatype Receipt = Receipt(slot: nat, id: string, epoch: nat, incarnation: nat)

  /** A message on its way out, and the receipt that ends its delivery. */
  datatype Handout = Handout(msg: Message, receipt: Receipt)

  ghost predicate Ascending(vs: seq<Slot>) {
    forall i, j :: 0 <= i < j < |vs| ==> vs[i].id < vs[j].id
  }

  lemma AscendingInsert(vs: seq<Slot>, i: nat, s: Slot)
    requires Ascending(vs) && i <= |vs|
    requires forall j :: 0 <= j < i ==> vs[j].id < s.id
    requires forall j :: i <= j < |vs| ==> s.id < vs[j].id
    ensures Ascending(vs[..i] + [s] + vs[i..])
  {
    var us := vs[..i] + [s] + vs[i..];
    forall j, k | 0 <= j < k < |us|
      ensures us[j].id < us[k].id
    {
      assert us[j] == (if j < i then vs[j] else if j == i then s else vs[j - 1]);
      assert us[k] == (if k < i then vs[k] else if k == i then s else vs[k - 1]);
    }
  }

  /**
   * Whatever starved work the scan finds is what goes out: the head of the lowest such band of the first such slot, leased
   * until `deadline`.
   */
  ghost predicate ReserveKept(ss: seq<State>, frozen: seq<bool>, ids: seq<nat>, cursor: nat, cutoff: Time, deadline: Time,
                              h: Option<Handout>)
    requires |frozen| == |ss| == |ids|
  {
    forall best: Priority, b: nat, p: Priority | TopUpTo(ss, frozen, |ss|, Some(best)) ::
      ScanFinds(ss, frozen, cursor, best, cutoff, b, p) ==>
        && b < |ss| && TableOk(ss[b].ix) && h.Some? && h.value.receipt.slot == ids[b]
        && Rescued(View(ss[b]), p, cutoff, deadline, Delivery(h.value.msg, h.value.receipt.epoch, deadline))
  }

  lemma KeepsReserve(ss: seq<State>, frozen: seq<bool>, ids: seq<nat>, cursor: nat, top: Option<Priority>, cutoff: Time,
                     deadline: Time, ss': seq<State>, b: nat, d: Delivery, h: Handout)
    requires |frozen| == |ss| == |ids| && TopUpTo(ss, frozen, |ss|, top) && d.deadline == deadline
    requires Escape(ss, frozen, cursor, top, cutoff, deadline, ss', b, Some(d))
    requires b < |ss| && h.msg == d.msg && h.receipt.slot == ids[b] && h.receipt.epoch == d.epoch
    ensures ReserveKept(ss, frozen, ids, cursor, cutoff, deadline, Some(h))
  {
    hide Escape, TopUpTo, ScanFinds, Rescued, View, TableOk;
    forall best: Priority, c: nat, p: Priority
      | TopUpTo(ss, frozen, |ss|, Some(best)) && ScanFinds(ss, frozen, cursor, best, cutoff, c, p)
      ensures c == b && TableOk(ss[b].ix) && Rescued(View(ss[b]), p, cutoff, deadline, d)
    {
      EscapedIs(ss, frozen, cursor, top, cutoff, deadline, ss', b, Some(d), best, c, p);
    }
  }

  lemma NothingToKeep(ss: seq<State>, frozen: seq<bool>, ids: seq<nat>, cursor: nat, cutoff: Time, deadline: Time,
                      h: Option<Handout>)
    requires |frozen| == |ss| == |ids| && NothingStarved(ss, frozen, cursor, cutoff)
    ensures ReserveKept(ss, frozen, ids, cursor, cutoff, deadline, h)
  {
    hide TopUpTo, ScanFinds;
  }

  function FromSlot(id: nat, ms: seq<Message>): (r: seq<(nat, Message)>)
    ensures |r| == |ms| && forall i | 0 <= i < |r| :: r[i] == (id, ms[i])
  {
    seq(|ms|, i requires 0 <= i < |ms| => (id, ms[i]))
  }

  class Queue {
    const incarnation: nat
    const slotCount: nat
    var config: Config
    var slots: map<nat, Slot>
    /** The slots in the order of their ids. */
    var localView: seq<Slot>
    var seqNo: nat
    var depth: int
    var reserved: int
    /** Deliveries asked for, and deliveries made from the reserve. */
    var dispatched: nat
    var escapes: nat
    var cursor: nat
    var frozen: bool
    /** Room of messages that expired inside a take or a nack: nothing gives it back. */
    ghost var unclaimed: nat

    /** Every slot in the view, each with group records of its own. */
    ghost predicate Apart()
      reads this`slots, this`localView, localView
    {
      && Ascending(localView)
      && (forall s, t | s in localView && t in localView && s != t :: s.records !! t.records)
      && (forall s | s in localView :: s.id in slots && slots[s.id] == s)
      && (forall id | id in slots :: slots[id] in localView && slots[id].id == id)
    }

    ghost function Records(): set<Group>
      reads this`localView, localView
    {
      set s, g | s in localView && g in s.records :: g
    }

    ghost function States(): seq<State>
      reads this`localView, localView
    {
      var vs := localView;
      seq(|vs|, i requires 0 <= i < |vs| reads vs => vs[i].state)
    }

    ghost function Frozen(): seq<bool>
      reads this`localView, localView
    {
      var vs := localView;
      seq(|vs|, i requires 0 <= i < |vs| reads vs => vs[i].frozen)
    }

    /**
     * Each slot is sound, numbers handed out are not below any number held, and the depth is what is held plus the room
     * nobody gave back.
     */
    ghost predicate Good()
      reads this`slots, this`localView, this`seqNo, this`depth, this`unclaimed, localView, Records()
    {
      Whole() && SlotsOk(States(), seqNo) && depth == TotalHeld(States()) + unclaimed
    }

    ghost predicate Whole()
      reads this`slots, this`localView, localView, Records()
    {
      Apart() && forall s | s in localView :: s.Repr()
    }

    /** Numbers start at the generation, shifted above any count of messages; the queue is the empty list. */
    constructor (incarnation: nat, generation: nat, slotCount: nat, config: Config)
      ensures Good() && localView == [] && slots == map[] && seqNo == generation * 0x100_0000_0000 && depth == 0
      ensures this.incarnation == incarnation && this.slotCount == slotCount && this.config == config && !frozen
      ensures Lists([])
    {
      this.incarnation, this.slotCount, this.config := incarnation, slotCount, config;
      slots, localView := map[], [];
      seqNo, depth, reserved, dispatched, escapes, cursor := generation * GENERATION, 0, 0, 0, 0, 0;
      frozen := false;
      unclaimed := 0;
    }

    // ---- Dispatch ----

    /** One pass over the slots in service: the one that offers the highest band, then the lowest head number. */
    method FindBest() returns (best: Option<nat>)
      requires Good()
      ensures Good() && States() == old(States()) && Frozen() == old(Frozen()) && Records() == old(Records())
      ensures ScanUpTo(States(), Frozen(), |localView|, best)
    {
      hide *;
      GoodParts();
      best := None;
      ghost var ss, fz := States(), Frozen();
      ViewSize();
      ScanStart(ss, fz);
      var i := 0;
      while i < |localView|
        invariant Good() && Whole() && i <= |localView| && ScanUpTo(ss, fz, i, best)
        invariant ss == States() && fz == Frozen() && Records() == old(Records())
      {
        HintsAgree(i);
        ScanBound(ss, fz, i, best);
        ScanMore(ss, fz, i, best);
        if !localView[i].frozen && localView[i].hint > 0 {
          if best.None? {
            best := Some(i);
          } else {
            HintsAgree(best.value);
            var s, t := localView[i], localView[best.value];
            if s.hint > t.hint || (s.hint == t.hint && s.headSeq < t.headSeq) {
              best := Some(i);
            }
          }
        }
        i := i + 1;
      }
    }

    lemma ViewSize()
      ensures |States()| == |Frozen()| == |localView|
    {
    }

    lemma HintsAgree(i: nat)
      requires Whole() && i < |localView|
      ensures |States()| == |Frozen()| == |localView|
      ensures localView[i].hint == States()[i].hint && localView[i].headSeq == States()[i].headSeq
      ensures localView[i].frozen == Frozen()[i]
    {
      assert localView[i] in localView;
    }

    lemma SlotAt(b: nat)
      requires Good() && b < |localView|
      ensures SlotOk(States()[b], seqNo) && SlotInv(localView[b].state)
      ensures localView[b].state == States()[b] && localView[b] in localView
    {
    }

    method TakeAt(b: nat, p: Priority, now: Time, deadline: Time) returns (d: Option<Delivery>)
      requires Whole() && b < |localView| && SlotInv(localView[b].state)
      modifies localView, Records()
      ensures Whole() && Frozen() == old(Frozen()) && Records() == old(Records())
      ensures States() == old(States())[b := States()[b]]
      ensures SlotInv(States()[b]) && Taken(old(States())[b], p, now, deadline, States()[b], d)
      ensures (View(States()[b]), d) == PlainSlot.Take(old(View(localView[b].state)), p, now, deadline)
    {
      hide Slot.Repr, SlotInv, View, PlainSlot.Take, Taken;
      assert localView[b] in localView;
      d := localView[b].Take(p, now, deadline);
      assert forall t | t in localView && t != localView[b] :: t.Repr();
      OneChanged(b);
    }

    /** One take from slot number `b` of the view. */
    method TakeFrom(b: nat, p: Priority, now: Time, deadline: Time) returns (d: Option<Delivery>)
      requires Good() && b < |localView| && p in States()[b].ix.bands
      requires TableOk(States()[b].ix) && |View(States()[b]).st.ready| == 3
      modifies localView, Records(), this`unclaimed
      ensures Good() && Frozen() == old(Frozen()) && Records() == old(Records())
      ensures States() == old(States())[b := States()[b]] && TableOk(States()[b].ix)
      ensures Taken(old(States())[b], p, now, deadline, States()[b], d)
      ensures (View(States()[b]), d) == PlainSlot.Take(old(View(States()[b])), p, now, deadline)
      ensures TotalEntries(States()) < old(TotalEntries(States()))
      ensures unclaimed == old(unclaimed) + States()[b].st.expired - old(States())[b].st.expired
    {
      hide *;
      GoodParts();
      ViewSize();
      ghost var ss := States();
      SlotAt(b);
      SlotIsCore(ss[b]);
      HeldInView(ss[b]);
      d := TakeAt(b, p, now, deadline);
      ViewSize();
      SlotIsCore(States()[b]);
      TakeAccount(ss, seqNo, b, p, now, deadline, States()[b], d);
      Forgo(States()[b].st.expired - ss[b].st.expired);
    }

    /** `n` messages expired where nobody gives their room back. */
    ghost method Forgo(n: nat)
      requires Whole() && SlotsOk(States(), seqNo) && depth == TotalHeld(States()) + unclaimed + n
      modifies this`unclaimed
      ensures Good() && unclaimed == old(unclaimed) + n
      ensures States() == old(States()) && Frozen() == old(Frozen()) && Records() == old(Records())
    {
      hide SlotsOk, TotalHeld;
      unclaimed := unclaimed + n;
    }

    lemma GoodParts()
      requires Good()
      ensures Whole() && SlotsOk(States(), seqNo) && depth == TotalHeld(States()) + unclaimed
    {
    }

    /** The queue is the sorted list `l`: only messages of the fragment, and every slot in service. */
    ghost predicate Lists(l: seq<Message>)
      reads this`localView, this`seqNo, localView
    {
      IsList(States(), l, seqNo) && InService(Frozen())
    }

    /**
     * Up to four attempts at the best slot, each on a fresh scan. An attempt can fail because a band held nothing but stale
     * entries or expired messages; it then leaves fewer entries behind.
     */
    method TakeUrgent(now: Time) returns (d: Option<Delivery>, b: nat)
      requires Good()
      modifies localView, Records(), this`unclaimed
      ensures Good() && Frozen() == old(Frozen()) && Records() == old(Records())
      ensures d.Some? ==> b < |localView| && !Frozen()[b] && SlotInv(States()[b]) &&
                          var v := View(States()[b]); d.value.msg.id in v.leases && v.leases[d.value.msg.id] == d.value
      ensures d.Some? ==> d.value.deadline == now + config.visibility
      ensures if d.None? && States() == old(States()) then NothingOffered(States(), Frozen())
              else TotalEntries(States()) < old(TotalEntries(States()))
      ensures NothingOffered(old(States()), Frozen()) ==> d.None? && States() == old(States())
      ensures AllFresh(old(States()), Frozen(), now) ==>
                if d.None? then SameViews(old(States()), States())
                else
                  var p := d.value.msg.priority;
                  && NoneAbove(old(States()), Frozen(), p)
                  && SameViews(old(States())[b := States()[b]], States())
                  && (View(States()[b]), d) == PlainSlot.Take(old(View(States()[b])), p, now, now + config.visibility)
      ensures forall l | old(Lists(l)) :: ListAfter(l, States(), seqNo, d)
    {
      hide *;
      GoodParts();
      ViewSize();
      ListsMean();
      RetriesBound();
      ghost var ss0, fz, top := States(), Frozen(), seqNo;
      SameViewsStart(ss0, top);
      d, b := None, 0;
      var attempt := 0;
      while attempt < MAX_RETRIES
        invariant Good() && Frozen() == fz && |localView| == |fz| && Records() == old(Records()) && d.None?
        invariant attempt == 0 ==> States() == ss0
        invariant attempt > 0 ==> TotalEntries(States()) < TotalEntries(ss0) && !NothingOffered(ss0, fz)
        invariant AllFresh(ss0, fz, now) ==> SameViews(ss0, States())
        invariant attempt > 0 ==> forall l :: !(IsList(ss0, l, top) && InService(fz))
        decreases MAX_RETRIES - attempt
      {
        GoodParts();
        ViewSize();
        ghost var ss1 := States();
        var best := FindBest();
        ScanResult(ss1, fz, best);
        if best.None? {
          ListsAreEmpty(ss1, fz, top);
          return;
        }
        b := best.value;
        ChoiceBound(ss1, fz, b);
        ChoiceIsOffered(ss1, fz, b);
        ChoiceIsTop(ss1, fz, top, b);
        HintsAgree(b);
        SlotAt(b);
        SlotIsCore(ss1[b]);
        HeldInView(ss1[b]);
        var p: Priority := localView[b].hint - 1;
        d := TakeFrom(b, p, now, now + config.visibility);
        GoodParts();
        ViewSize();
        SlotAt(b);
        SlotIsCore(States()[b]);
        TakeLease(View(ss1[b]), p, now, now + config.visibility);
        ListTakes(ss1, fz, top, b, p, now, now + config.visibility, States()[b], d);
        if AllFresh(ss0, fz, now) {
          FreshTake(ss0, ss1, fz, top, b, p, now, now + config.visibility, States()[b], d);
        }
        if d.Some? {
          return;
        }
        attempt := attempt + 1;
      }
    }

    lemma RetriesBound()
      ensures MAX_RETRIES == 4
    {
    }

    lemma ListsMean()
      ensures forall l :: Lists(l) <==> IsList(States(), l, seqNo) && InService(Frozen())
    {
    }

    // ---- The reserve for starved work ----

    method BestBand() returns (top: Option<Priority>)
      requires Good()
      ensures Good() && States() == old(States()) && Frozen() == old(Frozen()) && Records() == old(Records())
      ensures TopUpTo(States(), Frozen(), |localView|, top)
    {
      hide *;
      GoodParts();
      top := None;
      ghost var ss, fz := States(), Frozen();
      ViewSize();
      TopStart(ss, fz);
      var i := 0;
      while i < |localView|
        invariant Good() && Whole() && i <= |localView| && TopUpTo(ss, fz, i, top)
        invariant ss == States() && fz == Frozen() && Records() == old(Records())
      {
        HintsAgree(i);
        SlotAt(i);
        HintSmall(ss[i], seqNo);
        MaxBand();
        TopMore(ss, fz, i, top);
        if !localView[i].frozen && localView[i].hint > 0 {
          if top.None? || localView[i].hint - 1 > top.value {
            top := Some(localView[i].hint - 1);
          }
        }
        i := i + 1;
      }
    }

    lemma MaxBand()
      ensures MAX_PRIORITY == 100 && SCAN_LIMIT == 16
    {
    }

    /** The band of slot number `b` whose head has waited too long, if there is one. */
    lemma CanScan(b: nat)
      requires Good() && b < |localView|
      ensures localView[b].Repr() && localView[b].state == States()[b]
      ensures EntriesOk(localView[b].state.ix) && MaskOk(localView[b].state.ix)
    {
      hide Slot.Repr, EntriesOk, MaskOk, TotalHeld, Ascending;
      SlotAt(b);
      ScanFacts(States()[b], seqNo);
    }

    lemma RecordsThere()
      ensures forall g | g in Records() :: allocated(g)
    {
    }

    twostate lemma NothingChanged()
      requires old(Good()) && unchanged(this) && unchanged(localView)
      requires forall g | g in old(Records()) :: unchanged(g)
      ensures Good() && States() == old(States()) && Frozen() == old(Frozen()) && Records() == old(Records())
    {
      hide SlotsOk, TotalHeld, Ascending;
    }

    method OldestAt(b: nat, cutoff: Time) returns (p: Option<Priority>)
      requires Good() && b < |localView|
      ensures Good() && States() == old(States()) && Frozen() == old(Frozen()) && Records() == old(Records())
      ensures b < |States()| && (p.Some? ==> p.value in States()[b].ix.bands) && LowestStarved(States()[b], p, cutoff)
    {
      hide *;
      CanScan(b);
      ViewSize();
      RecordsThere();
      p := localView[b].OldestBandBefore(cutoff);
      LowestIs(States()[b], p, cutoff);
      NothingChanged();
    }

    /** Takes from slot number `b` if its lowest starved band is below `best`. */
    method TakeOldest(b: nat, best: Priority, cutoff: Time, now: Time) returns (d: Option<Delivery>, ghost p: Option<Priority>)
      requires Good() && b < |localView| && |Frozen()| == |States()| == |localView| && !Frozen()[b]
      modifies this`unclaimed, localView, Records()
      ensures Good() && Frozen() == old(Frozen()) && Records() == old(Records()) && |States()| == |localView|
      ensures d.Some? ==> b < |States()| && SlotInv(States()[b]) && d.value.deadline == now + config.visibility &&
                          var v := View(States()[b]); d.value.msg.id in v.leases && v.leases[d.value.msg.id] == d.value
      ensures LowestStarved(old(States())[b], p, cutoff)
      ensures p.None? || p.value >= best ==> d.None? && States() == old(States())
      ensures p.Some? && p.value < best && AllFresh(old(States()), Frozen(), now) ==>
                && d.Some? && States() == old(States())[b := States()[b]] && TableOk(old(States())[b].ix)
                && Rescued(View(old(States())[b]), p.value, cutoff, now + config.visibility, d.value)
    {
      hide *;
      GoodParts();
      ghost var ss, fz := States(), Frozen();
      SlotAt(b);
      SlotIsCore(ss[b]);
      HeldInView(ss[b]);
      var oldest := OldestAt(b, cutoff);
      p := oldest;
      d := None;
      if oldest.None? || oldest.value >= best {
        return;
      }
      LowestIsStarved(ss[b], p, cutoff);
      d := TakeFrom(b, oldest.value, now, now + config.visibility);
      ViewSize();
      SlotAt(b);
      SlotIsCore(States()[b]);
      TakeLease(View(ss[b]), p.value, now, now + config.visibility);
      if AllFresh(ss, fz, now) {
        StarvedTake(ss, fz, seqNo, b, p.value, cutoff, now, now + config.visibility, States()[b], d);
      }
    }

    /**
     * Up to sixteen slots from a moving start: the first with a band below the best one whose head has waited past the
     * threshold is taken from, at its lowest such band.
     */
    method TakeStarved(now: Time) returns (d: Option<Delivery>, b: nat, ghost best: Option<Priority>)
      requires Good()
      modifies this`cursor, this`unclaimed, localView, Records()
      ensures Good() && Frozen() == old(Frozen()) && Records() == old(Records())
      ensures d.Some? ==> b < |localView| && !Frozen()[b] && SlotInv(States()[b]) &&
                          var v := View(States()[b]); d.value.msg.id in v.leases && v.leases[d.value.msg.id] == d.value
      ensures d.Some? ==> d.value.deadline == now + config.visibility
      ensures TopUpTo(old(States()), Frozen(), |localView|, best)
      ensures AllFresh(old(States()), Frozen(), now) ==>
                Escape(old(States()), Frozen(), old(cursor) + 1, best, now - config.starvationThreshold,
                       now + config.visibility, States(), b, d)
    {
      hide *;
      GoodParts();
      ViewSize();
      MaxBand();
      ghost var ss0, fz := States(), Frozen();
      d, b := None, 0;
      var top := BestBand();
      best := top;
      var cutoff := now - config.starvationThreshold;
      if |localView| == 0 || top.None? {
        if |localView| == 0 { NoTopWhenEmpty(ss0, fz, top); }
        NoEscape(ss0, fz, cursor + 1, top, cutoff, now + config.visibility, b);
        return;
      }
      StepCursor();
      ScanBegins(ss0, fz, cursor, top.value, cutoff);
      var start := cursor % |localView|;
      var i := 0;
      while i < |localView| && i < SCAN_LIMIT
        invariant Good() && Frozen() == fz && |localView| == |fz| == |ss0| && Records() == old(Records()) && d.None?
        invariant AllFresh(ss0, fz, now) ==> States() == ss0
        invariant 0 <= start < |localView| && localView == old(localView) && start == cursor % |localView|
        invariant cursor == old(cursor) + 1 && i <= Scanned(|ss0|)
        invariant AllFresh(ss0, fz, now) ==> NoneStarved(ss0, fz, cursor, i, top.value, cutoff)
      {
        b := (start + i) % |localView|;
        ghost var at := i;
        i := i + 1;
        ScanAtIs(cursor, at, |localView|);
        ViewSize();
        GoodParts();
        HintsAgree(b);
        if localView[b].frozen {
          if AllFresh(ss0, fz, now) { ScanPasses(ss0, fz, cursor, at, top.value, cutoff, None); }
          continue;
        }
        ghost var p;
        d, p := TakeOldest(b, top.value, cutoff, now);
        ViewSize();
        if AllFresh(ss0, fz, now) {
          if p.None? || p.value >= top.value {
            ScanPasses(ss0, fz, cursor, at, top.value, cutoff, p);
          } else {
            ScanStops(ss0, fz, cursor, at, top.value, cutoff, p.value);
            Escapes(ss0, fz, cursor, top.value, cutoff, now + config.visibility, b, p.value, States()[b], d.value);
          }
        }
        if d.Some? {
          return;
        }
      }
      if AllFresh(ss0, fz, now) {
        NoEscape(ss0, fz, cursor, top, cutoff, now + config.visibility, b);
      }
    }

    method StepCursor()
      requires Good()
      modifies this`cursor
      ensures cursor == old(cursor) + 1
      ensures Good() && States() == old(States()) && Frozen() == old(Frozen()) && Records() == old(Records())
    {
      hide SlotsOk, TotalHeld, Ascending, Slot.Repr;
      cursor := cursor + 1;
    }

    // ---- Slots by id ----

    /** What the slot of id `j` stands for; a slot that was never made is empty. */
    ghost function ViewOf(j: nat): Plain
      reads this`slots, slots.Values
    {
      if j in slots && TableOk(slots[j].state.ix) then View(slots[j].state) else PlainSlot.EMPTY
    }

    lemma ViewAt(i: nat)
      requires Good() && i < |localView|
      ensures TableOk(States()[i].ix) && ViewOf(localView[i].id) == View(States()[i])
    {
      hide View;
      SlotAt(i);
      SlotIsCore(States()[i]);
    }

    twostate lemma OthersSame(b: nat)
      requires old(Apart()) && Apart() && localView == old(localView) && slots == old(slots) && b < |localView|
      requires States() == old(States())[b := States()[b]]
      ensures forall j | j != localView[b].id :: ViewOf(j) == old(ViewOf(j))
    {
      forall j | j != localView[b].id
        ensures ViewOf(j) == old(ViewOf(j))
      {
        if j in slots {
          var i :| 0 <= i < |localView| && localView[i] == slots[j];
          assert States()[i] == old(States())[i];
        }
      }
    }

    /** Where a new id goes in the view. */
    method Position(id: nat) returns (i: nat)
      requires Whole() && id !in slots
      ensures i <= |localView|
      ensures forall j :: 0 <= j < i ==> localView[j].id < id
      ensures forall j :: i <= j < |localView| ==> id < localView[j].id
    {
      hide Slot.Repr;
      i := 0;
      while i < |localView| && localView[i].id < id
        invariant i <= |localView|
        invariant forall j :: 0 <= j < i ==> localView[j].id < id
      {
        i := i + 1;
      }
      assert forall j :: 0 <= j < |localView| ==> localView[j].id in slots;
    }

    twostate lemma Widened(i: nat, new s: Slot)
      requires i <= |old(localView)| && localView == old(localView)[..i] + [s] + old(localView)[i..]
      requires s.state == NewState() && !s.frozen
      requires forall t | t in old(localView) :: t.state == old(t.state) && t.frozen == old(t.frozen)
      ensures States() == WithSlot(old(States()), i)
      ensures Frozen() == old(Frozen())[..i] + [false] + old(Frozen())[i..]
    {
      hide NewState;
      var was := old(localView);
      forall j | 0 <= j < |localView|
        ensures States()[j] == WithSlot(old(States()), i)[j]
        ensures Frozen()[j] == (old(Frozen())[..i] + [false] + old(Frozen())[i..])[j]
      {
        if j < i {
          assert localView[j] == was[j] && was[j] in was;
        } else if j > i {
          assert localView[j] == was[j - 1] && was[j - 1] in was;
        }
      }
    }

    twostate lemma StaysApart(i: nat, new s: Slot)
      requires old(Apart()) && i <= |old(localView)| && localView == old(localView)[..i] + [s] + old(localView)[i..]
      requires slots == old(slots)[s.id := s] && s.id !in old(slots) && s.records == {}
      requires forall j :: 0 <= j < i ==> old(localView)[j].id < s.id
      requires forall j :: i <= j < |old(localView)| ==> s.id < old(localView)[j].id
      requires forall t | t in old(localView) :: t.records == old(t.records)
      ensures Apart() && Records() == old(Records())
    {
      hide Ascending;
      AscendingInsert(old(localView), i, s);
      assert forall t :: t in localView <==> t in old(localView) || t == s;
    }

    method AddSlot(id: nat, i: nat) returns (s: Slot)
      requires Whole() && id !in slots && i <= |localView|
      requires forall j :: 0 <= j < i ==> localView[j].id < id
      requires forall j :: i <= j < |localView| ==> id < localView[j].id
      modifies this`slots, this`localView
      ensures Whole() && Records() == old(Records()) && fresh(s) && s.id == id && s.state == NewState() && !s.frozen
      ensures localView == old(localView)[..i] + [s] + old(localView)[i..] && slots == old(slots)[id := s]
      ensures States() == WithSlot(old(States()), i)
      ensures Frozen() == old(Frozen())[..i] + [false] + old(Frozen())[i..]
    {
      hide Slot.Repr, States, Frozen, Records, Apart, WithSlot;
      s := new Slot(id);
      slots := slots[id := s];
      localView := localView[..i] + [s] + localView[i..];
      StaysApart(i, s);
      Widened(i, s);
      assert forall t :: t in localView <==> t in old(localView) || t == s;
    }

    twostate lemma ViewsWiden(new s: Slot)
      requires s.id !in old(slots) && slots == old(slots)[s.id := s] && s.state == NewState()
      requires forall j | j in old(slots) :: old(slots)[j].state == old(slots[j].state)
      ensures forall j :: ViewOf(j) == old(ViewOf(j))
    {
      hide View;
      NewStateView(s.state);
    }

    /** The slot of an id, made when there is none. */
    method GetSlot(id: nat) returns (s: Slot, ghost i: nat)
      requires Good()
      modifies this`slots, this`localView
      ensures Good() && Records() == old(Records())
      ensures i < |localView| && localView[i] == s && s.id == id && s.frozen == old(SlotIsFrozen(id))
      ensures if id in old(slots) then localView == old(localView) && slots == old(slots)
              else fresh(s) && i <= |old(localView)| && localView == old(localView)[..i] + [s] + old(localView)[i..]
                   && slots == old(slots)[id := s]
      ensures forall j :: ViewOf(j) == old(ViewOf(j)) && SlotIsFrozen(j) == old(SlotIsFrozen(j))
      ensures forall l | old(Lists(l)) :: Lists(l)
    {
      hide Slot.Repr, States, Frozen, Records, Ascending, WithSlot, SlotsOk, TotalHeld, View, NewState, IsList, InService;
      if id in slots {
        s := slots[id];
        i :| 0 <= i < |localView| && localView[i] == s;
        return;
      }
      var at := Position(id);
      i := at;
      ViewSize();
      SlotsOkWithSlot(States(), seqNo, i);
      TotalHeldWithSlot(States(), i);
      ListsWithSlot(States(), Frozen(), seqNo, i);
      s := AddSlot(id, at);
      ViewsWiden(s);
    }

    // ---- Enqueue ----

    /** One slot changed, and may have new group records. */
    twostate lemma OneChanged(b: nat)
      requires old(Apart()) && localView == old(localView) && slots == old(slots) && b < |localView|
      requires forall t | t in localView && t != localView[b] ::
                 localView[b].records !! old(t.records) && t.records == old(t.records) && t.state == old(t.state)
      requires forall t | t in localView :: t.frozen == old(t.frozen)
      ensures Apart() && Records() <= old(Records()) + (localView[b].records - old(localView[b].records))
      ensures localView[b].records == old(localView[b].records) ==> Records() == old(Records())
      ensures States() == old(States())[b := States()[b]] && Frozen() == old(Frozen())
    {
      OneStateChanged(b);
      OneRecordsChanged(b);
      hide Records, States, Frozen;
    }

    twostate lemma OneStateChanged(b: nat)
      requires old(Apart()) && localView == old(localView) && b < |localView|
      requires forall t | t in localView && t != localView[b] :: t.state == old(t.state)
      requires forall t | t in localView :: t.frozen == old(t.frozen)
      ensures States() == old(States())[b := States()[b]] && Frozen() == old(Frozen())
    {
      hide Records;
      forall j | 0 <= j < |localView| && j != b
        ensures localView[j] in localView && localView[j] != localView[b]
      {
      }
    }

    twostate lemma OneRecordsChanged(b: nat)
      requires localView == old(localView) && b < |localView|
      requires forall t | t in localView && t != localView[b] :: t.records == old(t.records)
      ensures Records() <= old(Records()) + (localView[b].records - old(localView[b].records))
      ensures localView[b].records == old(localView[b].records) ==> Records() == old(Records())
    {
    }

    method EnqueueAt(s: Slot, ghost b: nat, m: Message, now: Time)
      requires Whole() && b < |localView| && localView[b] == s && SlotInv(s.state)
      requires TableOk(s.state.ix) && |View(s.state).st.ready| == 3 && m.id !in ContentsOf(View(s.state)).Ids()
      modifies localView, Records()
      ensures Whole() && Frozen() == old(Frozen()) && fresh(Records() - old(Records()))
      ensures States() == old(States())[b := States()[b]]
      ensures SlotInv(States()[b]) && TableOk(States()[b].ix)
      ensures View(States()[b]) == PlainSlot.Enqueue(old(View(s.state)), m, now)
      ensures KeptCurrent(old(States())[b], m.Key(), States()[b])
    {
      hide Slot.Repr, SlotInv, View, PlainSlot.Enqueue, KeptCurrent, ContentsOf, Ascending, TableOk;
      assert s in localView;
      s.Enqueue(m, now);
      assert forall t | t in localView && t != s :: t.Repr();
      OneChanged(b);
      SlotIsCore(s.state);
    }

    predicate Room()
      reads this
    {
      config.maxDepth <= 0 || depth + reserved + 1 <= config.maxDepth
    }

    predicate SlotIsFrozen(j: nat)
      reads this`slots, slots.Values
    {
      j in slots && slots[j].frozen
    }

    /** What an enqueue is answered. */
    function AnswerTo(slotId: nat, o: Options, id: string, now: Time, logOk: bool): Answer
      reads this, slots.Values
    {
      if frozen then Refused(QueueFrozen)
      else if slotId >= slotCount then Refused(BadSlot)
      else if o.priority > MAX_PRIORITY then Refused(BadPriority)
      else if !Room() then Refused(QueueFull)
      else if SlotIsFrozen(slotId) then Refused(SlotFrozen)
      else if !logOk then Refused(LogFailed)
      else Enqueued(MessageOf(o, id, seqNo + 1, now, config.defaultTtl))
    }

    /** The counters follow what happened to the slots. */
    method Settle(top: nat, change: int)
      requires Whole() && SlotsOk(States(), top) && depth + change == TotalHeld(States()) + unclaimed
      modifies this`seqNo, this`depth
      ensures Good() && seqNo == top && depth == old(depth) + change
      ensures States() == old(States()) && Frozen() == old(Frozen()) && Records() == old(Records())
      ensures forall j :: ViewOf(j) == old(ViewOf(j))
    {
      hide SlotsOk, TotalHeld, View, Ascending, Slot.Repr;
      seqNo := top;
      depth := depth + change;
    }

    twostate lemma ListsAfter(new ss: seq<State>, top: nat, new m: Message)
      requires ss == old(States()) && top == old(seqNo) && Frozen() == old(Frozen())
      requires forall l | IsList(ss, l, top) && Ordinary(m) :: IsList(States(), Insert(l, m), seqNo)
      ensures forall l | old(Lists(l)) && Ordinary(m) :: Lists(Insert(l, m))
    {
      hide IsList, Insert, Ordinary;
    }

    twostate lemma ListsKept()
      requires States() == old(States()) && Frozen() == old(Frozen()) && old(seqNo) <= seqNo
      ensures forall l | old(Lists(l)) :: Lists(l)
    {
      hide IsList;
      ListsHigher(States(), old(seqNo), seqNo);
    }

    /** Under the slot's lock: the number is taken, then the record written, then the message shown. */
    method Land(s: Slot, ghost b: nat, m: Message, now: Time)
      requires Good() && b < |localView| && localView[b] == s && m.seqNo == seqNo + 1
      requires m.id !in ContentsOf(ViewOf(s.id)).Ids()
      modifies this`seqNo, this`depth, localView, Records()
      ensures Good() && seqNo == m.seqNo && depth == old(depth) + 1
      ensures forall j | j != s.id :: ViewOf(j) == old(ViewOf(j))
      ensures |old(ViewOf(s.id)).st.ready| == 3 && ViewOf(s.id) == PlainSlot.Enqueue(old(ViewOf(s.id)), m, now)
      ensures forall l | old(Lists(l)) && Ordinary(m) :: Lists(Insert(l, m))
      ensures fresh(Records() - old(Records()))
    {
      hide *;
      GoodParts();
      ViewSize();
      SlotAt(b);
      ViewAt(b);
      ghost var ss := States();
      SlotIsCore(ss[b]);
      HeldInView(ss[b]);
      EnqueueAt(s, b, m, now);
      ViewSize();
      EnqueueStep(ss, seqNo, b, m, now, States()[b]);
      ListsEnqueue(ss, seqNo, b, m, now, States()[b]);
      Settle(m.seqNo, 1);
      ViewAt(b);
      SameApart();
      OthersSame(b);
      ListsAfter(ss, old(seqNo), m);
    }

    twostate lemma SameApart()
      requires old(Good()) && Good()
      ensures old(Apart()) && Apart()
    {
    }

    /** The log refused the record: the number stays unused. */
    method SkipNumber()
      requires Good()
      modifies this`seqNo, this`depth
      ensures Good() && seqNo == old(seqNo) + 1 && depth == old(depth)
      ensures forall j :: ViewOf(j) == old(ViewOf(j))
      ensures forall l | old(Lists(l)) :: Lists(l)
    {
      hide *;
      GoodParts();
      ListsHigher(States(), seqNo, seqNo + 1);
      Settle(seqNo + 1, 0);
      ListsKept();
    }

    /** An enqueue that passed the checks. */
    method Place(slotId: nat, m: Message, now: Time, logOk: bool) returns (why: Option<Refusal>)
      requires Good() && m.id !in ContentsOf(ViewOf(slotId)).Ids() && m.seqNo == seqNo + 1
      modifies this`slots, this`localView, this`seqNo, this`depth, localView, Records()
      ensures Good()
      ensures why == if old(SlotIsFrozen(slotId)) then Some(SlotFrozen) else if !logOk then Some(LogFailed) else None
      ensures seqNo == if why == Some(SlotFrozen) then old(seqNo) else m.seqNo
      ensures depth == old(depth) + (if why.None? then 1 else 0)
      ensures forall j | j != slotId || why.Some? :: ViewOf(j) == old(ViewOf(j))
      ensures why.None? ==>
                |old(ViewOf(slotId)).st.ready| == 3 && ViewOf(slotId) == PlainSlot.Enqueue(old(ViewOf(slotId)), m, now)
      ensures forall l | old(Lists(l)) :: why.Some? ==> Lists(l)
      ensures forall l | old(Lists(l)) :: why.None? && Ordinary(m) ==> Lists(Insert(l, m))
      ensures forall j | 0 <= j < |localView| :: localView[j] in old(localView) || fresh(localView[j])
      ensures forall g | g in Records() :: g in old(Records()) || fresh(g)
    {
      hide *;
      GoodParts();
      FrozenIs(slotId);
      var s, i := GetSlot(slotId);
      if s.frozen {
        return Some(SlotFrozen);
      }
      if !logOk {
        SkipNumber();
        return Some(LogFailed);
      }
      label Found:
      ghost var recs := Records();
      Land(s, i, m, now);
      forall g | g in Records() && g !in recs
        ensures fresh(g)
      {
        assert g in Records() - recs && fresh@Found(g);
        assert old(allocated(g)) ==> old@Found(allocated(g));
      }
      return None;
    }

    lemma FrozenIs(j: nat)
      requires Whole()
      ensures SlotIsFrozen(j) <==> j in slots && slots[j].frozen
    {
    }

    /** An enqueue gives its claim back. */
    method GiveBack()
      requires Good()
      modifies this`reserved
      ensures Good() && reserved == old(reserved) - 1
    {
      hide SlotsOk, TotalHeld, Ascending, Slot.Repr;
      reserved := reserved - 1;
    }

    /** `logOk` says whether the log took the record; `id` is new. */
    method EnqueueToSlot(slotId: nat, o: Options, id: string, now: Time, logOk: bool) returns (r: Answer)
      requires Good() && id !in ContentsOf(ViewOf(slotId)).Ids()
      modifies this`slots, this`localView, this`seqNo, this`depth, this`reserved, localView, Records()
      ensures Good() && reserved == old(reserved)
      ensures r == old(AnswerTo(slotId, o, id, now, logOk))
      ensures r.Enqueued? <==>
                && !frozen && slotId < slotCount && o.priority <= 100 && !old(SlotIsFrozen(slotId)) && logOk
                && (config.maxDepth <= 0 || old(depth) + reserved < config.maxDepth)
      ensures r.Refused? ==>
                match r.why
                case QueueFrozen => frozen
                case BadSlot => slotCount <= slotId
                case BadPriority => 100 < o.priority
                case QueueFull => 0 < config.maxDepth <= depth + reserved
                case SlotFrozen => old(SlotIsFrozen(slotId))
                case LogFailed => !logOk
      ensures r.Enqueued? ==>
                && r.msg.id == id && r.msg.seqNo == seqNo && r.msg.enqueuedAt == now && r.msg.attempts == 0
                && r.msg.payload == o.payload && r.msg.priority == o.priority && r.msg.groupId == o.groupId
      ensures r.Enqueued? ==>
                var ttl := if o.ttl != 0 then o.ttl else config.defaultTtl;
                forall t: Time :: r.msg.Expired(t) <==> ttl > 0 && now + ttl <= t
      ensures r.Enqueued? ==> forall t: Time :: r.msg.Waiting(t) <==> o.deliverAfter > 0 && t < now + o.deliverAfter
      ensures seqNo == old(seqNo) + (if r.Enqueued? || r.why == LogFailed then 1 else 0)
      ensures depth == old(depth) + (if r.Enqueued? then 1 else 0)
      ensures forall j | j != slotId || r.Refused? :: ViewOf(j) == old(ViewOf(j))
      ensures r.Enqueued? ==>
                |old(ViewOf(slotId)).st.ready| == 3 && ViewOf(slotId) == PlainSlot.Enqueue(old(ViewOf(slotId)), r.msg, now)
      ensures forall l {:trigger old(Lists(l))} | old(Lists(l)) :: r.Refused? ==> Lists(l)
      ensures forall l {:trigger old(Lists(l))} | old(Lists(l)) :: r.Enqueued? && Ordinary(r.msg) ==> Lists(Insert(l, r.msg))
      ensures forall j | 0 <= j < |localView| :: localView[j] in old(localView) || fresh(localView[j])
      ensures forall g | g in Records() :: g in old(Records()) || fresh(g)
    {
      hide Good, Whole, States, Frozen, Lists, ViewOf, PlainSlot.Enqueue, ContentsOf, Contents.Ids, Insert, Ordinary, MessageOf;
      hide SlotIsFrozen, Message.Expired, Message.Waiting;
      if frozen {
        return Refused(QueueFrozen);
      }
      if slotId >= slotCount {
        return Refused(BadSlot);
      }
      if o.priority > MAX_PRIORITY {
        return Refused(BadPriority);
      }
      reserved := reserved + 1;
      if config.maxDepth > 0 && depth + reserved > config.maxDepth {
        reserved := reserved - 1;
        return Refused(QueueFull);
      }
      var m := MessageOf(o, id, seqNo + 1, now, config.defaultTtl);
      MessageHas(o, id, seqNo + 1, now, config.defaultTtl, m);
      var why := Place(slotId, m, now, logOk);
      GiveBack();
      r := if why.Some? then Refused(why.value) else Enqueued(m);
    }

    // ---- Dequeue ----

    method CountDispatch(escaped: bool)
      requires Good()
      modifies this`dispatched, this`escapes
      ensures Good() && dispatched == old(dispatched) + (if escaped then 0 else 1)
      ensures escapes == old(escapes) + (if escaped then 1 else 0)
      ensures States() == old(States()) && Frozen() == old(Frozen()) && Records() == old(Records())
    {
      hide SlotsOk, TotalHeld, Ascending, Slot.Repr;
      if escaped {
        escapes := escapes + 1;
      } else {
        dispatched := dispatched + 1;
      }
    }

    /** The receipt names a delivery in progress, on a slot in service. */
    ghost predicate Outstanding(h: Handout)
      reads this`slots, slots.Values
    {
      var (r, v) := (h.receipt, ViewOf(h.receipt.slot));
      && r.incarnation == incarnation && r.slot in slots && !slots[r.slot].frozen
      && r.id == h.msg.id && r.id in v.leases && v.leases[r.id].msg == h.msg && v.leases[r.id].epoch == r.epoch
    }

    function HandoutOf(b: nat, d: Delivery): Handout
      reads this`localView
      requires b < |localView|
    {
      Handout(d.msg, Receipt(localView[b].id, d.msg.id, d.epoch, incarnation))
    }

    lemma IsOutstanding(b: nat, d: Delivery)
      requires Good() && b < |localView| && !Frozen()[b] && SlotInv(States()[b])
      requires var v := View(States()[b]); d.msg.id in v.leases && v.leases[d.msg.id] == d
      ensures var h := HandoutOf(b, d);
              && h.msg == d.msg && h.receipt.slot == localView[b].id && h.receipt.epoch == d.epoch
              && Outstanding(h) && EndsAt(h, d.deadline)
    {
      hide View, SlotInv, SlotsOk, TotalHeld, Slot.Repr;
      ViewAt(b);
      assert localView[b] in localView;
    }

    /** The delivery asked for last is one of those set aside for work that has waited too long. */
    ghost predicate OnReserve()
      reads this`dispatched, this`config
    {
      ReserveTick(dispatched, config.starvationAvoidance, config.starvationReserve)
    }

    lemma ReserveIs()
      ensures OnReserve() <==> ReserveTick(dispatched, config.starvationAvoidance, config.starvationReserve)
    {
    }

    /** The lease a handout stands for ends at `deadline`. */
    ghost predicate EndsAt(h: Handout, deadline: Time)
      reads this`slots, slots.Values
    {
      var (r, v) := (h.receipt, ViewOf(h.receipt.slot));
      r.id in v.leases && v.leases[r.id].deadline == deadline
    }

    /** A delivery of the reserve, if the scan for starved work finds any. */
    method TakeReserved(now: Time) returns (h: Option<Handout>)
      requires Good()
      modifies this`escapes, this`cursor, this`unclaimed, this`dispatched, localView, Records()
      ensures Good() && Frozen() == old(Frozen()) && Records() == old(Records()) && dispatched == old(dispatched)
      ensures h.Some? ==> Outstanding(h.value) && EndsAt(h.value, now + config.visibility)
      ensures |States()| == |Frozen()| == |localView| && |old(States())| == |Frozen()| == |SlotIds()|
      ensures AllFresh(old(States()), Frozen(), now) ==>
                var (ss, cutoff, deadline) := (old(States()), now - config.starvationThreshold, now + config.visibility);
                && ReserveKept(ss, Frozen(), SlotIds(), old(cursor) + 1, cutoff, deadline, h)
                && (h.None? <==> NothingStarved(ss, Frozen(), old(cursor) + 1, cutoff)) && (h.None? ==> States() == ss)
    {
      hide *;
      ViewSize();
      IdsAre();
      ghost var ss, fz, ids := States(), Frozen(), SlotIds();
      ghost var cutoff, deadline := now - config.starvationThreshold, now + config.visibility;
      ghost var best;
      var d, b;
      d, b, best := TakeStarved(now);
      ViewSize();
      h := None;
      if AllFresh(ss, fz, now) {
        NothingEscapes(ss, fz, old(cursor) + 1, best, cutoff, deadline, States(), b, d);
      }
      if d.Some? {
        CountDispatch(true);
        h := Some(HandoutOf(b, d.value));
        IsOutstanding(b, d.value);
        if AllFresh(ss, fz, now) {
          KeepsReserve(ss, fz, ids, old(cursor) + 1, best, cutoff, deadline, States(), b, d.value, h.value);
        }
      } else if AllFresh(ss, fz, now) {
        NothingToKeep(ss, fz, ids, old(cursor) + 1, cutoff, deadline, h);
      }
    }

    /**
     * Hands out the next message. A delivery of the reserve is what the scan for starved work finds. Any other, and one of the
     * reserve when there is nothing to find, is the most urgent: nothing in service is above it, and in the fragment the
     * queue is a sorted list and this takes its first element.
     */
    method Dequeue(now: Time) returns (h: Option<Handout>)
      requires Good()
      modifies this`dispatched, this`escapes, this`cursor, this`unclaimed, localView, Records()
      ensures Good() && Frozen() == old(Frozen()) && Records() == old(Records())
      ensures if frozen then h.None? && States() == old(States()) && dispatched == old(dispatched)
              else dispatched == old(dispatched) + 1
      ensures h.Some? ==> Outstanding(h.value) && EndsAt(h.value, now + config.visibility)
      ensures !frozen && OnReserve() && AllFresh(old(States()), Frozen(), now) ==>
                ReserveKept(old(States()), Frozen(), SlotIds(), old(cursor) + 1, now - config.starvationThreshold,
                            now + config.visibility, h)
      ensures !frozen && AllFresh(old(States()), Frozen(), now)
              && (OnReserve() ==> NothingStarved(old(States()), Frozen(), old(cursor) + 1, now - config.starvationThreshold)) ==>
                if h.None? then SameViews(old(States()), States()) else NoneAbove(old(States()), Frozen(), h.value.msg.priority)
      ensures !frozen && !OnReserve() ==>
                if h.None? && States() == old(States()) then NothingOffered(States(), Frozen())
                else TotalEntries(States()) < old(TotalEntries(States()))
      ensures !frozen && !OnReserve() && NothingOffered(old(States()), Frozen()) ==> h.None? && States() == old(States())
      ensures !frozen && !OnReserve() ==>
                forall l | old(Lists(l)) ::
                  if l == [] then h.None? && Lists(l) else h.Some? && h.value.msg == Attempted(l[0]) && Lists(l[1..])
    {
      hide *;
      ViewSize();
      h := None;
      if frozen {
        return;
      }
      ListsMean();
      CountDispatch(false);
      ghost var ss, fz, ids := States(), Frozen(), SlotIds();
      var tick := ReserveTick(dispatched, config.starvationAvoidance, config.starvationReserve);
      if tick {
        h := TakeReserved(now);
        ReserveIs();
        if h.Some? {
          return;
        }
      }
      ReserveIs();
      ListsMean();
      var d, b := TakeUrgent(now);
      ViewSize();
      if d.Some? {
        h := Some(HandoutOf(b, d.value));
        IsOutstanding(b, d.value);
      }
      if tick && AllFresh(ss, fz, now) {
        NothingToKeep(ss, fz, ids, old(cursor) + 1, now - config.starvationThreshold, now + config.visibility, h);
      }
      AfterMeans(States(), seqNo, d);
      ListsMean();
    }

    /**
     * A consumer that asks until it is served, at most `n` times. However many stale entries there are, more calls than
     * there are entries reach a delivery, or a queue with nothing to serve.
     */
    method DequeueWithin(n: nat, now: Time) returns (h: Option<Handout>)
      requires Good() && !frozen && !config.starvationAvoidance
      modifies this`dispatched, this`escapes, this`cursor, this`unclaimed, localView, Records()
      ensures Good() && Frozen() == old(Frozen())
      ensures h.Some? ==> Outstanding(h.value)
      ensures h.None? && n > old(TotalEntries(States())) ==>
                NothingOffered(States(), Frozen()) && NoneAbove(States(), Frozen(), -1)
    {
      hide *;
      ViewSize();
      h := None;
      ghost var total := TotalEntries(States());
      var i := 0;
      while i < n && h.None?
        invariant i <= n && Good() && Frozen() == old(Frozen()) && Records() == old(Records()) && |States()| == |Frozen()|
        invariant h.Some? ==> Outstanding(h.value)
        invariant h.None? ==> NothingOffered(States(), Frozen()) || TotalEntries(States()) + i <= total
      {
        h := Dequeue(now);
        ViewSize();
        ReserveIs();
        NoTick(dispatched, config.starvationAvoidance, config.starvationReserve);
        i := i + 1;
      }
      if h.None? && n > total {
        GoodParts();
        NothingOfferedIsNone(States(), Frozen(), seqNo);
      }
    }

    // ---- Ack and nack ----

    method AckAt(s: Slot, ghost b: nat, id: string, epoch: nat) returns (out: Outcome)
      requires Whole() && b < |localView| && localView[b] == s && SlotInv(s.state)
      requires TableOk(s.state.ix) && |View(s.state).st.ready| == 3
      modifies localView, Records()
      ensures Whole() && Frozen() == old(Frozen()) && Records() == old(Records())
      ensures States() == old(States())[b := States()[b]]
      ensures SlotInv(States()[b]) && TableOk(States()[b].ix)
      ensures (View(States()[b]), out) == PlainSlot.Ack(old(View(s.state)), id, epoch)
      ensures AckedCurrent(old(States())[b], id, States()[b])
    {
      hide Slot.Repr, SlotInv, View, PlainSlot.Ack, AckedCurrent, Ascending, TableOk;
      assert s in localView;
      out := s.Ack(id, epoch);
      assert forall t | t in localView && t != s :: t.Repr();
      OneChanged(b);
      SlotIsCore(s.state);
    }

    method AckSlot(s: Slot, ghost b: nat, id: string, epoch: nat) returns (out: Outcome)
      requires Good() && b < |localView| && localView[b] == s
      modifies this`seqNo, this`depth, localView, Records()
      ensures Good() && seqNo == old(seqNo) && depth == old(depth) - (if out == Done then 1 else 0)
      ensures |old(ViewOf(s.id)).st.ready| == 3 && (ViewOf(s.id), out) == PlainSlot.Ack(old(ViewOf(s.id)), id, epoch)
      ensures forall j | j != s.id :: ViewOf(j) == old(ViewOf(j))
      ensures forall l | old(Lists(l)) :: Lists(l)
    {
      hide *;
      GoodParts();
      ViewSize();
      SlotAt(b);
      ViewAt(b);
      ghost var ss := States();
      SlotIsCore(ss[b]);
      HeldInView(ss[b]);
      out := AckAt(s, b, id, epoch);
      ViewSize();
      AckStep(ss, seqNo, b, id, epoch, States()[b], out);
      ListsAck(ss, seqNo, b, id, epoch, States()[b]);
      Settle(seqNo, if out == Done then -1 else 0);
      ViewAt(b);
      SameApart();
      OthersSame(b);
      ListsHeld(ss);
    }

    twostate lemma ListsHeld(new ss: seq<State>)
      requires ss == old(States()) && seqNo == old(seqNo) && Frozen() == old(Frozen())
      requires forall l | IsList(ss, l, seqNo) :: IsList(States(), l, seqNo)
      ensures forall l | old(Lists(l)) :: Lists(l)
    {
      hide IsList;
    }

    /** A receipt from another life of the queue is refused; any other goes to its slot. */
    method Ack(r: Receipt) returns (out: Outcome)
      requires Good()
      modifies this`slots, this`localView, this`seqNo, this`depth, localView, Records()
      ensures Good() && seqNo == old(seqNo)
      ensures |old(ViewOf(r.slot)).st.ready| == 3
      ensures if r.incarnation != incarnation then out == LeaseExpired && ViewOf(r.slot) == old(ViewOf(r.slot))
              else (ViewOf(r.slot), out) == PlainSlot.Ack(old(ViewOf(r.slot)), r.id, r.epoch)
      ensures depth == old(depth) - (if out == Done then 1 else 0)
      ensures forall j | j != r.slot :: ViewOf(j) == old(ViewOf(j))
      ensures forall l | old(Lists(l)) :: Lists(l)
    {
      hide *;
      ViewReady(r.slot);
      if r.incarnation != incarnation {
        return LeaseExpired;
      }
      var s, i := GetSlot(r.slot);
      out := AckSlot(s, i, r.id, r.epoch);
    }

    lemma ViewReady(j: nat)
      requires Good()
      ensures |ViewOf(j).st.ready| == 3
    {
      hide View, SlotInv;
      if j in slots {
        var i :| 0 <= i < |localView| && localView[i] == slots[j];
        SlotAt(i);
        HeldInView(States()[i]);
      }
    }

    method NackAt(s: Slot, ghost b: nat, id: string, epoch: nat, delay: Time, now: Time)
      returns (dead: Option<Message>, out: Outcome)
      requires Whole() && b < |localView| && localView[b] == s && SlotInv(s.state)
      requires TableOk(s.state.ix) && |View(s.state).st.ready| == 3
      modifies localView, Records()
      ensures Whole() && Frozen() == old(Frozen()) && Records() == old(Records())
      ensures States() == old(States())[b := States()[b]]
      ensures SlotInv(States()[b]) && TableOk(States()[b].ix)
      ensures (View(States()[b]), dead, out) == PlainSlot.Nack(old(View(s.state)), id, epoch, now, delay, config.retry)
    {
      hide Slot.Repr, SlotInv, View, PlainSlot.Nack, Ascending, TableOk;
      assert s in localView;
      dead, out := s.Nack(id, epoch, now, delay, config.retry);
      assert forall t | t in localView && t != s :: t.Repr();
      OneChanged(b);
      SlotIsCore(s.state);
    }

    method NackSlot(s: Slot, ghost b: nat, id: string, epoch: nat, delay: Time, now: Time)
      returns (dead: Option<Message>, out: Outcome)
      requires Good() && b < |localView| && localView[b] == s
      modifies this`seqNo, this`depth, this`unclaimed, localView, Records()
      ensures Good() && seqNo == old(seqNo) && depth == old(depth) - (if dead.Some? then 1 else 0)
      ensures |old(ViewOf(s.id)).st.ready| == 3 && (out != Done ==> dead.None?)
      ensures (ViewOf(s.id), dead, out) == PlainSlot.Nack(old(ViewOf(s.id)), id, epoch, now, delay, config.retry)
      ensures unclaimed == old(unclaimed) + (ViewOf(s.id).st.expired - old(ViewOf(s.id)).st.expired)
      ensures forall j | j != s.id :: ViewOf(j) == old(ViewOf(j))
    {
      hide *;
      GoodParts();
      ViewSize();
      SlotAt(b);
      ViewAt(b);
      ghost var ss := States();
      SlotIsCore(ss[b]);
      HeldInView(ss[b]);
      ViewStats(ss[b]);
      dead, out := NackAt(s, b, id, epoch, delay, now);
      ViewSize();
      ViewStats(States()[b]);
      NackStep(ss, seqNo, b, id, epoch, now, delay, config.retry, States()[b], dead, out);
      SettleAnd(if dead.Some? then -1 else 0, States()[b].st.expired - ss[b].st.expired);
      ViewAt(b);
      SameApart();
      OthersSame(b);
    }

    method SettleAnd(change: int, ghost lost: nat)
      requires Whole() && SlotsOk(States(), seqNo) && depth + change == TotalHeld(States()) + unclaimed + lost
      modifies this`depth, this`unclaimed
      ensures Good() && depth == old(depth) + change && unclaimed == old(unclaimed) + lost
      ensures States() == old(States()) && Frozen() == old(Frozen()) && Records() == old(Records())
      ensures forall j :: ViewOf(j) == old(ViewOf(j))
    {
      hide SlotsOk, TotalHeld, View, Ascending, Slot.Repr;
      depth := depth + change;
      unclaimed := unclaimed + lost;
    }

    /** Only a dead-lettered message gives its room back here; one that expired keeps it. */
    method Nack(r: Receipt, delay: Time, now: Time) returns (dead: Option<Message>, out: Outcome)
      requires Good()
      modifies this`slots, this`localView, this`seqNo, this`depth, this`unclaimed, localView, Records()
      ensures Good() && seqNo == old(seqNo)
      ensures |old(ViewOf(r.slot)).st.ready| == 3
      ensures if r.incarnation != incarnation
              then out == LeaseExpired && dead.None? && ViewOf(r.slot) == old(ViewOf(r.slot))
              else (ViewOf(r.slot), dead, out) == PlainSlot.Nack(old(ViewOf(r.slot)), r.id, r.epoch, now, delay, config.retry)
      ensures depth == old(depth) - (if dead.Some? then 1 else 0)
      ensures unclaimed == old(unclaimed) + (ViewOf(r.slot).st.expired - old(ViewOf(r.slot)).st.expired)
      ensures forall j | j != r.slot :: ViewOf(j) == old(ViewOf(j))
    {
      hide *;
      ViewReady(r.slot);
      if r.incarnation != incarnation {
        return None, LeaseExpired;
      }
      var s, i := GetSlot(r.slot);
      dead, out := NackSlot(s, i, r.id, r.epoch, delay, now);
    }

    // ---- Sweep ----

    method SweepAt(s: Slot, ghost b: nat, now: Time) returns (dead: seq<Message>, removed: int, ghost ops: seq<Op>)
      requires Whole() && b < |localView| && localView[b] == s && SlotInv(s.state) && TableOk(s.state.ix)
      modifies localView, Records()
      ensures Whole() && Frozen() == old(Frozen()) && fresh(Records() - old(Records()))
      ensures States() == old(States())[b := States()[b]]
      ensures SlotInv(States()[b]) && SweptAt(old(States())[b], States()[b], now)
      ensures TableOk(States()[b].ix) && Runs(old(View(s.state)), ops, View(States()[b]))
      ensures forall i | 0 <= i < |ops| :: Sweeping(ops[i])
      ensures removed == Gone(States()[b].st) - Gone(old(States())[b].st)
      ensures SetOf(dead) == GivenUpIn(old(States())[b], now, config.retry)
    {
      hide GivenUp;
      hide Slot.Repr, SlotInv, View, Swept, Runs, Ascending, TableOk, Gone;
      assert s in localView;
      var released, requeued, expired;
      released, dead, requeued, expired, removed, ops := s.Sweep(now, config.retry);
      assert forall t | t in localView && t != s :: t.Repr();
      OneChanged(b);
      SlotIsCore(s.state);
    }

    /**
     * Every slot in service is swept; what left by expiry or dead-lettering gives its room back. Reported are exactly the
     * messages whose delivery was overdue, unexpired and out of retries.
     */
    method Sweep(now: Time) returns (deadLettered: seq<(nat, Message)>)
      requires Good()
      modifies this`depth, this`unclaimed, localView, Records()
      ensures Good() && Frozen() == old(Frozen()) && unclaimed == old(unclaimed)
      ensures SweptUpTo(old(States()), States(), Frozen(), |localView|, now)
      ensures Reported(deadLettered, SlotIds(), old(States()), Frozen(), |localView|, now, config.retry)
    {
      hide *;
      GoodParts();
      ViewSize();
      deadLettered := [];
      ghost var ss0, fz := States(), Frozen();
      ghost var ids := SlotIds();
      IdsAre();
      SweptStart(ss0, fz, now);
      NoneReported(ids, ss0, fz, now, config.retry);
      var removed, i := 0, 0;
      while i < |localView|
        invariant i <= |localView| == |ss0| == |fz| && Whole() && Frozen() == fz && SlotsOk(States(), seqNo)
        invariant depth - removed == TotalHeld(States()) + unclaimed && unclaimed == old(unclaimed)
        invariant SweptUpTo(ss0, States(), fz, i, now) && SlotIds() == ids && |ids| == |ss0|
        invariant Reported(deadLettered, ids, ss0, fz, i, now, config.retry)
        invariant forall g | g in Records() :: g in old(Records()) || fresh(g)
      {
        ViewSize();
        ghost var ss := States();
        StateAt(i);
        SameUpdate(ss, i);
        if !localView[i].frozen {
          SlotIsCore(ss[i]);
          var dead, gone;
          ghost var ops;
          ghost var recs := Records();
          label Before:
          dead, gone, ops := SweepAt(localView[i], i, now);
          forall g | g in Records() && g !in recs
            ensures fresh(g)
          {
            assert g in Records() - recs && fresh@Before(g);
            assert old(allocated(g)) ==> old@Before(allocated(g));
          }
          SweepStep(ss, seqNo, i, ops, States()[i]);
          removed := removed + gone;
          IdsAre();
          NotSweptYet(ss0, ss, fz, i, now);
          ReportedMore(deadLettered, FromSlot(localView[i].id, dead), dead, ids, ss0, fz, i, now, config.retry);
          deadLettered := deadLettered + FromSlot(localView[i].id, dead);
        } else {
          NoMessages();
          ReportedMore(deadLettered, [], [], ids, ss0, fz, i, now, config.retry);
          assert deadLettered + [] == deadLettered;
        }
        SweptMore(ss0, ss, fz, i, now, States()[i]);
        i := i + 1;
      }
      SettleAnd(-removed, 0);
    }

    /** The ids of the view's slots. */
    ghost function SlotIds(): (r: seq<nat>)
      reads this`localView
    {
      var view := localView;
      seq(|view|, i requires 0 <= i < |view| => view[i].id)
    }

    lemma IdsAre()
      ensures |SlotIds()| == |localView| && forall i | 0 <= i < |localView| :: SlotIds()[i] == localView[i].id
    {
    }

    lemma StateAt(i: nat)
      requires SlotsOk(States(), seqNo) && i < |localView|
      ensures States()[i] == localView[i].state && SlotInv(States()[i]) && Frozen()[i] == localView[i].frozen
    {
      assert SlotOk(States()[i], seqNo);
    }

    // ---- Freezing and thawing ----

    method SetFrozenAt(s: Slot, ghost b: nat, on: bool)
      requires Good() && b < |localView| && localView[b] == s
      modifies s`frozen
      ensures Good() && States() == old(States()) && Records() == old(Records())
      ensures forall j :: ViewOf(j) == old(ViewOf(j))
      ensures forall j :: SlotIsFrozen(j) == if j == s.id then on else old(SlotIsFrozen(j))
    {
      hide Slot.Repr, SlotsOk, TotalHeld, View, Ascending;
      assert s in localView;
      s.SetFrozen(on);
      assert forall t | t in localView :: t.records == old(t.records);
      assert forall t | t in localView && t != s :: t.Repr();
      assert States() == old(States());
    }

    /** Takes one slot out of service and copies what it holds. */
    method FreezeOne(id: nat) returns (msgs: seq<Message>)
      requires Good()
      modifies this`slots, this`localView, localView
      ensures Good() && Records() == old(Records()) && forall j | 0 <= j < |localView| :: localView[j] in old(localView) || fresh(localView[j])
      ensures forall j :: ViewOf(j) == old(ViewOf(j))
      ensures forall j: nat :: SlotIsFrozen(j) <==> old(SlotIsFrozen(j)) || j == id
      ensures NoDup(msgs) && SetOf(msgs) == ContentsOf(ViewOf(id)).All()
    {
      hide *;
      var s, i := GetSlot(id);
      SetFrozenAt(s, i, true);
      msgs := CopyAt(s, i);
    }

    method CopyAt(s: Slot, ghost b: nat) returns (msgs: seq<Message>)
      requires Good() && b < |localView| && localView[b] == s
      ensures Good() && Records() == old(Records())
      ensures forall j :: ViewOf(j) == old(ViewOf(j)) && SlotIsFrozen(j) == old(SlotIsFrozen(j))
      ensures NoDup(msgs) && SetOf(msgs) == ContentsOf(ViewOf(s.id)).All()
    {
      hide SlotsOk, TotalHeld, View, ContentsOf, SetOf, NoDup, SlotInv, Slot.Repr, Ascending;
      SlotAt(b);
      ViewAt(b);
      msgs := s.CopyAll();
    }

    /** Stops the named slots and copies what they hold; ids past the end are skipped. */
    method FreezeSlots(ids: seq<nat>) returns (out: map<nat, seq<Message>>)
      requires Good()
      modifies this`slots, this`localView, localView
      ensures Good()
      ensures forall j :: ViewOf(j) == old(ViewOf(j))
      ensures forall j: nat :: SlotIsFrozen(j) <==> old(SlotIsFrozen(j)) || (j in ids && j < slotCount)
      ensures forall j :: j in out <==> j in ids && j < slotCount && ContentsOf(ViewOf(j)).All() != {}
      ensures forall j | j in out :: NoDup(out[j]) && SetOf(out[j]) == ContentsOf(ViewOf(j)).All()
    {
      hide Good, Records, ViewOf, ContentsOf, Contents.All, NoDup, SetOf, SlotIsFrozen;
      out := map[];
      var i := 0;
      while i < |ids|
        invariant i <= |ids| && Good() && forall j | 0 <= j < |localView| :: localView[j] in old(localView) || fresh(localView[j])
        invariant forall j :: ViewOf(j) == old(ViewOf(j))
        invariant forall j: nat :: SlotIsFrozen(j) <==> old(SlotIsFrozen(j)) || (j in ids[..i] && j < slotCount)
        invariant forall j :: j in out <==> j in ids[..i] && j < slotCount && ContentsOf(ViewOf(j)).All() != {}
        invariant forall j | j in out :: NoDup(out[j]) && SetOf(out[j]) == ContentsOf(ViewOf(j)).All()
      {
        var id := ids[i];
        assert ids[..i + 1] == ids[..i] + [id];
        i := i + 1;
        if id >= slotCount {
          continue;
        }
        var msgs := FreezeOne(id);
        EmptyIsNone(msgs);
        if |msgs| > 0 {
          out := out[id := msgs];
        }
      }
      assert ids[..i] == ids;
    }

    method ThawSlots(ids: seq<nat>)
      requires Good()
      modifies this`slots, this`localView, localView
      ensures Good()
      ensures forall j :: ViewOf(j) == old(ViewOf(j))
      ensures forall j: nat :: SlotIsFrozen(j) <==> old(SlotIsFrozen(j)) && !(j in ids && j < slotCount)
    {
      hide Good, Records, ViewOf, SlotIsFrozen;
      var i := 0;
      while i < |ids|
        invariant i <= |ids| && Good() && forall j | 0 <= j < |localView| :: localView[j] in old(localView) || fresh(localView[j])
        invariant forall j :: ViewOf(j) == old(ViewOf(j))
        invariant forall j: nat :: SlotIsFrozen(j) <==> old(SlotIsFrozen(j)) && !(j in ids[..i] && j < slotCount)
      {
        var id := ids[i];
        assert ids[..i + 1] == ids[..i] + [id];
        i := i + 1;
        if id < slotCount {
          var s, b := GetSlot(id);
          SetFrozenAt(s, b, false);
        }
      }
      assert ids[..i] == ids;
    }

    method DrainAt(s: Slot, ghost b: nat) returns (out: seq<Message>)
      requires Whole() && b < |localView| && localView[b] == s && SlotInv(s.state) && TableOk(s.state.ix)
      modifies localView, Records()
      ensures Whole() && Frozen() == old(Frozen()) && Records() <= old(Records())
      ensures States() == old(States())[b := States()[b]]
      ensures SlotInv(States()[b]) && TableOk(States()[b].ix) && View(States()[b]) == PlainSlot.Drain(old(View(s.state))).0
      ensures NoDup(out) && SetOf(out) == old(ContentsOf(View(s.state)).All())
    {
      hide Slot.Repr, SlotInv, View, PlainSlot.Drain, Ascending, TableOk, ContentsOf, Contents.All, NoDup, SetOf, BySeq;
      assert s in localView;
      out := s.Drain();
      assert forall t | t in localView && t != s :: t.Repr();
      OneChanged(b);
      SlotIsCore(s.state);
    }

    /** Empties one slot and puts it back into service. */
    method DropOne(id: nat) returns (n: nat)
      requires Good()
      modifies this`slots, this`localView, this`seqNo, this`depth, localView, Records()
      ensures Good() && seqNo == old(seqNo) && depth == old(depth) - n
      ensures forall j | 0 <= j < |localView| :: localView[j] in old(localView) || fresh(localView[j])
      ensures Records() <= old(Records())
      ensures ViewOf(id) == PlainSlot.Drain(old(ViewOf(id))).0 && n == |old(ContentsOf(ViewOf(id)).All())|
      ensures forall j | j != id :: ViewOf(j) == old(ViewOf(j))
      ensures forall j: nat :: SlotIsFrozen(j) <==> old(SlotIsFrozen(j)) && j != id
    {
      hide *;
      var s, b := GetSlot(id);
      label Found:
      GoodParts();
      ViewSize();
      SlotAt(b);
      ViewAt(b);
      SameApart();
      ghost var ss := States();
      SlotIsCore(ss[b]);
      HeldInView(ss[b]);
      var out := DrainAt(s, b);
      ViewSize();
      DrainStep(ss, seqNo, b, out, States()[b]);
      Settle(seqNo, -|out|);
      ViewAt(b);
      n := |out|;
      SameApart@Found();
      OthersSame@Found(b);
      StillFrozen@Found();
      SetFrozenAt(s, b, false);
    }

    twostate lemma StillFrozen()
      requires slots == old(slots) && localView == old(localView) && old(Apart()) && Frozen() == old(Frozen())
      ensures forall j :: SlotIsFrozen(j) == old(SlotIsFrozen(j))
    {
      forall j | j in slots
        ensures slots[j].frozen == old(slots[j].frozen)
      {
        var i :| 0 <= i < |localView| && localView[i] == slots[j];
        assert Frozen()[i] == old(Frozen())[i];
      }
    }

    /** Empties the named slots and puts them back into service; ids past the end are skipped. */
    method DropSlots(ids: seq<nat>) returns (dropped: nat)
      requires Good()
      modifies this`slots, this`localView, this`seqNo, this`depth, localView, Records()
      ensures Good() && seqNo == old(seqNo) && depth == old(depth) - dropped
      ensures forall j: nat :: ViewOf(j) == if j in ids && j < slotCount then PlainSlot.Drain(old(ViewOf(j))).0 else old(ViewOf(j))
      ensures forall j: nat :: SlotIsFrozen(j) <==> old(SlotIsFrozen(j)) && !(j in ids && j < slotCount)
    {
      hide Good, Records, ViewOf, SlotIsFrozen, PlainSlot.Drain, ContentsOf, Contents.All;
      dropped := 0;
      var i := 0;
      while i < |ids|
        invariant i <= |ids| && Good() && Records() <= old(Records())
        invariant forall j | 0 <= j < |localView| :: localView[j] in old(localView) || fresh(localView[j])
        invariant seqNo == old(seqNo) && depth == old(depth) - dropped
        invariant forall j: nat :: ViewOf(j) ==
                    if j in ids[..i] && j < slotCount then PlainSlot.Drain(old(ViewOf(j))).0 else old(ViewOf(j))
        invariant forall j: nat :: SlotIsFrozen(j) <==> old(SlotIsFrozen(j)) && !(j in ids[..i] && j < slotCount)
      {
        var id := ids[i];
        assert ids[..i + 1] == ids[..i] + [id];
        i := i + 1;
        if id < slotCount {
          DrainTwice(old(ViewOf(id)));
          var n := DropOne(id);
          dropped := dropped + n;
        }
      }
      assert ids[..i] == ids;
    }

    // ---- Absorb ----

    method AbsorbAt(s: Slot, ghost b: nat, msgs: seq<Message>, now: Time) returns (ghost ops: seq<Op>)
      requires Whole() && b < |localView| && localView[b] == s && SlotInv(s.state) && TableOk(s.state.ix)
      requires NewIds(msgs, ContentsOf(View(s.state)).Ids())
      modifies localView, Records()
      ensures Whole() && Frozen() == old(Frozen()) && fresh(Records() - old(Records()))
      ensures States() == old(States())[b := States()[b]]
      ensures SlotInv(States()[b]) && TableOk(States()[b].ix)
      ensures Absorbed(old(View(s.state)), View(States()[b]), msgs, now)
    {
      hide Slot.Repr, SlotInv, View, Absorbed, Ascending, TableOk, ContentsOf, NewIds, Contents.Ids, Runs, Transfers;
      assert s in localView;
      ops := s.Absorb(msgs, now);
      assert forall t | t in localView && t != s :: t.Repr();
      OneChanged(b);
      SlotIsCore(s.state);
    }

    method AbsorbSlot(s: Slot, ghost b: nat, msgs: seq<Message>, now: Time)
      requires Good() && b < |localView| && localView[b] == s && NewIds(msgs, ContentsOf(ViewOf(s.id)).Ids())
      modifies this`seqNo, this`depth, localView, Records()
      ensures Good() && depth == old(depth) + |msgs| && seqNo == Highest(msgs, old(seqNo))
      ensures fresh(Records() - old(Records()))
      ensures Absorbed(old(ViewOf(s.id)), ViewOf(s.id), SortBySeq(msgs), now)
      ensures forall j | j != s.id :: ViewOf(j) == old(ViewOf(j))
      ensures forall j: nat :: SlotIsFrozen(j) == old(SlotIsFrozen(j))
    {
      hide *;
      GoodParts();
      ViewSize();
      SlotAt(b);
      ViewAt(b);
      SameApart();
      ghost var ss := States();
      SlotIsCore(ss[b]);
      HeldInView(ss[b]);
      var sorted := SortBySeq(msgs);
      SortedIds(msgs, ContentsOf(View(ss[b])).Ids());
      ghost var ops := AbsorbAt(s, b, sorted, now);
      ViewSize();
      var top := Highest(msgs, seqNo);
      AbsorbStep(ss, seqNo, b, msgs, now, States()[b], top);
      Settle(top, |msgs|);
      ViewAt(b);
      SameApart();
      OthersSame(b);
      StillFrozen();
    }

    /**
     * One slot's share: in the order of the sequence numbers, ahead of what is here. Numbers handed out from now on are
     * above every number that came in.
     */
    method AbsorbOne(id: nat, msgs: seq<Message>, now: Time)
      requires Good() && NewIds(msgs, ContentsOf(ViewOf(id)).Ids())
      modifies this`slots, this`localView, this`seqNo, this`depth, localView, Records()
      ensures Good() && depth == old(depth) + |msgs| && seqNo == Highest(msgs, old(seqNo))
      ensures forall j | 0 <= j < |localView| :: localView[j] in old(localView) || fresh(localView[j])
      ensures forall g | g in Records() :: g in old(Records()) || fresh(g)
      ensures Absorbed(old(ViewOf(id)), ViewOf(id), SortBySeq(msgs), now)
      ensures forall j | j != id :: ViewOf(j) == old(ViewOf(j))
      ensures forall j: nat :: SlotIsFrozen(j) == old(SlotIsFrozen(j))
    {
      hide *;
      var s, b := GetSlot(id);
      label Found:
      ghost var recs := Records();
      AbsorbSlot(s, b, msgs, now);
      forall g | g in Records() && g !in recs
        ensures fresh(g)
      {
        assert g in Records() - recs && fresh@Found(g);
        assert old(allocated(g)) ==> old@Found(allocated(g));
      }
    }

    /** Every share in turn; the slots come in no particular order, and a slot with nothing to take is not made. */
    method Absorb(bySlot: map<nat, seq<Message>>, now: Time)
      requires Good() && forall id | id in bySlot :: NewIds(bySlot[id], ContentsOf(ViewOf(id)).Ids())
      modifies this`slots, this`localView, this`seqNo, this`depth, localView, Records()
      ensures Good() && old(seqNo) <= seqNo
      ensures forall id | id in bySlot :: forall m | m in bySlot[id] :: m.seqNo <= seqNo
      ensures forall id | id in bySlot && bySlot[id] != [] ::
                Absorbed(old(ViewOf(id)), ViewOf(id), SortBySeq(bySlot[id]), now)
      ensures forall id: nat | id !in bySlot || bySlot[id] == [] :: ViewOf(id) == old(ViewOf(id))
      ensures forall j: nat :: SlotIsFrozen(j) == old(SlotIsFrozen(j))
    {
      hide Good, Records, ViewOf, SlotIsFrozen, Absorbed, SortBySeq, ContentsOf, Contents.Ids, NewIds;
      var todo := bySlot.Keys;
      while todo != {}
        invariant todo <= bySlot.Keys && Good() && old(seqNo) <= seqNo
        invariant forall g | g in Records() :: g in old(Records()) || fresh(g)
        invariant forall j | 0 <= j < |localView| :: localView[j] in old(localView) || fresh(localView[j])
        invariant forall id | id in bySlot && id !in todo :: forall m | m in bySlot[id] :: m.seqNo <= seqNo
        invariant forall id | id in bySlot && id !in todo && bySlot[id] != [] ::
                    Absorbed(old(ViewOf(id)), ViewOf(id), SortBySeq(bySlot[id]), now)
        invariant forall id: nat | id !in bySlot || id in todo || bySlot[id] == [] :: ViewOf(id) == old(ViewOf(id))
        invariant forall j: nat :: SlotIsFrozen(j) == old(SlotIsFrozen(j))
        decreases |todo|
      {
        var id :| id in todo;
        todo := todo - {id};
        if |bySlot[id]| == 0 {
          continue;
        }
        AbsorbOne(id, bySlot[id], now);
      }
    }

    // ---- Snapshot, held slots ----

    /** Copies what each slot holds, in the order of the sequence numbers; nothing changes. */
    method Snapshot() returns (out: map<nat, seq<Message>>)
      requires Good()
      ensures Good() && out.Keys == slots.Keys
      ensures forall j | j in out :: BySeq(out[j]) && NoDup(out[j]) && SetOf(out[j]) == ContentsOf(ViewOf(j)).All()
    {
      hide *;
      out := map[];
      var i := 0;
      ViewIds();
      while i < |localView|
        invariant i <= |localView| && Good()
        invariant forall j :: j in out <==> j in IdsUpTo(i)
        invariant forall j | j in out :: BySeq(out[j]) && NoDup(out[j]) && SetOf(out[j]) == ContentsOf(ViewOf(j)).All()
      {
        var msgs := CopyAt(localView[i], i);
        SortKeeps(msgs);
        OneMoreId(i);
        out := out[localView[i].id := SortBySeq(msgs)];
        i := i + 1;
      }
      assert forall j :: j in out <==> j in slots;
    }

    ghost function IdsUpTo(i: nat): set<nat>
      reads this`localView
      requires i <= |localView|
    {
      set k | 0 <= k < i :: localView[k].id
    }

    lemma ViewIds()
      requires Good()
      ensures IdsUpTo(0) == {} && IdsUpTo(|localView|) == slots.Keys
    {
      hide SlotsOk, TotalHeld, Slot.Repr, Ascending;
      forall id | id in slots
        ensures id in IdsUpTo(|localView|)
      {
        var i :| 0 <= i < |localView| && localView[i] == slots[id];
      }
      forall k | 0 <= k < |localView|
        ensures localView[k].id in slots
      {
        assert localView[k] in localView;
      }
    }

    lemma OneMoreId(i: nat)
      requires i < |localView|
      ensures IdsUpTo(i + 1) == IdsUpTo(i) + {localView[i].id}
    {
    }
  }

  lemma LowestIs(s: State, p: Option<Priority>, cutoff: Time)
    requires p.Some? ==> Starved(s, p.value, cutoff)
    requires forall q: Priority | q in s.ix.bands && (p.Some? ==> q < p.value) :: !Starved(s, q, cutoff)
    ensures LowestStarved(s, p, cutoff)
  {
    assert forall q: Priority | q !in s.ix.bands :: Band(s.ix, q) == [];
  }

  lemma LowestIsStarved(s: State, p: Option<Priority>, cutoff: Time)
    requires p.Some? && LowestStarved(s, p, cutoff)
    ensures Starved(s, p.value, cutoff)
  {
  }

  lemma EmptyIsNone(msgs: seq<Message>)
    ensures SetOf(msgs) == {} <==> |msgs| == 0
  {
    if |msgs| > 0 { assert msgs[0] in SetOf(msgs); }
  }

  lemma SameUpdate<T>(s: seq<T>, i: nat)
    requires i < |s|
    ensures s[i := s[i]] == s
  {
  }
}
