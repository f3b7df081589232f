/** How a move ends: one that nothing interrupts, and one that was put back. */
module HandoffOutcome {
  import opened Messages
  import opened Handoff

  // ---- A move nothing interrupts ----

  /** The slots recorded one by one. */
  function RecordSteps(order: seq<SlotId>): seq<Step> {
    seq(|order|, i requires 0 <= i < |order| => RecordSlot(order[i], true, true))
  }

  /** Every call goes through; the slots are recorded one by one in some order, or all at once. */
  function Uninterrupted(from: Node, to: Node, slots: set<SlotId>, order: seq<SlotId>, whole: bool): seq<Step> {
    [Start(from, to, slots), Prepare(true, true), Absorb({}, true, true, false)] +
    (if whole then [RecordAll(true, true, false)] else RecordSteps(order)) + [Discard(true)]
  }

  /** `order` names each of the slots once. */
  ghost predicate Lists(order: seq<SlotId>, slots: set<SlotId>) {
    && (forall s :: s in slots <==> s in order)
    && forall i, j :: 0 <= i < j < |order| ==> order[i] != order[j]
  }

  lemma {:induction false} RunsConcat(h: System, a: seq<Step>, h1: System, b: seq<Step>, h2: System)
    requires Runs(h, a, h1) && Runs(h1, b, h2)
    ensures Runs(h, a + b, h2)
    decreases |a|
  {
    hide Enabled, Next;
    if a == [] {
      assert a + b == b;
    } else {
      RunsConcat(Next(h, a[0]), a[1..], h1, b, h2);
      assert (a + b)[1..] == a[1..] + b;
    }
  }

  lemma RunsOne(h: System, s: Step)
    requires Enabled(h, s)
    ensures Runs(h, [s], Next(h, s))
  {
    assert [s][1..] == [];
  }

  lemma RunsFirst(h: System, s: Step, rest: seq<Step>, h': System)
    requires Enabled(h, s) && Runs(Next(h, s), rest, h')
    ensures Runs(h, [s] + rest, h')
  {
    assert ([s] + rest)[1..] == rest;
  }

  lemma RecordTwice(h: System, s: SlotId, todo: set<SlotId>, to: Node, p: Phase)
    requires h.move.Some? && s in todo
    ensures InPhase(Record(InPhase(Record(h, {s}, to), p), todo - {s}, to), Recorded) == InPhase(Record(h, todo, to), Recorded)
  {
    OwnedTwice(h.owner, s, todo, to);
    hide OwnedBy;
  }

  lemma OwnedTwice(owner: map<SlotId, Node>, s: SlotId, todo: set<SlotId>, to: Node)
    requires s in todo
    ensures (owner + OwnedBy(to, {s})) + OwnedBy(to, todo - {s}) == owner + OwnedBy(to, todo)
  {
  }

  lemma RecordStepsFirst(order: seq<SlotId>)
    requires order != []
    ensures RecordSteps(order) == [RecordSlot(order[0], true, true)] + RecordSteps(order[1..])
    ensures |order| == 1 ==> RecordSteps(order) == [RecordSlot(order[0], true, true)]
  {
  }

  /** Recorded one by one, in any order, the slots end up recorded as if all at once. */
  lemma {:induction false} RecordEach(h: System, order: seq<SlotId>)
    requires h.move.Some? && h.move.value.phase.Recording? && h.move.value.phase.clean
    requires Lists(order, h.move.value.phase.todo) && order != []
    ensures Runs(h, RecordSteps(order), InPhase(Record(h, h.move.value.phase.todo, h.move.value.to), Recorded))
    decreases |order|
  {
    var (s, todo, to) := (order[0], h.move.value.phase.todo, h.move.value.to);
    OneRecorded(h, s, order);
    MoveKept(h, {s}, to, Recording(todo - {s}, true));
    hide *;
    var h1 := Next(h, RecordSlot(s, true, true));
    RecordStepsFirst(order);
    if |order| == 1 {
      RunsOne(h, RecordSlot(s, true, true));
    } else {
      RecordEach(h1, order[1..]);
      RecordTwice(h, s, todo, to, Recording(todo - {s}, true));
      RunsFirst(h, RecordSlot(s, true, true), RecordSteps(order[1..]), InPhase(Record(h, todo, to), Recorded));
    }
  }

  lemma MoveKept(h: System, slots: set<SlotId>, to: Node, p: Phase)
    requires h.move.Some?
    ensures InPhase(Record(h, slots, to), p).move == Some(h.move.value.(phase := p))
  {
  }

  lemma OneRecorded(h: System, s: SlotId, order: seq<SlotId>)
    requires h.move.Some? && h.move.value.phase.Recording? && h.move.value.phase.clean
    requires order != [] && s == order[0] && Lists(order, h.move.value.phase.todo)
    ensures Enabled(h, RecordSlot(s, true, true))
    ensures var (h1, todo) := (Next(h, RecordSlot(s, true, true)), h.move.value.phase.todo);
            s in todo && if |order| == 1 then todo == {s} && h1 == InPhase(Record(h, todo, h.move.value.to), Recorded)
            else h1 == InPhase(Record(h, {s}, h.move.value.to), Recording(todo - {s}, true)) && Lists(order[1..], todo - {s})
  {
    var todo := h.move.value.phase.todo;
    assert order == [s] + order[1..];
    assert s in order;
    forall r
      ensures r in todo - {s} <==> r in order[1..]
    {
      if r in order[1..] {
        var i :| 0 <= i < |order[1..]| && order[1..][i] == r;
        assert order[i + 1] == r && r in order;
      }
    }
    if |order| > 1 { assert order[1..][0] in order[1..] && order[1..][0] in todo - {s}; }
  }

  lemma PreparedIs(h: System, from: Node, to: Node, slots: set<SlotId>)
    requires Enabled(h, Start(from, to, slots))
    ensures var h1 := Next(h, Start(from, to, slots));
            && Enabled(h1, Prepare(true, true))
            && Next(h1, Prepare(true, true)) ==
               h.(frozen := h.frozen + Places(from, Covered(h, from, slots)),
                  move := Some(Move(from, to, slots, CopyOf(h, from, slots), Prepared)))
  {
    hide Held;
    var h1 := Next(h, Start(from, to, slots));
    assert Covered(h1, from, slots) == Covered(h, from, slots);
    assert CopyOf(h1, from, slots) == CopyOf(h, from, slots) by { SameHeld(h, h1); }
  }

  lemma SameHeld(h: System, h1: System)
    requires h1.held == h.held
    ensures forall n, s :: Held(h1, n, s) == Held(h, n, s)
  {
  }

  /** What arrives at the target of a slot. */
  function Arrives(h: System, from: Node, slots: set<SlotId>, s: SlotId): set<Id> {
    if s in slots && Covers(h, from, s) then Held(h, from, s) else {}
  }

  lemma CopiesAre(h: System, from: Node, to: Node, slots: set<SlotId>, p: Phase, s: SlotId)
    ensures Copies(Move(from, to, slots, CopyOf(h, from, slots), p), s) == Arrives(h, from, slots, s)
  {
  }

  /** Up to the records: the target has what the source had, and the source's slots are frozen. */
  lemma CopiesArrive(h: System, from: Node, to: Node, slots: set<SlotId>) returns (h': System)
    requires Enabled(h, Start(from, to, slots))
    ensures Runs(h, [Start(from, to, slots), Prepare(true, true), Absorb({}, true, true, false)], h')
    ensures h'.move == Some(Move(from, to, slots, CopyOf(h, from, slots), Recording(slots, true)))
    ensures h'.owner == h.owner && h'.frozen == h.frozen + Places(from, Covered(h, from, slots))
    ensures h'.span == h.span[to := h.count]
    ensures forall n, s :: Held(h', n, s) == if n == to then Held(h, n, s) + Arrives(h, from, slots, s) else Held(h, n, s)
    ensures forall n, s :: Logged(h', n, s) == if n == to then Logged(h, n, s) + Arrives(h, from, slots, s) else Logged(h, n, s)
  {
    PreparedIs(h, from, to, slots);
    var h1 := Next(h, Start(from, to, slots));
    var h2 := Next(h1, Prepare(true, true));
    var absorb := Absorb({}, true, true, false);
    assert Enabled(h2, absorb);
    AbsorbLeaves(h2, {}, true, true, false);
    RunsOne(h2, absorb);
    hide Enabled, Next, Runs, Carried, CopyOf, Places, Covered, Held, Logged, Arrives, Copies, AllCopies;
    h' := Next(h2, absorb);
    var m := h2.move.value;
    CarriedLeaves(h2, m, {}, true);
    SameTraces(h, h2);
    SameTraces(Carried(h2, m, {}, true), h');
    forall n, s
      ensures Held(h', n, s) == if n == to then Held(h, n, s) + Arrives(h, from, slots, s) else Held(h, n, s)
      ensures Logged(h', n, s) == if n == to then Logged(h, n, s) + Arrives(h, from, slots, s) else Logged(h, n, s)
    {
      CarriedAt(h2, m, {}, true, n, s);
      CopiesAre(h, from, to, slots, Prepared, s);
    }
    RunsFirst(h1, Prepare(true, true), [absorb], h');
    RunsFirst(h, Start(from, to, slots), [Prepare(true, true)] + [absorb], h');
    assert [Start(from, to, slots)] + ([Prepare(true, true)] + [absorb]) == [Start(from, to, slots), Prepare(true, true), absorb];
  }

  lemma SameTraces(h: System, h': System)
    requires h'.held == h.held && h'.logged == h.logged
    ensures forall n, s :: Held(h', n, s) == Held(h, n, s) && Logged(h', n, s) == Logged(h, n, s)
  {
  }

  /** The discard of a recorded move, slot by slot. */
  lemma DiscardedAt(h: System, s: SlotId)
    requires Enabled(h, Discard(true)) && h.move.Some? && s in h.move.value.slots && h.move.value.from != h.move.value.to
    ensures var (h', m) := (Next(h, Discard(true)), h.move.value);
            && h'.owner == h.owner && h'.move.None? && h'.frozen <= h.frozen
            && Held(h', m.to, s) == Held(h, m.to, s) && Logged(h', m.to, s) == Logged(h, m.to, s)
            && (Covers(h, m.from, s) ==>
                  Held(h', m.from, s) == {} && Logged(h', m.from, s) == {} && Place(m.from, s) !in h'.frozen)
  {
    var m := h.move.value;
    DropLeaves(h, m.from, m.slots);
    DroppedAt(h, m.from, m.slots, m.to, s);
    DroppedAt(h, m.from, m.slots, m.from, s);
    SameTraces(Drop(h, m.from, m.slots), Next(h, Discard(true)));
    hide Drop, Held, Logged;
  }

  /**
   * A move that nothing interrupts: each of its slots that the source has ends owned by the target, which holds and has
   * logged all that was there, and empty and unfrozen at the source; and it is served unless it was frozen at the target.
   */
  lemma MoveCompletes(h: System, from: Node, to: Node, slots: set<SlotId>, order: seq<SlotId>, whole: bool) returns (h': System)
    requires Enabled(h, Start(from, to, slots)) && Lists(order, slots)
    ensures Runs(h, Uninterrupted(from, to, slots, order, whole), h') && h'.move.None?
    ensures forall s | s in slots ::
              && s in h'.owner && h'.owner[s] == to && (Place(to, s) !in h.frozen ==> Open(h', s))
    ensures forall s | s in slots && Covers(h, from, s) ::
              && Held(h', to, s) == Held(h, to, s) + Held(h, from, s) && Held(h', from, s) == {}
              && Logged(h', to, s) == Logged(h, to, s) + Held(h, from, s) && Logged(h', from, s) == {}
              && Place(from, s) !in h'.frozen
  {
    var h3 := CopiesArrive(h, from, to, slots);
    StartMeans(h, from, to, slots);
    var h4 := AllRecorded(h3, order, whole);
    DiscardMeans(h4);
    h' := Next(h4, Discard(true));
    RunsOne(h4, Discard(true));
    var (first, records) :=
      ([Start(from, to, slots), Prepare(true, true), Absorb({}, true, true, false)],
       if whole then [RecordAll(true, true, false)] else RecordSteps(order));
    RunsConcat(h, first, h3, records, h4);
    RunsConcat(h, first + records, h4, [Discard(true)], h');
    hide *;
    forall s | s in slots
      ensures s in h'.owner && h'.owner[s] == to && (Place(to, s) !in h.frozen ==> Open(h', s))
      ensures Covers(h, from, s) ==>
                && Held(h', to, s) == Held(h, to, s) + Held(h, from, s) && Held(h', from, s) == {}
                && Logged(h', to, s) == Logged(h, to, s) + Held(h, from, s) && Logged(h', from, s) == {}
                && Place(from, s) !in h'.frozen
    {
      CompletedAt(h, from, to, slots, h3, h4, s);
    }
  }

  /** One slot of it, from the copies on. */
  lemma CompletedAt(h: System, from: Node, to: Node, slots: set<SlotId>, h3: System, h4: System, s: SlotId)
    requires h3.move == Some(Move(from, to, slots, CopyOf(h, from, slots), Recording(slots, true))) && from != to && s in slots
    requires h3.frozen == h.frozen + Places(from, Covered(h, from, slots)) && h3.span == h.span[to := h.count]
    requires Held(h3, to, s) == Held(h, to, s) + Arrives(h, from, slots, s)
    requires Logged(h3, to, s) == Logged(h, to, s) + Arrives(h, from, slots, s)
    requires h4 == InPhase(Record(h3, slots, to), Recorded) && Enabled(h4, Discard(true))
    ensures var h' := Next(h4, Discard(true));
            && s in h'.owner && h'.owner[s] == to && (Place(to, s) !in h.frozen ==> Open(h', s))
            && (Covers(h, from, s) ==>
                  && Held(h', to, s) == Held(h, to, s) + Held(h, from, s) && Held(h', from, s) == {}
                  && Logged(h', to, s) == Logged(h, to, s) + Held(h, from, s) && Logged(h', from, s) == {}
                  && Place(from, s) !in h'.frozen)
  {
    DiscardedAt(h4, s);
    SameTraces(h3, h4);
    NotThere(h, from, to, slots, s);
    hide Enabled, Next, Held, Logged, Covered, Places;
  }

  lemma StartMeans(h: System, from: Node, to: Node, slots: set<SlotId>)
    requires Enabled(h, Start(from, to, slots))
    ensures from != to && slots != {}
  {
  }

  lemma DiscardMeans(h: System)
    requires h.move.Some? && h.move.value.phase == Recorded
    ensures Enabled(h, Discard(true)) && Next(h, Discard(true)).move.None?
  {
  }

  lemma NotThere(h: System, from: Node, to: Node, slots: set<SlotId>, s: SlotId)
    requires from != to
    ensures Place(to, s) !in Places(from, Covered(h, from, slots))
  {
  }

  lemma AllRecorded(h: System, order: seq<SlotId>, whole: bool) returns (h': System)
    requires h.move.Some? && h.move.value.phase == Recording(h.move.value.slots, true)
    requires Lists(order, h.move.value.slots) && h.move.value.slots != {}
    ensures Runs(h, if whole then [RecordAll(true, true, false)] else RecordSteps(order), h')
    ensures h' == InPhase(Record(h, h.move.value.slots, h.move.value.to), Recorded)
  {
    h' := InPhase(Record(h, h.move.value.slots, h.move.value.to), Recorded);
    if whole {
      RunsOne(h, RecordAll(true, true, false));
    } else {
      var s :| s in h.move.value.slots;
      assert s in order;
      RecordEach(h, order);
    }
  }

  // ---- A move that was put back ----

  /** The step fails and the abort that follows goes through. */
  predicate PutBack(s: Step) {
    match s
    case Absorb(_, _, ok, thawed) => !ok && thawed
    case RecordAll(_, ok, thawed) => !ok && thawed
    case _ => false
  }

  /**
   * When the absorb or the record of a whole queue fails and the abort goes through, none of the slots the source has is left
   * frozen there; it goes on serving those placement still names it for.
   */
  lemma PutBackServes(h: System, step: Step)
    requires Enabled(h, step) && PutBack(step) && h.move.Some? && h.move.value.from != h.move.value.to
    ensures var (h', m) := (Next(h, step), h.move.value);
            && h'.move.None?
            && forall s | s in m.slots && Covers(h, m.from, s) ::
                 Place(m.from, s) !in h'.frozen && (s in h'.owner && h'.owner[s] == m.from ==> Open(h', s))
  {
    var (h', m) := (Next(h, step), h.move.value);
    if step.Absorb? {
      AbsorbLeaves(h, step.journal, step.applied, false, true);
      CarriedLeaves(h, m, step.journal, step.applied);
      var h1 := Carried(h, m, step.journal, step.applied);
      assert h1.span == h.span || h1.span == h.span[m.to := h.count];
      forall s | s in m.slots && Covers(h, m.from, s)
        ensures Place(m.from, s) !in h'.frozen
      {
        ThawedAt(h1, m.from, m.slots, m.from, s);
      }
    } else {
      var h1 := if step.applied then Record(h, m.slots, m.to) else h;
      forall s | s in m.slots && Covers(h, m.from, s)
        ensures Place(m.from, s) !in h'.frozen
      {
        ThawedAt(h1, m.from, m.slots, m.from, s);
      }
    }
  }
}
