/** Where the handoff leans on what is around it, and exactly how much. */
module HandoffLimits {
  import opened Messages
  import opened Handoff
  import opened HandoffRepair

  // ---- One slot through a move that nothing interrupts ----

  /** A move set up from a placement read before the queue was locked. */
  function SetUp(h: System, from: Node, to: Node, s: SlotId): System {
    h.(migrating := true, move := Some(Move(from, to, {s}, map[], Started)))
  }

  function PrepareOne(h: System): System
    requires InMove(h, Started)
  {
    Next(h, Prepare(true, true))
  }

  function AbsorbOne(h: System): System
    requires InMove(h, Prepared)
  {
    Next(h, Absorb({}, true, true, false))
  }

  function CommitOne(h: System, s: SlotId): System
    requires InMove(h, Prepared) && h.move.value.slots == {s}
  {
    Next(AbsorbOne(h), RecordSlot(s, true, true))
  }

  /** Set up, prepared, absorbed and recorded. */
  function Straight(h: System, from: Node, to: Node, s: SlotId): System {
    CommitOne(PrepareOne(SetUp(h, from, to, s)), s)
  }

  lemma PreparedIs(h: System, s: SlotId)
    requires InMove(h, Started) && h.move.value.slots == {s}
    ensures var (h', m) := (PrepareOne(h), h.move.value);
            && InMove(h', Prepared) && h'.move.value.from == m.from && h'.move.value.to == m.to && h'.move.value.slots == {s}
            && h' == h.(frozen := h'.frozen, move := h'.move)
            && h'.move.value.copies == (if Covers(h, m.from, s) then map[s := Held(h, m.from, s)] else map[])
            && h'.frozen == h.frozen + (if Covers(h, m.from, s) then {Place(m.from, s)} else {})
  {
    CoveredOne(h, h.move.value.from, s);
    hide Covers, CopyOf, Freeze;
  }

  lemma CoveredOne(h: System, n: Node, s: SlotId)
    ensures CopyOf(h, n, {s}) == if Covers(h, n, s) then map[s := Held(h, n, s)] else map[]
    ensures Freeze(h, n, {s}) == h.(frozen := h.frozen + if Covers(h, n, s) then {Place(n, s)} else {})
  {
    hide Covers, Held;
    assert Covered(h, n, {s}) == if Covers(h, n, s) then {s} else {};
    assert Places(n, {s}) == {Place(n, s)} && Places(n, {}) == {};
  }

  lemma AbsorbedIs(h: System)
    requires InMove(h, Prepared)
    ensures var (h', m) := (AbsorbOne(h), h.move.value);
            && h' == h.(span := h.span[m.to := h.count], held := h'.held, logged := h'.logged, move := h'.move)
            && h'.move == Some(m.(phase := Recording(m.slots, true)))
            && forall n, s ::
                 && Held(h', n, s) == (if n == m.to then Held(h, n, s) + Copies(m, s) else Held(h, n, s))
                 && Logged(h', n, s) == (if n == m.to then Logged(h, n, s) + Copies(m, s) else Logged(h, n, s))
  {
    var m := h.move.value;
    AbsorbLeaves(h, {}, true, true, false);
    CarriedLeaves(h, m, {}, true);
    hide Carried, Next, Copies, Held, Logged;
    forall n, s
      ensures Held(AbsorbOne(h), n, s) == if n == m.to then Held(h, n, s) + Copies(m, s) else Held(h, n, s)
      ensures Logged(AbsorbOne(h), n, s) == if n == m.to then Logged(h, n, s) + Copies(m, s) else Logged(h, n, s)
    {
      CarriedAt(h, m, {}, true, n, s);
      SameAt(Carried(h, m, {}, true), AbsorbOne(h), n, s);
    }
  }

  lemma CommittedIs(h: System, s: SlotId)
    requires InMove(h, Prepared) && h.move.value.slots == {s}
    ensures var (h1, h', m) := (AbsorbOne(h), CommitOne(h, s), h.move.value);
            && h' == h1.(owner := h.owner[s := m.to], move := h'.move)
            && InMove(h', Recorded) && h'.move.value == m.(phase := Recorded)
  {
    AbsorbedIs(h);
    hide AbsorbOne;
    var h1 := AbsorbOne(h);
    OwnerRecorded(h1, {s}, h.move.value.to, s);
    WhatRecordedLeaves(Record(h1, {s}, h.move.value.to), s, true);
    assert Record(h1, {s}, h.move.value.to).owner == h.owner[s := h.move.value.to];
  }

  lemma SameAt(h: System, h': System, n: Node, s: SlotId)
    requires h'.held == h.held && h'.logged == h.logged
    ensures Held(h', n, s) == Held(h, n, s) && Logged(h', n, s) == Logged(h, n, s)
  {
  }

  /** Where `SafeAt` looks, after a move of one slot. */
  lemma StraightIs(h: System, from: Node, to: Node, s: SlotId)
    requires from != to
    ensures var h' := Straight(h, from, to, s);
            && h'.owner == h.owner[s := to] && Live(h', s) == Live(h, s)
            && Has(h', to, s) == if Covers(h, from, s) then Has(h, to, s) + Held(h, from, s) else Has(h, to, s)
  {
    var h0 := SetUp(h, from, to, s);
    PreparedIs(h0, s);
    var h1 := PrepareOne(h0);
    CommittedIs(h1, s);
    AbsorbedIs(h1);
    SameAt(h0, h1, to, s);
    SameAt(h, h0, from, s);
    SameAt(h, h0, to, s);
    SameAt(AbsorbOne(h1), CommitOne(h1, s), to, s);
    hide PrepareOne, AbsorbOne, CommitOne, Held, Logged;
  }

  /** The slot is at its owner `o`, and `from` has it open or not. */
  ghost predicate Before(h: System, o: Node, from: Node, s: SlotId, covered: bool) {
    s in h.owner && h.owner[s] == o && SafeAt(h, s) && (Covers(h, from, s) <==> covered)
  }

  /**
   * What a gateway can check before it starts: the move keeps the slot safe, whatever the nodes hold, exactly when it goes
   * to the slot's owner, or starts from the owner and the owner has the slot open.
   */
  lemma MoveSafeIff(o: Node, from: Node, to: Node, s: SlotId, covered: bool)
    requires from != to
    ensures (forall h :: Before(h, o, from, s, covered) ==> SafeAt(Straight(h, from, to, s), s))
            <==> o == to || (o == from && covered)
  {
    hide Straight;
    if o == to || (o == from && covered) {
      forall h | Before(h, o, from, s, covered)
        ensures SafeAt(Straight(h, from, to, s), s)
      {
        StraightIs(h, from, to, s);
      }
    } else {
      var h := Counter(o, from, s, covered);
      StraightIs(h, from, to, s);
      assert "id" in Live(h, s) && Has(h, to, s) == {} && Held(h, from, s) == (if o == from then {"id"} else {});
      assert Before(h, o, from, s, covered) && !SafeAt(Straight(h, from, to, s), s);
    }
  }

  /** One message, at the owner. */
  function Counter(o: Node, from: Node, s: SlotId, covered: bool): System {
    var at := map[Place(o, s) := {"id"}];
    System(s + 1, if covered then map[from := s + 1] else map[], at, at, {}, map[s := o], map[s := {"id"}], false, None)
  }

  // ---- One slot through a move with anything in between ----

  /** Steps between a prepare and the commit of `s`: no other move, and `s` not recorded. */
  ghost predicate Meanwhile(ss: seq<Step>, s: SlotId) {
    forall i | 0 <= i < |ss| :: !ss[i].Start? && !ss[i].RecordAll? && !(ss[i].RecordSlot? && ss[i].s == s)
  }

  /** The move from `from` to `to` goes on, `s` is not recorded yet, and was copied or not. */
  ghost predicate Underway(h: System, from: Node, to: Node, s: SlotId, copied: bool) {
    && s in h.owner && h.owner[s] == from && from != to
    && (h.move.Some? ==>
          var m := h.move.value;
          && h.migrating && m.from == from && m.to == to && s in m.slots && (s in m.copies <==> copied)
          && (m.phase.Prepared? || (m.phase.Recording? && s in m.phase.todo)))
  }

  lemma UnderwayStep(h: System, step: Step, from: Node, to: Node, s: SlotId, copied: bool)
    requires Underway(h, from, to, s, copied) && h.move.Some? && Enabled(h, step) && Meanwhile([step], s)
    ensures Underway(Next(h, step), from, to, s, copied)
  {
    assert [step][0] == step;
  }

  /** The target has nothing of what is live. */
  ghost predicate Clear(h: System, to: Node, s: SlotId) {
    Live(h, s) !! Trace(h, to, s)
  }

  lemma ClearAbsorb(h: System, journal: set<Id>, applied: bool, ok: bool, thawed: bool, from: Node, to: Node, s: SlotId)
    requires Underway(h, from, to, s, false) && Clear(h, to, s) && Enabled(h, Absorb(journal, applied, ok, thawed))
    ensures Clear(Next(h, Absorb(journal, applied, ok, thawed)), to, s)
  {
    CarriedAt(h, h.move.value, journal, applied, to, s);
    AbsorbLeaves(h, journal, applied, ok, thawed);
    CarriedLeaves(h, h.move.value, journal, applied);
    SameTrace(Carried(h, h.move.value, journal, applied), Next(h, Absorb(journal, applied, ok, thawed)), to, s);
    hide Carried, Next;
  }

  lemma SameTrace(h: System, h': System, n: Node, s: SlotId)
    requires h'.held == h.held && h'.logged == h.logged && h'.live == h.live
    ensures Trace(h', n, s) == Trace(h, n, s) && Live(h', s) == Live(h, s)
  {
  }

  lemma ClearStep(h: System, step: Step, from: Node, to: Node, s: SlotId)
    requires Underway(h, from, to, s, false) && h.move.Some? && Clear(h, to, s) && Enabled(h, step) && Meanwhile([step], s)
    ensures Clear(Next(h, step), to, s)
  {
    assert [step][0] == step;
    var h' := Next(h, step);
    match step
    case Absorb(journal, applied, ok, thawed) => ClearAbsorb(h, journal, applied, ok, thawed, from, to, s);
    case Restart(n) => RestartedAt(h, n, to, s);
    case RecordSlot(r, applied, ok) =>
      WhatRecordedLeaves(if applied then Record(h, {r}, to) else h, r, ok);
      SameTrace(h, h', to, s);
    case Accept(_, _) => assert Trace(h', to, s) == Trace(h, to, s);
    case _ =>
  }

  lemma {:induction false} MovelessStays(h: System, ss: seq<Step>, h': System, s: SlotId)
    requires h.move.None? && Runs(h, ss, h') && Meanwhile(ss, s)
    ensures h'.move.None?
    decreases |ss|
  {
    if ss != [] {
      assert !ss[0].Start?;
      assert Meanwhile(ss[1..], s);
      MovelessStays(Next(h, ss[0]), ss[1..], h', s);
    }
  }

  lemma {:induction false} UnderwayRun(h: System, ss: seq<Step>, h': System, from: Node, to: Node, s: SlotId, copied: bool)
    requires Underway(h, from, to, s, copied) && h.move.Some? && Runs(h, ss, h') && Meanwhile(ss, s) && h'.move.Some?
    requires !copied ==> Clear(h, to, s)
    ensures Underway(h', from, to, s, copied) && (!copied ==> Clear(h', to, s))
    decreases |ss|
  {
    if ss != [] {
      hide Underway, Clear, Next, Enabled;
      var h1 := Next(h, ss[0]);
      assert Meanwhile([ss[0]], s) && Meanwhile(ss[1..], s);
      UnderwayStep(h, ss[0], from, to, s, copied);
      if !copied { ClearStep(h, ss[0], from, to, s); }
      if h1.move.None? {
        MovelessStays(h1, ss[1..], h', s);
      } else {
        UnderwayRun(h1, ss[1..], h', from, to, s, copied);
      }
    }
  }

  lemma RecordedSafeIff(h: System, s: SlotId, ok: bool)
    requires Enabled(h, RecordSlot(s, true, ok))
    ensures SafeAt(Next(h, RecordSlot(s, true, ok)), s) <==> Live(h, s) <= Has(h, h.move.value.to, s)
  {
    OwnerRecorded(h, {s}, h.move.value.to, s);
    WhatRecordedLeaves(Record(h, {s}, h.move.value.to), s, ok);
    hide Record, Recorded1;
    var h' := Next(h, RecordSlot(s, true, ok));
    SameMessages(h, h');
  }

  lemma PreparedOnce(h0: System, s: SlotId)
    requires Inv(h0) && InMove(h0, Started) && s in h0.move.value.slots && h0.owner[s] == h0.move.value.from
    requires Clear(h0, h0.move.value.to, s)
    ensures var (h1, m) := (PrepareOne(h0), h0.move.value);
            && Inv(h1) && h1.move.Some? && Underway(h1, m.from, m.to, s, Covers(h0, m.from, s)) && Clear(h1, m.to, s)
  {
    StepKeeps(h0, Prepare(true, true));
    assert MoveAt(h0, h0.move.value, s);
    hide Inv, Has;
    var h1 := PrepareOne(h0);
    assert s in Covered(h0, h0.move.value.from, h0.move.value.slots) <==> Covers(h0, h0.move.value.from, s);
    SameTrace(h0, h1, h0.move.value.to, s);
  }

  lemma RecordedAllSafeIff(h: System, s: SlotId, ok: bool, thawed: bool)
    requires Enabled(h, RecordAll(true, ok, thawed)) && s in h.move.value.slots
    ensures SafeAt(Next(h, RecordAll(true, ok, thawed)), s) <==> Live(h, s) <= Has(h, h.move.value.to, s)
  {
    var m := h.move.value;
    OwnerRecorded(h, m.slots, m.to, s);
    ThawLeaves(Record(h, m.slots, m.to), m.from, m.slots);
    hide Record, Thaw;
    SameMessages(h, Next(h, RecordAll(true, ok, thawed)));
  }

  /** Whether the target has everything live by the time the absorb is through. */
  lemma ArrivedIff(h0: System, ss: seq<Step>, h: System, s: SlotId)
    requires Inv(h0) && InMove(h0, Started) && s in h0.move.value.slots && h0.owner[s] == h0.move.value.from
    requires Clear(h0, h0.move.value.to, s)
    requires var h1 := PrepareOne(h0); Runs(h1, ss, h) && CarefulRun(h1, ss) && Meanwhile(ss, s)
    requires h.move.Some? && h.move.value.phase.Recording?
    ensures s in h.move.value.slots
    ensures Live(h, s) <= Has(h, h.move.value.to, s) <==> Covers(h0, h0.move.value.from, s) || Live(h, s) == {}
  {
    var m := h0.move.value;
    PreparedOnce(h0, s);
    hide Runs, CarefulRun, Meanwhile, PrepareOne;
    RunKeeps(PrepareOne(h0), ss, h);
    UnderwayRun(PrepareOne(h0), ss, h, m.from, m.to, s, Covers(h0, m.from, s));
    assert MoveAt(h, h.move.value, s);
  }

  /**
   * However traffic, failures and restarts interleave: a slot that a move starts from its owner, and of which the target
   * has nothing live, is safe once recorded exactly when prepare covered it, or nothing of it is live by then. So a slot
   * that prepare did not cover is safe only if whatever was live has ended, and nothing was accepted in between that has
   * not. It is the same whether slots are recorded one by one or all at once.
   */
  lemma CommitSafeIff(h0: System, ss: seq<Step>, h: System, s: SlotId)
    requires Inv(h0) && InMove(h0, Started) && s in h0.move.value.slots && h0.owner[s] == h0.move.value.from
    requires Clear(h0, h0.move.value.to, s)
    requires var h1 := PrepareOne(h0); Runs(h1, ss, h) && CarefulRun(h1, ss) && Meanwhile(ss, s)
    requires h.move.Some? && h.move.value.phase.Recording?
    ensures forall ok | Enabled(h, RecordSlot(s, true, ok)) ::
              SafeAt(Next(h, RecordSlot(s, true, ok)), s) <==> Covers(h0, h0.move.value.from, s) || Live(h, s) == {}
    ensures forall ok, thawed | Enabled(h, RecordAll(true, ok, thawed)) ::
              SafeAt(Next(h, RecordAll(true, ok, thawed)), s) <==> Covers(h0, h0.move.value.from, s) || Live(h, s) == {}
  {
    ArrivedIff(h0, ss, h, s);
    hide Runs, CarefulRun, Meanwhile, PrepareOne, Inv, Clear, SafeAt, Has, Live, Covers;
    forall ok | Enabled(h, RecordSlot(s, true, ok))
      ensures SafeAt(Next(h, RecordSlot(s, true, ok)), s) <==> Live(h, s) <= Has(h, h.move.value.to, s)
    {
      RecordedSafeIff(h, s, ok);
    }
    forall ok, thawed | Enabled(h, RecordAll(true, ok, thawed))
      ensures SafeAt(Next(h, RecordAll(true, ok, thawed)), s) <==> Live(h, s) <= Has(h, h.move.value.to, s)
    {
      RecordedAllSafeIff(h, s, ok, thawed);
    }
  }

  // ---- Runs that lose a message ----

  /** Accepted, not ended, and on no node: not in memory, not in a log. */
  ghost predicate Lost(h: System, s: SlotId, id: Id) {
    id in Live(h, s) && forall n: Node :: id !in Trace(h, n, s)
  }

  /** Every trace of the slot is the one message at `n`. */
  ghost predicate OnlyAt(h: System, n: Node, s: SlotId, id: Id) {
    && Live(h, s) == {id} && Held(h, n, s) == {id} && Logged(h, n, s) == {id}
    && forall k: Node | k != n :: Trace(h, k, s) == {}
  }

  lemma {:induction false} Then(h: System, ss: seq<Step>, h1: System, step: Step)
    requires Runs(h, ss, h1) && Enabled(h1, step)
    ensures Runs(h, ss + [step], Next(h1, step))
    decreases |ss|
  {
    if ss == [] {
      assert [step][1..] == [];
    } else {
      hide Next, Enabled;
      Then(Next(h, ss[0]), ss[1..], h1, step);
      assert (ss + [step])[1..] == ss[1..] + [step];
    }
  }

  /** No slot is recorded anywhere. */
  ghost predicate NoRecord(ss: seq<Step>) {
    forall i | 0 <= i < |ss| :: !ss[i].RecordSlot? && !ss[i].RecordAll?
  }

  lemma {:induction false} UnrecordedIsCareful(h: System, ss: seq<Step>, h': System)
    requires Runs(h, ss, h') && NoRecord(ss)
    ensures CarefulRun(h, ss)
    decreases |ss|
  {
    if ss != [] {
      hide Next, Enabled;
      assert NoRecord(ss[1..]);
      UnrecordedIsCareful(Next(h, ss[0]), ss[1..], h');
    }
  }

  /** The slot placed at `n`, on a queue just made. */
  lemma PlacedRun(count: nat, n: Node, s: SlotId) returns (ss: seq<Step>, h: System)
    requires s < count
    ensures Runs(Created(count), ss, h) && h == Created(count).(owner := map[s := n]) && NoRecord(ss)
  {
    ss, h := [PlaceSlot(s, n)], Next(Created(count), PlaceSlot(s, n));
    assert ss[1..] == [];
  }

  /** One message accepted at a slot that has seen nothing. */
  lemma AcceptRun(h0: System, ss0: seq<Step>, h: System, n: Node, s: SlotId, id: Id) returns (ss: seq<Step>, h': System)
    requires Runs(h0, ss0, h) && s in h.owner && h.owner[s] == n && Place(n, s) !in h.frozen
    requires h.held == map[] && h.logged == map[] && h.live == map[] && (h.move.Some? ==> h.move.value.copies == map[])
    ensures Runs(h0, ss, h') && OnlyAt(h', n, s, id) && (NoRecord(ss0) ==> NoRecord(ss))
    ensures h' == h.(span := h.span[n := h.count], held := h'.held, logged := h'.logged, live := h'.live)
  {
    Then(h0, ss0, h, Accept(s, id));
    ss, h' := ss0 + [Accept(s, id)], Next(h, Accept(s, id));
  }

  lemma SetUpRun(h0: System, ss0: seq<Step>, h: System, from: Node, to: Node, s: SlotId) returns (ss: seq<Step>)
    requires Runs(h0, ss0, h) && !h.migrating && h.move.None? && s in h.owner && from != to
    ensures Runs(h0, ss, SetUp(h, from, to, s)) && (NoRecord(ss0) ==> NoRecord(ss))
  {
    Then(h0, ss0, h, Begin);
    var h1 := Next(h, Begin);
    Then(h0, ss0 + [Begin], h1, Start(from, to, {s}));
    ss := ss0 + [Begin] + [Start(from, to, {s})];
  }

  lemma PrepareRun(h0: System, ss0: seq<Step>, h: System, s: SlotId) returns (ss: seq<Step>)
    requires Runs(h0, ss0, h) && InMove(h, Started) && h.move.value.slots == {s}
    ensures Runs(h0, ss, PrepareOne(h)) && (NoRecord(ss0) ==> NoRecord(ss))
  {
    hide Runs;
    Then(h0, ss0, h, Prepare(true, true));
    ss := ss0 + [Prepare(true, true)];
  }

  lemma CommitRun(h0: System, ss0: seq<Step>, h: System, s: SlotId) returns (ss: seq<Step>)
    requires Runs(h0, ss0, h) && InMove(h, Prepared) && h.move.value.slots == {s}
    ensures Runs(h0, ss, CommitOne(h, s)) && |ss| >= |ss0| && ss[..|ss0|] == ss0
  {
    hide Runs;
    var absorb := Absorb({}, true, true, false);
    Then(h0, ss0, h, absorb);
    Then(h0, ss0 + [absorb], AbsorbOne(h), RecordSlot(s, true, true));
    ss := ss0 + [absorb] + [RecordSlot(s, true, true)];
  }

  lemma CommittedAt(h: System, s: SlotId, n: Node)
    requires InMove(h, Prepared) && h.move.value.slots == {s}
    ensures var (h', m) := (CommitOne(h, s), h.move.value);
            && Held(h', n, s) == (if n == m.to then Held(h, n, s) + Copies(m, s) else Held(h, n, s))
            && Logged(h', n, s) == (if n == m.to then Logged(h, n, s) + Copies(m, s) else Logged(h, n, s))
            && Live(h', s) == Live(h, s)
  {
    AbsorbedIs(h);
    CommittedIs(h, s);
    hide AbsorbOne, CommitOne, Copies;
    SameAt(AbsorbOne(h), CommitOne(h, s), n, s);
  }

  lemma DiscardRun(h0: System, ss0: seq<Step>, h: System, s: SlotId) returns (ss: seq<Step>, h': System)
    requires Runs(h0, ss0, h) && InMove(h, Recorded) && h.move.value.slots == {s}
    ensures Runs(h0, ss, h') && h' == Drop(h, h.move.value.from, {s}).(move := None)
  {
    hide Runs, Drop;
    Then(h0, ss0, h, Discard(true));
    ss, h' := ss0 + [Discard(true)], Next(h, Discard(true));
  }

  /** Absorbed, recorded and discarded: what is left of a message that was at `k` only, and in no copy. */
  lemma LeaveRun(h0: System, ss0: seq<Step>, h: System, k: Node, s: SlotId, id: Id) returns (ss: seq<Step>, h': System)
    requires Runs(h0, ss0, h) && InMove(h, Prepared) && h.move.value.slots == {s} && h.move.value.from != h.move.value.to
    requires OnlyAt(h, k, s, id) && k != h.move.value.to && s !in h.move.value.copies
    ensures var from := h.move.value.from;
            && Runs(h0, ss, h') && h'.move.None? && h'.migrating == h.migrating
            && h'.owner == h.owner[s := h.move.value.to] && h'.span == h.span[h.move.value.to := h.count]
            && h'.frozen <= h.frozen && Live(h', s) == {id}
            && Held(h', k, s) == (if k == from && Covers(h, k, s) then {} else {id})
            && Logged(h', k, s) == (if k == from && k in h.span then {} else {id})
            && forall n | n != k :: Trace(h', n, s) == {}
  {
    ss := CommitRun(h0, ss0, h, s);
    AbsorbedIs(h);
    CommittedIs(h, s);
    var (h1, from) := (CommitOne(h, s), h.move.value.from);
    hide CommitOne, AbsorbOne;
    ss, h' := DiscardRun(h0, ss, h1, s);
    hide Drop, Runs;
    DropLeaves(h1, from, {s});
    forall n
      ensures n != k ==> Trace(h', n, s) == {}
    {
      if n != k { LeftAt(h, h', k, n, s, id); }
    }
    LeftAt(h, h', k, k, s, id);
    CommittedAt(h, s, k);
  }

  lemma LeftAt(h: System, h': System, k: Node, n: Node, s: SlotId, id: Id)
    requires InMove(h, Prepared) && h.move.value.slots == {s} && h.move.value.from != h.move.value.to
    requires OnlyAt(h, k, s, id) && k != h.move.value.to && s !in h.move.value.copies
    requires h' == Drop(CommitOne(h, s), h.move.value.from, {s}).(move := None)
    ensures if n != k then Trace(h', n, s) == {}
            else Held(h', k, s) == (if k == h.move.value.from && Covers(h, k, s) then {} else {id}) &&
                 Logged(h', k, s) == (if k == h.move.value.from && k in h.span then {} else {id})
  {
    var (h1, from) := (CommitOne(h, s), h.move.value.from);
    AbsorbedIs(h);
    CommittedIs(h, s);
    CommittedAt(h, s, n);
    DroppedAt(h1, from, {s}, n, s);
    assert n != k ==> Trace(h, n, s) == {};
    hide CommitOne, AbsorbOne, Drop;
    SameAt(Drop(h1, from, {s}), h', n, s);
  }

  /**
   * A queue its owner has not opened: prepare finds nothing and freezes nothing, the owner goes on to accept a message, and
   * the discard removes it once placement has moved.
   */
  lemma UnopenedLoses(count: nat, from: Node, to: Node, s: SlotId, id: Id) returns (ss: seq<Step>, h: System)
    requires s < count && from != to
    ensures Runs(Created(count), ss, h) && Lost(h, s, id)
  {
    hide Runs, Created;
    var h1;
    ss, h1 := PlacedRun(count, from, s);
    CreatedIs(count);
    ss := SetUpRun(Created(count), ss, h1, from, to, s);
    var h2 := SetUp(h1, from, to, s);
    ss := PrepareRun(Created(count), ss, h2, s);
    PreparedIs(h2, s);
    hide PrepareOne;
    var h3;
    ss, h3 := AcceptRun(Created(count), ss, PrepareOne(h2), from, s, id);
    ss, h := LeaveRun(Created(count), ss, h3, from, s, id);
  }

  lemma CreatedIs(count: nat)
    ensures var h := Created(count);
            && h.count == count && h.span == map[] && h.held == map[] && h.logged == map[] && h.frozen == {}
            && h.live == map[] && !h.migrating && h.move.None?
  {
  }

  lemma RestartRun(h0: System, ss0: seq<Step>, h: System, n: Node, s: SlotId) returns (ss: seq<Step>)
    requires Runs(h0, ss0, h) && n in h.span && h.frozen == {}
    ensures Runs(h0, ss, Restarted(h, n)) && (NoRecord(ss0) ==> NoRecord(ss))
  {
    hide Runs;
    Then(h0, ss0, h, Restart(n));
    ss := ss0 + [Restart(n)];
  }

  /**
   * A queue its owner rebuilt from the log and no request has reached since: prepare passes over the slots past the
   * sixteenth, and the discard removes their logs.
   */
  lemma RecoveredLoses(count: nat, from: Node, to: Node, s: SlotId, id: Id) returns (ss: seq<Step>, h: System)
    requires RECOVERED <= s < count && from != to
    ensures Runs(Created(count), ss, h) && Lost(h, s, id)
  {
    hide Runs, Created;
    var h1;
    ss, h1 := PlacedRun(count, from, s);
    CreatedIs(count);
    var h2;
    ss, h2 := AcceptRun(Created(count), ss, h1, from, s, id);
    ss := RestartRun(Created(count), ss, h2, from, s);
    var h3 := Restarted(h2, from);
    RestartedOnly(h2, from, s, id);
    ss := SetUpRun(Created(count), ss, h3, from, to, s);
    var h4 := SetUp(h3, from, to, s);
    SameOnly(h3, h4, from, s, id);
    ss := PrepareRun(Created(count), ss, h4, s);
    PreparedIs(h4, s);
    SameOnly(h4, PrepareOne(h4), from, s, id);
    hide PrepareOne, Restarted, OnlyAt;
    var h5;
    ss, h5 := LeaveRun(Created(count), ss, PrepareOne(h4), from, s, id);
    ss := RestartRun(Created(count), ss, h5, from, s);
    h := Restarted(h5, from);
    RestartedEmpty(h5, from, s, id);
  }

  lemma RestartedOnly(h: System, n: Node, s: SlotId, id: Id)
    requires OnlyAt(h, n, s, id)
    ensures var h' := Restarted(h, n);
            OnlyAt(h', n, s, id) && h' == h.(span := h.span[n := RECOVERED], held := h'.held)
  {
    RestartedAt(h, n, n, s);
    forall k | k != n
      ensures Trace(Restarted(h, n), k, s) == {}
    {
      RestartedAt(h, n, k, s);
      assert Trace(h, k, s) == {};
    }
    hide Restarted;
    RestartLeaves(h, n);
  }

  lemma RestartLeaves(h: System, n: Node)
    ensures var h' := Restarted(h, n); h' == h.(span := h.span[n := RECOVERED], held := h'.held)
  {
  }

  lemma SameOnly(h: System, h': System, n: Node, s: SlotId, id: Id)
    requires OnlyAt(h, n, s, id) && h'.held == h.held && h'.logged == h.logged && h'.live == h.live
    ensures OnlyAt(h', n, s, id)
  {
    forall k
      ensures Trace(h', k, s) == Trace(h, k, s)
    {
    }
  }

  lemma RestartedEmpty(h: System, n: Node, s: SlotId, id: Id)
    requires Live(h, s) == {id} && Logged(h, n, s) == {} && forall k | k != n :: Trace(h, k, s) == {}
    ensures Lost(Restarted(h, n), s, id)
  {
    forall k: Node
      ensures id !in Trace(Restarted(h, n), k, s)
    {
      RestartedAt(h, n, k, s);
      assert k != n ==> Trace(h, k, s) == {};
    }
  }

  /** A move from where the slot no longer is: the commit takes placement away from the data, and the next pass drops it. */
  lemma StaleStartLoses(count: nat, o: Node, from: Node, to: Node, s: SlotId, id: Id) returns (ss: seq<Step>, h: System)
    requires s < count && o != from && o != to && from != to
    ensures Runs(Created(count), ss, h) && Lost(h, s, id)
  {
    hide Runs, Created;
    var h1;
    ss, h1 := PlacedRun(count, o, s);
    CreatedIs(count);
    var h2;
    ss, h2 := AcceptRun(Created(count), ss, h1, o, s, id);
    ss := SetUpRun(Created(count), ss, h2, from, to, s);
    var h3 := SetUp(h2, from, to, s);
    SameOnly(h2, h3, o, s, id);
    ss := PrepareRun(Created(count), ss, h3, s);
    PreparedIs(h3, s);
    SameOnly(h3, PrepareOne(h3), o, s, id);
    hide PrepareOne, OnlyAt;
    var h4;
    ss, h4 := LeaveRun(Created(count), ss, PrepareOne(h3), o, s, id);
    ss, h := RepairRun(Created(count), ss, h4, o, s, id);
  }

  lemma RepairRun(h0: System, ss0: seq<Step>, h: System, o: Node, s: SlotId, id: Id) returns (ss: seq<Step>, h': System)
    requires Runs(h0, ss0, h) && h.migrating && h.move.None? && s in h.owner && h.owner[s] != o && Covers(h, o, s)
    requires Live(h, s) == {id} && forall n | n != o :: Trace(h, n, s) == {}
    ensures Runs(h0, ss, h') && Lost(h', s, id)
  {
    hide Runs;
    Then(h0, ss0, h, Finish);
    var h1 := Next(h, Finish);
    Then(h0, ss0 + [Finish], h1, DropOrphan(o, s));
    ss, h' := ss0 + [Finish] + [DropOrphan(o, s)], Drop(h1, o, {s});
    DropLeaves(h1, o, {s});
    forall n: Node
      ensures id !in Trace(h', n, s)
    {
      DroppedAt(h1, o, {s}, n, s);
      SameAt(h, h1, n, s);
      assert n != o ==> Trace(h, n, s) == {};
    }
  }

  // ---- A leftover that stays ----

  /** The absorb took effect but was reported failed: the slot is back in service where it was, and copied all the same. */
  lemma FailedAbsorbRun(h0: System, ss0: seq<Step>, h: System, s: SlotId, id: Id) returns (ss: seq<Step>, h': System)
    requires Runs(h0, ss0, h) && NoRecord(ss0) && InMove(h, Prepared) && h.move.value.slots == {s}
    requires h.move.value.from != h.move.value.to && OnlyAt(h, h.move.value.from, s, id) && Copies(h.move.value, s) == {id}
    requires Covers(h, h.move.value.from, s) && h.frozen == {Place(h.move.value.from, s)}
    ensures var to := h.move.value.to;
            && Runs(h0, ss, h') && NoRecord(ss) && h'.frozen == {} && h'.move.None? && h'.migrating == h.migrating
            && h'.owner == h.owner && h'.span == h.span[to := h.count] && Logged(h', to, s) == {id}
  {
    hide Runs;
    var step := Absorb({}, true, false, true);
    Then(h0, ss0, h, step);
    ss, h' := ss0 + [step], Next(h, step);
    hide *;
    OneMoreUnrecorded(ss0, step);
    FailedAbsorbIs(h, s, id);
  }

  lemma OneMoreUnrecorded(ss: seq<Step>, step: Step)
    requires NoRecord(ss) && step.Absorb?
    ensures NoRecord(ss + [step])
  {
  }

  lemma FailedAbsorbIs(h: System, s: SlotId, id: Id)
    requires InMove(h, Prepared) && h.move.value.slots == {s}
    requires h.move.value.from != h.move.value.to && OnlyAt(h, h.move.value.from, s, id) && Copies(h.move.value, s) == {id}
    requires Covers(h, h.move.value.from, s) && h.frozen == {Place(h.move.value.from, s)}
    ensures var (h', to) := (Next(h, Absorb({}, true, false, true)), h.move.value.to);
            && h'.frozen == {} && h'.move.None? && h'.migrating == h.migrating
            && h'.owner == h.owner && h'.span == h.span[to := h.count] && Logged(h', to, s) == {id}
  {
    hide Carried, Thaw, Next, Covers;
    var m := h.move.value;
    var (h1, h') := (Carried(h, m, {}, true), Next(h, Absorb({}, true, false, true)));
    AbsorbLeaves(h, {}, true, false, true);
    CarriedLeaves(h, m, {}, true);
    CarriedAt(h, m, {}, true, m.to, s);
    assert Trace(h, m.to, s) == {};
    CoveredStill(h, h1, m.from, m.to, s);
    hide *;
    ThawOne(h1, m.from, s);
    SameAt(h1, h', m.to, s);
  }

  lemma CoveredStill(h: System, h': System, n: Node, k: Node, s: SlotId)
    requires Covers(h, n, s) && n != k && h'.span == h.span[k := h.count]
    ensures Covers(h', n, s)
  {
  }

  lemma ThawOne(h: System, n: Node, s: SlotId)
    requires h.frozen == {Place(n, s)} && Covers(h, n, s)
    ensures Thaw(h, n, {s}).frozen == {}
  {
    assert Covered(h, n, {s}) == {s} && Place(n, s) in Places(n, {s});
  }

  /**
   * A leftover a pass does not empty: absorbed by a call reported failed, at a node that then restarts and takes the queue
   * to have sixteen slots. However often the pass comes, the copy stays.
   */
  lemma LeftoverStays(count: nat, a: Node, b: Node, s: SlotId, id: Id) returns (ss: seq<Step>, h: System)
    requires RECOVERED <= s < count && a != b
    ensures Runs(Created(count), ss, h) && CarefulRun(Created(count), ss) && !h.migrating && h.move.None?
    ensures s in h.owner && h.owner[s] == a && Held(h, b, s) == {id}
    ensures forall reached, h' | b in reached && Repaired(h, h', reached) :: Held(h', b, s) == {id}
  {
    hide Runs, Created;
    var h1;
    ss, h1 := PlacedRun(count, a, s);
    CreatedIs(count);
    var h2;
    ss, h2 := AcceptRun(Created(count), ss, h1, a, s, id);
    ss := SetUpRun(Created(count), ss, h2, a, b, s);
    var h3 := SetUp(h2, a, b, s);
    SameOnly(h2, h3, a, s, id);
    assert Held(h3, a, s) == {id};
    ss := PrepareRun(Created(count), ss, h3, s);
    PreparedIs(h3, s);
    SameOnly(h3, PrepareOne(h3), a, s, id);
    hide PrepareOne, OnlyAt, Restarted;
    var h4;
    ss, h4 := FailedAbsorbRun(Created(count), ss, PrepareOne(h3), s, id);
    ss := RestartRun(Created(count), ss, h4, b, s);
    RestartedAt(h4, b, b, s);
    RestartLeaves(h4, b);
    var h5 := Restarted(h4, b);
    ss, h := FinishRun(Created(count), ss, h5);
    SameAt(h5, h, b, s);
    UnrecordedIsCareful(Created(count), ss, h);
  }

  lemma FinishRun(h0: System, ss0: seq<Step>, h: System) returns (ss: seq<Step>, h': System)
    requires Runs(h0, ss0, h) && NoRecord(ss0) && h.migrating && h.move.None?
    ensures Runs(h0, ss, h') && NoRecord(ss) && h' == h.(migrating := false)
  {
    hide Runs;
    Then(h0, ss0, h, Finish);
    ss, h' := ss0 + [Finish], Next(h, Finish);
  }

  // ---- Messages that come back ----

  /** The target has the message, in memory and in its log, or in neither. */
  ghost predicate AtTarget(h: System, to: Node, s: SlotId, id: Id, there: bool) {
    (id in Held(h, to, s) <==> there) && (id in Logged(h, to, s) <==> there)
  }

  /** Before the absorb the target has what it had, and after it the copies too. */
  ghost predicate Carrying(h: System, to: Node, s: SlotId, id: Id, was: bool, copied: bool) {
    h.move.Some? ==>
      && (id in Copies(h.move.value, s) <==> copied)
      && (h.move.value.phase.Prepared? ==> AtTarget(h, to, s, id, was))
      && (h.move.value.phase.Recording? ==> AtTarget(h, to, s, id, was || copied))
  }

  /** Nobody ends the message at the target. */
  ghost predicate NotEndedAt(ss: seq<Step>, to: Node, s: SlotId, id: Id) {
    forall i | 0 <= i < |ss| :: !(ss[i].End? && ss[i].n == to && ss[i].s == s && ss[i].id == id)
  }

  lemma CarryingAbsorb(h: System, journal: set<Id>, applied: bool, ok: bool, thawed: bool, to: Node, s: SlotId, id: Id, was: bool,
                       copied: bool)
    requires h.move.Some? && h.move.value.to == to && Carrying(h, to, s, id, was, copied)
    requires Enabled(h, Absorb(journal, applied, ok, thawed))
    ensures Carrying(Next(h, Absorb(journal, applied, ok, thawed)), to, s, id, was, copied)
  {
    CarriedAt(h, h.move.value, journal, applied, to, s);
    AbsorbLeaves(h, journal, applied, ok, thawed);
    SameAt(Carried(h, h.move.value, journal, applied), Next(h, Absorb(journal, applied, ok, thawed)), to, s);
    hide Carried, Next, Held, Logged;
  }

  lemma CarryingStep(h: System, step: Step, from: Node, to: Node, s: SlotId, id: Id, was: bool, copied: bool, c: bool)
    requires Underway(h, from, to, s, c) && h.move.Some? && Carrying(h, to, s, id, was, copied)
    requires Enabled(h, step) && Meanwhile([step], s) && NotEndedAt([step], to, s, id)
    ensures Carrying(Next(h, step), to, s, id, was, copied)
  {
    assert [step][0] == step;
    var h' := Next(h, step);
    match step
    case Absorb(journal, applied, ok, thawed) => CarryingAbsorb(h, journal, applied, ok, thawed, to, s, id, was, copied);
    case Restart(n) => RestartedAt(h, n, to, s);
    case RecordSlot(r, applied, ok) => CarryingRecord(h, r, applied, ok, to, s, id, was, copied);
    case _ =>
  }

  lemma CarryingRecord(h: System, r: SlotId, applied: bool, ok: bool, to: Node, s: SlotId, id: Id, was: bool, copied: bool)
    requires h.move.Some? && h.move.value.to == to && Carrying(h, to, s, id, was, copied)
    requires Enabled(h, RecordSlot(r, applied, ok)) && r != s && s in h.move.value.phase.todo
    ensures Carrying(Next(h, RecordSlot(r, applied, ok)), to, s, id, was, copied)
  {
    var h' := Next(h, RecordSlot(r, applied, ok));
    WhatRecordedLeaves(if applied then Record(h, {r}, to) else h, r, ok);
    hide Record, Recorded1, Held, Logged;
    OwnerRecorded(h, {r}, to, s);
    SameAt(h, h', to, s);
  }

  lemma {:induction false} CarryingRun(h: System, ss: seq<Step>, h': System, from: Node, to: Node, s: SlotId, id: Id, was: bool,
                                       copied: bool, c: bool)
    requires Underway(h, from, to, s, c) && h.move.Some? && Carrying(h, to, s, id, was, copied)
    requires Runs(h, ss, h') && Meanwhile(ss, s) && NotEndedAt(ss, to, s, id) && h'.move.Some?
    ensures Carrying(h', to, s, id, was, copied) && h'.move.value.to == to
    decreases |ss|
  {
    if ss != [] {
      hide Carrying, Next, Enabled;
      var h1 := Next(h, ss[0]);
      assert Meanwhile([ss[0]], s) && Meanwhile(ss[1..], s);
      assert NotEndedAt([ss[0]], to, s, id) && NotEndedAt(ss[1..], to, s, id);
      UnderwayStep(h, ss[0], from, to, s, c);
      CarryingStep(h, ss[0], from, to, s, id, was, copied, c);
      if h1.move.None? {
        MovelessStays(h1, ss[1..], h', s);
      } else {
        CarryingRun(h1, ss[1..], h', from, to, s, id, was, copied, c);
      }
    }
  }

  /**
   * A frozen slot still takes acks. Whatever happens between prepare and the commit of `s`: a message that has ended by
   * then, and was not ended at the target itself, is on the new owner after the commit exactly when it was among the copies,
   * or the target had it before.
   */
  lemma EndedComesBackIff(h0: System, ss: seq<Step>, h: System, s: SlotId, id: Id, was: bool, ok: bool)
    requires InMove(h0, Prepared) && Underway(h0, h0.move.value.from, h0.move.value.to, s, s in h0.move.value.copies)
    requires AtTarget(h0, h0.move.value.to, s, id, was)
    requires Runs(h0, ss, h) && Meanwhile(ss, s) && NotEndedAt(ss, h0.move.value.to, s, id)
    requires Enabled(h, RecordSlot(s, true, ok)) && id !in Live(h, s)
    ensures var (m, h') := (h0.move.value, Next(h, RecordSlot(s, true, ok)));
            && s in h'.owner && h'.owner[s] == m.to && id !in Live(h', s)
            && (id in Held(h', m.to, s) <==> id in Copies(m, s) || was)
            && (id in Logged(h', m.to, s) <==> id in Copies(m, s) || was)
  {
    var m := h0.move.value;
    CarryingRun(h0, ss, h, m.from, m.to, s, id, was, id in Copies(m, s), s in m.copies);
    hide *;
    assert h.move.value.to == m.to;
    CarriedOver(h, s, id, was || id in Copies(m, s), was, id in Copies(m, s));
    RecordedIs(h, s, ok);
  }

  lemma CarriedOver(h: System, s: SlotId, id: Id, there: bool, was: bool, copied: bool)
    requires h.move.Some? && h.move.value.phase.Recording? && Carrying(h, h.move.value.to, s, id, was, copied)
    requires there == (was || copied)
    ensures id in Held(h, h.move.value.to, s) <==> there
    ensures id in Logged(h, h.move.value.to, s) <==> there
  {
  }

  lemma RecordedIs(h: System, s: SlotId, ok: bool)
    requires Enabled(h, RecordSlot(s, true, ok))
    ensures h.move.Some? && h.move.value.phase.Recording?
    ensures var (h', to) := (Next(h, RecordSlot(s, true, ok)), h.move.value.to);
            && s in h'.owner && h'.owner[s] == to && Live(h', s) == Live(h, s)
            && Held(h', to, s) == Held(h, to, s) && Logged(h', to, s) == Logged(h, to, s)
  {
    var (h', to) := (Next(h, RecordSlot(s, true, ok)), h.move.value.to);
    OwnerRecorded(h, {s}, to, s);
    WhatRecordedLeaves(Record(h, {s}, to), s, ok);
    hide Record, Recorded1, Held, Logged;
    SameAt(h, h', to, s);
  }

  /** It happens: accepted, prepared, acked, absorbed, recorded. */
  lemma AckedComesBack(count: nat, from: Node, to: Node, s: SlotId, id: Id) returns (ss: seq<Step>, h: System)
    requires s < count && from != to
    ensures Runs(Created(count), ss, h) && s in h.owner && h.owner[s] == to
    ensures End(from, s, id, true) in ss && id !in Live(h, s) && id in Held(h, to, s) && id in Logged(h, to, s)
  {
    hide Runs, Created;
    var h1;
    ss, h1 := PlacedRun(count, from, s);
    CreatedIs(count);
    var h2;
    ss, h2 := AcceptRun(Created(count), ss, h1, from, s, id);
    ss := SetUpRun(Created(count), ss, h2, from, to, s);
    var h3 := SetUp(h2, from, to, s);
    SameOnly(h2, h3, from, s, id);
    ss := PrepareRun(Created(count), ss, h3, s);
    PreparedIs(h3, s);
    var h4 := PrepareOne(h3);
    SameOnly(h3, h4, from, s, id);
    hide PrepareOne, SetUp;
    ss, h := CarryEnded(Created(count), ss, h4, s, id);
  }

  lemma CarryEnded(h0: System, ss0: seq<Step>, h: System, s: SlotId, id: Id) returns (ss: seq<Step>, h': System)
    requires Runs(h0, ss0, h) && InMove(h, Prepared) && h.move.value.slots == {s}
    requires id in Held(h, h.move.value.from, s) && id in Copies(h.move.value, s)
    ensures var m := h.move.value;
            && Runs(h0, ss, h') && End(m.from, s, id, true) in ss && s in h'.owner && h'.owner[s] == m.to
            && id !in Live(h', s) && id in Held(h', m.to, s) && id in Logged(h', m.to, s)
  {
    var m := h.move.value;
    var step := End(m.from, s, id, true);
    Then(h0, ss0, h, step);
    var h1 := Next(h, step);
    assert id !in Live(h1, s) && h1.move == h.move;
    hide Next, Runs;
    ss := CommitRun(h0, ss0 + [step], h1, s);
    h' := CommitOne(h1, s);
    assert step == (ss0 + [step])[|ss0|] == ss[|ss0|];
    CommittedIs(h1, s);
    AbsorbedIs(h1);
    CommittedAt(h1, s, m.to);
    hide AbsorbOne, CommitOne;
  }
}
