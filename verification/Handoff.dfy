/**
 * Handing slots of one queue from node to node: prepare, absorb, record, discard, or abort, with calls that fail before or
 * after they took effect, a gateway that stops anywhere, nodes that restart, and traffic in between.
 */
module Handoff {
  import opened Messages

  type Node = string
  type SlotId = nat
  type Id = string

  /** The slots of a queue rebuilt from its log, until a request names its shape. */
  const RECOVERED := 16

  datatype Place = Place(node: Node, slot: SlotId)

  datatype Phase =
    | Started
    | Prepared
    | Recording(todo: set<SlotId>, clean: bool)
    | Recorded

  /** One route of a rebalance, or the one route of a queue that moves whole. `copies` is what prepare gave out. */
  datatype Move = Move(from: Node, to: Node, slots: set<SlotId>, copies: map<SlotId, set<Id>>, phase: Phase)

  /**
   * `count` is the number of slots of the queue, and `span` how many each node that has it open takes it to have. `held`
   * is what each node has in each slot, `logged` what its log of that slot would bring back; `owner` is placement, and
   * `live` the messages of a slot that were accepted and have not ended. `migrating` is the queue's state on its row; the
   * move in flight is the gateway's.
   */
  datatype System = System(
    count: nat,
    span: map<Node, nat>,
    held: map<Place, set<Id>>,
    logged: map<Place, set<Id>>,
    frozen: set<Place>,
    owner: map<SlotId, Node>,
    live: map<SlotId, set<Id>>,
    migrating: bool,
    move: Option<Move>)

  /** A queue just made: no node has it open. */
  function Created(count: nat): System {
    System(count, map[], map[], map[], {}, map[], map[], false, None)
  }

  function At(of: map<Place, set<Id>>, n: Node, s: SlotId): set<Id> {
    if Place(n, s) in of then of[Place(n, s)] else {}
  }

  function Held(h: System, n: Node, s: SlotId): set<Id> {
    At(h.held, n, s)
  }

  function Logged(h: System, n: Node, s: SlotId): set<Id> {
    At(h.logged, n, s)
  }

  /** What a node holds of a slot and will still hold after a restart. */
  function Has(h: System, n: Node, s: SlotId): set<Id> {
    Held(h, n, s) * Logged(h, n, s)
  }

  /** What a node holds of a slot, or may hold again. */
  function Trace(h: System, n: Node, s: SlotId): set<Id> {
    Held(h, n, s) + Logged(h, n, s)
  }

  function Live(h: System, s: SlotId): set<Id> {
    if s in h.live then h.live[s] else {}
  }

  function Copies(m: Move, s: SlotId): set<Id> {
    if s in m.copies then m.copies[s] else {}
  }

  function Places(n: Node, slots: set<SlotId>): set<Place> {
    set s | s in slots :: Place(n, s)
  }

  /** The node has the queue open, and takes it to have this slot. */
  predicate Covers(h: System, n: Node, s: SlotId) {
    n in h.span && s < h.span[n]
  }

  function Covered(h: System, n: Node, slots: set<SlotId>): set<SlotId> {
    set s | s in slots && Covers(h, n, s)
  }

  /** A request that carries the queue's settings reached the node. */
  function Opened(h: System, n: Node): System {
    h.(span := h.span[n := h.count])
  }

  function Freeze(h: System, n: Node, slots: set<SlotId>): System {
    h.(frozen := h.frozen + Places(n, Covered(h, n, slots)))
  }

  function Thaw(h: System, n: Node, slots: set<SlotId>): System {
    h.(frozen := h.frozen - Places(n, Covered(h, n, slots)))
  }

  /** What each of the slots holds at `n`, copied. */
  function CopyOf(h: System, n: Node, slots: set<SlotId>): map<SlotId, set<Id>> {
    map s | s in Covered(h, n, slots) :: Held(h, n, s)
  }

  function Joined(of: map<Place, set<Id>>, m: Move, ids: set<Id>): map<Place, set<Id>> {
    of + map p | p in Places(m.to, m.copies.Keys) :: At(of, m.to, p.slot) + Copies(m, p.slot) * ids
  }

  function AllCopies(m: Move): set<Id> {
    set s, id | s in m.copies && id in m.copies[s] :: id
  }

  /** The copies are written to the log of `to`, those in `ids` of them. */
  function Journalled(h: System, m: Move, ids: set<Id>): System {
    Opened(h, m.to).(logged := Joined(h.logged, m, ids))
  }

  /** The copies join what `to` has. */
  function Deliver(h: System, m: Move): System {
    Journalled(h, m, AllCopies(m)).(held := Joined(h.held, m, AllCopies(m)))
  }

  /** What a call to absorb leaves behind: everything, or part of the log, or nothing. */
  function Carried(h: System, m: Move, journal: set<Id>, applied: bool): System {
    if applied then Deliver(h, m) else if journal != {} then Journalled(h, m, journal) else h
  }

  /** Slots the node takes the queue to have are emptied and back in service; the logs of all of them go. */
  function Drop(h: System, n: Node, slots: set<SlotId>): System {
    if n !in h.span then h
    else Thaw(h.(held := h.held - Places(n, Covered(h, n, slots)), logged := h.logged - Places(n, slots)), n, slots)
  }

  function OwnedBy(n: Node, slots: set<SlotId>): map<SlotId, Node> {
    map s | s in slots :: n
  }

  function Record(h: System, slots: set<SlotId>, n: Node): System {
    h.(owner := h.owner + OwnedBy(n, slots))
  }

  /** What the log has is what there is. */
  function Restarted(h: System, n: Node): System {
    h.(span := h.span[n := RECOVERED],
       held := (map p | p in h.held && p.node != n :: h.held[p]) + (map p | p in h.logged && p.node == n :: h.logged[p]))
  }

  datatype Step =
    | PlaceSlot(s: SlotId, n: Node)
    | Touch(n: Node)
    | Accept(s: SlotId, id: Id)
    | End(n: Node, s: SlotId, id: Id, written: bool)
    | Restart(n: Node)
    | Begin
    | Start(from: Node, to: Node, slots: set<SlotId>)
    | Prepare(applied: bool, ok: bool)
    | Absorb(journal: set<Id>, applied: bool, ok: bool, thawed: bool)
    | RecordSlot(s: SlotId, applied: bool, ok: bool)
    | RecordAll(applied: bool, ok: bool, thawed: bool)
    | Discard(applied: bool)
    | Stop
    | Finish
    | ThawStranded(n: Node, s: SlotId)
    | DropOrphan(n: Node, s: SlotId)

  /** A slot the owner serves: an enqueue goes there. */
  predicate Open(h: System, s: SlotId) {
    s in h.owner && Place(h.owner[s], s) !in h.frozen
  }

  ghost predicate Unknown(h: System, s: SlotId, id: Id) {
    && id !in Live(h, s)
    && (forall n: Node :: id !in Trace(h, n, s))
    && (h.move.Some? ==> id !in Copies(h.move.value, s))
  }

  predicate InMove(h: System, p: Phase) {
    h.move.Some? && h.move.value.phase == p
  }

  /**
   * A move starts from whatever placement said when it was read: nothing here ties `from` to the owner. A node restarts
   * only while none of its slots is frozen.
   */
  ghost predicate Enabled(h: System, s: Step) {
    match s
    case PlaceSlot(s, _) => s !in h.owner && s < h.count
    case Touch(_) => true
    case Accept(s, id) => Open(h, s) && Unknown(h, s, id)
    case End(n, s, id, _) => id in Held(h, n, s)
    case Restart(n) => n in h.span && forall p | p in h.frozen :: p.node != n
    case Begin => !h.migrating
    case Start(from, to, slots) =>
      h.migrating && h.move.None? && from != to && slots != {} && forall s | s in slots :: s in h.owner
    case Prepare(applied, ok) => InMove(h, Started) && (ok ==> applied)
    case Absorb(_, applied, ok, _) => InMove(h, Prepared) && (ok ==> applied)
    case RecordSlot(s, applied, ok) =>
      h.move.Some? && h.move.value.phase.Recording? && s in h.move.value.phase.todo && (ok ==> applied)
    case RecordAll(applied, ok, _) =>
      h.move.Some? && InMove(h, Recording(h.move.value.slots, true)) && (ok ==> applied)
    case Discard(_) => InMove(h, Recorded)
    case Stop => h.migrating
    case Finish => h.migrating && h.move.None?
    case ThawStranded(n, s) => !h.migrating && s in h.owner && h.owner[s] == n
    case DropOrphan(n, s) => !h.migrating && s in h.owner && h.owner[s] != n
  }

  function InPhase(h: System, p: Phase): System
    requires h.move.Some?
  {
    h.(move := Some(h.move.value.(phase := p)))
  }

  /** After the last slot is recorded: on to the discard if every write went through, else left to the repairs. */
  function Recorded1(h: System, s: SlotId, ok: bool): System
    requires h.move.Some? && h.move.value.phase.Recording?
  {
    var (todo, clean) := (h.move.value.phase.todo - {s}, h.move.value.phase.clean && ok);
    if todo != {} then InPhase(h, Recording(todo, clean))
    else if clean then InPhase(h, Recorded)
    else h.(move := None)
  }

  function Accepted(h: System, n: Node, s: SlotId, id: Id): System {
    Opened(h, n).(
      held := h.held[Place(n, s) := Held(h, n, s) + {id}],
      logged := h.logged[Place(n, s) := Logged(h, n, s) + {id}],
      live := h.live[s := Live(h, s) + {id}])
  }

  /** An ack or a dead-letter writes to the log; an expiry does not. */
  function Ended(h: System, n: Node, s: SlotId, id: Id, written: bool): System {
    h.(
      held := h.held[Place(n, s) := Held(h, n, s) - {id}],
      logged := if written then h.logged[Place(n, s) := Logged(h, n, s) - {id}] else h.logged,
      live := h.live[s := Live(h, s) - {id}])
  }

  function Next(h: System, s: Step): System
    requires Enabled(h, s)
  {
    match s
    case PlaceSlot(s, n) => h.(owner := h.owner[s := n])
    case Touch(n) => Opened(h, n)
    case Accept(s, id) => Accepted(h, h.owner[s], s, id)
    case End(n, s, id, written) => Ended(h, n, s, id, written)
    case Restart(n) => Restarted(h, n)
    case Begin => h.(migrating := true)
    case Start(from, to, slots) => h.(move := Some(Move(from, to, slots, map[], Started)))
    case Prepare(applied, ok) =>
      var m := h.move.value;
      var h1 := if applied then Freeze(h, m.from, m.slots) else h;
      h1.(move := if ok then Some(m.(copies := CopyOf(h, m.from, m.slots), phase := Prepared)) else None)
    case Absorb(journal, applied, ok, thawed) =>
      var m := h.move.value;
      var h1 := Carried(h, m, journal, applied);
      if ok then InPhase(h1, Recording(m.slots, true))
      else (if thawed then Thaw(h1, m.from, m.slots) else h1).(move := None)
    case RecordSlot(s, applied, ok) =>
      Recorded1(if applied then Record(h, {s}, h.move.value.to) else h, s, ok)
    case RecordAll(applied, ok, thawed) =>
      var m := h.move.value;
      var h1 := if applied then Record(h, m.slots, m.to) else h;
      if ok then InPhase(h1, Recorded)
      else (if thawed then Thaw(h1, m.from, m.slots) else h1).(move := None)
    case Discard(applied) =>
      var m := h.move.value;
      (if applied then Drop(h, m.from, m.slots) else h).(move := None)
    case Stop => h.(move := None)
    case Finish => h.(migrating := false)
    case ThawStranded(n, s) => Thaw(h, n, {s})
    case DropOrphan(n, s) => Drop(h, n, {s})
  }

  // ---- What a commit needs ----

  /**
   * Slot `s` may be recorded at the target: it is there already, or nothing of it is live, or the move did start from its
   * owner and prepare covered it.
   */
  ghost predicate Fit(h: System, m: Move, s: SlotId) {
    s in h.owner && (h.owner[s] == m.to || Live(h, s) == {} || (h.owner[s] == m.from && s in m.copies))
  }

  /** No slot is recorded that is not fit. */
  ghost predicate Careful(h: System, s: Step)
    requires Enabled(h, s)
  {
    match s
    case RecordSlot(s, applied, _) => applied ==> Fit(h, h.move.value, s)
    case RecordAll(applied, _, _) => applied ==> forall r | r in h.move.value.slots :: Fit(h, h.move.value, r)
    case _ => true
  }

  // ---- The invariant ----

  /** Placement names a node that holds every live message of the slot, in memory and in its log. */
  ghost predicate SafeAt(h: System, s: SlotId) {
    if s in h.owner then Live(h, s) <= Has(h, h.owner[s], s) else Live(h, s) == {}
  }

  /** What a move in flight may rely on for one of its slots. */
  ghost predicate MoveAt(h: System, m: Move, s: SlotId) {
    && s in h.owner
    && match m.phase
       case Started => true
       case Prepared =>
         s in m.copies && h.owner[s] == m.from ==> Place(m.from, s) in h.frozen && Live(h, s) <= Copies(m, s)
       case Recording(todo, clean) =>
         && (s in m.copies && h.owner[s] == m.from ==> Place(m.from, s) in h.frozen && Live(h, s) <= Has(h, m.to, s))
         && (clean && s !in todo ==> h.owner[s] == m.to)
       case Recorded => h.owner[s] == m.to
  }

  ghost predicate MoveOk(h: System) {
    h.move.Some? ==>
      && h.migrating && h.move.value.from != h.move.value.to
      && h.move.value.copies.Keys <= h.move.value.slots
      && (h.move.value.phase.Recording? ==> h.move.value.phase.todo <= h.move.value.slots)
      && forall s | s in h.move.value.slots :: MoveAt(h, h.move.value, s)
  }

  /** Only slots a node takes the queue to have are ever frozen there. */
  ghost predicate SpanOk(h: System) {
    && h.count >= RECOVERED
    && (forall n | n in h.span :: h.span[n] <= h.count)
    && (forall p | p in h.frozen :: Covers(h, p.node, p.slot))
  }

  ghost predicate Inv(h: System) {
    (forall s :: SafeAt(h, s)) && MoveOk(h) && SpanOk(h)
  }

  // ---- What each part of a step does to one slot ----

  lemma JoinedAt(of: map<Place, set<Id>>, m: Move, ids: set<Id>, n: Node, s: SlotId)
    ensures At(Joined(of, m, ids), n, s) == if n == m.to then At(of, n, s) + Copies(m, s) * ids else At(of, n, s)
  {
    assert Place(n, s) in Places(m.to, m.copies.Keys) <==> n == m.to && s in m.copies;
  }

  lemma ThawedAt(h: System, n: Node, slots: set<SlotId>, k: Node, s: SlotId)
    ensures Place(k, s) in Thaw(h, n, slots).frozen <==> Place(k, s) in h.frozen && !(k == n && s in slots && Covers(h, n, s))
  {
    assert Place(k, s) in Places(n, Covered(h, n, slots)) <==> k == n && s in Covered(h, n, slots);
  }

  lemma DroppedAt(h: System, n: Node, slots: set<SlotId>, k: Node, s: SlotId)
    ensures var h' := Drop(h, n, slots);
            && Held(h', k, s) == (if k == n && s in slots && Covers(h, n, s) then {} else Held(h, k, s))
            && Logged(h', k, s) == (if k == n && s in slots && n in h.span then {} else Logged(h, k, s))
            && (Place(k, s) in h'.frozen <==> Place(k, s) in h.frozen && !(k == n && s in slots && Covers(h, n, s)))
  {
    assert Place(k, s) in Places(n, slots) <==> k == n && s in slots;
    assert Place(k, s) in Places(n, Covered(h, n, slots)) <==> k == n && s in Covered(h, n, slots);
  }

  lemma DropLeaves(h: System, n: Node, slots: set<SlotId>)
    ensures var h' := Drop(h, n, slots);
            && h'.owner == h.owner && h'.live == h.live && h'.migrating == h.migrating && h'.move == h.move
            && h'.span == h.span && h'.count == h.count && h'.frozen <= h.frozen
  {
  }

  lemma RestartedAt(h: System, n: Node, k: Node, s: SlotId)
    ensures Held(Restarted(h, n), k, s) == if k == n then Logged(h, n, s) else Held(h, k, s)
  {
  }

  // ---- Every step keeps the invariant ----

  /** Slots are independent: a step is safe if it is safe slot by slot. */
  lemma BySlot(h': System)
    requires forall s :: SafeAt(h', s)
    requires h'.move.Some? ==> h'.migrating && h'.move.value.from != h'.move.value.to
    requires h'.move.Some? ==> h'.move.value.copies.Keys <= h'.move.value.slots
    requires h'.move.Some? && h'.move.value.phase.Recording? ==> h'.move.value.phase.todo <= h'.move.value.slots
    requires h'.move.Some? ==> forall s | s in h'.move.value.slots :: MoveAt(h', h'.move.value, s)
    requires SpanOk(h')
    ensures Inv(h')
  {
  }

  lemma AcceptKeeps(h: System, s: SlotId, id: Id)
    requires Inv(h) && Enabled(h, Accept(s, id))
    ensures Inv(Next(h, Accept(s, id)))
  {
    var h' := Next(h, Accept(s, id));
    forall r
      ensures SafeAt(h', r)
      ensures h.move.Some? && r in h.move.value.slots ==> MoveAt(h', h.move.value, r)
    {
      assert SafeAt(h, r);
      if h.move.Some? && r in h.move.value.slots { assert MoveAt(h, h.move.value, r); }
    }
    BySlot(h');
  }

  lemma EndKeeps(h: System, n: Node, s: SlotId, id: Id, written: bool)
    requires Inv(h) && Enabled(h, End(n, s, id, written))
    ensures Inv(Next(h, End(n, s, id, written)))
  {
    var h' := Next(h, End(n, s, id, written));
    forall r
      ensures SafeAt(h', r)
      ensures h.move.Some? && r in h.move.value.slots ==> MoveAt(h', h.move.value, r)
    {
      assert SafeAt(h, r);
      if h.move.Some? && r in h.move.value.slots { assert MoveAt(h, h.move.value, r); }
    }
    BySlot(h');
  }

  lemma RestartKeeps(h: System, n: Node)
    requires Inv(h) && Enabled(h, Restart(n))
    ensures Inv(Next(h, Restart(n)))
  {
    var h' := Next(h, Restart(n));
    forall r
      ensures SafeAt(h', r)
      ensures h.move.Some? && r in h.move.value.slots ==> MoveAt(h', h.move.value, r)
    {
      assert SafeAt(h, r);
      if r in h.owner { RestartedAt(h, n, h.owner[r], r); }
      if h.move.Some? && r in h.move.value.slots {
        assert MoveAt(h, h.move.value, r);
        RestartedAt(h, n, h.move.value.to, r);
      }
    }
    BySlot(h');
  }

  lemma PrepareKeeps(h: System, applied: bool, ok: bool)
    requires Inv(h) && Enabled(h, Prepare(applied, ok))
    ensures Inv(Next(h, Prepare(applied, ok)))
  {
    var m := h.move.value;
    var h' := Next(h, Prepare(applied, ok));
    forall r
      ensures SafeAt(h', r)
      ensures ok && r in m.slots ==> MoveAt(h', h'.move.value, r)
    {
      assert SafeAt(h, r);
      if r in m.slots { assert MoveAt(h, m, r); }
      if r in Covered(h, m.from, m.slots) { assert Place(m.from, r) in Places(m.from, Covered(h, m.from, m.slots)); }
    }
    BySlot(h');
  }

  lemma AbsorbKeeps(h: System, journal: set<Id>, applied: bool, ok: bool, thawed: bool)
    requires Inv(h) && Enabled(h, Absorb(journal, applied, ok, thawed))
    ensures Inv(Next(h, Absorb(journal, applied, ok, thawed)))
  {
    hide Has, Live, SafeAt, MoveAt;
    var m := h.move.value;
    var h' := Next(h, Absorb(journal, applied, ok, thawed));
    forall r
      ensures SafeAt(h', r)
      ensures ok && r in m.slots ==> MoveAt(h', h'.move.value, r)
    {
      AbsorbedAt(h, journal, applied, ok, thawed, r);
    }
    BySlot(h');
  }

  lemma CarriedAt(h: System, m: Move, journal: set<Id>, applied: bool, n: Node, s: SlotId)
    ensures var (h1, got) := (Carried(h, m, journal, applied), Copies(m, s) * (if applied then AllCopies(m) else journal));
            && Held(h1, n, s) == (if n == m.to && applied then Held(h, n, s) + Copies(m, s) else Held(h, n, s))
            && Logged(h1, n, s) == (if n == m.to then Logged(h, n, s) + got else Logged(h, n, s))
            && (applied ==> got == Copies(m, s))
  {
    JoinedAt(h.held, m, AllCopies(m), n, s);
    JoinedAt(h.logged, m, if applied then AllCopies(m) else journal, n, s);
    EveryCopy(m, s);
    hide At, Joined, AllCopies, Copies;
  }

  lemma EveryCopy(m: Move, s: SlotId)
    ensures Copies(m, s) * AllCopies(m) == Copies(m, s)
  {
  }

  lemma CarriedLeaves(h: System, m: Move, journal: set<Id>, applied: bool)
    ensures var h1 := Carried(h, m, journal, applied); h1 == h.(span := h1.span, held := h1.held, logged := h1.logged)
    ensures applied ==> Carried(h, m, journal, applied).span == h.span[m.to := h.count]
  {
    hide Joined, AllCopies;
  }

  lemma AbsorbLeaves(h: System, journal: set<Id>, applied: bool, ok: bool, thawed: bool)
    requires Enabled(h, Absorb(journal, applied, ok, thawed))
    ensures var (h', m) := (Next(h, Absorb(journal, applied, ok, thawed)), h.move.value);
            && h' == Carried(h, m, journal, applied).(frozen := h'.frozen, move := h'.move)
            && h'.move == (if ok then Some(m.(phase := Recording(m.slots, true))) else None)
            && (ok ==> h'.frozen == h.frozen)
            && (!ok && thawed ==> h'.frozen == Thaw(Carried(h, m, journal, applied), m.from, m.slots).frozen)
  {
    CarriedLeaves(h, h.move.value, journal, applied);
    hide Carried;
  }

  lemma AbsorbedAt(h: System, journal: set<Id>, applied: bool, ok: bool, thawed: bool, r: SlotId)
    requires Inv(h) && Enabled(h, Absorb(journal, applied, ok, thawed))
    ensures var h' := Next(h, Absorb(journal, applied, ok, thawed));
            && SafeAt(h', r)
            && (ok && r in h.move.value.slots ==> MoveAt(h', h'.move.value, r))
  {
    var m := h.move.value;
    var h1 := Carried(h, m, journal, applied);
    var h' := Next(h, Absorb(journal, applied, ok, thawed));
    AbsorbLeaves(h, journal, applied, ok, thawed);
    CarriedLeaves(h, m, journal, applied);
    if r in h.owner { CarriedAt(h, m, journal, applied, h.owner[r], r); }
    CarriedAt(h, m, journal, applied, m.to, r);
    SameMessages(h1, h');
    assert SafeAt(h, r);
    assert r !in m.slots || MoveAt(h, m, r);
    hide SpanOk, Carried, Next;
  }

  lemma ThawLeaves(h: System, n: Node, slots: set<SlotId>)
    ensures Thaw(h, n, slots) == h.(frozen := Thaw(h, n, slots).frozen)
  {
  }

  lemma RecordSlotKeeps(h: System, s: SlotId, applied: bool, ok: bool)
    requires Inv(h) && Enabled(h, RecordSlot(s, applied, ok)) && Careful(h, RecordSlot(s, applied, ok))
    ensures Inv(Next(h, RecordSlot(s, applied, ok)))
  {
    hide Has, Live, SafeAt, MoveAt, Fit, Record, Recorded1;
    var m := h.move.value;
    var h1 := if applied then Record(h, {s}, m.to) else h;
    var h' := Next(h, RecordSlot(s, applied, ok));
    OwnerRecorded(h, {s}, m.to, s);
    WhatRecordedLeaves(h1, s, ok);
    forall r
      ensures SafeAt(h', r)
      ensures h'.move.Some? && r in m.slots ==> MoveAt(h', h'.move.value, r)
    {
      RecordedAt(h, s, applied, ok, r);
    }
    BySlot(h');
  }

  lemma SameMessages(h: System, h': System)
    requires h'.held == h.held && h'.logged == h.logged && h'.live == h.live
    ensures forall n, s :: Has(h', n, s) == Has(h, n, s)
    ensures forall s :: Live(h', s) == Live(h, s)
  {
  }

  lemma RecordedAt(h: System, s: SlotId, applied: bool, ok: bool, r: SlotId)
    requires Inv(h) && Enabled(h, RecordSlot(s, applied, ok)) && Careful(h, RecordSlot(s, applied, ok))
    ensures var h' := Next(h, RecordSlot(s, applied, ok));
            && SafeAt(h', r)
            && (h'.move.Some? && r in h.move.value.slots ==> MoveAt(h', h'.move.value, r))
  {
    var m := h.move.value;
    var h1 := if applied then Record(h, {s}, m.to) else h;
    var h' := Next(h, RecordSlot(s, applied, ok));
    OwnerRecorded(h, {s}, m.to, r);
    WhatRecordedLeaves(h1, s, ok);
    SameMessages(h, h');
    assert SafeAt(h, r);
    assert MoveAt(h, m, s);
    hide Has, Live, SpanOk, Record, Recorded1;
    assert r !in m.slots || MoveAt(h, m, r);
  }

  lemma OwnerRecorded(h: System, slots: set<SlotId>, n: Node, r: SlotId)
    ensures var h' := Record(h, slots, n);
            && (r in h'.owner <==> r in slots || r in h.owner)
            && (r in h'.owner ==> h'.owner[r] == if r in slots then n else h.owner[r])
            && h' == h.(owner := h'.owner)
  {
  }

  lemma WhatRecordedLeaves(h: System, s: SlotId, ok: bool)
    requires h.move.Some? && h.move.value.phase.Recording? && s in h.move.value.phase.todo
    ensures var (h', p) := (Recorded1(h, s, ok), h.move.value.phase);
            && h' == h.(move := h'.move)
            && (h'.move.Some? ==>
                  && h'.move.value == h.move.value.(phase := h'.move.value.phase)
                  && (if p.todo == {s} then h'.move.value.phase == Recorded && p.clean && ok
                      else h'.move.value.phase == Recording(p.todo - {s}, p.clean && ok)))
  {
    var todo := h.move.value.phase.todo;
    assert todo - {s} == {} ==> todo == {s} || todo == {};
  }

  lemma RecordAllKeeps(h: System, applied: bool, ok: bool, thawed: bool)
    requires Inv(h) && Enabled(h, RecordAll(applied, ok, thawed)) && Careful(h, RecordAll(applied, ok, thawed))
    ensures Inv(Next(h, RecordAll(applied, ok, thawed)))
  {
    var m := h.move.value;
    var h' := Next(h, RecordAll(applied, ok, thawed));
    forall r
      ensures SafeAt(h', r)
      ensures h'.move.Some? && r in m.slots ==> MoveAt(h', h'.move.value, r)
    {
      assert SafeAt(h, r);
      if r in m.slots { assert MoveAt(h, m, r) && (applied ==> Fit(h, m, r)); }
    }
    BySlot(h');
  }

  lemma DropKeepsSafe(h: System, n: Node, slots: set<SlotId>)
    requires Inv(h) && forall s | s in slots :: s in h.owner && h.owner[s] != n
    ensures forall r :: SafeAt(Drop(h, n, slots), r)
    ensures SpanOk(Drop(h, n, slots))
  {
    forall r
      ensures SafeAt(Drop(h, n, slots), r)
    {
      assert SafeAt(h, r);
      if r in h.owner { DroppedAt(h, n, slots, h.owner[r], r); }
    }
  }

  lemma DiscardKeeps(h: System, applied: bool)
    requires Inv(h) && Enabled(h, Discard(applied))
    ensures Inv(Next(h, Discard(applied)))
  {
    var m := h.move.value;
    assert forall r | r in m.slots :: MoveAt(h, m, r);
    DropKeepsSafe(h, m.from, m.slots);
    var h' := Next(h, Discard(applied));
    assert forall r :: SafeAt(if applied then Drop(h, m.from, m.slots) else h, r) ==> SafeAt(h', r);
  }

  lemma RestKeeps(h: System, s: Step)
    requires Inv(h) && Enabled(h, s)
    requires s.PlaceSlot? || s.Touch? || s.Begin? || s.Start? || s.Stop? || s.Finish? || s.ThawStranded?
    ensures Inv(Next(h, s))
  {
    var h' := Next(h, s);
    forall r
      ensures SafeAt(h', r)
      ensures h'.move.Some? && r in h'.move.value.slots ==> MoveAt(h', h'.move.value, r)
    {
      assert SafeAt(h, r);
      if h.move.Some? && r in h.move.value.slots { assert MoveAt(h, h.move.value, r); }
    }
    BySlot(h');
  }

  lemma StepKeeps(h: System, s: Step)
    requires Inv(h) && Enabled(h, s) && Careful(h, s)
    ensures Inv(Next(h, s))
  {
    match s
    case Accept(s, id) => AcceptKeeps(h, s, id);
    case End(n, s, id, written) => EndKeeps(h, n, s, id, written);
    case Restart(n) => RestartKeeps(h, n);
    case Prepare(applied, ok) => PrepareKeeps(h, applied, ok);
    case Absorb(journal, applied, ok, thawed) => AbsorbKeeps(h, journal, applied, ok, thawed);
    case RecordSlot(s, applied, ok) => RecordSlotKeeps(h, s, applied, ok);
    case RecordAll(applied, ok, thawed) => RecordAllKeeps(h, applied, ok, thawed);
    case Discard(applied) => DiscardKeeps(h, applied);
    case DropOrphan(n, r) => DropKeepsSafe(h, n, {r});
    case _ => RestKeeps(h, s);
  }

  // ---- Runs ----

  ghost predicate Runs(h: System, ss: seq<Step>, h': System)
    decreases |ss|
  {
    if ss == [] then h' == h else Enabled(h, ss[0]) && Runs(Next(h, ss[0]), ss[1..], h')
  }

  /** No slot is recorded in the run that is not fit at that moment. */
  ghost predicate CarefulRun(h: System, ss: seq<Step>)
    decreases |ss|
  {
    ss == [] || (Enabled(h, ss[0]) && Careful(h, ss[0]) && CarefulRun(Next(h, ss[0]), ss[1..]))
  }

  lemma {:induction false} RunKeeps(h: System, ss: seq<Step>, h': System)
    requires Inv(h) && Runs(h, ss, h') && CarefulRun(h, ss)
    ensures Inv(h')
    decreases |ss|
  {
    if ss != [] {
      hide Inv, Enabled, Careful, Next;
      StepKeeps(h, ss[0]);
      RunKeeps(Next(h, ss[0]), ss[1..], h');
    }
  }

  lemma CreatedOk(count: nat)
    requires count >= RECOVERED
    ensures Inv(Created(count))
  {
    assert forall r :: SafeAt(Created(count), r);
  }

  /**
   * Wherever a handoff is, or stopped, and whichever of its calls failed before or after taking effect: the node that
   * placement names holds every message of the slot that has not ended, and has it in its log.
   */
  lemma OwnerHoldsAll(count: nat, ss: seq<Step>, h: System, s: SlotId)
    requires count >= RECOVERED && Runs(Created(count), ss, h) && CarefulRun(Created(count), ss)
    ensures if s in h.owner then Live(h, s) <= Held(h, h.owner[s], s) * Logged(h, h.owner[s], s) else Live(h, s) == {}
  {
    CreatedOk(count);
    RunKeeps(Created(count), ss, h);
    assert SafeAt(h, s);
  }
}
