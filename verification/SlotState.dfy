/** The fields of a slot at one moment, and what each operation under the slot lock makes of them. */
module SlotState {
  import opened Messages
  import opened GroupIndex
  import opened Stats
  import opened PlainSlot
  import BandMask

  datatype Lease = Lease(msg: Message, g: Group, epoch: nat, deadline: Time)

  datatype Timer = Timer(id: string, epoch: nat, at: Time)

  /** The two heaps are the sets of their entries: no two entries of a heap are ever equal. */
  datatype State = State(
    ix: Index,
    leases: map<string, Lease>,
    timers: set<Timer>,
    delayed: set<Message>,
    epoch: nat,
    st: Stats,
    hint: nat,
    headSeq: nat)

  /** The largest 64-bit value stands for "no head". */
  const NO_SEQ := 0xFFFF_FFFF_FFFF_FFFF

  const HEAD_SCAN := 8

  const EMPTY_STATE := State(GroupIndex.EMPTY, map[], {}, {}, 0, ZERO, 0, NO_SEQ)

  // ---- The dispatcher's hint ----

  /** The first deliverable head among the first `limit` entries of a band. */
  function HeadMessage(es: seq<Entry>, recs: map<Group, Record>, limit: nat): Option<Message> {
    if es == [] || limit == 0 then None
    else if Current(es[0], recs) && !recs[es[0].g].locked && recs[es[0].g].msgs != [] then Some(recs[es[0].g].msgs[0])
    else HeadMessage(es[1..], recs, limit - 1)
  }

  /** The head a scan of band `p` finds was enqueued before `cutoff`. */
  predicate Starved(s: State, p: Priority, cutoff: Time) {
    var m := HeadMessage(Band(s.ix, p), s.ix.recs, HEAD_SCAN);
    m.Some? && m.value.enqueuedAt < cutoff
  }

  function HintOf(ix: Index): nat {
    match BandMask.Highest(ix.mask)
    case None => 0
    case Some(p) => p + 1
  }

  function HeadSeqOf(ix: Index): nat {
    match BandMask.Highest(ix.mask)
    case None => NO_SEQ
    case Some(p) =>
      match HeadMessage(Band(ix, p), ix.recs, HEAD_SCAN)
      case None => NO_SEQ
      case Some(m) => m.seqNo
  }

  function Refresh(s: State): State {
    s.(hint := HintOf(s.ix), headSeq := HeadSeqOf(s.ix))
  }

  // ---- Operations, up to the refresh of the hint that ends most of them ----

  /** `enqueue` of a message whose time has not come. */
  function EnqueueWaitingS(s: State, m: Message): State
    requires |s.st.ready| == 3
  {
    s.(delayed := s.delayed + {m}, st := Move(CountEnqueued(s.st), m, Absent, Delayed))
  }

  /** `enqueue` of a message that may go out at once. */
  function EnqueueReadyS(s: State, m: Message, spare: Group): State
    requires TableOk(s.ix) && |s.st.ready| == 3
  {
    s.(ix := Admit(s.ix, m, spare), st := Move(CountEnqueued(s.st), m, Absent, Ready))
  }

  datatype Fresh = Fresh(msgs: seq<Message>, st: Stats)

  /** Pops expired messages off the front of a list and counts them. */
  function PopExpired(ms: seq<Message>, now: Time, st: Stats): (r: Fresh)
    requires |st.ready| == 3
    ensures |r.st.ready| == 3 && |r.msgs| <= |ms|
  {
    if ms != [] && ms[0].Expired(now) then
      PopExpired(ms[1..], now, CountExpired(Move(st, ms[0], Ready, Absent)))
    else Fresh(ms, st)
  }

  /** A group's list once its expired front and the message after it are gone. */
  function Rest(f: Fresh): seq<Message> {
    if f.msgs == [] then [] else f.msgs[1..]
  }

  function First(f: Fresh): Option<Message> {
    if f.msgs == [] then None else Some(f.msgs[0])
  }

  function Fetched(s: State, g: Group, now: Time): State
    requires g in s.ix.recs && |s.st.ready| == 3
  {
    var f := PopExpired(s.ix.recs[g].msgs, now, s.st);
    s.(ix := SetRec(s.ix, g, s.ix.recs[g].(msgs := Rest(f))), st := f.st)
  }

  function Lent(s: State, g: Group, m: Message, deadline: Time): State
    requires g in s.ix.recs && |s.st.ready| == 3
  {
    var l := Lease(Attempted(m), g, NextEpoch(s.epoch), deadline);
    s.(
      ix := SetRec(s.ix, g, s.ix.recs[g].(locked := true)),
      leases := s.leases[m.id := l],
      timers := s.timers + {Timer(m.id, l.epoch, deadline)},
      epoch := l.epoch,
      st := Move(s.st, l.msg, Ready, InFlight))
  }

  /** `take` once a group has left its line. */
  function ServeS(s: State, g: Group, now: Time, deadline: Time): (State, Option<Delivery>)
    requires g in s.ix.recs && |s.st.ready| == 3
  {
    var r := s.ix.recs[g];
    var f := PopExpired(r.msgs, now, s.st);
    if f.msgs == [] then
      (s.(ix := DropIdle(SetRec(s.ix, g, r.(msgs := [])), g), st := f.st), None)
    else
      var m := Attempted(f.msgs[0]);
      var l := Lease(m, g, NextEpoch(s.epoch), deadline);
      (s.(
         ix := SetRec(s.ix, g, r.(msgs := f.msgs[1..], locked := true)),
         leases := s.leases[m.id := l],
         timers := s.timers + {Timer(m.id, l.epoch, deadline)},
         epoch := l.epoch,
         st := Move(f.st, m, Ready, InFlight)),
       Some(Delivery(m, l.epoch, deadline)))
  }

  function TakeS(s: State, p: Priority, now: Time, deadline: Time): (State, Option<Delivery>)
    requires CanTake(s, p)
  {
    var (ix1, got) := TakeGroup(s.ix, p);
    match got
    case None => (s.(ix := ix1), None)
    case Some(g) => ServeS(s.(ix := ix1), g, now, deadline)
  }

  predicate CanTake(s: State, p: Priority) {
    |s.st.ready| == 3 && var (ix1, got) := TakeGroup(s.ix, p); got.Some? ==> got.value in ix1.recs
  }

  /** `take` has run: the state after it, with the hint, and what it handed out. */
  ghost predicate Taken(s: State, p: Priority, now: Time, deadline: Time, s': State, d: Option<Delivery>) {
    CanTake(s, p) && var (s1, out) := TakeS(s, p, now, deadline); s' == Refresh(s1) && d == out
  }

  /** Every lease points at a group record. */
  predicate LeasesInIndex(s: State) {
    forall id | id in s.leases :: s.leases[id].g in s.ix.recs
  }

  function AckS(s: State, id: string, epoch: nat): (State, Outcome)
    requires LeasesInIndex(s) && |s.st.ready| == 3
  {
    if id !in s.leases then (s, NotInFlight)
    else if s.leases[id].epoch != epoch then (s, LeaseExpired)
    else
      var l := s.leases[id];
      var st := CountAcked(Move(s.st, l.msg, InFlight, Absent));
      (s.(leases := s.leases - {id}, st := st, ix := Unlock(s.ix, l.g)), Done)
  }

  function PushFront(ix: Index, g: Group, m: Message): Index
    requires g in ix.recs
  {
    SetRec(ix, g, ix.recs[g].(msgs := [m] + ix.recs[g].msgs))
  }

  /** `retire`, once the lease `l` has left the table. */
  function RetireS(s: State, l: Lease, now: Time, delay: Time, retry: Retry): State
    requires l.g in s.ix.recs && |s.st.ready| == 3
  {
    var m := l.msg;
    if m.Expired(now) then
      s.(st := CountExpired(Move(s.st, m, InFlight, Absent)), ix := Unlock(s.ix, l.g))
    else if Exhausted(m, retry) then
      s.(st := CountDeadLettered(Move(s.st, m, InFlight, Absent)), ix := Unlock(s.ix, l.g))
    else if delay > 0 then
      var m' := Postponed(m, now, delay);
      s.(delayed := s.delayed + {m'}, st := CountRequeued(Move(s.st, m', InFlight, Delayed)), ix := Unlock(s.ix, l.g))
    else
      s.(st := CountRequeued(Move(s.st, m, InFlight, Ready)), ix := Unlock(PushFront(s.ix, l.g, m), l.g))
  }

  function NackS(s: State, id: string, epoch: nat, now: Time, delay: Time, retry: Retry): (State, Option<Message>, Outcome)
    requires LeasesInIndex(s) && |s.st.ready| == 3
  {
    if id !in s.leases then (s, None, NotInFlight)
    else if s.leases[id].epoch != epoch then (s, None, LeaseExpired)
    else
      var l := s.leases[id];
      (RetireS(s.(leases := s.leases - {id}), l, now, delay, retry), Dead(l.msg, now, retry), Done)
  }

  /** One popped timer: a lease it still names ends, any other is ignored. */
  function FireS(s: State, t: Timer, now: Time, retry: Retry): (State, Option<Message>)
    requires LeasesInIndex(s) && |s.st.ready| == 3
  {
    var s1 := s.(timers := s.timers - {t});
    if t.id in s.leases && s.leases[t.id].epoch == t.epoch then
      var l := s.leases[t.id];
      (RetireS(s1.(leases := s.leases - {t.id}), l, now, 0, retry), Dead(l.msg, now, retry))
    else (s1, None)
  }

  function ReleaseS(s: State, m: Message, spare: Group): State
    requires TableOk(s.ix) && |s.st.ready| == 3
  {
    s.(delayed := s.delayed - {m}, st := Move(s.st, Due(m), Delayed, Ready), ix := Admit(s.ix, Due(m), spare))
  }

  /** A group with its expired front gone: if any went, it leaves the band of the head it had. */
  function Trimmed(ix: Index, g: Group, ms: seq<Message>): Index
    requires g in ix.recs
  {
    var r := ix.recs[g];
    SetRec(ix, g,
      if |ms| < |r.msgs| && r.inBand then r.(msgs := ms, version := r.version + 1, inBand := false) else r.(msgs := ms))
  }

  lemma TrimmedSteps(ix: Index, g: Group, ms: seq<Message>)
    requires g in ix.recs
    ensures var r := ix.recs[g].(msgs := ms);
            Trimmed(ix, g, ms) ==
            if |ms| < |ix.recs[g].msgs| && r.inBand
            then SetRec(SetRec(ix, g, r), g, r.(version := r.version + 1, inBand := false)) else SetRec(ix, g, r)
  {
  }

  /** `sweepTTL` on one group. */
  function ExpireIx(ix: Index, g: Group, ms: seq<Message>): Index
    requires g in ix.recs
  {
    var ix1 := Trimmed(ix, g, ms);
    var ix2 := if !ix1.recs[g].inBand && !ix.recs[g].locked && ms != [] then Push(ix1, g) else ix1;
    DropIdle(ix2, g)
  }

  function ExpireS(s: State, k: string, now: Time): State
    requires TableOk(s.ix) && k in s.ix.table && |s.st.ready| == 3
  {
    var g := s.ix.table[k];
    var f := PopExpired(s.ix.recs[g].msgs, now, s.st);
    s.(ix := ExpireIx(s.ix, g, f.msgs), st := f.st)
  }

  /** `g` with new messages and a new version, in no line. */
  function Reissued(ix: Index, g: Group, ms: seq<Message>): Index
    requires g in ix.recs
  {
    SetRec(ix, g, ix.recs[g].(msgs := ms, version := ix.recs[g].version + 1, inBand := false))
  }

  /** One group's share of an absorbed transfer goes in front, and the group is listed anew. */
  function AbsorbIx(ix1: Index, g: Group, ms: seq<Message>): Index
    requires g in ix1.recs
  {
    var ix2 := Reissued(ix1, g, ms + ix1.recs[g].msgs);
    if ix1.recs[g].locked then ix2 else Push(ix2, g)
  }

  function AbsorbGroupS(s: State, k: string, ms: seq<Message>, spare: Group): State
    requires TableOk(s.ix) && |s.st.ready| == 3
  {
    var ix1 := Ensure(s.ix, k, spare);
    s.(ix := AbsorbIx(ix1, ix1.table[k], ms), st := ArriveStats(s.st, ms))
  }

  function AbsorbDelayedS(s: State, m: Message): State
    requires |s.st.ready| == 3
  {
    s.(delayed := s.delayed + {m}, st := Move(s.st, m, Absent, Delayed))
  }

  function DrainS(s: State): State {
    s.(ix := GroupIndex.EMPTY, leases := map[], timers := {}, delayed := {}, st := ResetGauges(s.st))
  }
}
