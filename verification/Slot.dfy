/** The slot itself: fields updated in place under one lock. Each method is tied to the plain slot's operation. */
module Slot {
  import opened Messages
  import opened Seqs
  import opened GroupIndex
  import opened Stats
  import opened PlainSlot
  import opened PlainContents
  import opened SlotState
  import opened SlotView
  import opened SlotRefines
  import opened SlotRuns
  import opened SlotSweeps
  import opened SlotTransfer
  import opened PlainFragment
  import BandMask

  class Slot {
    const id: nat
    var bandMask: BandMask.Mask
    var bands: map<Priority, seq<Entry>>
    var groups: map<string, Group>
    var inflight: map<string, Lease>
    var timers: set<Timer>
    var delayed: set<Message>
    var epochSeq: nat
    var st: Stats
    var hint: nat
    var headSeq: nat
    var frozen: bool
    /** Every group record the table, a lease or a band entry can reach. */
    ghost var records: set<Group>
    /** All the fields above as one value. */
    ghost var state: State

    /** `recs` is what the group records say. */
    ghost predicate Mirrors(recs: map<Group, Record>)
      reads this`records, records
    {
      && recs.Keys == records
      && forall g | g in records :: recs[g] == Record(g.msgs, g.locked, g.inBand, g.band, g.version)
    }

    /** `state` is what the slot's own fields say. */
    ghost predicate FieldsMatch()
      reads this
    {
      state == State(Index(bands, bandMask, groups, state.ix.recs), inflight, timers, delayed, epochSeq, st, hint, headSeq)
    }

    /** `state` is what the fields say, here and in the group records. */
    ghost predicate Repr()
      reads this, records
    {
      Mirrors(state.ix.recs) && FieldsMatch()
    }

    constructor (id: nat)
      ensures Repr() && state == EMPTY_STATE
      ensures this.id == id && !frozen && records == {}
    {
      this.id := id;
      bandMask, bands, groups := BandMask.EMPTY, map[], map[];
      inflight, timers, delayed, epochSeq, st := map[], {}, {}, 0, ZERO;
      hint, headSeq, frozen := 0, NO_SEQ, false;
      records := {};
      state := EMPTY_STATE;
    }

    // ---- Band entries ----

    /** The fields of one group, as they are now, in `state`. */
    ghost method NoteGroup(g: Group, r: Record)
      requires g in records && r == Record(g.msgs, g.locked, g.inBand, g.band, g.version)
      requires Mirrors(state.ix.recs[g := r])
      requires FieldsMatch()
      modifies this`state
      ensures Repr() && state == old(state).(ix := SetRec(old(state).ix, g, r))
    {
      state := state.(ix := SetRec(state.ix, g, r));
    }

    method PushEntry(p: Priority, e: Entry)
      requires Repr()
      modifies this`bands, this`bandMask, this`state
      ensures Repr() && state == old(state).(ix := AddEntry(old(state).ix, p, e))
    {
      hide BandMask.Set, BandMask.Bands;
      var d := if p in bands then bands[p] else [];
      bands := bands[p := d + [e]];
      bandMask := BandMask.Set(bandMask, p);
      state := state.(ix := AddEntry(state.ix, p, e));
    }

    method ListGroup(g: Group)
      requires Repr() && g in records && g.msgs != [] && !g.locked
      modifies this`bands, this`bandMask, this`state, g
      ensures Repr() && state == old(state).(ix := Push(old(state).ix, g))
    {
      hide Push, AddEntry;
      PushSteps(state.ix, g);
      var p := g.msgs[0].priority;
      EnterBand(g, p);
      PushEntry(p, Entry(g, g.version));
    }

    method EnterBand(g: Group, p: Priority)
      requires Repr() && g in records
      modifies this`state, g`version, g`band, g`inBand
      ensures Repr() && g in old(state).ix.recs && g.version == old(g.version) + 1
      ensures var r := old(state).ix.recs[g];
              state == old(state).(ix := SetRec(old(state).ix, g, r.(version := r.version + 1, band := p, inBand := true)))
    {
      g.version := g.version + 1;
      g.band := p;
      g.inBand := true;
      NoteGroup(g, Record(g.msgs, g.locked, g.inBand, g.band, g.version));
    }

    method PushGroup(g: Group)
      requires Repr() && g in records
      modifies this`bands, this`bandMask, this`state, g
      ensures Repr() && state == old(state).(ix := Push(old(state).ix, g))
    {
      if |g.msgs| > 0 && !g.locked {
        ListGroup(g);
      }
    }

    /** The group's entry has left its band. */
    method Unflag(g: Group, ghost recs0: map<Group, Record>) returns (ghost recs: map<Group, Record>)
      requires Mirrors(recs0) && g in records
      modifies g`inBand
      ensures Mirrors(recs) && g in recs0 && recs == recs0[g := recs0[g].(inBand := false)]
    {
      recs := recs0[g := recs0[g].(inBand := false)];
      g.inBand := false;
    }

    /** Pops entries until one is current; a stale entry leaves its group's flags alone. */
    method PopLive(d0: seq<Entry>, ghost recs0: map<Group, Record>)
      returns (d: seq<Entry>, got: Option<Group>, ghost recs: map<Group, Record>)
      requires Mirrors(recs0) && forall i :: 0 <= i < |d0| ==> d0[i].g in records
      modifies records
      ensures Mirrors(recs) && Popped(recs, d, got) == PopCurrent(d0, recs0)
    {
      d, got, recs := d0, None, recs0;
      while |d| > 0
        invariant got.None? && Mirrors(recs) && PopCurrent(d, recs) == PopCurrent(d0, recs0)
        invariant forall i :: 0 <= i < |d| ==> d[i].g in records
      {
        var e := d[0];
        d := d[1..];
        if e.ver != e.g.version {
          continue;
        }
        recs := Unflag(e.g, recs);
        if !e.g.locked && |e.g.msgs| > 0 {
          got := Some(e.g);
          return;
        }
      }
    }

    method TakeGroup(p: Priority) returns (got: Option<Group>)
      requires Repr()
      requires p in bands ==> forall i :: 0 <= i < |bands[p]| ==> bands[p][i].g in records
      modifies this`bands, this`bandMask, this`state, records
      ensures Repr() && var (ix', g) := GroupIndex.TakeGroup(old(state).ix, p); got == g && state == old(state).(ix := ix')
    {
      hide BandMask.Clear, BandMask.Bands, PopCurrent;
      got := None;
      ghost var recs := state.ix.recs;
      if p !in bands {
        bandMask := BandMask.Clear(bandMask, p);
      } else {
        var d;
        d, got, recs := PopLive(bands[p], recs);
        if |d| == 0 {
          bands := bands - {p};
          bandMask := BandMask.Clear(bandMask, p);
        } else {
          bands := bands[p := d];
        }
      }
      state := state.(ix := Index(bands, bandMask, groups, recs));
    }

    // ---- The dispatcher's hint ----

    method HeadMessage(p: Priority) returns (m: Option<Message>)
      requires Repr() && EntriesOk(state.ix)
      ensures m == SlotState.HeadMessage(Band(state.ix, p), state.ix.recs, HEAD_SCAN)
    {
      if p !in bands {
        return None;
      }
      var d := bands[p];
      assert EntriesBelow(d, state.ix.recs);
      var limit := if |d| > HEAD_SCAN then HEAD_SCAN else |d|;
      var i := 0;
      while i < limit
        invariant i <= limit
        invariant SlotState.HeadMessage(d[i..], state.ix.recs, HEAD_SCAN - i) == SlotState.HeadMessage(d, state.ix.recs, HEAD_SCAN)
      {
        var e := d[i];
        assert d[i..][0] == e && d[i..][1..] == d[i + 1..];
        if e.ver == e.g.version && !e.g.locked && |e.g.msgs| > 0 {
          return Some(e.g.msgs[0]);
        }
        i := i + 1;
      }
      return None;
    }

    /** Bands from the lowest up: the first whose head was enqueued before `cutoff`. */
    method OldestBandBefore(cutoff: Time) returns (r: Option<Priority>)
      requires Repr() && EntriesOk(state.ix) && MaskOk(state.ix)
      ensures r.Some? ==> r.value in state.ix.bands && Starved(state, r.value, cutoff)
      ensures forall q: Priority | q in state.ix.bands && (r.Some? ==> q < r.value) :: !Starved(state, q, cutoff)
    {
      hide EntriesOk;
      var i := 0;
      while i <= MAX_PRIORITY
        invariant i <= MAX_PRIORITY + 1
        invariant forall q: Priority | q in state.ix.bands && q < i :: !Starved(state, q, cutoff)
      {
        var p: Priority := i;
        if BandMask.Has(bandMask, p) {
          assert p in BandMask.Bands(state.ix.mask);
          var m := HeadMessage(p);
          if m.Some? && m.value.enqueuedAt < cutoff {
            return Some(p);
          }
        } else {
          assert p !in BandMask.Bands(state.ix.mask);
        }
        i := i + 1;
      }
      r := None;
    }

    /** `refreshHint`, which ends an operation. */
    method RefreshHint()
      requires Repr() && EntriesOk(state.ix)
      modifies this`hint, this`headSeq, this`state
      ensures Repr() && state == Refresh(old(state))
    {
      match BandMask.Highest(bandMask) {
        case None =>
          hint, headSeq := 0, NO_SEQ;
        case Some(p) =>
          var m := HeadMessage(p);
          hint := p + 1;
          headSeq := if m.Some? then m.value.seqNo else NO_SEQ;
      }
      state := Refresh(state);
    }

    // ---- enqueue ----

    /** The group of `k`, made when there is none. */
    method FindGroup(k: string) returns (g: Group)
      requires Repr() && TableOk(state.ix)
      modifies this`groups, this`records, this`state
      ensures CanAdmit(old(state).ix, k, g)
      ensures Repr() && state == old(state).(ix := Ensure(old(state).ix, k, g)) && g == state.ix.table[k]
      ensures g in records && fresh(records - old(records)) && old(records) <= records
      ensures g in old(records) || fresh(g)
    {
      if k in groups {
        g := groups[k];
      } else {
        g := new Group(k);
        groups := groups[k := g];
        records := records + {g};
        state := state.(ix := AddGroup(state.ix, k, g));
      }
    }

    method AppendTo(g: Group, m: Message)
      requires Repr() && g in records
      modifies this`state, g`msgs
      ensures Repr()
      ensures state == old(state).(ix := SetRec(old(state).ix, g, old(state).ix.recs[g].(msgs := old(state).ix.recs[g].msgs + [m])))
    {
      g.msgs := g.msgs + [m];
      NoteGroup(g, Record(g.msgs, g.locked, g.inBand, g.band, g.version));
    }

    method Admit(m: Message) returns (ghost spare: Group)
      requires Repr() && TableOk(state.ix)
      modifies this`bands, this`bandMask, this`groups, this`records, this`state, records
      ensures CanAdmit(old(state).ix, m.Key(), spare)
      ensures Repr() && state == old(state).(ix := GroupIndex.Admit(old(state).ix, m, spare))
      ensures fresh(records - old(records))
    {
      var g := FindGroup(m.Key());
      spare := g;
      AppendTo(g, m);
      if !g.locked && !g.inBand {
        PushGroup(g);
      }
    }

    method Hold(m: Message)
      requires Repr() && |state.st.ready| == 3
      modifies this`delayed, this`st, this`state
      ensures Repr() && state == EnqueueWaitingS(old(state), m)
    {
      delayed := delayed + {m};
      st := Move(CountEnqueued(st), m, Absent, Delayed);
      state := EnqueueWaitingS(state, m);
    }

    method Accept(m: Message) returns (ghost spare: Group)
      requires Repr() && TableOk(state.ix) && |state.st.ready| == 3
      modifies this`bands, this`bandMask, this`groups, this`records, this`st, this`state, records
      ensures CanAdmit(old(state).ix, m.Key(), spare)
      ensures Repr() && state == EnqueueReadyS(old(state), m, spare)
      ensures fresh(records - old(records))
    {
      st := Move(CountEnqueued(st), m, Absent, Ready);
      state := state.(st := st);
      spare := Admit(m);
    }

    /** A message under a new id joins its group, or waits for its time. */
    method Enqueue(m: Message, now: Time)
      requires Repr() && SlotInv(state) && m.id !in ContentsOf(View(state)).Ids()
      modifies this`bands, this`bandMask, this`groups, this`st, this`delayed, this`hint, this`headSeq, this`records, this`state, records
      ensures Repr() && SlotInv(state) && View(state) == PlainSlot.Enqueue(old(View(state)), m, now)
      ensures KeptCurrent(old(state), m.Key(), state)
      ensures fresh(records - old(records))
    {
      hide *;
      ghost var s := state;
      SlotIsCore(s);
      if m.Waiting(now) {
        EnqueueWaitingRefines(s, m, now);
        WaitingCurrent(s, m);
        Hold(m);
      } else {
        ghost var spare := Accept(m);
        EnqueueReadyRefines(s, m, now, spare);
        EnqueueCurrent(s, m, spare);
        CoreIsIndexed(state);
        RefreshSame(state);
        RefreshHint();
      }
    }

    // ---- take ----

    lemma EntriesInRecords(p: Priority)
      requires Repr() && EntriesOk(state.ix)
      ensures p in bands ==> forall i :: 0 <= i < |bands[p]| ==> bands[p][i].g in records
    {
      if p in bands {
        assert EntriesBelow(bands[p], state.ix.recs);
      }
    }

    lemma TakenInRecords(p: Priority, ix1: Index, got: Option<Group>)
      requires Repr() && state.ix == ix1 && (got.Some? ==> got.value in ix1.recs)
      ensures got.Some? ==> got.value in records
    {
    }

    /** Drops expired messages off the front of a group, then pops the one after them. */
    method PopFresh(g: Group, now: Time) returns (m: Option<Message>)
      requires |st.ready| == 3
      modifies this`st, g`msgs
      ensures var f := PopExpired(old(g.msgs), now, old(st)); m == First(f) && g.msgs == Rest(f) && st == f.st
    {
      m := None;
      while |g.msgs| > 0
        invariant |st.ready| == 3
        invariant PopExpired(g.msgs, now, st) == PopExpired(old(g.msgs), now, old(st))
        decreases |g.msgs|
      {
        var v := g.msgs[0];
        g.msgs := g.msgs[1..];
        if v.Expired(now) {
          st := CountExpired(Move(st, v, Ready, Absent));
          continue;
        }
        m := Some(v);
        return;
      }
    }

    method TakeFresh(g: Group, now: Time) returns (m: Option<Message>)
      requires Repr() && g in records && |state.st.ready| == 3
      modifies this`st, this`state, g`msgs
      ensures Repr() && state == Fetched(old(state), g, now)
      ensures m == First(PopExpired(old(g.msgs), now, old(st)))
    {
      hide PopExpired;
      m := PopFresh(g, now);
      state := state.(st := st);
      NoteGroup(g, Record(g.msgs, g.locked, g.inBand, g.band, g.version));
    }

    method DropGroupIfIdle(g: Group)
      requires Repr() && g in records
      modifies this`groups, this`state
      ensures Repr() && state == old(state).(ix := DropIdle(old(state).ix, g))
    {
      if !g.locked && |g.msgs| == 0 && !g.inBand {
        groups := groups - {g.id};
      }
      state := state.(ix := DropIdle(state.ix, g));
    }

    /** A new lease, under the next epoch. */
    method Book(out: Message, g: Group, deadline: Time) returns (l: Lease)
      requires Repr() && g in records && |state.st.ready| == 3
      modifies this`inflight, this`timers, this`epochSeq, this`st, this`state
      ensures Repr() && l == Lease(out, g, NextEpoch(old(state).epoch), deadline)
      ensures state == old(state).(
                leases := old(state).leases[out.id := l], timers := old(state).timers + {Timer(out.id, l.epoch, deadline)},
                epoch := l.epoch, st := Move(old(state).st, out, Ready, InFlight))
    {
      hide Move;
      epochSeq := NextEpoch(epochSeq);
      l := Lease(out, g, epochSeq, deadline);
      inflight := inflight[out.id := l];
      timers := timers + {Timer(out.id, l.epoch, deadline)};
      st := Move(st, out, Ready, InFlight);
      state := state.(leases := inflight, timers := timers, epoch := epochSeq, st := st);
    }

    /** The group's next message goes out under a new lease. */
    method Lend(g: Group, m: Message, deadline: Time) returns (d: Delivery)
      requires Repr() && g in records && |state.st.ready| == 3
      modifies this`inflight, this`timers, this`epochSeq, this`st, this`state, g`locked
      ensures Repr() && state == Lent(old(state), g, m, deadline)
      ensures d == Delivery(Attempted(m), NextEpoch(old(state).epoch), deadline)
    {
      hide Move;
      var out := Attempted(m);
      var l := Book(out, g, deadline);
      g.locked := true;
      NoteGroup(g, Record(g.msgs, g.locked, g.inBand, g.band, g.version));
      d := Delivery(out, l.epoch, deadline);
    }

    method Serve(g: Group, now: Time, deadline: Time) returns (d: Option<Delivery>)
      requires Repr() && g in records && |state.st.ready| == 3
      modifies this`groups, this`inflight, this`timers, this`epochSeq, this`st, this`state, g
      ensures Repr() && (state, d) == ServeS(old(state), g, now, deadline)
    {
      hide DropIdle, PopExpired, Move, ServeS;
      ServeSteps(state, g, now, deadline);
      var m := TakeFresh(g, now);
      match m {
        case None =>
          DropGroupIfIdle(g);
          d := None;
        case Some(v) =>
          var out := Lend(g, v, deadline);
          d := Some(out);
      }
    }

    /** A band either yields its first servable group's next message, or nothing. */
    method Take(p: Priority, now: Time, deadline: Time) returns (d: Option<Delivery>)
      requires Repr() && SlotInv(state)
      modifies this`bands, this`bandMask, this`groups, this`inflight, this`timers, this`epochSeq, this`st, this`hint
      modifies this`headSeq, this`state, records
      ensures Repr() && SlotInv(state) && (View(state), d) == PlainSlot.Take(old(View(state)), p, now, deadline)
      ensures Taken(old(state), p, now, deadline, state, d)
    {
      hide *;
      ghost var s := state;
      SlotIsCore(s);
      TakeRefines(s, p, now, deadline);
      EntriesInRecords(p);
      var got := TakeGroup(p);
      ghost var ix1 := state.ix;
      TakenInRecords(p, ix1, got);
      d := None;
      if got.Some? {
        d := Serve(got.value, now, deadline);
      }
      TakeSteps(s, p, now, deadline, ix1, got, state, d);
      CoreIsIndexed(state);
      RefreshSame(state);
      RefreshHint();
    }

    // ---- ack, nack, retire ----

    method UnlockGroup(g: Group)
      requires Repr() && g in records
      modifies this`bands, this`bandMask, this`groups, this`state, g
      ensures Repr() && state == old(state).(ix := Unlock(old(state).ix, g))
    {
      hide Push, DropIdle;
      g.locked := false;
      NoteGroup(g, Record(g.msgs, g.locked, g.inBand, g.band, g.version));
      if |g.msgs| == 0 {
        DropGroupIfIdle(g);
        return;
      }
      if !g.inBand {
        PushGroup(g);
      }
    }

    /** The lease of `id` ends and its message is gone. */
    method EndLease(id: string)
      requires Repr() && LeasesInIndex(state) && |state.st.ready| == 3 && id in inflight
      modifies this`bands, this`bandMask, this`groups, this`inflight, this`st, this`state, records
      ensures Repr() && (state, Done) == AckS(old(state), id, old(state).leases[id].epoch)
    {
      hide Unlock, Move;
      var l := inflight[id];
      inflight := inflight - {id};
      st := CountAcked(Move(st, l.msg, InFlight, Absent));
      state := state.(leases := inflight, st := st);
      UnlockGroup(l.g);
    }

    /** Only the latest delivery of a message can be acknowledged. */
    method Ack(id: string, epoch: nat) returns (out: Outcome)
      requires Repr() && SlotInv(state)
      modifies this`bands, this`bandMask, this`groups, this`inflight, this`st, this`hint, this`headSeq, this`state, records
      ensures Repr() && SlotInv(state) && (View(state), out) == PlainSlot.Ack(old(View(state)), id, epoch)
      ensures AckedCurrent(old(state), id, state)
    {
      hide SlotInv, CoreInv, View, AckS, PlainSlot.Ack, LeasesInIndex, Mirrors, Refresh, AckedCurrent;
      ghost var s := state;
      SlotIsCore(s);
      AckRefines(s, id, epoch);
      AckCases(s, id, epoch);
      AckCurrent(s, id, epoch);
      if id !in inflight {
        return NotInFlight;
      }
      if inflight[id].epoch != epoch {
        return LeaseExpired;
      }
      EndLease(id);
      out := Done;
      CoreIsIndexed(state);
      RefreshSame(state);
      RefreshHint();
    }

    /** A delivery failed. `back` says whether the message will be delivered again. */
    method Retire(l: Lease, now: Time, delay: Time, retry: Retry) returns (dead: Option<Message>, back: bool)
      requires Repr() && l.g in records && |state.st.ready| == 3
      modifies this`bands, this`bandMask, this`groups, this`delayed, this`st, this`state, l.g
      ensures Repr() && state == RetireS(old(state), l, now, delay, retry) && dead == Dead(l.msg, now, retry)
      ensures back == (!l.msg.Expired(now) && !Exhausted(l.msg, retry))
    {
      hide Unlock, Move;
      var m, g := l.msg, l.g;
      dead, back := None, false;
      if m.Expired(now) {
        st := CountExpired(Move(st, m, InFlight, Absent));
        state := state.(st := st);
      } else if Exhausted(m, retry) {
        st := CountDeadLettered(Move(st, m, InFlight, Absent));
        state := state.(st := st);
        dead := Some(m);
      } else if delay > 0 {
        var m' := Postponed(m, now, delay);
        delayed := delayed + {m'};
        st := CountRequeued(Move(st, m', InFlight, Delayed));
        state := state.(delayed := delayed, st := st);
        back := true;
      } else {
        g.msgs := [m] + g.msgs;
        st := CountRequeued(Move(st, m, InFlight, Ready));
        state := state.(st := st);
        NoteGroup(g, Record(g.msgs, g.locked, g.inBand, g.band, g.version));
        back := true;
      }
      UnlockGroup(g);
    }

    method FailLease(id: string, now: Time, delay: Time, retry: Retry) returns (dead: Option<Message>, back: bool)
      requires Repr() && LeasesInIndex(state) && |state.st.ready| == 3 && id in inflight
      modifies this`bands, this`bandMask, this`groups, this`inflight, this`delayed, this`st, this`state, records
      ensures Repr() && (state, dead, Done) == NackS(old(state), id, old(state).leases[id].epoch, now, delay, retry)
      ensures back == (!old(state).leases[id].msg.Expired(now) && !Exhausted(old(state).leases[id].msg, retry))
    {
      hide RetireS, Move, Dead;
      var l := inflight[id];
      inflight := inflight - {id};
      state := state.(leases := inflight);
      dead, back := Retire(l, now, delay, retry);
    }

    method Nack(id: string, epoch: nat, now: Time, delay: Time, retry: Retry) returns (dead: Option<Message>, out: Outcome)
      requires Repr() && SlotInv(state)
      modifies this`bands, this`bandMask, this`groups, this`inflight, this`delayed, this`st, this`hint, this`headSeq
      modifies this`state, records
      ensures Repr() && SlotInv(state)
      ensures (View(state), dead, out) == PlainSlot.Nack(old(View(state)), id, epoch, now, delay, retry)
    {
      hide SlotInv, CoreInv, View, NackS, PlainSlot.Nack, LeasesInIndex, Mirrors, Refresh;
      ghost var s := state;
      SlotIsCore(s);
      NackRefines(s, id, epoch, now, delay, retry);
      NackCases(s, id, epoch, now, delay, retry);
      dead := None;
      if id !in inflight {
        return None, NotInFlight;
      }
      if inflight[id].epoch != epoch {
        return None, LeaseExpired;
      }
      var back;
      dead, back := FailLease(id, now, delay, retry);
      out := Done;
      CoreIsIndexed(state);
      RefreshSame(state);
      RefreshHint();
    }

    // ---- sweepLeases ----

    /** The top of the timer heap. */
    method NextTimer() returns (t: Option<Timer>)
      ensures t.None? <==> timers == {}
      ensures t.Some? ==> t.value in timers && forall u | u in timers :: t.value.at <= u.at
    {
      if timers == {} {
        return None;
      }
      EarliestTimer(timers);
      var first :| first in timers && forall u | u in timers :: first.at <= u.at;
      t := Some(first);
    }

    /** A popped timer ends the lease it still names; one that names no lease any more is dropped. */
    method Fire(t: Timer, now: Time, retry: Retry) returns (dead: Option<Message>, back: bool)
      requires Repr() && LeasesInIndex(state) && |state.st.ready| == 3
      modifies this`bands, this`bandMask, this`groups, this`inflight, this`timers, this`delayed, this`st, this`state, records
      ensures Repr() && (state, dead) == FireS(old(state), t, now, retry)
      ensures state.st.requeued == old(state).st.requeued + (if back then 1 else 0)
    {
      hide RetireS, Mirrors, Dead;
      FireCases(state, t, now, retry);
      timers := timers - {t};
      state := state.(timers := timers);
      dead, back := None, false;
      if t.id in inflight && inflight[t.id].epoch == t.epoch {
        dead, back := FailLease(t.id, now, 0, retry);
      }
    }

    /**
     * Ends every overdue lease and no other. What it did is the run `ops`; `dead` is what that run gave up on.
     */
    method SweepLeases(now: Time, retry: Retry) returns (dead: seq<Message>, requeued: nat, ghost ops: seq<Op>)
      requires Repr() && SlotInv(state)
      modifies this`bands, this`bandMask, this`groups, this`inflight, this`timers, this`delayed, this`st, this`hint
      modifies this`headSeq, this`state, records
      ensures Repr() && SlotInv(state)
      ensures Runs(old(View(state)), ops, View(state)) && TimeOuts(ops, now, retry)
      ensures dead == Deaths(old(View(state)), ops)
      ensures state.st.requeued == old(state).st.requeued + requeued
      ensures NoneOverdue(View(state), now)
    {
      hide *;
      SlotIsCore(state);
      dead, requeued, ops := [], 0, [];
      ghost var v0 := View(state);
      NoStep(v0, now, retry);
      var t := NextTimer();
      while t.Some? && t.value.at <= now
        invariant Repr() && CoreInv(state) && TableOk(state.ix)
        invariant Runs(v0, ops, View(state)) && TimeOuts(ops, now, retry) && dead == Deaths(v0, ops)
        invariant state.st.requeued == old(state).st.requeued + requeued
        invariant t.None? <==> timers == {}
        invariant t.Some? ==> t.value in timers && forall u | u in timers :: t.value.at <= u.at
        decreases |timers|
      {
        ghost var s := state;
        TimersAgree();
        FireStep(s, t.value, now, retry, v0, ops);
        ops := Fired(s, ops, t.value, now, retry);
        var m, back := Fire(t.value, now, retry);
        TimersAgree();
        CoreIsIndexed(state);
        AsListIs(dead, m);
        if m.Some? {
          dead := dead + [m.value];
        }
        requeued := requeued + (if back then 1 else 0);
        t := NextTimer();
      }
      TimersAgree();
      AllFired(state, now);
      CoreIsIndexed(state);
      RefreshSame(state);
      RefreshFrame(state);
      RefreshHint();
    }

    lemma TimersAgree()
      requires Repr()
      ensures state.timers == timers && state.delayed == delayed && state.ix.table == groups && FieldsMatch()
    {
    }

    // ---- releaseDelayed ----

    /** The top of the heap of delayed messages. */
    method NextDelayed() returns (m: Option<Message>)
      ensures m.None? <==> delayed == {}
      ensures m.Some? ==> m.value in delayed && forall u | u in delayed :: DueAt(m.value) <= DueAt(u)
    {
      if delayed == {} {
        return None;
      }
      EarliestDelayed(delayed);
      var first :| first in delayed && forall u | u in delayed :: DueAt(first) <= DueAt(u);
      m := Some(first);
    }

    method ReleaseOne(m: Message) returns (ghost spare: Group)
      requires Repr() && TableOk(state.ix) && |state.st.ready| == 3
      modifies this`bands, this`bandMask, this`groups, this`delayed, this`records, this`st, this`state, records
      ensures CanAdmit(old(state).ix, m.Key(), spare)
      ensures Repr() && state == ReleaseS(old(state), m, spare)
      ensures fresh(records - old(records))
    {
      hide GroupIndex.Admit, Move, Mirrors, CanAdmit;
      var due := Due(m);
      delayed := delayed - {m};
      st := Move(st, due, Delayed, Ready);
      state := state.(delayed := delayed, st := st);
      spare := Admit(due);
    }

    /** Every delayed message whose time has come joins its group, the earliest first. */
    method ReleaseDelayed(now: Time) returns (n: nat, ghost ops: seq<Op>)
      requires Repr() && SlotInv(state)
      modifies this`bands, this`bandMask, this`groups, this`delayed, this`records, this`st, this`hint, this`headSeq
      modifies this`state, records
      ensures Repr() && SlotInv(state) && fresh(records - old(records))
      ensures Runs(old(View(state)), ops, View(state)) && Releases(ops, now) && n == |ops|
      ensures NoneDue(View(state), now)
    {
      hide *;
      SlotIsCore(state);
      n, ops := 0, [];
      ghost var v0 := View(state);
      NoStep(v0, now, Retry(0, false));
      TimersAgree();
      var m := NextDelayed();
      while m.Some? && DueAt(m.value) <= now
        invariant Repr() && CoreInv(state) && TableOk(state.ix) && |state.st.ready| == 3
        invariant Runs(v0, ops, View(state)) && Releases(ops, now) && n == |ops|
        invariant n == 0 ==> SlotInv(state)
        invariant m.None? <==> delayed == {}
        invariant m.Some? ==> m.value in delayed && forall u | u in delayed :: DueAt(m.value) <= DueAt(u)
        invariant fresh(records - old(records)) && state.delayed == delayed
        decreases |delayed|
      {
        ghost var s := state;
        ghost var spare := ReleaseOne(m.value);
        ReleaseStep(s, m.value, spare, now, v0, ops);
        ops := ops + [ComeDue(m.value, now)];
        TimersAgree();
        CoreIsIndexed(state);
        n := n + 1;
        m := NextDelayed();
      }
      AllReleased(state, now);
      if n > 0 {
        CoreIsIndexed(state);
        RefreshSame(state);
        RefreshHint();
      }
    }

    // ---- sweepTTL ----

    method DropExpiredFront(g: Group, now: Time) returns (dropped: nat)
      requires |st.ready| == 3
      modifies this`st, g`msgs
      ensures PopExpired(old(g.msgs), now, old(st)) == Fresh(g.msgs, st)
      ensures dropped == |old(g.msgs)| - |g.msgs| && st.expired == old(st).expired + dropped
    {
      dropped := 0;
      while |g.msgs| > 0 && g.msgs[0].Expired(now)
        invariant |st.ready| == 3
        invariant PopExpired(g.msgs, now, st) == PopExpired(old(g.msgs), now, old(st))
        invariant dropped == |old(g.msgs)| - |g.msgs| && st.expired == old(st).expired + dropped
        decreases |g.msgs|
      {
        st := CountExpired(Move(st, g.msgs[0], Ready, Absent));
        g.msgs := g.msgs[1..];
        dropped := dropped + 1;
      }
    }

    /** Drops a group's expired front; a group whose head is gone leaves the band of that head. */
    method TrimGroup(g: Group, now: Time) returns (dropped: nat)
      requires Repr() && g in records && |state.st.ready| == 3
      modifies this`st, this`state, g
      ensures var s := old(state);
              var f := PopExpired(s.ix.recs[g].msgs, now, s.st);
              Repr() && state == s.(ix := Trimmed(s.ix, g, f.msgs), st := f.st)
      ensures dropped == |old(g.msgs)| - |g.msgs| && state.st.expired == old(state).st.expired + dropped
    {
      hide PopExpired, Trimmed;
      ghost var s := state;
      dropped := ExpireFront(g, now);
      TrimmedSteps(s.ix, g, g.msgs);
      if dropped > 0 && g.inBand {
        LeaveBand(g);
      }
    }

    method ExpireFront(g: Group, now: Time) returns (dropped: nat)
      requires Repr() && g in records && |state.st.ready| == 3
      modifies this`st, this`state, g`msgs
      ensures var s := old(state);
              var f := PopExpired(s.ix.recs[g].msgs, now, s.st);
              Repr() && g.msgs == f.msgs && state == s.(ix := SetRec(s.ix, g, s.ix.recs[g].(msgs := f.msgs)), st := f.st)
      ensures dropped == |old(g.msgs)| - |g.msgs| && state.st.expired == old(state).st.expired + dropped
    {
      hide PopExpired;
      ghost var s := state;
      dropped := DropExpiredFront(g, now);
      state := s.(st := st);
      assert FieldsMatch();
      NoteGroup(g, Record(g.msgs, g.locked, g.inBand, g.band, g.version));
    }

    /** The group's entry goes stale. */
    method LeaveBand(g: Group)
      requires Repr() && g in records
      modifies this`state, g`version, g`inBand
      ensures var r := old(state).ix.recs[g];
              Repr() && state == old(state).(ix := SetRec(old(state).ix, g, r.(version := r.version + 1, inBand := false)))
    {
      g.version := g.version + 1;
      g.inBand := false;
      NoteGroup(g, Record(g.msgs, g.locked, g.inBand, g.band, g.version));
    }

    method ExpireGroup(g: Group, now: Time) returns (dropped: nat)
      requires Repr() && g in records && |state.st.ready| == 3
      modifies this`bands, this`bandMask, this`groups, this`st, this`state, g
      ensures var s := old(state);
              var f := PopExpired(s.ix.recs[g].msgs, now, s.st);
              Repr() && state == s.(ix := ExpireIx(s.ix, g, f.msgs), st := f.st)
      ensures state.st.expired == old(state).st.expired + dropped
    {
      hide PopExpired, Push, DropIdle;
      dropped := TrimGroup(g, now);
      if !g.inBand && !g.locked && |g.msgs| > 0 {
        PushGroup(g);
      }
      DropGroupIfIdle(g);
    }

    lemma TableInRecords(k: string)
      requires Repr() && TableOk(state.ix)
      ensures k in groups ==> groups[k] in records && state.ix.table == groups
    {
    }

    /** Drops expired messages from the front of every group; the table's groups come in no particular order. */
    method SweepTTL(now: Time) returns (n: nat, ghost ops: seq<Op>)
      requires Repr() && SlotInv(state)
      modifies this`bands, this`bandMask, this`groups, this`st, this`hint, this`headSeq, this`state, records
      ensures Repr() && SlotInv(state)
      ensures Runs(old(View(state)), ops, View(state)) && DropsOld(ops, now)
      ensures state.st.expired == old(state).st.expired + n
      ensures HeadsFresh(View(state), now, View(state).lists.Keys)
    {
      hide *;
      SlotIsCore(state);
      n, ops := 0, [];
      ghost var v0 := View(state);
      NoStep(v0, now, Retry(0, false));
      TimersAgree();
      var todo := groups.Keys;
      ghost var done: set<string> := {};
      while todo != {}
        invariant Repr() && CoreInv(state) && TableOk(state.ix) && |state.st.ready| == 3
        invariant Runs(v0, ops, View(state)) && DropsOld(ops, now)
        invariant HeadsFresh(View(state), now, done)
        invariant state.st.expired == old(state).st.expired + n
        invariant todo <= groups.Keys <= todo + done && state.ix.table == groups
        decreases |todo|
      {
        var k :| k in todo;
        todo := todo - {k};
        ghost var s := state;
        TableInRecords(k);
        ExpireStep(s, k, now, v0, ops, done);
        ExpireIsOnGroup(s, k, now);
        var dropped := ExpireGroup(groups[k], now);
        ops := ops + [DropOld(k, now)];
        done := done + {k};
        TimersAgree();
        CoreIsIndexed(state);
        n := n + dropped;
      }
      AllLooked(state, now, done);
      CoreIsIndexed(state);
      RefreshSame(state);
      RefreshFrame(state);
      RefreshHint();
    }

    /**
     * The part of a queue's sweep under this slot's lock. `removed` is what the counters say left the slot: expiry and
     * dead-lettering are the only ways out nobody else counts.
     */
    method Sweep(now: Time, retry: Retry)
      returns (released: nat, dead: seq<Message>, requeued: nat, expired: nat, removed: int, ghost ops: seq<Op>)
      requires Repr() && SlotInv(state)
      modifies this`bands, this`bandMask, this`groups, this`inflight, this`timers, this`delayed, this`records, this`st
      modifies this`hint, this`headSeq, this`state, records
      ensures Repr() && SlotInv(state) && fresh(records - old(records))
      ensures Runs(old(View(state)), ops, View(state)) && Swept(old(View(state)), View(state), now)
      ensures forall i | 0 <= i < |ops| :: Sweeping(ops[i])
      ensures NoDup(dead) && SetOf(dead) == GivenUp(old(View(state)).leases, now, retry)
      ensures removed == Gone(state.st) - Gone(old(state).st)
    {
      hide *;
      SlotIsCore(state);
      StatsAgree();
      ghost var v0 := View(state);
      var gone := Gone(st);
      ghost var a, b, c;
      released, a := ReleaseDelayed(now);
      SlotIsCore(state);
      ghost var v1 := View(state);
      dead, requeued, b := SweepLeases(now, retry);
      SlotIsCore(state);
      ghost var v2 := View(state);
      SweepGivesUp(v0, a, v1, b, v2, now, retry);
      expired, c := SweepTTL(now);
      SlotIsCore(state);
      SweepLeaves(v0, a, v1, b, v2, c, View(state), now, retry);
      AllSweeping(a, b, c, now, retry);
      ops := a + b + c;
      StatsAgree();
      removed := Gone(st) - gone;
    }

    lemma StatsAgree()
      requires Repr()
      ensures st == state.st
    {
    }

    /** Takes the slot out of service, or puts it back. */
    method SetFrozen(on: bool)
      requires Repr()
      modifies this`frozen
      ensures Repr() && frozen == on
    {
      frozen := on;
    }

    // ---- copyAll, drain ----

    method CopyInFlight() returns (out: seq<Message>)
      requires Repr() && forall id | id in state.leases :: state.leases[id].msg.id == id
      ensures NoDup(out) && SetOf(out) == InFlightOf(state, state.leases.Keys)
    {
      out := [];
      var todo := inflight.Keys;
      ghost var done: set<string> := {};
      while todo != {}
        invariant todo + done == inflight.Keys && todo !! done
        invariant NoDup(out) && SetOf(out) == InFlightOf(state, done)
      {
        var id :| id in todo;
        OneMoreLease(state, done, id, out);
        out := out + [inflight[id].msg];
        todo := todo - {id};
        done := done + {id};
      }
      assert done == state.leases.Keys;
    }

    method CopyReady() returns (out: seq<Message>)
      requires Repr() && TableOk(state.ix) && GroupsHold(state)
      ensures NoDup(out) && SetOf(out) == ReadyFrom(state, state.ix.table.Keys)
    {
      out := [];
      var todo := groups.Keys;
      ghost var done: set<string> := {};
      while todo != {}
        invariant todo + done == groups.Keys && todo !! done
        invariant NoDup(out) && SetOf(out) == ReadyFrom(state, done)
      {
        var k :| k in todo;
        OneMoreGroup(state, done, k, out);
        out := out + groups[k].msgs;
        todo := todo - {k};
        done := done + {k};
      }
      assert done == state.ix.table.Keys;
    }

    method CopyDelayed() returns (out: seq<Message>)
      ensures NoDup(out) && SetOf(out) == delayed
    {
      out := [];
      var todo := delayed;
      while todo != {}
        invariant NoDup(out) && SetOf(out) + todo == delayed && SetOf(out) !! todo
      {
        var m :| m in todo;
        out := out + [m];
        todo := todo - {m};
      }
    }

    /** Everything the slot holds, each message once; nothing changes. */
    method CopyAll() returns (out: seq<Message>)
      requires Repr() && SlotInv(state)
      ensures NoDup(out) && SetOf(out) == ContentsOf(View(state)).All()
    {
      hide *;
      SlotIsCore(state);
      Holdings(state);
      TimersAgree();
      var a := CopyInFlight();
      var b := CopyReady();
      var c := CopyDelayed();
      ThreeParts(a, b, c);
      out := a + b + c;
    }

    method EmptyGroup(g: Group) returns (ms: seq<Message>)
      modifies g`msgs
      ensures ms == old(g.msgs) && g.msgs == []
    {
      ms := [];
      while |g.msgs| > 0
        invariant ms + g.msgs == old(g.msgs)
        decreases |g.msgs|
      {
        ms := ms + [g.msgs[0]];
        g.msgs := g.msgs[1..];
      }
    }

    method EmptyGroups() returns (out: seq<Message>)
      requires Repr() && TableOk(state.ix) && GroupsHold(state)
      modifies records
      ensures NoDup(out) && SetOf(out) == ReadyFrom(state, state.ix.table.Keys)
    {
      out := [];
      var todo := groups.Keys;
      ghost var done: set<string> := {};
      while todo != {}
        invariant todo + done == groups.Keys && todo !! done
        invariant NoDup(out) && SetOf(out) == ReadyFrom(state, done)
        invariant forall k | k in todo :: groups[k].msgs == state.ix.recs[groups[k]].msgs
      {
        var k :| k in todo;
        OneMoreGroup(state, done, k, out);
        var ms := EmptyGroup(groups[k]);
        out := out + ms;
        todo := todo - {k};
        done := done + {k};
      }
      assert done == state.ix.table.Keys;
    }

    /** No message, no lease, no band; the gauges go to zero and the lifetime counters stay. */
    method Reset()
      requires FieldsMatch()
      modifies this`bands, this`bandMask, this`groups, this`inflight, this`timers, this`delayed, this`records, this`st
      modifies this`state
      ensures Repr() && state == DrainS(old(state)) && records == {}
    {
      inflight, groups, bands, bandMask := map[], map[], map[], BandMask.EMPTY;
      timers, delayed := {}, {};
      st := ResetGauges(st);
      records := {};
      state := DrainS(state);
    }

    /** Hands out every message once, in the order of their sequence numbers, and leaves the slot empty. */
    method Drain() returns (out: seq<Message>)
      requires Repr() && SlotInv(state)
      modifies this`bands, this`bandMask, this`groups, this`inflight, this`timers, this`delayed, this`records, this`st
      modifies this`hint, this`headSeq, this`state, records
      ensures Repr() && SlotInv(state) && records == {} && View(state) == PlainSlot.Drain(old(View(state))).0
      ensures BySeq(out) && NoDup(out) && SetOf(out) == old(ContentsOf(View(state)).All())
    {
      hide *;
      ghost var s := state;
      SlotIsCore(s);
      Holdings(s);
      TimersAgree();
      DrainRefines(s);
      var a := CopyInFlight();
      var c := CopyDelayed();
      var b := EmptyGroups();
      ThreeParts(a, b, c);
      SortKeeps(a + b + c);
      out := SortBySeq(a + b + c);
      Reset();
      CoreIsIndexed(state);
      RefreshSame(state);
      RefreshHint();
    }

    // ---- Absorb, the part under one slot's lock ----

    /** A batch by group, and the messages of it that are not due yet. */
    method Split(msgs: seq<Message>, now: Time) returns (byGroup: map<string, seq<Message>>, held: seq<Message>)
      ensures held == WaitingOf(msgs, now)
      ensures forall k :: ListOf(byGroup, k) == ReadyOf(msgs, k, now)
      ensures forall k | k in byGroup :: byGroup[k] != []
    {
      byGroup, held := map[], [];
      var i := 0;
      while i < |msgs|
        invariant i <= |msgs|
        invariant held == WaitingOf(msgs[..i], now)
        invariant forall k :: ListOf(byGroup, k) == ReadyOf(msgs[..i], k, now)
        invariant forall k | k in byGroup :: byGroup[k] != []
      {
        var m := msgs[i];
        assert msgs[..i + 1][..i] == msgs[..i];
        i := i + 1;
        if m.Waiting(now) {
          held := held + [m];
          continue;
        }
        var k := m.Key();
        byGroup := byGroup[k := (if k in byGroup then byGroup[k] else []) + [m]];
      }
      assert msgs[..i] == msgs;
    }

    method CountArrivals(ms: seq<Message>)
      requires |st.ready| == 3
      modifies this`st
      ensures st == ArriveStats(old(st), ms)
    {
      var i := 0;
      while i < |ms|
        invariant i <= |ms| && |st.ready| == 3
        invariant ArriveStats(st, ms[i..]) == ArriveStats(old(st), ms)
      {
        assert ms[i..][1..] == ms[i + 1..];
        st := Move(st, ms[i], Absent, Ready);
        i := i + 1;
      }
    }

    method Prepend(g: Group, ms: seq<Message>)
      requires Repr() && g in records
      modifies this`state, g`msgs, g`version, g`inBand
      ensures Repr() && state == old(state).(ix := Reissued(old(state).ix, g, ms + old(state).ix.recs[g].msgs))
    {
      g.msgs := ms + g.msgs;
      g.version := g.version + 1;
      g.inBand := false;
      NoteGroup(g, Record(g.msgs, g.locked, g.inBand, g.band, g.version));
    }

    method Reissue(g: Group, ms: seq<Message>)
      requires Repr() && g in records && |state.st.ready| == 3
      modifies this`bands, this`bandMask, this`st, this`state, g
      ensures Repr()
      ensures state == old(state).(ix := AbsorbIx(old(state).ix, g, ms), st := ArriveStats(old(state).st, ms))
    {
      hide Push, Reissued, ArriveStats;
      assert g.locked == state.ix.recs[g].locked && st == state.st;
      Prepend(g, ms);
      CountArrivals(ms);
      state := state.(st := st);
      if !g.locked {
        PushGroup(g);
      }
    }

    /** One group's share goes ahead of what the group holds; its head may be new, so it is listed anew. */
    method BringGroup(k: string, ms: seq<Message>) returns (ghost spare: Group)
      requires Repr() && TableOk(state.ix) && |state.st.ready| == 3
      modifies this`bands, this`bandMask, this`groups, this`records, this`st, this`state, records
      ensures CanAdmit(old(state).ix, k, spare)
      ensures Repr() && state == AbsorbGroupS(old(state), k, ms, spare)
      ensures fresh(records - old(records))
    {
      hide AbsorbIx, Ensure, CanAdmit, ArriveStats, Mirrors;
      var g := FindGroup(k);
      spare := g;
      Reissue(g, ms);
    }

    method HoldBack(m: Message)
      requires Repr() && |state.st.ready| == 3
      modifies this`delayed, this`st, this`state
      ensures Repr() && state == AbsorbDelayedS(old(state), m)
    {
      delayed := delayed + {m};
      st := Move(st, m, Absent, Delayed);
      state := AbsorbDelayedS(state, m);
    }

    /** The groups of a batch come in no particular order. */
    method AbsorbReady(msgs: seq<Message>, now: Time, byGroup: map<string, seq<Message>>) returns (ghost ops: seq<Op>)
      requires Repr() && CoreInv(state) && TableOk(state.ix) && NewIds(msgs, ContentsOf(View(state)).Ids())
      requires forall k :: ListOf(byGroup, k) == ReadyOf(msgs, k, now)
      requires forall k | k in byGroup :: byGroup[k] != []
      modifies this`bands, this`bandMask, this`groups, this`records, this`st, this`state, records
      ensures Repr() && CoreInv(state) && TableOk(state.ix) && fresh(records - old(records))
      ensures Runs(old(View(state)), ops, View(state)) && Transfers(ops)
      ensures Partly(old(View(state)), View(state), msgs, now, byGroup.Keys, [])
    {
      hide *;
      CoreIsIndexed(state);
      ops := [];
      ghost var v0 := View(state);
      NothingBrought(v0, msgs, now);
      var todo := byGroup.Keys;
      ghost var done: set<string> := {};
      while todo != {}
        invariant todo + done == byGroup.Keys && todo !! done
        invariant Repr() && CoreInv(state) && TableOk(state.ix) && |state.st.ready| == 3
        invariant Runs(v0, ops, View(state)) && Transfers(ops) && Partly(v0, View(state), msgs, now, done, [])
        invariant fresh(records - old(records))
        decreases |todo|
      {
        var k :| k in todo;
        todo := todo - {k};
        ghost var s := state;
        ShareIs(byGroup, k, msgs, now);
        CoreIsView(s);
        BringStep(v0, View(s), msgs, now, done, k, ops);
        ghost var spare := BringGroup(k, byGroup[k]);
        AbsorbGroupRefines(s, k, byGroup[k], spare);
        CoreIsIndexed(state);
        ops := ops + [Bring(k, byGroup[k])];
        done := done + {k};
      }
      assert done == byGroup.Keys;
    }

    method AbsorbHeld(ghost v0: Plain, ghost msgs: seq<Message>, now: Time, ghost done: set<string>, held: seq<Message>, ghost ops0: seq<Op>)
      returns (ghost ops: seq<Op>)
      requires Repr() && CoreInv(state) && TableOk(state.ix) && |state.st.ready| == 3
      requires NewIds(msgs, ContentsOf(v0).Ids()) && held == WaitingOf(msgs, now)
      requires Runs(v0, ops0, View(state)) && Transfers(ops0) && Partly(v0, View(state), msgs, now, done, [])
      modifies this`delayed, this`st, this`state
      ensures Repr() && CoreInv(state) && TableOk(state.ix)
      ensures Runs(v0, ops, View(state)) && Transfers(ops)
      ensures Partly(v0, View(state), msgs, now, done, WaitingOf(msgs, now))
    {
      hide *;
      ops := ops0;
      var i := 0;
      assert held[..0] == [];
      while i < |held|
        invariant i <= |held|
        invariant Repr() && CoreInv(state) && TableOk(state.ix) && |state.st.ready| == 3
        invariant Runs(v0, ops, View(state)) && Transfers(ops) && Partly(v0, View(state), msgs, now, done, held[..i])
      {
        ghost var s := state;
        CoreIsView(s);
        BringDelayedStep(v0, View(s), msgs, now, done, i, ops);
        HoldBack(held[i]);
        AbsorbDelayedRefines(s, held[i]);
        CoreIsIndexed(state);
        ops := ops + [BringDelayed(held[i])];
        i := i + 1;
      }
      assert held[..i] == held;
    }

    /**
     * Messages from another owner or from the log come in under ids this slot does not hold. They keep their order and go
     * ahead of what is here, group by group; the ones not due yet wait.
     */
    method Absorb(msgs: seq<Message>, now: Time) returns (ghost ops: seq<Op>)
      requires Repr() && SlotInv(state) && NewIds(msgs, ContentsOf(View(state)).Ids())
      modifies this`bands, this`bandMask, this`groups, this`delayed, this`records, this`st, this`hint, this`headSeq
      modifies this`state, records
      ensures Repr() && SlotInv(state) && fresh(records - old(records))
      ensures Runs(old(View(state)), ops, View(state)) && Transfers(ops)
      ensures Absorbed(old(View(state)), View(state), msgs, now)
    {
      hide *;
      SlotIsCore(state);
      ghost var v0 := View(state);
      var byGroup, held := Split(msgs, now);
      ops := AbsorbReady(msgs, now, byGroup);
      CoreIsIndexed(state);
      ops := AbsorbHeld(v0, msgs, now, byGroup.Keys, held, ops);
      SharesAre(byGroup, msgs, now);
      AllBrought(v0, View(state), msgs, now, byGroup.Keys);
      CoreIsIndexed(state);
      RefreshSame(state);
      RefreshHint();
    }
  }
}
