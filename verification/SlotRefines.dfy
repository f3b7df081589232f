/** Each operation on a slot's fields is the plain slot's operation of the same name. */
module SlotRefines {
  import opened Messages
  import opened Seqs
  import opened GroupIndex
  import opened Stats
  import opened PlainSlot
  import opened PlainContents
  import opened PlainLines
  import opened SlotState
  import opened SlotView
  import BandMask

  // ---- The index operations, as the view shows them ----

  /** The lists of non-empty groups: what the view keeps of the table. */
  function Held(ix: Index): map<string, seq<Message>>
    requires TableOk(ix)
  {
    NonEmpty(Lists(ix))
  }

  lemma InTable(ix: Index, k: string)
    requires IndexInv(ix, {})
    ensures k in ix.table <==> ListOf(Held(ix), k) != [] || k in Locked(ix)
  {
    if k in ix.table { assert GroupOk(ix, ix.table[k], false); }
  }

  lemma AdmitOldView(ix: Index, m: Message, spare: Group)
    requires IndexInv(ix, {}) && m.Key() in ix.table
    ensures var (ix', k) := (Admit(ix, m, spare), m.Key());
            && IndexInv(ix', {}) && Locked(ix') == Locked(ix) && ix'.table == ix.table
            && Held(ix') == SetList(Held(ix), k, ListOf(Held(ix), k) + [m])
            && LinesOf(ix') == LinesOf(ix) && (ListOf(Held(ix), k) != [] || k in Locked(ix))
  {
    InTable(ix, m.Key());
    AdmitToGroup(ix, m, spare);
    NonEmptyWrite(Lists(ix), m.Key(), Lists(ix)[m.Key()] + [m]);
    SameLinesView(ix, Admit(ix, m, spare));
  }

  lemma AdmitNewView(ix: Index, m: Message, spare: Group)
    requires IndexInv(ix, {}) && m.Key() !in ix.table && spare !in ix.recs && spare.id == m.Key()
    ensures var (ix', k) := (Admit(ix, m, spare), m.Key());
            && IndexInv(ix', {}) && Locked(ix') == Locked(ix) && ix'.table == ix.table[k := spare]
            && Held(ix') == SetList(Held(ix), k, ListOf(Held(ix), k) + [m])
            && LinesOf(ix') == LinesOf(ix)[m.priority := LinesOf(ix)[m.priority] + [k]]
            && ListOf(Held(ix), k) == [] && k !in Locked(ix)
  {
    InTable(ix, m.Key());
    assert ListOf(Held(ix), m.Key()) + [m] == [m];
    AdmitToNew(ix, m, spare);
    NonEmptyWrite(Lists(ix), m.Key(), [m]);
    NamesAppend(LiveLine(ix, m.priority), spare);
    LinesAreView(ix, Admit(ix, m, spare), m.priority, LiveLine(ix, m.priority) + [spare]);
  }

  // ---- enqueue and releaseDelayed ----

  /** `spare` can serve as the record of group `k` if the table has none. */
  predicate CanAdmit(ix: Index, k: string, spare: Group) {
    k in ix.table || (spare !in ix.recs && spare.id == k)
  }

  lemma LinkSame(s: State, s': State)
    requires TableOk(s.ix) && TableOk(s'.ix) && LinkOk(s) && s'.leases == s.leases
    requires Locked(s'.ix) == Locked(s.ix)
    requires forall id | id in s.ix.table :: id in s'.ix.table && s'.ix.table[id] == s.ix.table[id]
    ensures LinkOk(s')
  {
  }

  lemma TimersSame(s: State, s': State)
    requires TimersOk(s) && s'.leases == s.leases && s'.timers == s.timers && s'.epoch == s.epoch
    ensures TimersOk(s')
  {
  }

  /** `s'` is `s` with `m` admitted, and other gauges and delayed messages. */
  ghost predicate Admitted(s: State, s': State, m: Message, spare: Group)
    requires TableOk(s.ix)
  {
    s' == s.(ix := Admit(s.ix, m, spare), st := s'.st, delayed := s'.delayed)
  }

  lemma AdmitSound(s: State, s': State, m: Message, spare: Group)
    requires Sound(s) && CanAdmit(s.ix, m.Key(), spare) && Admitted(s, s', m, spare)
    ensures Sound(s')
  {
    if m.Key() in s.ix.table { AdmitOldView(s.ix, m, spare); } else { AdmitNewView(s.ix, m, spare); }
    LinkSame(s, s');
    TimersSame(s, s');
  }

  lemma AppendIs(v: Plain, v': Plain, m: Message)
    requires var k := m.Key();
             && v'.lists == SetList(v.lists, k, ListOf(v.lists, k) + [m])
             && v' == v.(lists := v'.lists, lines := v'.lines)
             && m.priority in v.lines
             && v'.lines == if ListOf(v.lists, k) != [] || k in Busy(v.leases) then v.lines
                            else v.lines[m.priority := v.lines[m.priority] + [k]]
    ensures v' == Append(v, m)
  {
  }

  lemma AdmitView(s: State, s': State, m: Message, spare: Group)
    requires Sound(s) && CanAdmit(s.ix, m.Key(), spare) && Admitted(s, s', m, spare)
    requires TableOk(s'.ix)
    ensures View(s') == Append(View(s).(st := s'.st, delayed := s'.delayed), m)
  {
    AdmitParts(s.ix, m, spare);
    AppendIs(View(s).(st := s'.st, delayed := s'.delayed), View(s'), m);
  }

  lemma AdmitParts(ix: Index, m: Message, spare: Group)
    requires IndexInv(ix, {}) && CanAdmit(ix, m.Key(), spare)
    ensures var (ix', k) := (Admit(ix, m, spare), m.Key());
            && TableOk(ix')
            && Held(ix') == SetList(Held(ix), k, ListOf(Held(ix), k) + [m])
            && LinesOf(ix') == (if ListOf(Held(ix), k) != [] || k in Locked(ix) then LinesOf(ix)
                                else LinesOf(ix)[m.priority := LinesOf(ix)[m.priority] + [k]])
  {
    if m.Key() in ix.table { AdmitOldView(ix, m, spare); } else { AdmitNewView(ix, m, spare); }
  }

  lemma RefreshSame(s: State)
    requires CoreInv(s)
    ensures SlotInv(Refresh(s)) && View(Refresh(s)) == View(s)
  {
    LinkSame(s, Refresh(s));
    TimersSame(s, Refresh(s));
    assert View(Refresh(s)) == View(s);
  }

  lemma AdmitRefines(s: State, s': State, m: Message, spare: Group)
    requires Sound(s) && CanAdmit(s.ix, m.Key(), spare) && Admitted(s, s', m, spare)
    ensures Sound(s') && View(s') == Append(View(s).(st := s'.st, delayed := s'.delayed), m)
  {
    AdmitSound(s, s', m, spare);
    AdmitView(s, s', m, spare);
  }

  lemma AssembleCore(s: State, v: Plain)
    requires Sound(s) && View(s) == v && ContentsInv(v) && LinesInv(v)
    ensures CoreInv(s)
  {
  }

  lemma EnqueueReadyView(s: State, m: Message, now: Time, spare: Group) returns (s1: State)
    requires Sound(s) && |s.st.ready| == 3 && CanAdmit(s.ix, m.Key(), spare) && !m.Waiting(now)
    ensures Sound(s1) && View(s1) == Enqueue(View(s), m, now) && EnqueueReadyS(s, m, spare) == s1
  {
    s1 := s.(ix := Admit(s.ix, m, spare), st := Move(CountEnqueued(s.st), m, Absent, Ready));
    AdmitRefines(s, s1, m, spare);
    assert Submitted(View(s), m, Ready) == View(s).(st := s1.st, delayed := s1.delayed);
  }

  /** `enqueue` is the plain enqueue, under a new id. */
  lemma EnqueueReadyRefines(s: State, m: Message, now: Time, spare: Group)
    requires CoreInv(s) && CanAdmit(s.ix, m.Key(), spare) && m.id !in ContentsOf(View(s)).Ids() && !m.Waiting(now)
    ensures var s' := EnqueueReadyS(s, m, spare);
            CoreInv(s') && View(s') == Enqueue(View(s), m, now)
  {
    EnqueueContents(View(s), m, now);
    EnqueueLines(View(s), m, now);
    var s1 := EnqueueReadyView(s, m, now, spare);
    AssembleCore(s1, View(s1));
  }

  lemma EnqueueWaitingRefines(s: State, m: Message, now: Time)
    requires SlotInv(s) && m.id !in ContentsOf(View(s)).Ids() && m.Waiting(now)
    ensures var s' := EnqueueWaitingS(s, m);
            SlotInv(s') && View(s') == Enqueue(View(s), m, now)
  {
    EnqueueContents(View(s), m, now);
    EnqueueLines(View(s), m, now);
    EnqueueWaitingSound(s, m, now);
  }

  lemma EnqueueWaitingSound(s: State, m: Message, now: Time)
    requires SlotInv(s) && m.Waiting(now)
    requires ContentsInv(Enqueue(View(s), m, now)) && LinesInv(Enqueue(View(s), m, now))
    ensures var s' := EnqueueWaitingS(s, m);
            SlotInv(s') && View(s') == Enqueue(View(s), m, now)
  {
    var s' := EnqueueWaitingS(s, m);
    HeldBack(s, s');
    assert Enqueue(View(s), m, now) == View(s).(delayed := s'.delayed, st := s'.st);
    AssembleSame(s', View(s'));
  }

  lemma AssembleSame(s: State, v: Plain)
    requires Sound(s) && HintOk(s) && View(s) == v && ContentsInv(v) && LinesInv(v)
    ensures SlotInv(s)
  {
  }

  /** Only delayed messages and gauges differ. */
  lemma HeldBack(s: State, s': State)
    requires SlotInv(s) && s' == s.(delayed := s'.delayed, st := s'.st)
    ensures View(s') == View(s).(delayed := s'.delayed, st := s'.st)
    ensures Sound(s') && HintOk(s')
  {
    LinkSame(s, s');
    TimersSame(s, s');
  }

  /** Releasing one delayed message. The caller refreshes the hint afterwards. */
  lemma ReleaseRefines(s: State, m: Message, spare: Group)
    requires CoreInv(s) && m in s.delayed && CanAdmit(s.ix, m.Key(), spare)
    ensures var s' := ReleaseS(s, m, spare);
            CoreInv(s') && View(s') == ReleaseDelayed(View(s), m)
  {
    var s' := ReleaseS(s, m, spare);
    ReleaseDelayedContents(View(s), m);
    ReleaseDelayedLines(View(s), m);
    AdmitRefines(s, s', Due(m), spare);
  }

  // ---- ack and retire ----

  /** How unlocking the group of `k` shows in the view. */
  ghost predicate UnlockShows(ix: Index, ix': Index, k: string)
    requires TableOk(ix)
  {
    && TableOk(ix') && Held(ix') == Held(ix) && Locked(ix') == Locked(ix) - {k}
    && LinesOf(ix') == (if ListOf(Held(ix), k) == [] then LinesOf(ix)
                        else var p := Held(ix)[k][0].priority; LinesOf(ix)[p := LinesOf(ix)[p] + [k]])
    && (forall id | id in ix.table && id != k :: id in ix'.table && ix'.table[id] == ix.table[id])
  }

  lemma UnlockIdleShows(ix: Index, g: Group)
    requires IndexInv(ix, {}) && Listed(ix, g) && ix.recs[g].locked && ix.recs[g].msgs == []
    ensures IndexInv(Unlock(ix, g), {}) && UnlockShows(ix, Unlock(ix, g), g.id)
  {
    UnlockIdle(ix, g);
    NonEmptyDropEmpty(Lists(ix), g.id);
    SameLinesView(ix, Unlock(ix, g));
  }

  lemma UnlockWaitingShows(ix: Index, g: Group)
    requires IndexInv(ix, {}) && Listed(ix, g) && ix.recs[g].locked && ix.recs[g].msgs != []
    ensures IndexInv(Unlock(ix, g), {}) && UnlockShows(ix, Unlock(ix, g), g.id)
  {
    hide EntriesOk, MaskOk, LinesOk, ServeOk, Unlock;
    UnlockWaiting(ix, g);
    var p := ix.recs[g].msgs[0].priority;
    NamesAppend(LiveLine(ix, p), g);
    LinesAreView(ix, Unlock(ix, g), p, LiveLine(ix, p) + [g]);
  }

  lemma UnlockParts(ix: Index, g: Group)
    requires IndexInv(ix, {}) && Listed(ix, g) && ix.recs[g].locked
    ensures IndexInv(Unlock(ix, g), {}) && UnlockShows(ix, Unlock(ix, g), g.id)
  {
    if ix.recs[g].msgs == [] { UnlockIdleShows(ix, g); } else { UnlockWaitingShows(ix, g); }
  }

  lemma ReleaseIs(v: Plain, v': Plain, k: string)
    requires v' == v.(lines := v'.lines)
    requires k in v.lists ==> v.lists[k] != [] && v.lists[k][0].priority in v.lines
    requires v'.lines == if ListOf(v.lists, k) == [] then v.lines
                         else var p := v.lists[k][0].priority; v.lines[p := v.lines[p] + [k]]
    ensures v' == Release(v, k)
  {
  }

  /** What the end of the lease of `id` leaves: `ix1` unlocked, the lease gone, other gauges and delayed messages. */
  ghost predicate Ended(s: State, ix1: Index, s': State, id: string)
    requires id in s.leases && s.leases[id].g in ix1.recs
  {
    s' == s.(ix := Unlock(ix1, s.leases[id].g), leases := s.leases - {id}, st := s'.st, delayed := s'.delayed)
  }

  /** `ix1` differs from the slot's index at most in what is listed for the group of `id`. */
  ghost predicate Ending(s: State, ix1: Index, id: string)
    requires TableOk(s.ix)
  {
    && id in s.leases && IndexInv(ix1, {}) && ix1.table == s.ix.table && Locked(ix1) == Locked(s.ix)
    && LinesOf(ix1) == LinesOf(s.ix) && Listed(ix1, s.leases[id].g)
  }

  lemma LeaseLocked(s: State, ix1: Index, id: string)
    requires Sound(s) && Ending(s, ix1, id)
    ensures ix1.recs[s.leases[id].g].locked && s.leases[id].g.id == s.leases[id].msg.Key()
  {
    var d := Deliveries(s.leases);
    assert d[id].msg.Key() in Busy(d);
    assert s.leases[id].msg.Key() in Locked(ix1);
  }

  lemma EndLink(s: State, ix1: Index, s': State, id: string)
    requires Sound(s) && Ending(s, ix1, id) && Ended(s, ix1, s', id)
    requires LeasesOk(Deliveries(s.leases), s.epoch)
    requires IndexInv(s'.ix, {}) && Locked(s'.ix) == Locked(ix1) - {s.leases[id].g.id}
    requires forall j | j in ix1.table && j != s.leases[id].g.id :: j in s'.ix.table && s'.ix.table[j] == ix1.table[j]
    ensures LinkOk(s')
  {
    InFlightDrop(Deliveries(s.leases), s.epoch, id);
    DeliveriesDrop(s.leases, id);
    var d := Deliveries(s.leases);
    forall j | j in s'.leases
      ensures Listed(s'.ix, s'.leases[j].g) && s'.leases[j].g.id == s'.leases[j].msg.Key()
    {
      assert d[j].msg.Key() != d[id].msg.Key();
    }
  }

  lemma EndTimers(s: State, ix1: Index, s': State, id: string)
    requires TimersOk(s) && id in s.leases && s.leases[id].g in ix1.recs && Ended(s, ix1, s', id)
    ensures TimersOk(s')
  {
  }

  lemma EndRefines(s: State, ix1: Index, s': State, id: string)
    requires Sound(s) && LeasesOk(Deliveries(s.leases), s.epoch)
    requires Ending(s, ix1, id) && Ended(s, ix1, s', id)
    ensures Sound(s')
    ensures View(s') == Release(View(s).(leases := View(s).leases - {id}, lists := Held(ix1), st := s'.st, delayed := s'.delayed),
                                s.leases[id].msg.Key())
  {
    LeaseLocked(s, ix1, id);
    UnlockParts(ix1, s.leases[id].g);
    EndLink(s, ix1, s', id);
    EndTimers(s, ix1, s', id);
    DeliveriesDrop(s.leases, id);
    ReleaseIs(View(s).(leases := View(s).leases - {id}, lists := Held(ix1), st := s'.st, delayed := s'.delayed),
              View(s'), s.leases[id].msg.Key());
  }

  lemma AckView(s: State, id: string, epoch: nat) returns (s1: State)
    requires Sound(s) && LeasesOk(Deliveries(s.leases), s.epoch) && |s.st.ready| == 3
    requires id in s.leases && s.leases[id].epoch == epoch
    ensures LeasesInIndex(s)
    ensures Sound(s1) && AckS(s, id, epoch) == (s1, Done) && Ack(View(s), id, epoch) == (View(s1), Done)
  {
    var l := s.leases[id];
    var st := CountAcked(Move(s.st, l.msg, InFlight, Absent));
    s1 := s.(leases := s.leases - {id}, st := st, ix := Unlock(s.ix, l.g));
    EndRefines(s, s.ix, s1, id);
    DeliveriesDrop(s.leases, id);
    assert Acked(View(s), id) ==
      View(s).(leases := View(s).leases - {id}, lists := Held(s.ix), st := s1.st, delayed := s1.delayed);
  }

  lemma AckRefines(s: State, id: string, epoch: nat)
    requires CoreInv(s)
    ensures LeasesInIndex(s)
    ensures var (s', out) := AckS(s, id, epoch);
            CoreInv(s') && (View(s'), out) == Ack(View(s), id, epoch)
  {
    if id in s.leases && s.leases[id].epoch == epoch {
      AckContents(View(s), id, epoch);
      AckLines(View(s), id, epoch);
      var s1 := AckView(s, id, epoch);
      AssembleCore(s1, View(s1));
    }
  }

  lemma PushFrontParts(s: State, id: string, m: Message)
    requires Sound(s) && id in s.leases && m == s.leases[id].msg
    ensures var ix1 := PushFront(s.ix, s.leases[id].g, m);
            Ending(s, ix1, id) && Held(ix1) == SetList(Held(s.ix), m.Key(), [m] + ListOf(Held(s.ix), m.Key()))
  {
    var g := s.leases[id].g;
    LeaseLocked(s, s.ix, id);
    assert GroupOk(s.ix, g, false);
    PushFrontIx(s.ix, g, m);
  }

  lemma PushFrontIx(ix: Index, g: Group, m: Message)
    requires IndexInv(ix, {}) && Listed(ix, g) && ix.recs[g].locked
    ensures var ix1 := PushFront(ix, g, m);
            && IndexInv(ix1, {}) && ix1.table == ix.table && Listed(ix1, g)
            && Locked(ix1) == Locked(ix) && LinesOf(ix1) == LinesOf(ix)
            && Held(ix1) == SetList(Held(ix), g.id, [m] + ListOf(Held(ix), g.id))
  {
    var r := ix.recs[g].(msgs := [m] + ix.recs[g].msgs);
    assert GroupOk(ix, g, false);
    SetRecKeepsInv(ix, g, r, {}, {});
    assert TableOk(SetRec(ix, g, r));
    hide IndexInv, LinesOk, EntriesOk, ServeOk, MaskOk, LiveLine;
    LockedSame(ix, g);
    NonEmptyWrite(Lists(ix), g.id, r.msgs);
    SameLinesView(ix, SetRec(ix, g, r));
  }

  /** `Retired`, in the shape `EndRefines` speaks of. */
  lemma RetiredShape(s: State, id: string, now: Time, delay: Time, retry: Retry)
    requires Sound(s) && id in s.leases && |s.st.ready| == 3
    ensures var l := s.leases[id];
            var m := l.msg;
            var s' := RetireS(s.(leases := s.leases - {id}), l, now, delay, retry);
            var ix1 := if m.Expired(now) || Exhausted(m, retry) || delay > 0 then s.ix else PushFront(s.ix, l.g, m);
            && Ending(s, ix1, id) && Ended(s, ix1, s', id)
            && Retired(View(s), id, now, delay, retry) ==
               View(s).(leases := View(s).leases - {id}, lists := Held(ix1), st := s'.st, delayed := s'.delayed)
  {
    PushFrontParts(s, id, s.leases[id].msg);
    DeliveriesDrop(s.leases, id);
  }

  lemma RetireRefines(s: State, id: string, now: Time, delay: Time, retry: Retry)
    requires Sound(s) && LeasesOk(Deliveries(s.leases), s.epoch) && id in s.leases && |s.st.ready| == 3
    ensures s.leases[id].g in s.ix.recs
    ensures var s' := RetireS(s.(leases := s.leases - {id}), s.leases[id], now, delay, retry);
            Sound(s') && Retire(View(s), id, now, delay, retry) == (View(s'), Dead(s.leases[id].msg, now, retry))
  {
    var l := s.leases[id];
    var m := l.msg;
    var s' := RetireS(s.(leases := s.leases - {id}), l, now, delay, retry);
    var ix1 := if m.Expired(now) || Exhausted(m, retry) || delay > 0 then s.ix else PushFront(s.ix, l.g, m);
    RetiredShape(s, id, now, delay, retry);
    EndRefines(s, ix1, s', id);
  }

  lemma NackRefines(s: State, id: string, epoch: nat, now: Time, delay: Time, retry: Retry)
    requires CoreInv(s)
    ensures LeasesInIndex(s)
    ensures var (s', dead, out) := NackS(s, id, epoch, now, delay, retry);
            CoreInv(s') && (View(s'), dead, out) == Nack(View(s), id, epoch, now, delay, retry)
  {
    if id in s.leases && s.leases[id].epoch == epoch {
      RetireContents(View(s), id, now, delay, retry);
      RetireLines(View(s), id, now, delay, retry);
      RetireRefines(s, id, now, delay, retry);
      var s1 := RetireS(s.(leases := s.leases - {id}), s.leases[id], now, delay, retry);
      AssembleCore(s1, View(s1));
    }
  }

  // ---- sweepLeases ----

  lemma DropTimerSound(s: State, t: Timer)
    requires Sound(s)
    requires t.id in s.leases ==> s.leases[t.id].epoch != t.epoch
    ensures Sound(s.(timers := s.timers - {t}))
  {
    LinkSame(s, s.(timers := s.timers - {t}));
  }

  /** Without the timer of lease `id`, the slot is sound again once that lease has ended. */
  lemma FireTimers(s: State, s': State, id: string)
    requires TimersOk(s) && id in s.leases && s'.leases == s.leases - {id} && s'.epoch == s.epoch
    requires s'.timers == s.timers - {Timer(id, s.leases[id].epoch, s.leases[id].deadline)}
    ensures TimersOk(s')
  {
  }

  lemma TimersAside(s: State, ts: set<Timer>, l: Lease, now: Time, delay: Time, retry: Retry)
    requires l.g in s.ix.recs && |s.st.ready| == 3
    ensures RetireS(s.(timers := ts), l, now, delay, retry) == RetireS(s, l, now, delay, retry).(timers := ts)
  {
  }

  /**
   * One timer of the sweep. If it still names a lease, that lease had reached its deadline and ends as a failed
   * delivery; if it does not, nothing a client can see happens.
   */
  lemma FireRefines(s: State, t: Timer, now: Time, retry: Retry)
    requires CoreInv(s) && t in s.timers && t.at <= now
    ensures LeasesInIndex(s)
    ensures var (s', dead) := FireS(s, t, now, retry);
            && CoreInv(s')
            && (if t.id in s.leases && s.leases[t.id].epoch == t.epoch
                then s.leases[t.id].deadline <= now && (View(s'), dead) == Retire(View(s), t.id, now, 0, retry)
                else View(s') == View(s) && dead == None)
  {
    if t.id in s.leases && s.leases[t.id].epoch == t.epoch {
      RetireContents(View(s), t.id, now, 0, retry);
      RetireLines(View(s), t.id, now, 0, retry);
      FireLease(s, t, now, retry);
    } else {
      DropTimerSound(s, t);
      AssembleCore(s.(timers := s.timers - {t}), View(s));
    }
  }

  lemma FireLease(s: State, t: Timer, now: Time, retry: Retry)
    requires Sound(s) && LeasesOk(Deliveries(s.leases), s.epoch) && |s.st.ready| == 3
    requires t in s.timers && t.id in s.leases && s.leases[t.id].epoch == t.epoch
    requires var v' := Retire(View(s), t.id, now, 0, retry).0; ContentsInv(v') && LinesInv(v')
    ensures LeasesInIndex(s)
    ensures var (s', dead) := FireS(s, t, now, retry);
            CoreInv(s') && (View(s'), dead) == Retire(View(s), t.id, now, 0, retry)
  {
    var l := s.leases[t.id];
    var s0 := s.(leases := s.leases - {t.id});
    var s1 := RetireS(s0, l, now, 0, retry);
    var s' := s1.(timers := s.timers - {t});
    RetireRefines(s, t.id, now, 0, retry);
    TimersAside(s0, s.timers - {t}, l, now, 0, retry);
    assert FireS(s, t, now, retry) == (s', Dead(l.msg, now, retry));
    assert s1.leases == s.leases - {t.id} && s1.epoch == s.epoch;
    FireTimers(s, s', t.id);
    LinkSame(s1, s');
    AssembleCore(s', View(s1));
  }

  // ---- take ----

  lemma {:induction false} PopIsDrop(v: Plain, k: string, now: Time)
    requires |v.st.ready| == 3 && (k in v.lists ==> v.lists[k] != [])
    ensures var f := PopExpired(ListOf(v.lists, k), now, v.st);
            DropExpired(v, k, now) == v.(lists := SetList(v.lists, k, f.msgs), st := f.st)
    decreases |ListOf(v.lists, k)|
  {
    var ms := ListOf(v.lists, k);
    if ms != [] && ms[0].Expired(now) {
      PopIsDrop(DropHead(v, k), k, now);
      SetListTwice(v.lists, k, ms[1..], PopExpired(ms, now, v.st).msgs);
    }
  }

  lemma SetListTwice(lists: map<string, seq<Message>>, k: string, a: seq<Message>, b: seq<Message>)
    ensures SetList(SetList(lists, k, a), k, b) == SetList(lists, k, b)
    ensures ListOf(SetList(lists, k, a), k) == a
  {
  }

  /** The slot after `takeGroup` found a group: that group is out of its line and everything else is as before. */
  ghost predicate Opened(s: State, g: Group) {
    && IndexInv(s.ix, {g}) && LinkOk(s) && TimersOk(s)
    && Listed(s.ix, g) && !s.ix.recs[g].locked && s.ix.recs[g].msgs != []
  }

  lemma TakeGroupView(s: State, p: Priority)
    requires Sound(s)
    ensures var (ix1, got) := TakeGroup(s.ix, p);
            var s1 := s.(ix := ix1);
            && TableOk(ix1)
            && (got.None? <==> Line(View(s), p) == [])
            && (got.None? ==> Sound(s1) && View(s1) == View(s))
            && (got.Some? ==> Opened(s1, got.value) && got.value.id == Line(View(s), p)[0] && View(s1) == Pulled(View(s), p))
  {
    hide EntriesOk, MaskOk, LinesOk, ServeOk, TimersOk;
    var (ix1, got) := TakeGroup(s.ix, p);
    TakeGroupKeepsInv(s.ix, p);
    BandIsServable(s.ix, p);
    TakeGroupLines(s.ix, p);
    TakeGroupServe(s.ix, p);
    TakeGroupTables(s.ix, p);
    LinkSame(s, s.(ix := ix1));
    TimersSame(s, s.(ix := ix1));
    var l := LiveLine(s.ix, p);
    if got.Some? { NamesTail(l); }
    LinesAreView(s.ix, ix1, p, if l == [] then [] else l[1..]);
  }

  lemma TakeGroupTables(ix: Index, p: Priority)
    ensures TakeGroup(ix, p).0.table == ix.table
  {
  }

  /** Every message of the group had expired: the group goes. */
  lemma ServeNothing(s: State, g: Group)
    requires Opened(s, g)
    ensures var ix' := DropIdle(SetRec(s.ix, g, s.ix.recs[g].(msgs := [])), g);
            && IndexInv(ix', {}) && Locked(ix') == Locked(s.ix) && LinesOf(ix') == LinesOf(s.ix)
            && Held(ix') == SetList(Held(s.ix), g.id, [])
            && ix'.table == s.ix.table - {g.id}
  {
    var r := s.ix.recs[g].(msgs := []);
    WriteOpen(s.ix, g, r);
    var ix1 := SetRec(s.ix, g, r);
    assert g.id !in Locked(s.ix);
    DropIdleKeepsInv(ix1, g);
    SameLinesChain(s.ix, ix1, DropIdle(ix1, g));
    SameLinesView(s.ix, DropIdle(ix1, g));
    NonEmptyWrite(Lists(s.ix), g.id, []);
    NonEmptyDropEmpty(Lists(ix1), g.id);
  }

  lemma LinkWithout(s: State, s': State, g: Group)
    requires TableOk(s.ix) && LinkOk(s) && Listed(s.ix, g) && !s.ix.recs[g].locked
    requires TableOk(s'.ix) && s'.leases == s.leases && Locked(s'.ix) == Locked(s.ix) && s'.ix.table == s.ix.table - {g.id}
    ensures LinkOk(s')
  {
    var d := Deliveries(s.leases);
    forall id | id in s.leases
      ensures Listed(s'.ix, s.leases[id].g)
    {
      var h := s.leases[id].g;
      assert d[id].msg.Key() in Busy(d);
      assert h.id in Locked(s.ix) && s.ix.table[h.id] == h;
      assert h.id in s'.ix.table && s'.ix.table[h.id] == h;
    }
  }

  lemma ServeMessage(s: State, g: Group, rest: seq<Message>)
    requires Opened(s, g)
    ensures var ix' := SetRec(s.ix, g, s.ix.recs[g].(msgs := rest, locked := true));
            && IndexInv(ix', {}) && Locked(ix') == Locked(s.ix) + {g.id} && LinesOf(ix') == LinesOf(s.ix)
            && Held(ix') == SetList(Held(s.ix), g.id, rest)
            && ix'.table == s.ix.table
  {
    assert GroupOk(s.ix, g, true);
    var r := s.ix.recs[g].(msgs := rest, locked := true);
    SetRecKeepsInv(s.ix, g, r, {g}, {});
    SameLinesView(s.ix, SetRec(s.ix, g, r));
    NonEmptyWrite(Lists(s.ix), g.id, rest);
  }

  lemma LinkWith(s: State, s': State, id: string, l: Lease)
    requires TableOk(s.ix) && LinkOk(s) && Listed(s.ix, l.g) && l.g.id == l.msg.Key() && id !in s.leases
    requires TableOk(s'.ix) && s'.leases == s.leases[id := l] && s'.ix.table == s.ix.table
    requires Locked(s'.ix) == Locked(s.ix) + {l.g.id}
    ensures LinkOk(s')
  {
    DeliveriesAdd(s.leases, id, l);
    InFlightAdd(Deliveries(s.leases), id, Delivery(l.msg, l.epoch, l.deadline));
  }

  lemma TimersWith(s: State, s': State, id: string, l: Lease)
    requires TimersOk(s) && id !in s.leases && l.epoch == s.epoch + 1
    requires s'.leases == s.leases[id := l] && s'.epoch == l.epoch
    requires s'.timers == s.timers + {Timer(id, l.epoch, l.deadline)}
    requires forall i | i in s.leases :: s.leases[i].epoch <= s.epoch
    ensures TimersOk(s')
    ensures Timer(id, l.epoch, l.deadline) !in s.timers
  {
  }

  lemma ServeEmptyRefines(s: State, g: Group, now: Time, deadline: Time)
    requires Opened(s, g) && |s.st.ready| == 3
    requires PopExpired(s.ix.recs[g].msgs, now, s.st).msgs == []
    ensures var (s', d) := ServeS(s, g, now, deadline);
            Sound(s') && (View(s'), d) == Serve(View(s), g.id, now, deadline)
  {
    ServeNothing(s, g);
    LinkWithout(s, ServeS(s, g, now, deadline).0, g);
    TimersSame(s, ServeS(s, g, now, deadline).0);
    ServedList(s, g, now);
  }

  /** What `PopExpired` leaves of the group's list, as the plain slot sees it. */
  lemma ServedList(s: State, g: Group, now: Time)
    requires TableOk(s.ix) && Listed(s.ix, g) && |s.st.ready| == 3
    ensures var f := PopExpired(s.ix.recs[g].msgs, now, s.st);
            && ListOf(View(s).lists, g.id) == s.ix.recs[g].msgs
            && DropExpired(View(s), g.id, now) == View(s).(lists := SetList(View(s).lists, g.id, f.msgs), st := f.st)
            && ListOf(SetList(View(s).lists, g.id, f.msgs), g.id) == f.msgs
  {
    PopIsDrop(View(s), g.id, now);
    SetListTwice(View(s).lists, g.id, PopExpired(s.ix.recs[g].msgs, now, s.st).msgs, []);
  }

  lemma ServedId(s: State, g: Group, now: Time)
    requires TableOk(s.ix) && Listed(s.ix, g) && ContentsInv(View(s))
    ensures var f := PopExpired(s.ix.recs[g].msgs, now, s.st);
            f.msgs != [] ==> f.msgs[0].id !in s.leases && f.msgs[0].Key() == g.id
  {
    var f := PopExpired(s.ix.recs[g].msgs, now, s.st);
    ServedList(s, g, now);
    DropExpiredContents(View(s), g.id, now);
    DropExpiredFrame(View(s), g.id, now);
    var v1 := DropExpired(View(s), g.id, now);
    if f.msgs != [] {
      ReadyPop(v1.lists, g.id);
      IdsOf(v1);
    }
  }

  lemma ServeMessageSound(s: State, g: Group, now: Time, deadline: Time)
    requires Opened(s, g) && |s.st.ready| == 3
    requires forall id | id in s.leases :: s.leases[id].epoch <= s.epoch
    requires var f := PopExpired(s.ix.recs[g].msgs, now, s.st);
             f.msgs != [] && f.msgs[0].id !in s.leases && f.msgs[0].Key() == g.id
    ensures Sound(ServeS(s, g, now, deadline).0)
  {
    var f := PopExpired(s.ix.recs[g].msgs, now, s.st);
    var s' := ServeS(s, g, now, deadline).0;
    var id := f.msgs[0].id;
    ServeMessage(s, g, f.msgs[1..]);
    LinkWith(s, s', id, s'.leases[id]);
    TimersWith(s, s', id, s'.leases[id]);
  }

  lemma DeliverIs(v: Plain, k: string, deadline: Time, v': Plain, d: Delivery)
    requires ListOf(v.lists, k) != [] && |v.st.ready| == 3
    requires var m := v.lists[k][0]; d == Delivery(Attempted(m), NextEpoch(v.epoch), deadline)
    requires v'.lines == v.lines && v'.delayed == v.delayed && v'.epoch == d.epoch
    requires v'.lists == SetList(v.lists, k, v.lists[k][1..]) && v'.leases == v.leases[v.lists[k][0].id := d]
    requires v'.st == Move(v.st, d.msg, Ready, InFlight)
    ensures Deliver(v, k, deadline) == (v', d)
  {
  }

  lemma ServeMessageParts(s: State, g: Group, now: Time, deadline: Time)
    requires Opened(s, g) && |s.st.ready| == 3
    requires PopExpired(s.ix.recs[g].msgs, now, s.st).msgs != []
    ensures var f := PopExpired(s.ix.recs[g].msgs, now, s.st);
            var s' := ServeS(s, g, now, deadline).0;
            && TableOk(s'.ix) && LinesOf(s'.ix) == LinesOf(s.ix)
            && Held(s'.ix) == SetList(SetList(Held(s.ix), g.id, f.msgs), g.id, f.msgs[1..])
            && Deliveries(s'.leases) == Deliveries(s.leases)[f.msgs[0].id := ServeS(s, g, now, deadline).1.value]
  {
    var f := PopExpired(s.ix.recs[g].msgs, now, s.st);
    var s' := ServeS(s, g, now, deadline).0;
    ServeMessage(s, g, f.msgs[1..]);
    hide IndexInv, Opened;
    DeliveriesAdd(s.leases, f.msgs[0].id, s'.leases[f.msgs[0].id]);
    SetListTwice(Held(s.ix), g.id, f.msgs, f.msgs[1..]);
  }

  lemma ServeMessageView(s: State, g: Group, now: Time, deadline: Time)
    requires Opened(s, g) && |s.st.ready| == 3
    requires PopExpired(s.ix.recs[g].msgs, now, s.st).msgs != []
    requires TableOk(ServeS(s, g, now, deadline).0.ix)
    ensures var (s', d) := ServeS(s, g, now, deadline);
            (View(s'), d) == Serve(View(s), g.id, now, deadline)
  {
    assert TableOk(s.ix) && Listed(s.ix, g);
    hide IndexInv, Opened, LinesOf, Deliveries, Attempted, NextEpoch, Move;
    var (s', d) := ServeS(s, g, now, deadline);
    ServeMessageParts(s, g, now, deadline);
    ServedList(s, g, now);
    DeliverIs(DropExpired(View(s), g.id, now), g.id, deadline, View(s'), d.value);
  }

  lemma ServeRefines(s: State, g: Group, now: Time, deadline: Time)
    requires Opened(s, g) && ContentsInv(View(s))
    ensures var (s', d) := ServeS(s, g, now, deadline);
            Sound(s') && (View(s'), d) == Serve(View(s), g.id, now, deadline)
  {
    if PopExpired(s.ix.recs[g].msgs, now, s.st).msgs == [] {
      ServeEmptyRefines(s, g, now, deadline);
    } else {
      ServedId(s, g, now);
      assert forall id | id in s.leases :: s.leases[id].epoch == Deliveries(s.leases)[id].epoch;
      ServeMessageSound(s, g, now, deadline);
      ServeMessageView(s, g, now, deadline);
    }
  }

  /** `take` is the plain take: stale band entries make no difference to what is served. */
  lemma TakeRefines(s: State, p: Priority, now: Time, deadline: Time)
    requires CoreInv(s)
    ensures CanTake(s, p)
    ensures var (s', d) := TakeS(s, p, now, deadline);
            CoreInv(s') && (View(s'), d) == Take(View(s), p, now, deadline)
  {
    var v := View(s);
    TakeGroupView(s, p);
    var (ix1, got) := TakeGroup(s.ix, p);
    var s1 := s.(ix := ix1);
    if got.None? {
      AssembleCore(s1, v);
    } else {
      TakeContents(v, p, now, deadline);
      TakeLines(v, p, now, deadline);
      SameContents(v, Pulled(v, p));
      ServeRefines(s1, got.value, now, deadline);
      AssembleCore(ServeS(s1, got.value, now, deadline).0, Take(v, p, now, deadline).0);
    }
  }

  // ---- sweepTTL and Absorb: groups listed anew ----

  ghost predicate LinesQuit(ix: Index, ix': Index, k: string) {
    forall p: Priority :: LinesOf(ix')[p] == Without(LinesOf(ix)[p], k)
  }

  lemma ReissuedIs(ix: Index, g: Group, ms: seq<Message>)
    requires g in ix.recs
    ensures Reissued(ix, g, ms) == SetRec(Bump(ix, g), g, Bump(ix, g).recs[g].(msgs := ms))
  {
    UpdateTwice(ix.recs, g, Bump(ix, g).recs[g], Bump(ix, g).recs[g].(msgs := ms));
  }

  lemma WriteBumped(ix: Index, ix1: Index, g: Group, ms: seq<Message>)
    requires TableOk(ix) && IndexInv(ix1, {g}) && Listed(ix1, g) && SameLists(ix, ix1)
    requires LinesQuit(ix, ix1, g.id)
    ensures var ix' := SetRec(ix1, g, ix1.recs[g].(msgs := ms));
            && IndexInv(ix', {g}) && Listed(ix', g) && ix'.table == ix1.table && Locked(ix') == Locked(ix)
            && LinesQuit(ix, ix', g.id) && Held(ix') == SetList(Held(ix), g.id, ms)
  {
    var r := ix1.recs[g].(msgs := ms);
    WriteOpen(ix1, g, r);
    SameLinesView(ix1, SetRec(ix1, g, r));
    NonEmptyWrite(Lists(ix), g.id, ms);
    LockedSame(ix1, g);
  }

  lemma LockedSame(ix: Index, g: Group)
    requires TableOk(ix) && Listed(ix, g)
    ensures (if ix.recs[g].locked then Locked(ix) + {g.id} else Locked(ix) - {g.id}) == Locked(ix)
  {
  }

  lemma ReissuedParts(ix: Index, g: Group, ms: seq<Message>, open: set<Group>)
    requires IndexInv(ix, open) && open <= {g} && Listed(ix, g)
    ensures var ix' := Reissued(ix, g, ms);
            && IndexInv(ix', {g}) && Listed(ix', g) && ix'.table == ix.table && Locked(ix') == Locked(ix)
            && LinesQuit(ix, ix', g.id) && Held(ix') == SetList(Held(ix), g.id, ms)
  {
    BumpKeepsInv(ix, g, open);
    LinesLoseView(ix, Bump(ix, g), g, open);
    WriteBumped(ix, Bump(ix, g), g, ms);
    ReissuedIs(ix, g, ms);
  }

  lemma CloseLocked(ix: Index, g: Group)
    requires IndexInv(ix, {g}) && Listed(ix, g) && ix.recs[g].locked
    ensures IndexInv(ix, {})
  {
    assert GroupOk(ix, g, true);
    SetRecKeepsInv(ix, g, ix.recs[g], {g}, {});
    assert SetRec(ix, g, ix.recs[g]) == ix;
  }

  lemma PushParts(ix: Index, g: Group)
    requires IndexInv(ix, {g}) && Listed(ix, g) && ix.recs[g].msgs != [] && !ix.recs[g].locked
    ensures var (ix', p) := (Push(ix, g), ix.recs[g].msgs[0].priority);
            && IndexInv(ix', {}) && ix'.table == ix.table && Locked(ix') == Locked(ix) && Held(ix') == Held(ix)
            && LinesOf(ix') == LinesOf(ix)[p := LinesOf(ix)[p] + [g.id]]
            && ix'.recs[g].inBand
  {
    PushLines(ix, g);
    PushKeepsInv(ix, g);
    var p := ix.recs[g].msgs[0].priority;
    NamesAppend(LiveLine(ix, p), g);
    LinesAreView(ix, Push(ix, g), p, LiveLine(ix, p) + [g]);
  }

  /** Relisting group `k` of a plain slot, given as its parts. */
  lemma RelistIs(v: Plain, v1: Plain, v': Plain, k: string)
    requires forall p: Priority :: p in v.lines && p in v1.lines
    requires v1 == v.(lines := v1.lines) && v' == v.(lines := v'.lines)
    requires forall p: Priority :: v1.lines[p] == Without(v.lines[p], k)
    requires v'.lines == if ListOf(v.lists, k) != [] && k !in Busy(v.leases)
                         then var p := v.lists[k][0].priority; v1.lines[p := v1.lines[p] + [k]] else v1.lines
    ensures v' == Relist(v, k)
  {
    assert v1.lines == Quit(v, k).lines;
  }

  /** What is left after relisting `g` with messages `ms`: its view is `Relist`. */
  lemma RelistView(s: State, ix2: Index, s': State, g: Group, ms: seq<Message>)
    requires TableOk(s.ix) && LinkOk(s) && TableOk(ix2) && TableOk(s'.ix)
    requires s' == s.(ix := s'.ix, st := s'.st)
    requires LinesQuit(s.ix, ix2, g.id) && Held(ix2) == SetList(Held(s.ix), g.id, ms) && Held(s'.ix) == Held(ix2)
    requires LinesOf(s'.ix) == if ms != [] && g.id !in Locked(s.ix)
                               then LinesOf(ix2)[ms[0].priority := LinesOf(ix2)[ms[0].priority] + [g.id]]
                               else LinesOf(ix2)
    ensures View(s') == Relist(View(s).(lists := SetList(View(s).lists, g.id, ms), st := s'.st), g.id)
  {
    var v := View(s).(lists := SetList(View(s).lists, g.id, ms), st := s'.st);
    SetListTwice(View(s).lists, g.id, ms, []);
    RelistIs(v, v.(lines := LinesOf(ix2)), View(s'), g.id);
  }

  // ---- Absorb ----

  /** `ix1` is `ix` with a record for group `k`, which `open` holds if it is new. */
  ghost predicate Ensured(ix: Index, ix1: Index, k: string, open: set<Group>)
    requires TableOk(ix)
  {
    && TableOk(ix1) && k in ix1.table && Listed(ix1, ix1.table[k]) && open <= {ix1.table[k]}
    && LinesOf(ix1) == LinesOf(ix) && Held(ix1) == Held(ix) && Locked(ix1) == Locked(ix)
    && ListOf(Held(ix), k) == ix1.recs[ix1.table[k]].msgs && (ix1.recs[ix1.table[k]].locked <==> k in Locked(ix))
    && (forall id | id in ix.table :: id in ix1.table && ix1.table[id] == ix.table[id])
  }

  lemma EnsureNew(ix: Index, k: string, spare: Group)
    requires IndexInv(ix, {}) && k !in ix.table && spare !in ix.recs && spare.id == k
    ensures IndexInv(AddGroup(ix, k, spare), {spare}) && Ensured(ix, AddGroup(ix, k, spare), k, {spare})
  {
    hide EntriesOk, MaskOk, LinesOk, ServeOk;
    AddGroupKeepsInv(ix, k, spare);
    SameLinesView(ix, AddGroup(ix, k, spare));
    NonEmptyWrite(Lists(ix), k, []);
    assert k !in Held(ix);
  }

  lemma EnsureOld(ix: Index, k: string)
    requires IndexInv(ix, {}) && k in ix.table
    ensures Ensured(ix, ix, k, {})
  {
  }

  lemma AbsorbParts(ix1: Index, g: Group, ms: seq<Message>, open: set<Group>)
    requires IndexInv(ix1, open) && open <= {g} && Listed(ix1, g) && ms != []
    ensures var ix2 := Reissued(ix1, g, ms);
            var ix' := if ix1.recs[g].locked then ix2 else Push(ix2, g);
            && IndexInv(ix', {}) && ix'.table == ix1.table && Locked(ix') == Locked(ix1)
            && LinesQuit(ix1, ix2, g.id) && TableOk(ix2) && Held(ix2) == SetList(Held(ix1), g.id, ms) && Held(ix') == Held(ix2)
            && LinesOf(ix') == (if !ix1.recs[g].locked
                                then LinesOf(ix2)[ms[0].priority := LinesOf(ix2)[ms[0].priority] + [g.id]]
                                else LinesOf(ix2))
  {
    ReissuedParts(ix1, g, ms, open);
    var ix2 := Reissued(ix1, g, ms);
    if ix1.recs[g].locked { CloseLocked(ix2, g); } else { PushParts(ix2, g); }
  }

  lemma AbsorbFrom(s: State, s': State, k: string, ms: seq<Message>, ix1: Index, open: set<Group>)
    requires Sound(s) && |s.st.ready| == 3 && ms != []
    requires Ensured(s.ix, ix1, k, open) && IndexInv(ix1, open)
    requires s' == s.(ix := AbsorbIx(ix1, ix1.table[k], ms), st := ArriveStats(s.st, ms))
    ensures Sound(s') && View(s') == AbsorbGroup(View(s), k, ms)
  {
    var g := ix1.table[k];
    var ms' := ms + ix1.recs[g].msgs;
    AbsorbParts(ix1, g, ms', open);
    LinkSame(s, s');
    TimersSame(s, s');
    RelistView(s, Reissued(ix1, g, ms'), s', g, ms');
  }

  lemma AbsorbOld(s: State, k: string, ms: seq<Message>, spare: Group)
    requires Sound(s) && |s.st.ready| == 3 && k in s.ix.table && ms != []
    ensures var s' := AbsorbGroupS(s, k, ms, spare);
            Sound(s') && View(s') == AbsorbGroup(View(s), k, ms)
  {
    EnsureOld(s.ix, k);
    AbsorbFrom(s, AbsorbGroupS(s, k, ms, spare), k, ms, s.ix, {});
  }

  lemma AbsorbNew(s: State, k: string, ms: seq<Message>, spare: Group)
    requires Sound(s) && |s.st.ready| == 3 && k !in s.ix.table && spare !in s.ix.recs && spare.id == k && ms != []
    ensures var s' := AbsorbGroupS(s, k, ms, spare);
            Sound(s') && View(s') == AbsorbGroup(View(s), k, ms)
  {
    EnsureNew(s.ix, k, spare);
    AbsorbFrom(s, AbsorbGroupS(s, k, ms, spare), k, ms, AddGroup(s.ix, k, spare), {spare});
  }

  // ---- sweepTTL ----

  lemma {:induction false} PopExpiredSpec(ms: seq<Message>, now: Time, st: Stats)
    requires |st.ready| == 3
    ensures var f := PopExpired(ms, now, st);
            && f.msgs == ms[|ms| - |f.msgs|..]
            && (|f.msgs| < |ms| <==> ms != [] && ms[0].Expired(now))
            && (|f.msgs| == |ms| ==> f == Fresh(ms, st))
  {
    if ms != [] && ms[0].Expired(now) {
      PopExpiredSpec(ms[1..], now, CountExpired(Move(st, ms[0], Ready, Absent)));
    }
  }

  /** Nothing expired: the group is as it was. */
  lemma ExpireNothing(ix: Index, g: Group)
    requires IndexInv(ix, {}) && Listed(ix, g)
    ensures ExpireIx(ix, g, ix.recs[g].msgs) == ix
  {
    assert GroupOk(ix, g, false);
    assert SetRec(ix, g, ix.recs[g]) == ix;
  }

  lemma BusyInNoLine(v: Plain, k: string)
    requires LinesInv(v) && k in Busy(v.leases)
    ensures forall p: Priority :: p in v.lines && Without(v.lines[p], k) == v.lines[p]
  {
    forall p: Priority
      ensures p in v.lines && Without(v.lines[p], k) == v.lines[p]
    {
      assert LineOk(v, p);
      assert !Serves(v, p, k);
    }
  }

  lemma WriteLocked(ix: Index, g: Group, ms: seq<Message>)
    requires IndexInv(ix, {}) && Listed(ix, g) && ix.recs[g].locked
    ensures var ix' := SetRec(ix, g, ix.recs[g].(msgs := ms));
            && ExpireIx(ix, g, ms) == ix'
            && IndexInv(ix', {}) && ix'.table == ix.table && Locked(ix') == Locked(ix)
            && LinesOf(ix') == LinesOf(ix) && Held(ix') == SetList(Held(ix), g.id, ms)
  {
    assert GroupOk(ix, g, false);
    var r := ix.recs[g].(msgs := ms);
    SetRecKeepsInv(ix, g, r, {}, {});
    assert TableOk(SetRec(ix, g, r));
    hide IndexInv, LinesOk, EntriesOk, ServeOk, MaskOk, LiveLine;
    LockedSame(ix, g);
    SameLinesView(ix, SetRec(ix, g, r));
    NonEmptyWrite(Lists(ix), g.id, ms);
  }

  lemma ExpireLocked(s: State, s': State, g: Group, ms: seq<Message>)
    requires Sound(s) && LinesInv(View(s)) && Listed(s.ix, g) && s.ix.recs[g].locked
    requires s' == s.(ix := ExpireIx(s.ix, g, ms), st := s'.st)
    ensures Sound(s')
    ensures View(s') == Relist(View(s).(lists := SetList(View(s).lists, g.id, ms), st := s'.st), g.id)
  {
    WriteLocked(s.ix, g, ms);
    LinkSame(s, s');
    TimersSame(s, s');
    BusyInNoLine(View(s), g.id);
    RelistView(s, s'.ix, s', g, ms);
  }

  lemma ExpireToNext(s: State, s': State, g: Group, ms: seq<Message>)
    requires Sound(s) && Listed(s.ix, g) && !s.ix.recs[g].locked && ms != [] && |ms| < |s.ix.recs[g].msgs|
    requires s' == s.(ix := ExpireIx(s.ix, g, ms), st := s'.st)
    ensures Sound(s')
    ensures View(s') == Relist(View(s).(lists := SetList(View(s).lists, g.id, ms), st := s'.st), g.id)
  {
    assert GroupOk(s.ix, g, false);
    var ix2 := Reissued(s.ix, g, ms);
    ReissuedParts(s.ix, g, ms, {});
    PushParts(ix2, g);
    assert s'.ix == Push(ix2, g);
    LinkSame(s, s');
    TimersSame(s, s');
    RelistView(s, ix2, s', g, ms);
  }

  lemma ExpireAll(s: State, s': State, g: Group)
    requires Sound(s) && Listed(s.ix, g) && !s.ix.recs[g].locked && s.ix.recs[g].msgs != []
    requires s' == s.(ix := ExpireIx(s.ix, g, []), st := s'.st)
    ensures Sound(s')
    ensures View(s') == Relist(View(s).(lists := SetList(View(s).lists, g.id, []), st := s'.st), g.id)
  {
    assert GroupOk(s.ix, g, false);
    var ix2 := Reissued(s.ix, g, []);
    ReissuedParts(s.ix, g, [], {});
    assert s'.ix == DropIdle(ix2, g);
    DropIdleKeepsInv(ix2, g);
    SameLinesView(ix2, s'.ix);
    NonEmptyDropEmpty(Lists(ix2), g.id);
    LinkWithout(s, s', g);
    TimersSame(s, s');
    RelistView(s, ix2, s', g, []);
  }

  lemma ExpireShape(s: State, k: string, now: Time)
    requires TableOk(s.ix) && k in s.ix.table && |s.st.ready| == 3
    ensures var g := s.ix.table[k];
            var f := PopExpired(s.ix.recs[g].msgs, now, s.st);
            Expire(View(s), k, now) ==
              (if |f.msgs| < |s.ix.recs[g].msgs| then Relist(View(s).(lists := SetList(View(s).lists, k, f.msgs), st := f.st), k)
               else View(s))
  {
    var g := s.ix.table[k];
    PopExpiredSpec(s.ix.recs[g].msgs, now, s.st);
    ServedList(s, g, now);
  }

  /** `sweepTTL` on one group. */
  lemma ExpireRefines(s: State, k: string, now: Time)
    requires Sound(s) && LinesInv(View(s)) && |s.st.ready| == 3 && k in s.ix.table
    ensures var s' := ExpireS(s, k, now);
            Sound(s') && View(s') == Expire(View(s), k, now)
  {
    var g := s.ix.table[k];
    var s' := ExpireS(s, k, now);
    var f := PopExpired(s.ix.recs[g].msgs, now, s.st);
    ExpireShape(s, k, now);
    PopExpiredSpec(s.ix.recs[g].msgs, now, s.st);
    if |f.msgs| == |s.ix.recs[g].msgs| {
      ExpireNothing(s.ix, g);
      assert s' == s;
    } else if s.ix.recs[g].locked {
      ExpireLocked(s, s', g, f.msgs);
    } else if f.msgs != [] {
      ExpireToNext(s, s', g, f.msgs);
    } else {
      ExpireAll(s, s', g);
    }
  }

  // ---- drain ----

  lemma EmptyIsSound(s: State)
    requires s.ix == GroupIndex.EMPTY && s.leases == map[] && s.timers == {}
    ensures Sound(s) && View(s) == PlainSlot.EMPTY.(delayed := s.delayed, epoch := s.epoch, st := s.st)
  {
    assert BandMask.Bands(BandMask.EMPTY) == {};
    assert Locked(s.ix) == {} && Busy(Deliveries(s.leases)) == {};
    forall p: Priority
      ensures LinesOf(s.ix)[p] == PlainSlot.EMPTY.lines[p]
    {
    }
    assert Held(s.ix) == map[];
    assert Deliveries(s.leases) == map[];
  }

  lemma DrainRefines(s: State)
    requires CoreInv(s)
    ensures CoreInv(DrainS(s)) && View(DrainS(s)) == Drain(View(s)).0
  {
    DrainContents(View(s));
    DrainLines(View(s));
    EmptyIsSound(DrainS(s));
    AssembleCore(DrainS(s), Drain(View(s)).0);
  }

  /** A new slot. */
  lemma EmptyHint(s: State)
    requires s.ix == GroupIndex.EMPTY && s.hint == 0 && s.headSeq == NO_SEQ
    ensures HintOk(s)
  {
    assert BandMask.Bands(BandMask.EMPTY) == {};
  }

  /** A new slot satisfies the invariant and holds nothing. */
  lemma NewSlotOk(s: State)
    requires s == EMPTY_STATE
    ensures SlotInv(s) && View(s) == PlainSlot.EMPTY && Inv(PlainSlot.EMPTY)
  {
    hide Sound, View, ContentsInv, LinesInv, HintOk, SlotInv;
    EmptyIsSound(s);
    SoundIsTabled(s);
    EmptyPlainOk();
    EmptyHint(s);
    AssembleSame(s, PlainSlot.EMPTY);
  }

  lemma SoundIsTabled(s: State)
    requires Sound(s)
    ensures TableOk(s.ix)
  {
  }

  lemma EmptyPlainOk()
    ensures Inv(PlainSlot.EMPTY)
  {
    var v := PlainSlot.EMPTY;
    var c := ContentsOf(v);
    assert c == Contents({}, {}, {});
    assert forall b :: InBucket({}, b) == {};
    forall p: Priority
      ensures LineOk(v, p)
    {
      assert v.lines[p] == [];
    }
  }

  // ---- Parts of the invariant ----

  lemma SlotIsCore(s: State)
    requires SlotInv(s)
    ensures CoreInv(s) && TableOk(s.ix) && EntriesOk(s.ix) && |s.st.ready| == 3
  {
  }

  lemma CoreIsIndexed(s: State)
    requires CoreInv(s)
    ensures TableOk(s.ix) && EntriesOk(s.ix) && |s.st.ready| == 3
  {
  }
}
