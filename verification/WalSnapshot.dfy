/** Splicing what a slot holds onto the records since the marks: what the new log says of the slot. */
module WalSnapshot {
  import opened Messages
  import opened Seqs
  import opened PlainSlot
  import opened PlainContents
  import opened SlotRuns
  import opened WalReplay
  import opened WalCompact
  import opened WalEngine

  /** What `Snapshot` lists of a slot: every message it holds, once. */
  ghost predicate Snapshot(ms: seq<Message>, v: Plain) {
    NewIds(ms, {}) && SetOf(ms) == ContentsOf(v).All()
  }

  // ---- One id through the splice ----

  /** Attempts leave the rest of a message alone, and set the count whatever it was. */
  lemma {:induction false} AttemptsOn(o: Option<Message>, o': Option<Message>, es: seq<Entry>, id: string)
    requires !Settles(es, id) && o.Some? && o'.Some?
    ensures var (r, r') := (Track(o, es, id), Track(o', es, id));
            && r.Some? && r'.Some?
            && r'.value.(attempts := 0) == o'.value.(attempts := 0)
            && (r.value.attempts == r'.value.attempts || (r == o && r' == o'))
  {
    if es != [] {
      SettlesMore(es, id);
      AttemptsOn(o, o', es[..|es| - 1], id);
    }
  }

  function EnqueuedIds(es: seq<Entry>): set<string> {
    set e | e in es && e.Enqueue? :: e.p.id
  }

  function AttemptedIds(es: seq<Entry>): set<string> {
    set e | e in es && e.Attempt? :: e.id
  }

  lemma EntryIn(es: seq<Entry>, i: nat)
    requires i < |es|
    ensures es[i].Enqueue? ==> es[i].p.id in EnqueuedIds(es)
    ensures es[i].Attempt? ==> es[i].id in AttemptedIds(es)
  {
    assert es[i] in es;
  }

  /** A message nothing speaks of stays as it is; one that is only ended is gone. */
  lemma {:induction false} Unspoken(o: Option<Message>, es: seq<Entry>, id: string)
    ensures !Settles(es, id) && id !in AttemptedIds(es) ==> Track(o, es, id) == o
    ensures Settles(es, id) && id !in EnqueuedIds(es) ==> Track(o, es, id) == None
  {
    if es != [] {
      var front := es[..|es| - 1];
      Unspoken(o, front, id);
      SettlesMore(es, id);
      EntryIn(es, |es| - 1);
      assert EnqueuedIds(front) <= EnqueuedIds(es) && AttemptedIds(front) <= AttemptedIds(es);
    }
  }

  /**
   * What the records `b` since the marks tell: `since` are the ids they leave behind by themselves, of those they enqueue,
   * and they speak of no id but `touched`; `behind` is what a log that had left `before` behind says at their end.
   */
  ghost predicate Since(b: seq<Entry>, before: set<string>, behind: set<string>, since: set<string>, touched: set<string>) {
    && since <= EnqueuedIds(b) <= touched && AttemptedIds(b) <= touched
    && behind == (before - touched) + since
  }

  /** A held message, of which the log says `p` at the mark and `Track(p, b, id)` at the snapshot, after the splice. */
  lemma HeldSpliced(p: Option<Message>, b: seq<Entry>, m: Message, before: set<string>, behind: set<string>,
                    since: set<string>, touched: set<string>)
    requires Since(b, before, behind, since, touched)
    requires var whole := Track(p, b, m.id); whole.Some? && Matches(whole.value, m, behind)
    ensures var spliced := Track(Some(m), b, m.id); spliced.Some? && Matches(spliced.value, m, since)
  {
    Forgets(p, Some(m), b, m.id);
    Unspoken(p, b, m.id);
    Unspoken(Some(m), b, m.id);
    if Settles(b, m.id) {
      assert m.id in EnqueuedIds(b);
    } else {
      NotSettled(b, m.id);
      AttemptsOn(p, Some(m), b, m.id);
    }
  }

  lemma NotSettled(es: seq<Entry>, id: string)
    requires !Settles(es, id)
    ensures id !in EnqueuedIds(es)
  {
  }

  lemma SplicedIs(a: seq<Entry>, b: seq<Entry>, ms: seq<Message>, id: string)
    requires NewIds(ms, {})
    ensures var (whole, spliced) := (Fold(START, a + b).live, Fold(START, SnapEntries(ms) + b).live);
            && Look(whole, id) == Track(Track(None, a, id), b, id)
            && (forall m | m in ms && m.id == id :: Look(spliced, id) == Track(Some(m), b, id))
            && ((forall m | m in ms :: m.id != id) ==> Look(spliced, id) == Track(None, b, id))
  {
    FoldTracks(START, a + b, id);
    TrackAppend(None, a, b, id);
    FoldTracks(START, SnapEntries(ms) + b, id);
    TrackAppend(None, SnapEntries(ms), b, id);
    SnapTracks(ms, id);
    hide Fold, Track, SnapEntries;
  }

  lemma SplicedMatches(v: Plain, a: seq<Entry>, b: seq<Entry>, ms: seq<Message>, now: Time, before: set<string>,
                       behind: set<string>, since: set<string>, touched: set<string>, m: Message)
    requires Logged(v, Fold(START, a + b).live, now, behind) && NewIds(ms, {}) && m in ms && m in ContentsOf(v).All()
    requires Since(b, before, behind, since, touched)
    ensures var spliced := Fold(START, SnapEntries(ms) + b).live; m.id in spliced && Matches(spliced[m.id], m, since)
  {
    SplicedIs(a, b, ms, m.id);
    assert m.id in Fold(START, a + b).live && Matches(Fold(START, a + b).live[m.id], m, behind);
    hide Logged, Fold, Track, SnapEntries, ContentsOf, Matches, Since;
    HeldSpliced(Track(None, a, m.id), b, m, before, behind, since, touched);
  }

  lemma SplicedRest(a: seq<Entry>, b: seq<Entry>, ms: seq<Message>, id: string)
    requires NewIds(ms, {}) && forall m | m in ms :: m.id != id
    ensures var (whole, spliced) := (Fold(START, a + b).live, Fold(START, SnapEntries(ms) + b).live);
            id in spliced ==> id in whole && spliced[id] == whole[id]
  {
    SplicedIs(a, b, ms, id);
    FromNothing(Track(None, a, id), b, id);
    hide Fold, Track, SnapEntries;
  }

  /** The spliced log says of the slot what the whole log did, and knows the attempts the snapshot did. */
  lemma SnapshotLogged(v: Plain, a: seq<Entry>, b: seq<Entry>, ms: seq<Message>, now: Time, before: set<string>,
                       behind: set<string>, since: set<string>, touched: set<string>)
    requires Logged(v, Fold(START, a + b).live, now, behind) && Snapshot(ms, v) && Since(b, before, behind, since, touched)
    ensures Logged(v, Fold(START, SnapEntries(ms) + b).live, now, since)
  {
    var (whole, spliced) := (Fold(START, a + b).live, Fold(START, SnapEntries(ms) + b).live);
    hide Fold, SnapEntries, Matches, Since;
    forall m | m in ContentsOf(v).All()
      ensures m.id in spliced && Matches(spliced[m.id], m, since)
    {
      assert m in SetOf(ms);
      SplicedMatches(v, a, b, ms, now, before, behind, since, touched, m);
    }
    forall id | id in spliced
      ensures spliced[id].id == id && (Holds(v, id) || spliced[id].Expired(now))
    {
      if m :| m in ms && m.id == id {
        assert m in SetOf(ms);
        MatchesId(spliced[m.id], m, since);
      } else {
        SplicedRest(a, b, ms, id);
      }
    }
  }

  lemma MatchesId(x: Message, m: Message, behind: set<string>)
    requires Matches(x, m, behind)
    ensures x.id == m.id
  {
  }

  // ---- What a run leaves behind, and what it writes ----

  /** The messages a run delivers or takes in. */
  ghost function Touched(v: Plain, ops: seq<Op>): set<string>
    decreases |ops|
  {
    if ops == [] || |v.st.ready| != 3 then {}
    else Served(v, ops[0]) + NamesOf(Incoming(ops[0])) + Touched(SlotRuns.Apply(v, ops[0]), ops[1..])
  }

  function CameIn(ops: seq<Op>): set<string>
    decreases |ops|
  {
    if ops == [] then {} else NamesOf(Incoming(ops[0])) + CameIn(ops[1..])
  }

  lemma WrittenIds(v: Plain, op: Op)
    requires |v.st.ready| == 3
    ensures EnqueuedIds(Written(v, op)) == NamesOf(Incoming(op)) && AttemptedIds(Written(v, op)) == Served(v, op)
  {
    hide Take, Ack, Nack, Dead;
    var (w, ms) := (Written(v, op), Incoming(op));
    if op.Submit? || op.Bring? || op.BringDelayed? {
      assert w == Enqueues(ms);
      forall id
        ensures id in EnqueuedIds(w) <==> id in NamesOf(ms)
      {
        if id in EnqueuedIds(w) {
          var e :| e in w && e.Enqueue? && e.p.id == id;
          var i :| 0 <= i < |w| && w[i] == e;
          assert ms[i] in ms;
        }
        if id in NamesOf(ms) {
          var m :| m in ms && m.id == id;
          var i :| 0 <= i < |ms| && ms[i] == m;
          assert w[i] in w;
        }
      }
    } else if op.Dispatch? {
      var d := Take(v, op.p, op.now, op.deadline).1;
      if d.Some? { assert w[0] in w; }
    }
  }

  lemma IdsJoin(a: seq<Entry>, b: seq<Entry>)
    ensures EnqueuedIds(a + b) == EnqueuedIds(a) + EnqueuedIds(b)
    ensures AttemptedIds(a + b) == AttemptedIds(a) + AttemptedIds(b)
  {
    assert forall e :: e in a + b <==> e in a || e in b;
  }

  lemma NoIds()
    ensures EnqueuedIds([]) == {} && AttemptedIds([]) == {}
  {
  }

  lemma FirstTouched(v: Plain, ops: seq<Op>, before: set<string>)
    requires ops != [] && |v.st.ready| == 3
    ensures var (v1, came) := (SlotRuns.Apply(v, ops[0]), NamesOf(Incoming(ops[0])));
            && Touched(v, ops) == Served(v, ops[0]) + came + Touched(v1, ops[1..])
            && CameIn(ops) == came + CameIn(ops[1..])
            && BehindAfter(v, ops, before) == BehindAfter(v1, ops[1..], BehindStep(v, ops[0], before))
            && BehindStep(v, ops[0], before) == (before - Served(v, ops[0]) - came) + BehindStep(v, ops[0], {})
            && BehindStep(v, ops[0], {}) <= came
  {
    hide SlotRuns.Apply, Served;
  }

  lemma NothingTouched(v: Plain, ops: seq<Op>, before: set<string>)
    requires ops == []
    ensures Touched(v, ops) == {} && CameIn(ops) == {} && BehindAfter(v, ops, before) == before
  {
  }

  /** What a run leaves behind is what was left behind before and not touched, and what it leaves behind by itself. */
  lemma {:induction false} BehindSplits(v: Plain, ops: seq<Op>, v': Plain, before: set<string>)
    requires Inv(v) && Runs(v, ops, v')
    ensures BehindAfter(v, ops, before) == (before - Touched(v, ops)) + BehindAfter(v, ops, {})
    ensures BehindAfter(v, ops, {}) <= CameIn(ops) <= Touched(v, ops)
    decreases |ops|
  {
    hide *;
    if ops == [] {
      NothingTouched(v, ops, before);
      NothingTouched(v, ops, {});
    } else {
      FirstRun(v, ops, v');
      StepInv(v, ops[0]);
      var v1 := SlotRuns.Apply(v, ops[0]);
      FirstTouched(v, ops, before);
      FirstTouched(v, ops, {});
      BehindSplits(v1, ops[1..], v', BehindStep(v, ops[0], before));
      BehindSplits(v1, ops[1..], v', BehindStep(v, ops[0], {}));
    }
  }

  /** `id` came in with attempts, and was not delivered since. */
  ghost predicate Unserved(v: Plain, ops: seq<Op>, id: string)
    decreases |ops|
  {
    ops != [] && |v.st.ready| == 3 &&
    var v1 := SlotRuns.Apply(v, ops[0]);
    (id in Tried(Incoming(ops[0])) && id !in Touched(v1, ops[1..])) || Unserved(v1, ops[1..], id)
  }

  /** The log is behind on exactly the messages that came in with attempts and were not delivered since. */
  lemma {:induction false} BehindIff(v: Plain, ops: seq<Op>, v': Plain, id: string)
    requires Inv(v) && Runs(v, ops, v')
    ensures id in BehindAfter(v, ops, {}) <==> Unserved(v, ops, id)
    decreases |ops|
  {
    if ops == [] {
      NothingTouched(v, ops, {});
    } else {
      FirstRun(v, ops, v');
      StepInv(v, ops[0]);
      hide SlotRuns.Apply, Inv, Runs, Touched, Tried, Served;
      var v1 := SlotRuns.Apply(v, ops[0]);
      FirstTouched(v, ops, {});
      assert BehindStep(v, ops[0], {}) == Tried(Incoming(ops[0]));
      BehindSplits(v1, ops[1..], v', Tried(Incoming(ops[0])));
      BehindIff(v1, ops[1..], v', id);
    }
  }

  // ---- The slot goes on, on either log ----

  /** Every id of `es'` is in `es`. */
  ghost predicate Within(es': seq<Entry>, es: seq<Entry>) {
    forall i | 0 <= i < |es'| :: Mentions(es, IdOf(es'[i]))
  }

  lemma WithinMore(es': seq<Entry>, es: seq<Entry>, w: seq<Entry>)
    requires Within(es', es)
    ensures Within(es' + w, es + w)
  {
    forall i | 0 <= i < |es' + w|
      ensures Mentions(es + w, IdOf((es' + w)[i]))
    {
      if i < |es'| {
        MentionsMore(es, w, IdOf(es'[i]));
      } else {
        assert (es + w)[|es| + (i - |es'|)] == w[i - |es'|] == (es' + w)[i];
      }
    }
  }

  lemma LoggableWithin(op: Op, es': seq<Entry>, es: seq<Entry>, now: Time)
    requires Loggable(op, es, now) && Within(es', es)
    ensures Loggable(op, es', now)
  {
    forall m, i | m in Incoming(op) && 0 <= i < |es'|
      ensures IdOf(es'[i]) != m.id
    {
      assert Mentions(es, IdOf(es'[i]));
    }
  }

  /** A run that could write on `es` writes the same on `es'`. */
  lemma {:induction false} SameWritten(v: Plain, es: seq<Entry>, es': seq<Entry>, ops: seq<Op>, v': Plain, now: Time)
    returns (w: seq<Entry>)
    requires Inv(v) && Runs(v, ops, v') && LoggableRun(v, es, ops, now) && Within(es', es)
    ensures LoggableRun(v, es', ops, now) && LogAfter(v, es, ops) == es + w && LogAfter(v, es', ops) == es' + w
    ensures EnqueuedIds(w) == CameIn(ops) && AttemptedIds(w) <= Touched(v, ops)
    decreases |ops|
  {
    hide *;
    if ops == [] {
      w := [];
      NothingLogged(v, es, ops, v', {});
      NothingLogged(v, es', ops, v', {});
      NothingLoggable(v, es', ops, now);
      NothingTouched(v, ops, {});
      NoIds();
      assert es + [] == es && es' + [] == es';
    } else {
      FirstLogged(v, es, ops, v', now);
      var (v1, w1) := (SlotRuns.Apply(v, ops[0]), Written(v, ops[0]));
      StepInv(v, ops[0]);
      WithinMore(es', es, w1);
      var w2 := SameWritten(v1, es + w1, es' + w1, ops[1..], v', now);
      LoggableWithin(ops[0], es', es, now);
      MoreLoggable(v, es', ops, v', now);
      w := w1 + w2;
      WrittenIds(v, ops[0]);
      IdsJoin(w1, w2);
      FirstTouched(v, ops, {});
      Glue(es, w1, w2);
      Glue(es', w1, w2);
    }
  }

  lemma NothingLoggable(v: Plain, es: seq<Entry>, ops: seq<Op>, now: Time)
    requires ops == []
    ensures LoggableRun(v, es, ops, now)
  {
  }

  lemma MoreLoggable(v: Plain, es: seq<Entry>, ops: seq<Op>, v': Plain, now: Time)
    requires ops != [] && |v.st.ready| == 3 && Loggable(ops[0], es, now)
    requires LoggableRun(SlotRuns.Apply(v, ops[0]), es + Written(v, ops[0]), ops[1..], now)
    ensures LoggableRun(v, es, ops, now)
    ensures LogAfter(v, es, ops) == LogAfter(SlotRuns.Apply(v, ops[0]), es + Written(v, ops[0]), ops[1..])
  {
    hide Loggable, Written, SlotRuns.Apply;
  }

  lemma {:induction false} SnapMentions(ms: seq<Message>, i: nat)
    requires i < |SnapEntries(ms)|
    ensures exists m :: m in ms && m.id == IdOf(SnapEntries(ms)[i])
    decreases |ms|
  {
    var (front, last) := (ms[..|ms| - 1], ms[|ms| - 1]);
    if i < |SnapEntries(front)| {
      SnapMentions(front, i);
    } else {
      assert last in ms;
    }
  }

  /** The spliced log mentions no id the whole log does not. */
  lemma SplicedWithin(v: Plain, a: seq<Entry>, b: seq<Entry>, ms: seq<Message>, now: Time, behind: set<string>)
    requires Logged(v, Fold(START, a + b).live, now, behind) && Snapshot(ms, v)
    ensures Within(SnapEntries(ms) + b, a + b)
  {
    var es := SnapEntries(ms) + b;
    forall i | 0 <= i < |es|
      ensures Mentions(a + b, IdOf(es[i]))
    {
      if i < |SnapEntries(ms)| {
        SnapMentions(ms, i);
        var m :| m in ms && m.id == IdOf(SnapEntries(ms)[i]);
        assert m in SetOf(ms);
        LiveIsMentioned(a + b, m.id);
      } else {
        assert (a + b)[|a| + (i - |SnapEntries(ms)|)] == es[i];
      }
    }
  }

  lemma LiveIsMentioned(es: seq<Entry>, id: string)
    requires id in Fold(START, es).live
    ensures Mentions(es, id)
  {
    hide Fold;
    if !Mentions(es, id) { UnknownIsOut(es, id); }
  }
}
