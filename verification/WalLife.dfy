/** A slot and its log through everything that happens to them: steps, compactions and restarts, in any number. */
module WalLife {
  import opened Messages
  import opened Seqs
  import opened PlainSlot
  import opened PlainContents
  import opened SlotRuns
  import opened SlotTransfer
  import opened QueueTally
  import opened WalReplay
  import opened WalCompact
  import opened WalEngine
  import opened WalSnapshot

  /**
   * Steps of the slot; or a compaction: marks, steps, the snapshot, more steps, and then the splice; or a restart: what the
   * replay lists, brought into an empty slot by `ops`, while the log stays.
   */
  datatype Spell =
    | Work(ops: seq<Op>, end: Plain)
    | Compaction(ops: seq<Op>, at: Plain, ms: seq<Message>, more: seq<Op>, end: Plain)
    | Restart(ops: seq<Op>, end: Plain, later: Time)

  ghost predicate Rebuilt(empty: Plain, es: seq<Entry>, ops: seq<Op>, end: Plain, later: Time) {
    Runs(empty, ops, end) && Absorbed(empty, end, SortBySeq(Listing(Fold(START, es))), later)
  }

  ghost predicate Lives(v: Plain, es: seq<Entry>, sp: Spell, now: Time) {
    match sp
    case Work(ops, end) => Runs(v, ops, end) && LoggableRun(v, es, ops, now)
    case Compaction(ops, at, ms, more, end) =>
      && Runs(v, ops, at) && LoggableRun(v, es, ops, now) && Snapshot(ms, at)
      && Runs(at, more, end) && LoggableRun(at, LogAfter(v, es, ops), more, now)
    case Restart(ops, end, later) => Rebuilt(PlainSlot.EMPTY, es, ops, end, later)
  }

  /** What is in the log afterwards: a compaction keeps the snapshot's records, and what was written since the marks. */
  ghost function LogOf(v: Plain, es: seq<Entry>, sp: Spell): seq<Entry> {
    match sp
    case Work(ops, _) => LogAfter(v, es, ops)
    case Compaction(ops, at, ms, more, _) => SnapEntries(ms) + From(LogAfter(at, LogAfter(v, es, ops), more), |es|)
    case Restart(_, _, _) => es
  }

  function From(es: seq<Entry>, mark: nat): seq<Entry> {
    if |es| <= mark then [] else es[mark..]
  }

  /**
   * The ids whose attempts the log does not know afterwards: a snapshot carries attempts, so only what arrived since the
   * marks can be behind; a rebuilt slot has what the log says.
   */
  ghost function BehindOf(v: Plain, sp: Spell, behind: set<string>): set<string> {
    match sp
    case Work(ops, _) => BehindAfter(v, ops, behind)
    case Compaction(ops, at, _, more, _) => BehindAfter(at, more, BehindAfter(v, ops, {}))
    case Restart(_, _, _) => {}
  }

  // ---- The log stays in step ----

  lemma BeforeSplice(v: Plain, es: seq<Entry>, sp: Spell, now: Time, behind: set<string>) returns (b: seq<Entry>, w: seq<Entry>)
    requires sp.Compaction? && Inv(v) && Logged(v, Fold(START, es).live, now, behind) && Lives(v, es, sp, now)
    ensures Inv(sp.at) && Logged(sp.at, Fold(START, es + b).live, now, BehindAfter(v, sp.ops, behind))
    ensures LogAfter(v, es, sp.ops) == es + b && LogAfter(sp.at, es + b, sp.more) == es + b + w
    ensures EnqueuedIds(b) == CameIn(sp.ops) && EnqueuedIds(w) == CameIn(sp.more)
    ensures Since(b, behind, BehindAfter(v, sp.ops, behind), BehindAfter(v, sp.ops, {}), Touched(v, sp.ops))
    ensures LoggableRun(sp.at, SnapEntries(sp.ms) + b, sp.more, now)
    ensures LogAfter(sp.at, SnapEntries(sp.ms) + b, sp.more) == SnapEntries(sp.ms) + b + w
    ensures LogOf(v, es, sp) == SnapEntries(sp.ms) + b + w
  {
    CompactionParts(v, es, sp, now);
    hide *;
    WithinSelf(es);
    b := SameWritten(v, es, es, sp.ops, sp.at, now);
    RunLogged(v, es, sp.ops, sp.at, now, behind);
    RunsInv(v, sp.ops, sp.at);
    BehindSplits(v, sp.ops, sp.at, behind);
    SinceIs(b, behind, BehindAfter(v, sp.ops, behind), BehindAfter(v, sp.ops, {}), Touched(v, sp.ops));
    SplicedWithin(sp.at, es, b, sp.ms, now, BehindAfter(v, sp.ops, behind));
    w := SameWritten(sp.at, es + b, SnapEntries(sp.ms) + b, sp.more, sp.end, now);
    SplicedLog(v, es, sp, b, w);
  }

  lemma CompactionParts(v: Plain, es: seq<Entry>, sp: Spell, now: Time)
    requires sp.Compaction? && Lives(v, es, sp, now)
    ensures Runs(v, sp.ops, sp.at) && LoggableRun(v, es, sp.ops, now) && Snapshot(sp.ms, sp.at)
    ensures Runs(sp.at, sp.more, sp.end) && LoggableRun(sp.at, LogAfter(v, es, sp.ops), sp.more, now)
  {
    hide Runs, LoggableRun, Snapshot, LogAfter;
  }

  lemma SinceIs(b: seq<Entry>, before: set<string>, behind: set<string>, since: set<string>, touched: set<string>)
    requires since <= EnqueuedIds(b) <= touched && AttemptedIds(b) <= touched && behind == (before - touched) + since
    ensures Since(b, before, behind, since, touched)
  {
  }

  lemma SplicedLog(v: Plain, es: seq<Entry>, sp: Spell, b: seq<Entry>, w: seq<Entry>)
    requires sp.Compaction? && LogAfter(v, es, sp.ops) == es + b && LogAfter(sp.at, es + b, sp.more) == es + b + w
    ensures LogOf(v, es, sp) == SnapEntries(sp.ms) + b + w
  {
    hide LogAfter, SnapEntries;
    assert From(es + b + w, |es|) == b + w;
    Glue(SnapEntries(sp.ms), b, w);
  }

  lemma WithinSelf(es: seq<Entry>)
    ensures Within(es, es)
  {
    forall i | 0 <= i < |es|
      ensures Mentions(es, IdOf(es[i]))
    {
    }
  }

  /** A compaction with the slot's own snapshot, taken after the marks, keeps the log in step with the slot. */
  lemma CompactionLogged(v: Plain, es: seq<Entry>, sp: Spell, now: Time, behind: set<string>)
    requires sp.Compaction? && Inv(v) && Logged(v, Fold(START, es).live, now, behind) && Lives(v, es, sp, now)
    ensures Inv(sp.end) && Logged(sp.end, Fold(START, LogOf(v, es, sp)).live, now, BehindOf(v, sp, behind))
  {
    CompactionParts(v, es, sp, now);
    assert BehindOf(v, sp, behind) == BehindAfter(sp.at, sp.more, BehindAfter(v, sp.ops, {}));
    hide *;
    var b, w := BeforeSplice(v, es, sp, now, behind);
    var since := BehindAfter(v, sp.ops, {});
    SnapshotLogged(sp.at, es, b, sp.ms, now, behind, BehindAfter(v, sp.ops, behind), since, Touched(v, sp.ops));
    RunLogged(sp.at, SnapEntries(sp.ms) + b, sp.more, sp.end, now, since);
    RunsInv(sp.at, sp.more, sp.end);
  }

  /** A rebuilt slot holds exactly what the log lists, as the log has it. */
  lemma RebuiltLogged(empty: Plain, v: Plain, es: seq<Entry>, ops: seq<Op>, end: Plain, later: Time, now: Time, behind: set<string>)
    requires empty == PlainSlot.EMPTY && Logged(v, Fold(START, es).live, now, behind) && Rebuilt(empty, es, ops, end, later)
    ensures Inv(end) && Logged(end, Fold(START, es).live, now, {})
    ensures ContentsOf(end).All() == SetOf(Listing(Fold(START, es)))
  {
    hide *;
    EmptyLogged(empty, now);
    RebuiltMeans(empty, es, ops, end, later);
    RunsInv(empty, ops, end);
    var msgs := Listing(Fold(START, es));
    ListingIsLive(es);
    SortKeeps(msgs);
    AbsorbedContents(empty, end, SortBySeq(msgs), later);
    NothingHeld(empty);
    JustLogged(v, end, Fold(START, es).live, msgs, now, behind);
  }

  lemma RebuiltMeans(empty: Plain, es: seq<Entry>, ops: seq<Op>, end: Plain, later: Time)
    requires Rebuilt(empty, es, ops, end, later)
    ensures Runs(empty, ops, end) && Absorbed(empty, end, SortBySeq(Listing(Fold(START, es))), later)
  {
    hide Runs, Absorbed;
  }

  lemma JustLogged(v: Plain, end: Plain, live: map<string, Message>, msgs: seq<Message>, now: Time, behind: set<string>)
    requires Logged(v, live, now, behind) && ContentsOf(end).All() == SetOf(msgs)
    requires forall m :: m in msgs <==> m.id in live && live[m.id] == m
    ensures Logged(end, live, now, {})
  {
    hide ContentsOf;
    forall id | id in live
      ensures Holds(end, id)
    {
      assert live[id] in msgs && live[id] in ContentsOf(end).All();
    }
  }

  lemma SpellLogged(v: Plain, es: seq<Entry>, sp: Spell, now: Time, behind: set<string>)
    requires Inv(v) && Logged(v, Fold(START, es).live, now, behind) && Lives(v, es, sp, now)
    ensures Inv(sp.end) && Logged(sp.end, Fold(START, LogOf(v, es, sp)).live, now, BehindOf(v, sp, behind))
  {
    hide Inv, Logged, Fold, Runs, LoggableRun, LogAfter, BehindAfter, Rebuilt;
    match sp
    case Work(ops, end) =>
      RunLogged(v, es, ops, end, now, behind);
      RunsInv(v, ops, end);
    case Compaction(_, _, _, _, _) => CompactionLogged(v, es, sp, now, behind);
    case Restart(ops, end, later) => RebuiltLogged(PlainSlot.EMPTY, v, es, ops, end, later, now, behind);
  }

  ghost predicate Life(v: Plain, es: seq<Entry>, sps: seq<Spell>, v': Plain, es': seq<Entry>, now: Time)
    decreases |sps|
  {
    if sps == [] then v' == v && es' == es
    else Lives(v, es, sps[0], now) && Life(sps[0].end, LogOf(v, es, sps[0]), sps[1..], v', es', now)
  }

  ghost function LeftBehind(v: Plain, sps: seq<Spell>, behind: set<string>): set<string>
    decreases |sps|
  {
    if sps == [] then behind else LeftBehind(sps[0].end, sps[1..], BehindOf(v, sps[0], behind))
  }

  lemma {:induction false} LifeLogged(v: Plain, es: seq<Entry>, sps: seq<Spell>, v': Plain, es': seq<Entry>, now: Time,
                                      behind: set<string>)
    requires Inv(v) && Logged(v, Fold(START, es).live, now, behind) && Life(v, es, sps, v', es', now)
    ensures Inv(v') && Logged(v', Fold(START, es').live, now, LeftBehind(v, sps, behind))
    decreases |sps|
  {
    hide *;
    if sps == [] {
      NoSpell(v, es, sps, v', es', now, behind);
    } else {
      FirstSpell(v, es, sps, v', es', now, behind);
      SpellLogged(v, es, sps[0], now, behind);
      LifeLogged(sps[0].end, LogOf(v, es, sps[0]), sps[1..], v', es', now, BehindOf(v, sps[0], behind));
    }
  }

  lemma NoSpell(v: Plain, es: seq<Entry>, sps: seq<Spell>, v': Plain, es': seq<Entry>, now: Time, behind: set<string>)
    requires sps == [] && Life(v, es, sps, v', es', now)
    ensures v' == v && es' == es && LeftBehind(v, sps, behind) == behind
  {
  }

  lemma FirstSpell(v: Plain, es: seq<Entry>, sps: seq<Spell>, v': Plain, es': seq<Entry>, now: Time, behind: set<string>)
    requires sps != [] && Life(v, es, sps, v', es', now)
    ensures Lives(v, es, sps[0], now) && Life(sps[0].end, LogOf(v, es, sps[0]), sps[1..], v', es', now)
    ensures LeftBehind(v, sps, behind) == LeftBehind(sps[0].end, sps[1..], BehindOf(v, sps[0], behind))
  {
    hide Lives, LogOf, BehindOf;
  }

  /**
   * However often its log was compacted, and however often the slot was rebuilt from it: replaying the log gives back every
   * message the slot holds, as it is but for a delay; with its attempts exactly if the log is not behind on them. Any other
   * message of the replay has expired.
   */
  lemma LifeBringsBack(v0: Plain, sps: seq<Spell>, v: Plain, es: seq<Entry>, now: Time)
    requires v0 == PlainSlot.EMPTY && Life(v0, [], sps, v, es, now)
    ensures forall m | m in ContentsOf(v).All() ::
              exists x :: x in Listing(Fold(START, es)) && Matches(x, m, LeftBehind(v0, sps, {}))
    ensures forall x | x in Listing(Fold(START, es)) :: Holds(v, x.id) || x.Expired(now)
  {
    hide *;
    EmptyLogged(v0, now);
    LifeLogged(v0, [], sps, v, es, now, {});
    ListingIsLive(es);
    ReadLog(v, Fold(START, es).live, Listing(Fold(START, es)), now, LeftBehind(v0, sps, {}));
  }

  // ---- Every restart can absorb what it lists ----

  lemma SpellEndsLast(v: Plain, es: seq<Entry>, sp: Spell, now: Time, behind: set<string>)
    requires Inv(v) && Logged(v, Fold(START, es).live, now, behind) && Lives(v, es, sp, now) && EndsLast(es)
    ensures EndsLast(LogOf(v, es, sp))
  {
    hide Inv, Logged, Fold, Runs, LoggableRun, LogAfter, EndsLast, Rebuilt, SnapEntries, Snapshot;
    match sp
    case Work(ops, end) => RunEndsLast(v, es, ops, end, now);
    case Compaction(ops, at, ms, more, end) =>
      RunEndsLast(v, es, ops, at, now);
      RunsInv(v, ops, at);
      var b, w := BeforeSplice(v, es, sp, now, behind);
      RunEndsLast(at, es + b, more, end, now);
      Glue(es, b, w);
      SplicedEndsLast(es, b + w, ms);
      Glue(SnapEntries(ms), b, w);
    case Restart(_, _, _) =>
  }

  lemma {:induction false} SnapEndsNothing(ms: seq<Message>)
    ensures forall i | 0 <= i < |SnapEntries(ms)| :: !SnapEntries(ms)[i].Terminal?
  {
    if ms != [] { SnapEndsNothing(ms[..|ms| - 1]); }
  }

  lemma SplicedEndsLast(a: seq<Entry>, b: seq<Entry>, ms: seq<Message>)
    requires EndsLast(a + b)
    ensures EndsLast(SnapEntries(ms) + b)
  {
    SnapEndsNothing(ms);
    var es := SnapEntries(ms) + b;
    var n := |SnapEntries(ms)|;
    forall i, j | 0 <= i < j < |es| && es[i].Terminal? && es[j].Enqueue?
      ensures es[i].id != es[j].p.id
    {
      assert i >= n;
      assert (a + b)[|a| + (i - n)] == es[i] && (a + b)[|a| + (j - n)] == es[j];
    }
  }

  lemma {:induction false} LifeEndsLast(v: Plain, es: seq<Entry>, sps: seq<Spell>, v': Plain, es': seq<Entry>, now: Time,
                                        behind: set<string>)
    requires Inv(v) && Logged(v, Fold(START, es).live, now, behind) && Life(v, es, sps, v', es', now) && EndsLast(es)
    ensures EndsLast(es')
    decreases |sps|
  {
    hide *;
    if sps == [] {
      NoSpell(v, es, sps, v', es', now, behind);
    } else {
      FirstSpell(v, es, sps, v', es', now, behind);
      SpellLogged(v, es, sps[0], now, behind);
      SpellEndsLast(v, es, sps[0], now, behind);
      LifeEndsLast(sps[0].end, LogOf(v, es, sps[0]), sps[1..], v', es', now, BehindOf(v, sps[0], behind));
    }
  }

  /** Whatever happened before, what a restart lists can be absorbed: no message is in it twice. */
  lemma AlwaysFresh(v0: Plain, sps: seq<Spell>, v: Plain, es: seq<Entry>, now: Time)
    requires v0 == PlainSlot.EMPTY && Life(v0, [], sps, v, es, now)
    ensures NewIds(Listing(Fold(START, es)), {})
  {
    hide *;
    EmptyLogged(v0, now);
    NothingEnds();
    LifeEndsLast(v0, [], sps, v, es, now, {});
    ListedOnce(es);
  }

  lemma NothingEnds()
    ensures EndsLast([])
  {
  }

  // ---- What ended stays ended ----

  ghost predicate Out(es: seq<Entry>, id: string) {
    id !in Fold(START, es).live
  }

  ghost predicate EndedDuring(v: Plain, sp: Spell, id: string) {
    match sp
    case Work(ops, _) => EndedIn(v, ops, id)
    case Compaction(ops, at, _, more, _) => EndedIn(v, ops, id) || EndedIn(at, more, id)
    case Restart(_, _, _) => false
  }

  /** The ids that come in, from producers or from other owners. */
  function CameDuring(sp: Spell): set<string> {
    match sp
    case Work(ops, _) => CameIn(ops)
    case Compaction(ops, _, _, more, _) => CameIn(ops) + CameIn(more)
    case Restart(_, _, _) => {}
  }

  function CameEver(sps: seq<Spell>): set<string>
    decreases |sps|
  {
    if sps == [] then {} else CameDuring(sps[0]) + CameEver(sps[1..])
  }

  /** A message that is out stays out while nothing enqueues it. */
  lemma StaysOut(es: seq<Entry>, w: seq<Entry>, id: string)
    requires Out(es, id) && id !in EnqueuedIds(w)
    ensures Out(es + w, id)
  {
    FoldTracks(START, es, id);
    FoldTracks(START, es + w, id);
    TrackAppend(None, es, w, id);
    StaysNone(w, id);
    hide Fold, Track, EnqueuedIds;
  }

  lemma {:induction false} StaysNone(es: seq<Entry>, id: string)
    requires id !in EnqueuedIds(es)
    ensures Track(None, es, id) == None
  {
    if es != [] {
      EntryIn(es, |es| - 1);
      assert EnqueuedIds(es[..|es| - 1]) <= EnqueuedIds(es);
      StaysNone(es[..|es| - 1], id);
    }
  }

  /** A splice brings nothing back that was out of the whole log. */
  lemma SpliceKeepsOut(at: Plain, a: seq<Entry>, b: seq<Entry>, w: seq<Entry>, ms: seq<Message>, now: Time, behind: set<string>,
                       id: string)
    requires Logged(at, Fold(START, a + b).live, now, behind) && Snapshot(ms, at) && Out(a + b + w, id)
    ensures Out(SnapEntries(ms) + b + w, id)
  {
    hide Fold, Track, SnapEntries, Matches, ContentsOf, Settles;
    Glue(a, b, w);
    Glue(SnapEntries(ms), b, w);
    SplicedIs(a, b + w, ms, id);
    SplicedIs(a, b, ms, id);
    var p := Track(None, a, id);
    Forgets(p, Track(None, SnapEntries(ms), id), b + w, id);
    if m :| m in ms && m.id == id {
      Forgets(p, Some(m), b + w, id);
      Forgets(p, Some(m), b, id);
      TrackAppend(p, b, w, id);
      TrackAppend(Some(m), b, w, id);
      assert m in SetOf(ms);
      assert m.id in Fold(START, a + b).live;
      if Settles(b, id) { SettlesLess(b, w, id); }
    } else {
      FromNothing(p, b + w, id);
    }
  }

  lemma SettlesLess(b: seq<Entry>, w: seq<Entry>, id: string)
    requires Settles(b, id)
    ensures Settles(b + w, id)
  {
    var i :| 0 <= i < |b| && !b[i].Attempt? && IdOf(b[i]) == id;
    assert (b + w)[i] == b[i];
  }

  lemma SpellKeepsOut(v: Plain, es: seq<Entry>, sp: Spell, now: Time, behind: set<string>, id: string)
    requires Inv(v) && Logged(v, Fold(START, es).live, now, behind) && Lives(v, es, sp, now)
    requires Out(es, id) && id !in CameDuring(sp)
    ensures Out(LogOf(v, es, sp), id)
  {
    hide Inv, Logged, Fold, Runs, LoggableRun, LogAfter, Rebuilt, SnapEntries, Snapshot, CameIn, EnqueuedIds, Out, Since;
    match sp
    case Work(ops, end) =>
      WithinSelf(es);
      var w := SameWritten(v, es, es, ops, end, now);
      StaysOut(es, w, id);
    case Compaction(ops, at, ms, more, end) =>
      var b, w := BeforeSplice(v, es, sp, now, behind);
      StaysOut(es, b, id);
      StaysOut(es + b, w, id);
      SpliceKeepsOut(at, es, b, w, ms, now, BehindAfter(v, ops, behind), id);
    case Restart(_, _, _) =>
  }

  lemma SpellEnds(v: Plain, es: seq<Entry>, sp: Spell, now: Time, behind: set<string>, id: string)
    requires Inv(v) && Logged(v, Fold(START, es).live, now, behind) && Lives(v, es, sp, now) && EndedDuring(v, sp, id)
    ensures Out(LogOf(v, es, sp), id)
  {
    hide Inv, Logged, Fold, Runs, LoggableRun, LogAfter, Rebuilt, SnapEntries, Snapshot, CameIn, EnqueuedIds, Since, EndedIn,
      Mentions, NoEnqueue;
    match sp
    case Work(ops, end) => EndedIsOut(v, es, ops, end, now, id);
    case Compaction(ops, at, ms, more, end) =>
      var b, w := BeforeSplice(v, es, sp, now, behind);
      if EndedIn(v, ops, id) {
        EndedIsOut(v, es, ops, at, now, id);
        var rest := NotAgain(at, es + b, more, end, now, id);
        SameRest(es + b, w, rest);
        NeverEnqueued(w, id);
        StaysOut(es + b, w, id);
      } else {
        EndedIsOut(at, es + b, more, end, now, id);
      }
      SpliceKeepsOut(at, es, b, w, ms, now, BehindAfter(v, ops, behind), id);
  }

  lemma SameRest(a: seq<Entry>, b: seq<Entry>, c: seq<Entry>)
    requires a + b == a + c
    ensures b == c
  {
    assert b == (a + b)[|a|..] && c == (a + c)[|a|..];
  }

  lemma NeverEnqueued(es: seq<Entry>, id: string)
    requires NoEnqueue(es, id)
    ensures id !in EnqueuedIds(es)
  {
  }

  lemma {:induction false} LifeKeepsOut(v: Plain, es: seq<Entry>, sps: seq<Spell>, v': Plain, es': seq<Entry>, now: Time,
                                        behind: set<string>, id: string)
    requires Inv(v) && Logged(v, Fold(START, es).live, now, behind) && Life(v, es, sps, v', es', now)
    requires Out(es, id) && id !in CameEver(sps)
    ensures Out(es', id)
    decreases |sps|
  {
    hide *;
    if sps == [] {
      NoSpell(v, es, sps, v', es', now, behind);
    } else {
      FirstSpell(v, es, sps, v', es', now, behind);
      FirstCame(sps);
      SpellLogged(v, es, sps[0], now, behind);
      SpellKeepsOut(v, es, sps[0], now, behind, id);
      LifeKeepsOut(sps[0].end, LogOf(v, es, sps[0]), sps[1..], v', es', now, BehindOf(v, sps[0], behind), id);
    }
  }

  lemma FirstCame(sps: seq<Spell>)
    requires sps != []
    ensures CameEver(sps) == CameDuring(sps[0]) + CameEver(sps[1..])
  {
  }

  /**
   * What was acked or dead-lettered at any time is never held or listed again, through any number of steps, compactions and
   * restarts, as long as no new message is given its id.
   */
  lemma EndedForGood(v0: Plain, before: seq<Spell>, v1: Plain, es1: seq<Entry>, sp: Spell, after: seq<Spell>, v: Plain,
                     es: seq<Entry>, now: Time, id: string)
    requires v0 == PlainSlot.EMPTY && Life(v0, [], before, v1, es1, now)
    requires Lives(v1, es1, sp, now) && EndedDuring(v1, sp, id)
    requires Life(sp.end, LogOf(v1, es1, sp), after, v, es, now) && id !in CameEver(after)
    ensures !Holds(v, id) && forall x | x in Listing(Fold(START, es)) :: x.id != id
  {
    hide *;
    EmptyLogged(v0, now);
    LifeLogged(v0, [], before, v1, es1, now, {});
    var behind := LeftBehind(v0, before, {});
    SpellLogged(v1, es1, sp, now, behind);
    SpellEnds(v1, es1, sp, now, behind, id);
    LifeLogged(sp.end, LogOf(v1, es1, sp), after, v, es, now, BehindOf(v1, sp, behind));
    LifeKeepsOut(sp.end, LogOf(v1, es1, sp), after, v, es, now, BehindOf(v1, sp, behind), id);
    ListingIsLive(es);
    OutMeans(v, es, now, LeftBehind(sp.end, after, BehindOf(v1, sp, behind)), id);
    NotListed(Listing(Fold(START, es)), Fold(START, es).live, id);
  }

  lemma OutMeans(v: Plain, es: seq<Entry>, now: Time, behind: set<string>, id: string)
    requires Out(es, id) && Logged(v, Fold(START, es).live, now, behind)
    ensures id !in Fold(START, es).live && !Holds(v, id)
  {
    hide Fold, ContentsOf, Matches;
  }
}
