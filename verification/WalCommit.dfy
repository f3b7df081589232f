/**
 * Group commit: appenders that write under the file's lock and wait for a flush that covers them. The lock is let go while
 * a flush runs, so every stretch under the lock is one step and any interleaving of the steps is a run.
 */
module WalCommit {

  /** Where an appender is. `at` is the number of its record; one that only flushes waits for the last record written. */
  datatype Appender =
    | Idle
    | Asking(at: nat)
    | Waiting(at: nat, woken: bool)
    | Flushing(at: nat, target: nat)
    | Done(at: nat, ok: bool)

  /**
   * The file's counters, the appenders, and every flush that succeeded, as the number of records written when it began.
   */
  datatype File = File(
    written: nat,
    synced: nat,
    syncing: bool,
    failed: bool,
    apps: seq<Appender>,
    flushes: seq<nat>)

  datatype Step =
    | Append(i: nat)
    | FlushAll(i: nat)
    | Look(i: nat)
    | FlushEnds(i: nat, ok: bool)
    | Return(i: nat)

  predicate Enabled(f: File, s: Step) {
    match s
    case Append(i) => i < |f.apps| && f.apps[i].Idle?
    case FlushAll(i) => i < |f.apps| && f.apps[i].Idle?
    case Look(i) => i < |f.apps| && (f.apps[i].Asking? || (f.apps[i].Waiting? && f.apps[i].woken))
    case FlushEnds(i, _) => i < |f.apps| && f.apps[i].Flushing?
    case Return(i) => i < |f.apps| && f.apps[i].Done?
  }

  function Set(f: File, i: nat, a: Appender): File
    requires i < |f.apps|
  {
    f.(apps := f.apps[i := a])
  }

  function Wake(a: Appender): Appender {
    if a.Waiting? then Waiting(a.at, true) else a
  }

  function Woken(apps: seq<Appender>): (r: seq<Appender>)
    ensures |r| == |apps| && forall i :: 0 <= i < |apps| ==> r[i] == Wake(apps[i])
  {
    seq(|apps|, i requires 0 <= i < |apps| => Wake(apps[i]))
  }

  function Next(f: File, s: Step): File
    requires Enabled(f, s)
  {
    match s
    case Append(i) => Set(f.(written := f.written + 1), i, Asking(f.written + 1))
    case FlushAll(i) => Set(f, i, Asking(f.written))
    case Look(i) =>
      var at := f.apps[i].at;
      if f.synced >= at then Set(f, i, Done(at, !f.failed))
      else if f.syncing then Set(f, i, Waiting(at, false))
      else Set(f.(syncing := true), i, Flushing(at, f.written))
    case FlushEnds(i, ok) =>
      var (at, target) := (f.apps[i].at, f.apps[i].target);
      File(f.written, if ok && target > f.synced then target else f.synced, false, !ok,
           Woken(f.apps)[i := Done(at, ok)], if ok then f.flushes + [target] else f.flushes)
    case Return(i) => Set(f, i, Idle)
  }

  // ---- The invariant ----

  /** A flush that succeeded began when record `n` had been written. */
  ghost predicate Covered(f: File, n: nat) {
    n == 0 || exists k :: 0 <= k < |f.flushes| && n <= f.flushes[k]
  }

  ghost predicate AppOk(f: File, a: Appender) {
    match a
    case Idle => true
    case Asking(at) => at <= f.written
    case Waiting(at, woken) => at <= f.written && (woken || f.syncing)
    case Flushing(at, target) => at <= target <= f.written && f.syncing
    case Done(at, ok) => ok ==> Covered(f, at)
  }

  ghost predicate Inv(f: File) {
    && f.synced <= f.written && Covered(f, f.synced)
    && (forall i | 0 <= i < |f.apps| :: AppOk(f, f.apps[i]))
    && (f.syncing ==> exists i :: 0 <= i < |f.apps| && f.apps[i].Flushing?)
    && (forall i, j | 0 <= i < |f.apps| && 0 <= j < |f.apps| && f.apps[i].Flushing? && f.apps[j].Flushing? :: i == j)
    && (forall k | 0 <= k < |f.flushes| :: f.flushes[k] <= f.written)
  }

  lemma CoveredBelow(f: File, n: nat, m: nat)
    requires Covered(f, m) && n <= m
    ensures Covered(f, n)
  {
    if n > 0 {
      var k :| 0 <= k < |f.flushes| && m <= f.flushes[k];
      assert n <= f.flushes[k];
    }
  }

  lemma StillCovered(f: File, f': File, n: nat)
    requires Covered(f, n) && |f.flushes| <= |f'.flushes| && f'.flushes[..|f.flushes|] == f.flushes
    ensures Covered(f', n)
  {
    if n > 0 {
      var k :| 0 <= k < |f.flushes| && n <= f.flushes[k];
      assert f'.flushes[k] == f.flushes[k];
    }
  }

  /** One appender moves on; the others still stand where they may. */
  lemma OneMoves(f: File, f': File, i: nat)
    requires Inv(f) && i < |f.apps| == |f'.apps| && f'.flushes == f.flushes
    requires f.written <= f'.written && f'.synced == f.synced
    requires forall j | 0 <= j < |f.apps| && j != i :: f'.apps[j] == f.apps[j]
    requires AppOk(f', f'.apps[i])
    requires if f'.apps[i].Flushing? then !f.syncing && f'.syncing else f'.syncing == f.syncing && !f.apps[i].Flushing?
    ensures Inv(f')
  {
    StillCovered(f, f', f.synced);
    assert !f.syncing ==> forall j | 0 <= j < |f.apps| :: !f.apps[j].Flushing? by {
      assert forall j | 0 <= j < |f.apps| :: AppOk(f, f.apps[j]);
    }
    forall j | 0 <= j < |f'.apps|
      ensures AppOk(f', f'.apps[j])
    {
      if j != i {
        assert AppOk(f, f.apps[j]);
        if f.apps[j].Done? && f.apps[j].ok { StillCovered(f, f', f.apps[j].at); }
      }
    }
    if f'.syncing {
      if f'.apps[i].Flushing? {
      } else {
        var j :| 0 <= j < |f.apps| && f.apps[j].Flushing?;
        assert f'.apps[j].Flushing?;
      }
    }
  }

  lemma FlushKeeps(f: File, i: nat, ok: bool)
    requires Inv(f) && Enabled(f, FlushEnds(i, ok))
    ensures Inv(Next(f, FlushEnds(i, ok)))
  {
    var f' := Next(f, FlushEnds(i, ok));
    var (at, target) := (f.apps[i].at, f.apps[i].target);
    assert AppOk(f, f.apps[i]);
    StillCovered(f, f', f.synced);
    if ok {
      assert f'.flushes[|f.flushes|] == target;
      assert Covered(f', target);
      CoveredBelow(f', at, target);
    }
    forall j | 0 <= j < |f'.apps|
      ensures AppOk(f', f'.apps[j])
    {
      assert AppOk(f, f.apps[j]);
      if j != i {
        assert !f.apps[j].Flushing?;
        if f.apps[j].Done? && f.apps[j].ok { StillCovered(f, f', f.apps[j].at); }
      }
    }
  }

  lemma StepKeeps(f: File, s: Step)
    requires Inv(f) && Enabled(f, s)
    ensures Inv(Next(f, s))
  {
    var f' := Next(f, s);
    match s
    case Append(i) => OneMoves(f, f', i);
    case FlushAll(i) => OneMoves(f, f', i);
    case Look(i) =>
      assert AppOk(f, f.apps[i]);
      if f.synced >= f.apps[i].at { CoveredBelow(f', f.apps[i].at, f.synced); }
      OneMoves(f, f', i);
    case FlushEnds(i, ok) => FlushKeeps(f, i, ok);
    case Return(i) => OneMoves(f, f', i);
  }

  // ---- Runs ----

  function Opened(n: nat): File {
    File(0, 0, false, false, seq(n, _ => Idle), [])
  }

  ghost predicate Runs(f: File, ss: seq<Step>, f': File)
    decreases |ss|
  {
    if ss == [] then f' == f else Enabled(f, ss[0]) && Runs(Next(f, ss[0]), ss[1..], f')
  }

  lemma {:induction false} RunKeeps(f: File, ss: seq<Step>, f': File)
    requires Inv(f) && Runs(f, ss, f')
    ensures Inv(f')
    decreases |ss|
  {
    if ss != [] {
      StepKeeps(f, ss[0]);
      RunKeeps(Next(f, ss[0]), ss[1..], f');
    }
  }

  /**
   * In every interleaving: what the file calls synced was covered by a flush that succeeded and began after it was written;
   * no two flushes run at once; and an append that returns without an error is covered the same way.
   */
  lemma DurableMeansFlushed(n: nat, ss: seq<Step>, f: File)
    requires Runs(Opened(n), ss, f)
    ensures Covered(f, f.synced) && f.synced <= f.written
    ensures forall i | 0 <= i < |f.apps| && f.apps[i].Done? && f.apps[i].ok :: Covered(f, f.apps[i].at)
    ensures forall i, j | 0 <= i < |f.apps| && 0 <= j < |f.apps| && f.apps[i].Flushing? && f.apps[j].Flushing? :: i == j
    ensures f.syncing <==> exists i :: 0 <= i < |f.apps| && f.apps[i].Flushing?
  {
    RunKeeps(Opened(n), ss, f);
    assert forall i | 0 <= i < |f.apps| :: AppOk(f, f.apps[i]);
  }

  /** Nobody waits for a flush that is not running: a sleeping appender is woken by the one that runs. */
  lemma NoLostWakeup(n: nat, ss: seq<Step>, f: File, i: nat)
    requires Runs(Opened(n), ss, f) && i < |f.apps| && f.apps[i].Waiting? && !f.apps[i].woken
    ensures exists j :: 0 <= j < |f.apps| && Enabled(f, FlushEnds(j, true)) &&
              forall ok | ok in {true, false} :: Enabled(Next(f, FlushEnds(j, ok)), Look(i))
  {
    RunKeeps(Opened(n), ss, f);
    assert AppOk(f, f.apps[i]);
    var j :| 0 <= j < |f.apps| && f.apps[j].Flushing?;
    assert Enabled(f, FlushEnds(j, true));
  }

  // ---- One flush covers many ----

  /** When a flush that succeeds ends, every record written before it began is covered, whoever wrote it. */
  lemma OneFlushCoversAll(f: File, i: nat, j: nat)
    requires Inv(f) && Enabled(f, FlushEnds(i, true)) && j < |f.apps| && j != i
    requires f.apps[j].Waiting? && f.apps[j].at <= f.apps[i].target
    ensures var f1 := Next(f, FlushEnds(i, true));
            Enabled(f1, Look(j)) && Next(f1, Look(j)).apps[j] == Done(f.apps[j].at, true)
  {
  }

  // ---- What an appender is told ----

  /** Whether the last flush to end in a run failed; `was` tells of the time before. */
  function LastFailed(ss: seq<Step>, was: bool): bool {
    if ss == [] then was
    else LastFailed(ss[1..], match ss[0] case FlushEnds(_, ok) => !ok case _ => was)
  }

  lemma {:induction false} FailedIsLast(f: File, ss: seq<Step>, f': File)
    requires Runs(f, ss, f')
    ensures f'.failed == LastFailed(ss, f.failed)
    decreases |ss|
  {
    if ss != [] { FailedIsLast(Next(f, ss[0]), ss[1..], f'); }
  }

  /**
   * An appender that flushed is told how its flush went. One that finds its record covered is told of an error exactly if the
   * last flush that ended before it looked failed, whatever became of its own record.
   */
  lemma ToldIff(n: nat, ss: seq<Step>, f: File, s: Step, i: nat)
    requires Runs(Opened(n), ss, f) && Enabled(f, s) && i < |f.apps| && !f.apps[i].Done? && Next(f, s).apps[i].Done?
    ensures var (at, told) := (f.apps[i].at, Next(f, s).apps[i]);
            && told.at == at
            && if f.apps[i].Flushing? then s == FlushEnds(i, told.ok)
               else s == Look(i) && Covered(f, at) && (told.ok <==> !LastFailed(ss, false))
  {
    RunKeeps(Opened(n), ss, f);
    FailedIsLast(Opened(n), ss, f);
    if s == Look(i) { CoveredBelow(f, f.apps[i].at, f.synced); }
  }

  lemma {:induction false} Then(u: File, ss: seq<Step>, f: File, s: Step)
    requires Runs(u, ss, f) && Enabled(f, s)
    ensures Runs(u, ss + [s], Next(f, s))
    decreases |ss|
  {
    if ss == [] {
      assert ss + [s] == [s] && [s][1..] == [];
    } else {
      Then(Next(u, ss[0]), ss[1..], f, s);
      assert (ss + [s])[1..] == ss[1..] + [s];
    }
  }

  /** 1 appends while 0 flushes, and then 2 flushes both records. */
  lemma BothFlushed() returns (ss: seq<Step>, f: File)
    ensures Runs(Opened(3), ss, f) && f == File(2, 2, false, false, [Idle, Waiting(2, true), Done(2, true)], [1, 2])
  {
    ss, f := [], Opened(3);
    for k := 0 to 9
      invariant Runs(Opened(3), ss, f)
      invariant f == match k
                case 0 => Opened(3)
                case 1 => File(1, 0, false, false, [Asking(1), Idle, Idle], [])
                case 2 => File(1, 0, true, false, [Flushing(1, 1), Idle, Idle], [])
                case 3 => File(2, 0, true, false, [Flushing(1, 1), Asking(2), Idle], [])
                case 4 => File(2, 0, true, false, [Flushing(1, 1), Waiting(2, false), Idle], [])
                case 5 => File(2, 1, false, false, [Done(1, true), Waiting(2, true), Idle], [1])
                case 6 => File(2, 1, false, false, [Idle, Waiting(2, true), Idle], [1])
                case 7 => File(2, 1, false, false, [Idle, Waiting(2, true), Asking(2)], [1])
                case 8 => File(2, 1, true, false, [Idle, Waiting(2, true), Flushing(2, 2)], [1])
                case _ => File(2, 2, false, false, [Idle, Waiting(2, true), Done(2, true)], [1, 2])
    {
      var s := [Append(0), Look(0), Append(1), Look(1), FlushEnds(0, true), Return(0), FlushAll(2), Look(2), FlushEnds(2, true)][k];
      Then(Opened(3), ss, f, s);
      ss, f := ss + [s], Next(f, s);
    }
  }

  /**
   * So a producer can be told that its append failed although a flush covered it: another flush fails between the one that
   * covered it and its look.
   */
  lemma DurableButRefused() returns (ss: seq<Step>, f: File)
    ensures Runs(Opened(3), ss, f) && Covered(f, 2) && |f.apps| == 3 && f.apps[1] == Done(2, false)
  {
    ss, f := BothFlushed();
    for k := 0 to 4
      invariant Runs(Opened(3), ss, f)
      invariant f == match k
                case 0 => File(2, 2, false, false, [Idle, Waiting(2, true), Done(2, true)], [1, 2])
                case 1 => File(3, 2, false, false, [Asking(3), Waiting(2, true), Done(2, true)], [1, 2])
                case 2 => File(3, 2, true, false, [Flushing(3, 3), Waiting(2, true), Done(2, true)], [1, 2])
                case 3 => File(3, 2, false, true, [Done(3, false), Waiting(2, true), Done(2, true)], [1, 2])
                case _ => File(3, 2, false, true, [Done(3, false), Done(2, false), Done(2, true)], [1, 2])
    {
      var s := [Append(0), Look(0), FlushEnds(0, false), Look(1)][k];
      Then(Opened(3), ss, f, s);
      ss, f := ss + [s], Next(f, s);
    }
    assert 2 <= f.flushes[1];
  }
}
