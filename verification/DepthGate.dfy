/**
 * The cap on a queue's depth, with every atomic access a step of its own: any number of producers that claim room, check,
 * insert, count and release, interleaved with consumers and sweeps.
 */
module DepthGate {

  /** How far a producer got. A claim that was released is gone. */
  datatype Phase = Claimed | Passed | Landed | Counted | Turned

  /** `pending` is what the add to `reserved` returned. */
  datatype Claim = Claim(pending: int, phase: Phase)

  /**
   * `held` is the number of messages in the slots, `owed` those removed whose remover has not lowered `depth` yet, and
   * `lost` those that expired where nobody lowers it. Claims stand in the order they were made.
   */
  datatype Gate = Gate(depth: int, reserved: int, held: nat, owed: nat, lost: nat, claims: seq<Claim>)

  const CLOSED := Gate(0, 0, 0, 0, 0, [])

  datatype Step =
    | Reserve
    | Check(i: nat)
    | Insert(i: nat)
    | GiveUp(i: nat)
    | Count(i: nat)
    | Release(i: nat)
    | Remove
    | Credit
    | Expire

  ghost predicate Enabled(g: Gate, s: Step) {
    match s
    case Reserve => true
    case Check(i) => i < |g.claims| && g.claims[i].phase.Claimed?
    case Insert(i) => i < |g.claims| && g.claims[i].phase.Passed?
    case GiveUp(i) => i < |g.claims| && g.claims[i].phase.Passed?
    case Count(i) => i < |g.claims| && g.claims[i].phase.Landed?
    case Release(i) => i < |g.claims| && (g.claims[i].phase.Counted? || g.claims[i].phase.Turned?)
    case Remove => g.held > 0
    case Credit => g.owed > 0
    case Expire => g.held > 0
  }

  function At(g: Gate, i: nat, p: Phase): seq<Claim>
    requires i < |g.claims|
  {
    g.claims[i := g.claims[i].(phase := p)]
  }

  function Without(cs: seq<Claim>, i: nat): seq<Claim>
    requires i < |cs|
  {
    cs[..i] + cs[i + 1..]
  }

  /** One atomic access, of a queue with cap `max`; a cap of zero or less is no cap. */
  function Next(g: Gate, s: Step, max: int): Gate
    requires Enabled(g, s)
  {
    match s
    case Reserve => g.(reserved := g.reserved + 1, claims := g.claims + [Claim(g.reserved + 1, Claimed)])
    case Check(i) =>
      g.(claims := At(g, i, if max > 0 && g.depth + g.claims[i].pending > max then Turned else Passed))
    case Insert(i) => g.(held := g.held + 1, claims := At(g, i, Landed))
    case GiveUp(i) => g.(claims := At(g, i, Turned))
    case Count(i) => g.(depth := g.depth + 1, claims := At(g, i, Counted))
    case Release(i) => g.(reserved := g.reserved - 1, claims := Without(g.claims, i))
    case Remove => g.(held := g.held - 1, owed := g.owed + 1)
    case Credit => g.(owed := g.owed - 1, depth := g.depth - 1)
    case Expire => g.(held := g.held - 1, lost := g.lost + 1)
  }

  // ---- Counting claims ----

  /** Claims not in `depth` yet. */
  function Uncounted(cs: seq<Claim>): nat {
    if cs == [] then 0
    else Uncounted(cs[..|cs| - 1]) + (if cs[|cs| - 1].phase.Counted? then 0 else 1)
  }

  /** Messages inserted that are not in `depth` yet. */
  function Inserted(cs: seq<Claim>): nat {
    if cs == [] then 0
    else Inserted(cs[..|cs| - 1]) + (if cs[|cs| - 1].phase.Landed? then 1 else 0)
  }

  /** Claims not in `depth` yet, up to and with claim `j`. */
  function Upto(cs: seq<Claim>, j: nat): nat
    requires j < |cs|
  {
    Uncounted(cs[..j + 1])
  }

  lemma {:induction false} Update(cs: seq<Claim>, i: nat, c: Claim)
    requires i < |cs|
    ensures var (w, w') := (if cs[i].phase.Counted? then 0 else 1, if c.phase.Counted? then 0 else 1);
            Uncounted(cs[i := c]) == Uncounted(cs) - w + w'
    ensures var (w, w') := (if cs[i].phase.Landed? then 1 else 0, if c.phase.Landed? then 1 else 0);
            Inserted(cs[i := c]) == Inserted(cs) - w + w'
  {
    var n := |cs| - 1;
    if i < n {
      Update(cs[..n], i, c);
      assert cs[i := c][..n] == cs[..n][i := c];
    } else {
      assert cs[i := c][..n] == cs[..n];
    }
  }

  lemma {:induction false} Removed(cs: seq<Claim>, i: nat)
    requires i < |cs|
    ensures Uncounted(Without(cs, i)) == Uncounted(cs) - (if cs[i].phase.Counted? then 0 else 1)
    ensures Inserted(Without(cs, i)) == Inserted(cs) - (if cs[i].phase.Landed? then 1 else 0)
  {
    var n := |cs| - 1;
    if i < n {
      Removed(cs[..n], i);
      assert Without(cs, i)[..n - 1] == Without(cs[..n], i);
    } else {
      assert Without(cs, i) == cs[..n];
    }
  }

  lemma {:induction false} PrefixCounts(cs: seq<Claim>, n: nat)
    requires n <= |cs|
    ensures Uncounted(cs[..n]) <= Uncounted(cs)
    decreases |cs|
  {
    if n < |cs| {
      PrefixCounts(cs[..|cs| - 1], n);
      assert cs[..|cs| - 1][..n] == cs[..n];
    } else {
      assert cs[..n] == cs;
    }
  }

  lemma {:induction false} InsertedUncounted(cs: seq<Claim>)
    ensures Inserted(cs) <= Uncounted(cs)
  {
    if cs != [] { InsertedUncounted(cs[..|cs| - 1]); }
  }

  // ---- The invariant ----

  predicate In(c: Claim) {
    c.phase.Passed? || c.phase.Landed?
  }

  /** What claim `j` was told still covers the claims before it. */
  ghost predicate Covers(g: Gate, j: nat)
    requires j < |g.claims|
  {
    Upto(g.claims, j) <= g.claims[j].pending
  }

  /** A claim that passed fits, together with every uncounted claim before it. */
  ghost predicate Fits(g: Gate, max: int, j: nat)
    requires j < |g.claims|
  {
    In(g.claims[j]) ==> g.depth + Upto(g.claims, j) <= max
  }

  ghost predicate Inv(g: Gate, max: int) {
    && g.reserved == |g.claims|
    && g.depth + Inserted(g.claims) == g.held + g.owed + g.lost
    && g.depth <= max
    && (forall j | 0 <= j < |g.claims| :: Covers(g, j))
    && (forall j | 0 <= j < |g.claims| :: Fits(g, max, j))
  }

  lemma {:induction false} UncountedBound(cs: seq<Claim>)
    ensures Uncounted(cs) <= |cs|
  {
    if cs != [] { UncountedBound(cs[..|cs| - 1]); }
  }

  lemma ReserveKeeps(g: Gate, max: int)
    requires max > 0 && Inv(g, max)
    ensures Inv(Next(g, Reserve, max), max)
  {
    var g' := Next(g, Reserve, max);
    assert g'.claims[..|g.claims|] == g.claims;
    forall j | 0 <= j < |g'.claims|
      ensures Covers(g', j) && Fits(g', max, j)
    {
      if j < |g.claims| {
        assert g'.claims[..j + 1] == g.claims[..j + 1];
        assert Covers(g, j) && Fits(g, max, j);
      } else {
        assert g'.claims[..j + 1] == g'.claims;
        UncountedBound(g'.claims);
      }
    }
  }

  /** The counts up to claim `j` after claim `i` went from one phase to another. */
  lemma UptoUpdate(cs: seq<Claim>, i: nat, c: Claim, j: nat)
    requires i < |cs| && j < |cs|
    ensures var (w, w') := (if cs[i].phase.Counted? then 0 else 1, if c.phase.Counted? then 0 else 1);
            Upto(cs[i := c], j) == if i <= j then Upto(cs, j) - w + w' else Upto(cs, j)
  {
    if i <= j {
      assert cs[i := c][..j + 1] == cs[..j + 1][i := c];
      Update(cs[..j + 1], i, c);
    } else {
      assert cs[i := c][..j + 1] == cs[..j + 1];
    }
  }

  /** A change of phase that counts nothing keeps the invariant, if a claim that is let in fits. */
  lemma PhaseKeeps(g: Gate, i: nat, p: Phase, g': Gate, max: int)
    requires Inv(g, max) && i < |g.claims| && !g.claims[i].phase.Counted? && !p.Counted?
    requires g' == g.(claims := At(g, i, p), held := g'.held)
    requires g'.held == g.held + (if p.Landed? then 1 else 0) && !g.claims[i].phase.Landed?
    requires In(g'.claims[i]) ==> In(g.claims[i]) || g.depth + g.claims[i].pending <= max
    ensures Inv(g', max)
  {
    var c := g.claims[i].(phase := p);
    Update(g.claims, i, c);
    forall j | 0 <= j < |g'.claims|
      ensures Covers(g', j) && Fits(g', max, j)
    {
      UptoUpdate(g.claims, i, c, j);
      assert Covers(g, j) && Fits(g, max, j);
    }
  }

  /** Counting a message uses the room its own claim kept, so no earlier or later claim is crowded out. */
  lemma CountKeeps(g: Gate, i: nat, max: int)
    requires Inv(g, max) && Enabled(g, Count(i))
    ensures Inv(Next(g, Count(i), max), max)
  {
    var g' := Next(g, Count(i), max);
    var c := g.claims[i].(phase := Counted);
    Update(g.claims, i, c);
    assert Fits(g, max, i) && Upto(g.claims, i) >= 1 by {
      assert g.claims[..i + 1][..i] == g.claims[..i];
    }
    forall j | 0 <= j < |g'.claims|
      ensures Covers(g', j) && Fits(g', max, j)
    {
      UptoUpdate(g.claims, i, c, j);
      assert Covers(g, j) && Fits(g, max, j);
      if j < i {
        OneMoreUpto(g.claims, j, i);
      }
    }
  }

  /** A later uncounted claim counts itself on top of what an earlier one counts. */
  lemma OneMoreUpto(cs: seq<Claim>, j: nat, i: nat)
    requires j < i < |cs| && !cs[i].phase.Counted?
    ensures Upto(cs, j) + 1 <= Upto(cs, i)
  {
    assert cs[..i + 1][..i] == cs[..i];
    PrefixCounts(cs[..i], j + 1);
    assert cs[..i][..j + 1] == cs[..j + 1];
  }

  lemma ReleaseKeeps(g: Gate, i: nat, max: int)
    requires Inv(g, max) && Enabled(g, Release(i))
    ensures Inv(Next(g, Release(i), max), max)
  {
    var g' := Next(g, Release(i), max);
    Removed(g.claims, i);
    forall j | 0 <= j < |g'.claims|
      ensures Covers(g', j) && Fits(g', max, j)
    {
      if j < i {
        assert g'.claims[..j + 1] == g.claims[..j + 1];
        assert Covers(g, j) && Fits(g, max, j);
      } else {
        assert g'.claims[..j + 1] == Without(g.claims[..j + 2], i);
        Removed(g.claims[..j + 2], i);
        assert Covers(g, j + 1) && Fits(g, max, j + 1);
      }
    }
  }

  lemma LowerKeeps(g: Gate, g': Gate, max: int)
    requires Inv(g, max) && g'.claims == g.claims && g'.reserved == g.reserved && g'.depth <= g.depth
    requires g'.depth - g'.held - g'.owed - g'.lost == g.depth - g.held - g.owed - g.lost
    ensures Inv(g', max)
  {
    forall j | 0 <= j < |g'.claims|
      ensures Covers(g', j) && Fits(g', max, j)
    {
      assert Covers(g, j) && Fits(g, max, j);
    }
  }

  lemma StepKeeps(g: Gate, s: Step, max: int)
    requires max > 0 && Inv(g, max) && Enabled(g, s)
    ensures Inv(Next(g, s, max), max)
  {
    var g' := Next(g, s, max);
    match s
    case Reserve => ReserveKeeps(g, max);
    case Check(i) => PhaseKeeps(g, i, g'.claims[i].phase, g', max);
    case Insert(i) => PhaseKeeps(g, i, Landed, g', max);
    case GiveUp(i) => PhaseKeeps(g, i, Turned, g', max);
    case Count(i) => CountKeeps(g, i, max);
    case Release(i) => ReleaseKeeps(g, i, max);
    case Remove => LowerKeeps(g, g', max);
    case Credit => LowerKeeps(g, g', max);
    case Expire => LowerKeeps(g, g', max);
  }

  // ---- What it means ----

  /** The last claim whose message is in covers every message that is in but not counted. */
  lemma {:induction false} LastInserted(g: Gate, max: int, n: nat)
    requires Inv(g, max) && n <= |g.claims|
    ensures g.depth + Inserted(g.claims[..n]) <= max
  {
    if n > 0 {
      assert g.claims[..n][..n - 1] == g.claims[..n - 1];
      if g.claims[n - 1].phase.Landed? {
        assert Fits(g, max, n - 1);
        InsertedUncounted(g.claims[..n]);
      } else {
        LastInserted(g, max, n - 1);
      }
    }
  }

  ghost predicate Runs(g: Gate, ss: seq<Step>, g': Gate, max: int)
    decreases |ss|
  {
    if ss == [] then g' == g else Enabled(g, ss[0]) && Runs(Next(g, ss[0], max), ss[1..], g', max)
  }

  lemma {:induction false} RunKeeps(g: Gate, ss: seq<Step>, g': Gate, max: int)
    requires max > 0 && Inv(g, max) && Runs(g, ss, g', max)
    ensures Inv(g', max)
    decreases |ss|
  {
    if ss != [] {
      StepKeeps(g, ss[0], max);
      RunKeeps(Next(g, ss[0], max), ss[1..], g', max);
    }
  }

  /** In every interleaving the messages held never exceed the cap, and claims not given back are claims in progress. */
  lemma NeverOver(ss: seq<Step>, g: Gate, max: int)
    requires max > 0 && Runs(CLOSED, ss, g, max)
    ensures g.held <= max && g.depth <= max
    ensures g.reserved == |g.claims|
  {
    RunKeeps(CLOSED, ss, g, max);
    LastInserted(g, max, |g.claims|);
    assert g.claims[..|g.claims|] == g.claims;
  }

  /**
   * A producer alone is turned away exactly when what is held, or was lost to an expiry nobody counted, fills the cap. So
   * the cap is exact just when nothing was lost.
   */
  lemma AloneIsTurned(ss: seq<Step>, g: Gate, max: int)
    requires max > 0 && Runs(CLOSED, ss, g, max) && g.claims == [] && g.owed == 0
    ensures var g1 := Next(g, Reserve, max);
            Enabled(g1, Check(0)) && (Next(g1, Check(0), max).claims[0].phase.Turned? <==> max <= g.held + g.lost)
  {
    RunKeeps(CLOSED, ss, g, max);
  }

  lemma First(g: Gate, s: Step, ss: seq<Step>, g': Gate, max: int)
    requires Enabled(g, s) && Runs(Next(g, s, max), ss, g', max)
    ensures Runs(g, [s] + ss, g', max)
  {
    assert ([s] + ss)[1..] == ss;
  }

  /** One message through the gate, up to the release of its claim. */
  lemma OneThrough() returns (ss: seq<Step>)
    ensures forall more, g | Runs(Gate(1, 0, 1, 0, 0, []), more, g, 1) :: Runs(CLOSED, ss + more, g, 1)
  {
    hide Runs;
    var g1 := Gate(0, 1, 0, 0, 0, [Claim(1, Claimed)]);
    var g2 := Gate(0, 1, 0, 0, 0, [Claim(1, Passed)]);
    var g3 := Gate(0, 1, 1, 0, 0, [Claim(1, Landed)]);
    var g4 := Gate(1, 1, 1, 0, 0, [Claim(1, Counted)]);
    var g5 := Gate(1, 0, 1, 0, 0, []);
    assert Next(CLOSED, Reserve, 1) == g1 && Next(g1, Check(0), 1) == g2 && Next(g2, Insert(0), 1) == g3;
    assert Next(g3, Count(0), 1) == g4 && Next(g4, Release(0), 1) == g5;
    ss := [Reserve] + ([Check(0)] + ([Insert(0)] + ([Count(0)] + [Release(0)])));
    forall more, g | Runs(g5, more, g, 1)
      ensures Runs(CLOSED, ss + more, g, 1)
    {
      First(g4, Release(0), more, g, 1);
      First(g3, Count(0), [Release(0)] + more, g, 1);
      First(g2, Insert(0), [Count(0)] + ([Release(0)] + more), g, 1);
      First(g1, Check(0), [Insert(0)] + ([Count(0)] + ([Release(0)] + more)), g, 1);
      First(CLOSED, Reserve, [Check(0)] + ([Insert(0)] + ([Count(0)] + ([Release(0)] + more))), g, 1);
      assert ss + more == [Reserve] + ([Check(0)] + ([Insert(0)] + ([Count(0)] + ([Release(0)] + more))));
    }
  }

  /** One expiry inside a delivery fills a queue of one for good, though it is empty. */
  lemma LostRoom() returns (ss: seq<Step>, g: Gate)
    ensures Runs(CLOSED, ss, g, 1) && g.held == 0 && g.claims == [] && g.owed == 0
    ensures Next(Next(g, Reserve, 1), Check(0), 1).claims[0].phase.Turned?
  {
    hide Runs;
    var g5 := Gate(1, 0, 1, 0, 0, []);
    g := Gate(1, 0, 0, 0, 1, []);
    Nothing(g, 1);
    First(g5, Expire, [], g, 1);
    ss := OneThrough();
    ss := ss + ([Expire] + []);
  }

  lemma Nothing(g: Gate, max: int)
    ensures Runs(g, [], g, max)
  {
  }
}
