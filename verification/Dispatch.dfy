/** What a slot's hint and its band entries promise the dispatcher. */
module Dispatch {
  import opened Messages
  import opened GroupIndex
  import opened PlainSlot
  import opened SlotState
  import opened SlotView
  import opened SlotRuns
  import opened SlotSweeps
  import BandMask

  // ---- The hint is never too low ----

  ghost predicate Offers(v: Plain, q: Priority) {
    Line(v, q) != []
  }

  lemma LiveOfNothing(ix: Index, q: Priority)
    requires LiveLine(ix, q) != []
    ensures q in ix.bands
  {
  }

  /** The hint names a band with entries, and no band that can be served lies above it. */
  lemma HintBounds(s: State)
    requires SlotInv(s)
    ensures s.hint <= MAX_PRIORITY + 1
    ensures s.hint > 0 ==> s.hint - 1 in s.ix.bands
    ensures forall q: Priority | Offers(View(s), q) :: q < s.hint
  {
    hide GroupOk, ContentsInv, LinesInv, LinkOk, TimersOk, EntriesBelow;
    forall q: Priority | Offers(View(s), q)
      ensures q < s.hint
    {
      assert Line(View(s), q) == Names(LiveLine(s.ix, q));
      LiveOfNothing(s.ix, q);
      assert q in BandMask.Bands(s.ix.mask);
    }
  }

  // ---- A failed take uses up entries ----

  function EntryCount(ix: Index, n: nat): nat
    requires n <= MAX_PRIORITY + 1
  {
    if n == 0 then 0 else EntryCount(ix, n - 1) + |Band(ix, n - 1)|
  }

  /** All the entries of a slot's bands, stale ones included. */
  function Entries(s: State): nat {
    EntryCount(s.ix, MAX_PRIORITY + 1)
  }

  lemma {:induction false} CountShrinks(ix: Index, ix': Index, p: Priority, n: nat)
    requires n <= MAX_PRIORITY + 1
    requires |Band(ix', p)| < |Band(ix, p)| && forall q: Priority | q != p :: Band(ix', q) == Band(ix, q)
    ensures EntryCount(ix', n) <= EntryCount(ix, n) && (p < n ==> EntryCount(ix', n) < EntryCount(ix, n))
  {
    if n != 0 {
      CountShrinks(ix, ix', p, n - 1);
    }
  }

  lemma {:induction false} CountSame(ix: Index, ix': Index, n: nat)
    requires n <= MAX_PRIORITY + 1 && ix'.bands == ix.bands
    ensures EntryCount(ix', n) == EntryCount(ix, n)
  {
    if n != 0 {
      CountSame(ix, ix', n - 1);
    }
  }

  lemma ServeBands(s: State, g: Group, now: Time, deadline: Time)
    requires g in s.ix.recs && |s.st.ready| == 3
    ensures ServeS(s, g, now, deadline).0.ix.bands == s.ix.bands
  {
  }

  lemma TakeGroupShrinks(ix: Index, p: Priority)
    requires IndexInv(ix, {}) && p in ix.bands
    ensures EntryCount(TakeGroup(ix, p).0, MAX_PRIORITY + 1) < EntryCount(ix, MAX_PRIORITY + 1)
  {
    var ix' := TakeGroup(ix, p).0;
    BandIsServable(ix, p);
    PopCurrentSpec(Band(ix, p), ix.recs);
    TakeGroupBands(ix, p, p);
    forall q: Priority | q != p
      ensures Band(ix', q) == Band(ix, q)
    {
      TakeGroupBands(ix, p, q);
    }
    CountShrinks(ix, ix', p, MAX_PRIORITY + 1);
  }

  /** Every take of a band that has entries, served or not, leaves fewer entries. */
  lemma TakeShrinks(s: State, p: Priority, now: Time, deadline: Time, s': State, d: Option<Delivery>)
    requires CoreInv(s) && Taken(s, p, now, deadline, s', d) && p in s.ix.bands
    ensures Entries(s') < Entries(s)
  {
    var (ix1, got) := TakeGroup(s.ix, p);
    TakeGroupShrinks(s.ix, p);
    if got.Some? {
      ServeBands(s.(ix := ix1), got.value, now, deadline);
    }
    CountSame(ix1, s'.ix, MAX_PRIORITY + 1);
  }

  // ---- What a take delivers when nothing has expired ----

  ghost predicate Unexpired(v: Plain, now: Time) {
    HeadsFresh(v, now, v.lists.Keys)
  }

  /** With nothing expired, a band with a line delivers its first group's head, and one without a line changes nothing. */
  lemma TakeFresh(v: Plain, p: Priority, now: Time, deadline: Time)
    requires Inv(v) && Unexpired(v, now)
    ensures var (v', d) := Take(v, p, now, deadline);
            && (d.None? <==> Line(v, p) == [])
            && (d.None? ==> v' == v)
            && (d.Some? ==> d.value.msg == Attempted(v.lists[Line(v, p)[0]][0]) && d.value.msg.priority == p)
  {
    assert LineOk(v, p);
    if Line(v, p) != [] {
      var k := Line(v, p)[0];
      assert k in v.lines[p] && Serves(v, p, k);
      assert ListOf(v.lists, k)[0] == v.lists[k][0];
    }
  }

  // ---- Starvation ----

  lemma {:induction false} HeadIsLive(es: seq<Entry>, recs: map<Group, Record>, limit: nat)
    requires Servable(es, recs) && HeadMessage(es, recs, limit).Some?
    ensures Live(es, recs) != [] && Live(es, recs)[0] in recs && recs[Live(es, recs)[0]].msgs != []
    ensures HeadMessage(es, recs, limit).value == recs[Live(es, recs)[0]].msgs[0]
  {
    if Current(es[0], recs) {
    } else {
      forall i | 0 <= i < |es[1..]| && Current(es[1..][i], recs)
        ensures !recs[es[1..][i].g].locked && recs[es[1..][i].g].msgs != []
      {
        assert es[1..][i] == es[i + 1];
      }
      HeadIsLive(es[1..], recs, limit - 1);
    }
  }

  /** How many stale entries stand before the first one that counts. */
  function StaleFront(es: seq<Entry>, recs: map<Group, Record>): nat {
    if es == [] || Current(es[0], recs) then 0 else 1 + StaleFront(es[1..], recs)
  }

  lemma {:induction false} HeadFound(es: seq<Entry>, recs: map<Group, Record>, limit: nat)
    requires Servable(es, recs)
    ensures HeadMessage(es, recs, limit).Some? <==> StaleFront(es, recs) < limit && Live(es, recs) != []
  {
    if es != [] && !Current(es[0], recs) && limit > 0 {
      forall i | 0 <= i < |es[1..]| && Current(es[1..][i], recs)
        ensures !recs[es[1..][i].g].locked && recs[es[1..][i].g].msgs != []
      {
        assert es[1..][i] == es[i + 1];
      }
      HeadFound(es[1..], recs, limit - 1);
    }
  }

  /** The first group of a band, as the plain slot has it. */
  lemma FrontOfBand(s: State, p: Priority)
    requires SlotInv(s)
    ensures Line(View(s), p) == [] <==> LiveLine(s.ix, p) == []
    ensures LiveLine(s.ix, p) != [] ==>
              var (g, v, k) := (LiveLine(s.ix, p)[0], View(s), Line(View(s), p)[0]);
              g in s.ix.recs && ListOf(v.lists, k) == s.ix.recs[g].msgs
  {
    hide ContentsInv, LinesInv, LinkOk, TimersOk, HintOk;
    assert Line(View(s), p) == Names(LiveLine(s.ix, p));
    if LiveLine(s.ix, p) != [] {
      var g := LiveLine(s.ix, p)[0];
      assert g in LiveLine(s.ix, p);
      LineIsListed(s.ix, p, g, {});
    }
  }

  /**
   * A band counts as starved just when the message a take of it would look at first was enqueued before the cutoff, and
   * fewer stale entries stand in front of its group than the scan looks at.
   */
  lemma StarvedIff(s: State, p: Priority, cutoff: Time)
    requires SlotInv(s)
    ensures Starved(s, p, cutoff) <==>
            && StaleFront(Band(s.ix, p), s.ix.recs) < 8
            && var v := View(s);
               Line(v, p) != [] && ListOf(v.lists, Line(v, p)[0]) != [] && v.lists[Line(v, p)[0]][0].enqueuedAt < cutoff
  {
    BandIsServable(s.ix, p);
    hide SlotInv, View, Line;
    HeadFound(Band(s.ix, p), s.ix.recs, HEAD_SCAN);
    FrontOfBand(s, p);
    if HeadMessage(Band(s.ix, p), s.ix.recs, HEAD_SCAN).Some? { HeadIsLive(Band(s.ix, p), s.ix.recs, HEAD_SCAN); }
  }

  /** Whether delivery number `n` is one of those set aside for work that has waited too long. */
  predicate ReserveTick(n: nat, on: bool, reserve: real) {
    if !on || reserve <= 0.0 then false
    else
      var every := (1.0 / reserve).Floor;
      if every == 0 then true else n % every == 0
  }

  lemma NoTick(n: nat, on: bool, reserve: real)
    requires !on || reserve <= 0.0
    ensures !ReserveTick(n, on, reserve)
  {
  }

  /**
   * A reserve of share `r` is one delivery in every so many: of any `k` in a row, where `k` is `1 / r` rounded down, just
   * one.
   */
  lemma OneInEvery(r: real, n: nat, k: int)
    requires 0.0 < r <= 1.0 && k as real <= 1.0 / r < (k + 1) as real
    ensures exists i: nat ::
              && n <= i < n + k && ReserveTick(i, true, r)
              && forall j: nat | n <= j < n + k && j != i :: !ReserveTick(j, true, r)
  {
    AtLeastOne(r);
    assert (1.0 / r).Floor == k;
    var i := MultipleIn(n, k);
    assert ReserveTick(i, true, r);
    forall j: nat | n <= j < n + k && j != i
      ensures !ReserveTick(j, true, r)
    {
      OnlyMultiple(n, k, i, j);
    }
  }

  lemma AtLeastOne(r: real)
    requires 0.0 < r <= 1.0
    ensures 1.0 / r >= 1.0
  {
  }

  lemma TimesAtLeast(x: int, k: int)
    requires x >= 1 && k > 0
    ensures x * k >= k
  {
    assert x * k == (x - 1) * k + k;
  }

  lemma MultipleOf(q: int, k: int)
    requires k > 0
    ensures q * k % k == 0
  {
    var (a, d, r) := (q * k, q * k / k, q * k % k);
    assert a == d * k + r;
    assert (q - d) * k == r;
    if q > d { TimesAtLeast(q - d, k); }
    if q < d { TimesAtLeast(d - q, k); }
  }

  lemma MultipleIn(n: nat, k: nat) returns (i: nat)
    requires k > 0
    ensures n <= i < n + k && i % k == 0
  {
    var q := if n % k == 0 then n / k else n / k + 1;
    MultipleOf(q, k);
    i := q * k;
  }

  lemma OnlyMultiple(n: nat, k: nat, i: nat, j: nat)
    requires k > 0 && n <= i < n + k && n <= j < n + k && i != j && i % k == 0
    ensures j % k != 0
  {
    if j % k == 0 {
      var (x, y) := (i / k, j / k);
      assert i == x * k && j == y * k;
      assert (y - x) * k == j - i;
      if y > x { TimesAtLeast(y - x, k); }
      if y < x { TimesAtLeast(x - y, k); }
    }
  }
}
