/** Moving a slot's messages: what a copy or a drain gives out, and what absorbing a batch leaves behind. */
module SlotTransfer {
  import opened Messages
  import opened Seqs
  import opened GroupIndex
  import opened Stats
  import opened PlainSlot
  import opened PlainContents
  import opened SlotState
  import opened SlotView
  import opened SlotRefines
  import opened SlotRuns

  // ---- Order by sequence number ----

  ghost predicate BySeq(ms: seq<Message>) {
    forall i, j :: 0 <= i < j < |ms| ==> ms[i].seqNo <= ms[j].seqNo
  }

  function InsertBySeq(ms: seq<Message>, m: Message): (r: seq<Message>)
    requires BySeq(ms)
    ensures BySeq(r) && multiset(r) == multiset(ms) + multiset{m}
    ensures forall x | x in r :: x in ms || x == m
  {
    if ms == [] then [m]
    else
      var last := ms[|ms| - 1];
      assert ms == ms[..|ms| - 1] + [last];
      if last.seqNo <= m.seqNo then ms + [m]
      else
        var front := InsertBySeq(ms[..|ms| - 1], m);
        assert forall x | x in front :: x.seqNo <= last.seqNo;
        front + [last]
  }

  /** The library sort: the same messages in the order of their sequence numbers. */
  function SortBySeq(ms: seq<Message>): (r: seq<Message>)
    ensures BySeq(r) && multiset(r) == multiset(ms)
  {
    if ms == [] then []
    else
      assert ms == ms[..|ms| - 1] + [ms[|ms| - 1]];
      InsertBySeq(SortBySeq(ms[..|ms| - 1]), ms[|ms| - 1])
  }

  lemma SortKeeps(ms: seq<Message>)
    ensures |SortBySeq(ms)| == |ms|
    ensures SetOf(SortBySeq(ms)) == SetOf(ms)
    ensures NoDup(ms) ==> NoDup(SortBySeq(ms))
  {
    var r := SortBySeq(ms);
    assert |multiset(r)| == |r| && |multiset(ms)| == |ms|;
    forall m
      ensures m in r <==> m in ms
    {
      assert m in multiset(r) <==> m in multiset(ms);
    }
    if NoDup(ms) {
      NoDupCounts(ms);
      CountsNoDup(r);
    }
  }

  lemma {:induction false} NoDupCounts<T>(s: seq<T>)
    requires NoDup(s)
    ensures forall x | x in s :: multiset(s)[x] == 1
  {
    if s != [] {
      NoDupCounts(s[1..]);
      assert s == [s[0]] + s[1..];
      assert s[0] !in s[1..];
    }
  }

  lemma {:induction false} CountsNoDup<T>(s: seq<T>)
    requires forall x | x in multiset(s) :: multiset(s)[x] == 1
    ensures NoDup(s)
  {
    forall i, j | 0 <= i < j < |s|
      ensures s[i] != s[j]
    {
      assert s == s[..i] + [s[i]] + s[i + 1..j] + [s[j]] + s[j + 1..];
      assert s[i] in multiset(s);
    }
  }

  // ---- Parts of a batch ----

  /** The messages of group `k` that can go out at `now`, in the order of the batch. */
  function ReadyOf(ms: seq<Message>, k: string, now: Time): (r: seq<Message>)
    ensures forall m | m in r :: m in ms && m.Key() == k && !m.Waiting(now)
  {
    if ms == [] then []
    else
      var (front, last) := (ms[..|ms| - 1], ms[|ms| - 1]);
      if last.Key() == k && !last.Waiting(now) then ReadyOf(front, k, now) + [last] else ReadyOf(front, k, now)
  }

  function WaitingOf(ms: seq<Message>, now: Time): (r: seq<Message>)
    ensures forall m | m in r :: m in ms && m.Waiting(now)
  {
    if ms == [] then []
    else
      var (front, last) := (ms[..|ms| - 1], ms[|ms| - 1]);
      if last.Waiting(now) then WaitingOf(front, now) + [last] else WaitingOf(front, now)
  }

  lemma {:induction false} EachSomewhere(ms: seq<Message>, now: Time)
    ensures forall m | m in ms :: if m.Waiting(now) then m in WaitingOf(ms, now) else m in ReadyOf(ms, m.Key(), now)
  {
    if ms != [] {
      var (front, last) := (ms[..|ms| - 1], ms[|ms| - 1]);
      EachSomewhere(front, now);
      assert ms == front + [last];
    }
  }

  lemma {:induction false} PartsKeepIds(ms: seq<Message>, k: string, now: Time, ids: set<string>)
    requires NewIds(ms, ids)
    ensures NewIds(ReadyOf(ms, k, now), ids) && NewIds(WaitingOf(ms, now), ids)
  {
    if ms != [] {
      var (front, last) := (ms[..|ms| - 1], ms[|ms| - 1]);
      PartsKeepIds(front, k, now, ids);
      FrontDiffers(ms, ids);
    }
  }

  lemma FrontDiffers(ms: seq<Message>, ids: set<string>)
    requires NewIds(ms, ids) && ms != []
    ensures NewIds(ms[..|ms| - 1], ids) && forall m | m in ms[..|ms| - 1] :: m.id != ms[|ms| - 1].id
  {
    var front := ms[..|ms| - 1];
    forall m | m in front
      ensures m.id != ms[|ms| - 1].id
    {
      var i :| 0 <= i < |front| && front[i] == m;
      OneIndex(ms, ids, i, |ms| - 1);
    }
  }

  lemma {:induction false} PartsBySeq(ms: seq<Message>, k: string, now: Time)
    requires BySeq(ms)
    ensures BySeq(ReadyOf(ms, k, now))
  {
    if ms != [] {
      var (front, last) := (ms[..|ms| - 1], ms[|ms| - 1]);
      PartsBySeq(front, k, now);
      forall m | m in front
        ensures m.seqNo <= last.seqNo
      {
        var i :| 0 <= i < |front| && front[i] == m;
      }
    }
  }

  // ---- Absorbing a batch ----

  /** `v` with the groups of `done` brought in, each ahead of what was there, and the messages of `held` waiting. */
  ghost predicate Partly(v0: Plain, v: Plain, ms: seq<Message>, now: Time, done: set<string>, held: seq<Message>) {
    && v.leases == v0.leases && v.epoch == v0.epoch && v.delayed == v0.delayed + SetOf(held)
    && forall k :: ListOf(v.lists, k) == (if k in done then ReadyOf(ms, k, now) else []) + ListOf(v0.lists, k)
  }

  /**
   * The whole batch is in: per group its messages stand in the order of the batch ahead of what was there, the ones not
   * due yet wait, and deliveries in progress are as they were.
   */
  ghost predicate Absorbed(v0: Plain, v: Plain, ms: seq<Message>, now: Time) {
    && v.leases == v0.leases && v.epoch == v0.epoch && v.delayed == v0.delayed + SetOf(WaitingOf(ms, now))
    && forall k :: ListOf(v.lists, k) == ReadyOf(ms, k, now) + ListOf(v0.lists, k)
  }

  ghost predicate Transfers(ops: seq<Op>) {
    forall i :: 0 <= i < |ops| ==> ops[i].Bring? || ops[i].BringDelayed?
  }

  lemma AbsorbFrame(v: Plain, k: string, ms: seq<Message>)
    requires |v.st.ready| == 3
    ensures var v' := AbsorbGroup(v, k, ms);
            v'.lists == SetList(v.lists, k, ms + ListOf(v.lists, k)) && v'.leases == v.leases
            && v'.delayed == v.delayed && v'.epoch == v.epoch
  {
  }

  /** Where a message of a half-absorbed slot came from. */
  lemma Origin(v0: Plain, v: Plain, ms: seq<Message>, now: Time, done: set<string>, held: seq<Message>, m: Message)
    requires Partly(v0, v, ms, now, done, held) && m in ContentsOf(v).All()
    ensures m in ContentsOf(v0).All() || m in held || (m.Key() in done && m in ReadyOf(ms, m.Key(), now))
  {
    if m in ReadyIn(v.lists) {
      var k :| k in v.lists && m in v.lists[k];
      assert m in ListOf(v.lists, k);
      if m !in ListOf(v0.lists, k) {
        assert k in done && m in ReadyOf(ms, k, now);
      }
    }
  }

  lemma SameIdSame(ms: seq<Message>, ids: set<string>, a: Message, b: Message)
    requires NewIds(ms, ids) && a in ms && b in ms && a.id == b.id
    ensures a == b
  {
    var i :| 0 <= i < |ms| && ms[i] == a;
    var j :| 0 <= j < |ms| && ms[j] == b;
    OneIndex(ms, ids, i, j);
  }

  lemma OneIndex(ms: seq<Message>, ids: set<string>, i: nat, j: nat)
    requires NewIds(ms, ids) && i < |ms| && j < |ms|
    ensures ms[i].id == ms[j].id ==> i == j
  {
  }

  lemma StillNew(v0: Plain, v: Plain, ms: seq<Message>, now: Time, done: set<string>, held: seq<Message>, m: Message)
    requires NewIds(ms, ContentsOf(v0).Ids()) && Partly(v0, v, ms, now, done, held)
    requires m in ms && m !in held && (m.Waiting(now) || m.Key() !in done) && forall h | h in held :: h in ms
    ensures m.id !in ContentsOf(v).Ids()
  {
    forall x | x in ContentsOf(v).All()
      ensures x.id != m.id
    {
      Origin(v0, v, ms, now, done, held, x);
      if x in ContentsOf(v0).All() {
        MembersHaveIds(ContentsOf(v0));
        var i :| 0 <= i < |ms| && ms[i] == m;
      } else if x.id == m.id {
        SameIdSame(ms, ContentsOf(v0).Ids(), x, m);
      }
    }
  }

  lemma ShareIsNew(v0: Plain, v: Plain, ms: seq<Message>, now: Time, done: set<string>, k: string)
    requires NewIds(ms, ContentsOf(v0).Ids()) && Partly(v0, v, ms, now, done, []) && k !in done
    ensures NewIds(ReadyOf(ms, k, now), ContentsOf(v).Ids())
  {
    var list := ReadyOf(ms, k, now);
    PartsKeepIds(ms, k, now, ContentsOf(v0).Ids());
    forall i | 0 <= i < |list|
      ensures list[i].id !in ContentsOf(v).Ids()
    {
      assert list[i] in list;
      StillNew(v0, v, ms, now, done, [], list[i]);
    }
  }

  lemma BroughtMore(v0: Plain, v: Plain, ms: seq<Message>, now: Time, done: set<string>, k: string)
    requires |v.st.ready| == 3 && Partly(v0, v, ms, now, done, []) && k !in done
    ensures Partly(v0, AbsorbGroup(v, k, ReadyOf(ms, k, now)), ms, now, done + {k}, [])
  {
    hide AbsorbGroup, ReadyOf;
    AbsorbFrame(v, k, ReadyOf(ms, k, now));
    var v' := AbsorbGroup(v, k, ReadyOf(ms, k, now));
    forall j
      ensures ListOf(v'.lists, j) == if j == k then ReadyOf(ms, k, now) + ListOf(v.lists, k) else ListOf(v.lists, j)
    {
    }
  }

  lemma BringStep(v0: Plain, v: Plain, ms: seq<Message>, now: Time, done: set<string>, k: string, ops: seq<Op>)
    requires Inv(v) && NewIds(ms, ContentsOf(v0).Ids()) && Partly(v0, v, ms, now, done, [])
    requires Runs(v0, ops, v) && Transfers(ops)
    requires k !in done && ReadyOf(ms, k, now) != []
    ensures |v.st.ready| == 3
    ensures var list := ReadyOf(ms, k, now);
            var v' := AbsorbGroup(v, k, list);
            && Inv(v') && Runs(v0, ops + [Bring(k, list)], v') && Transfers(ops + [Bring(k, list)])
            && Partly(v0, v', ms, now, done + {k}, [])
  {
    hide Inv, AbsorbGroup, Runs, Partly, NewIds, ContentsOf;
    InvStats(v);
    ShareIsNew(v0, v, ms, now, done, k);
    BroughtMore(v0, v, ms, now, done, k);
    StepInv(v, Bring(k, ReadyOf(ms, k, now)));
    RunsThen(v0, ops, v, Bring(k, ReadyOf(ms, k, now)));
  }

  lemma InvStats(v: Plain)
    requires Inv(v)
    ensures |v.st.ready| == 3
  {
  }

  lemma BringDelayedStep(v0: Plain, v: Plain, ms: seq<Message>, now: Time, done: set<string>, i: nat, ops: seq<Op>)
    requires Inv(v) && NewIds(ms, ContentsOf(v0).Ids()) && i < |WaitingOf(ms, now)|
    requires Partly(v0, v, ms, now, done, WaitingOf(ms, now)[..i])
    requires Runs(v0, ops, v) && Transfers(ops)
    ensures |v.st.ready| == 3
    ensures var m := WaitingOf(ms, now)[i];
            var v' := AbsorbDelayed(v, m);
            && m.id !in ContentsOf(v).Ids() && m.deliverAfter.Some?
            && Inv(v') && Runs(v0, ops + [BringDelayed(m)], v') && Transfers(ops + [BringDelayed(m)])
            && Partly(v0, v', ms, now, done, WaitingOf(ms, now)[..i + 1])
  {
    hide Inv, Runs;
    var held := WaitingOf(ms, now);
    var m := held[i];
    PartsKeepIds(ms, "", now, ContentsOf(v0).Ids());
    forall h | h in held[..i]
      ensures h in ms && h != m
    {
      var j :| 0 <= j < i && held[j] == h;
      assert held[j] in held && held[j].id != held[i].id;
    }
    assert held[i] in held;
    StillNew(v0, v, ms, now, done, held[..i], m);
    InvStats(v);
    StepInv(v, BringDelayed(m));
    RunsThen(v0, ops, v, BringDelayed(m));
    assert held[..i + 1] == held[..i] + [m];
  }

  lemma AllBrought(v0: Plain, v: Plain, ms: seq<Message>, now: Time, done: set<string>)
    requires Partly(v0, v, ms, now, done, WaitingOf(ms, now))
    requires forall k :: k in done <==> ReadyOf(ms, k, now) != []
    ensures Absorbed(v0, v, ms, now)
  {
  }

  // ---- The same two steps on the slot's own state ----

  lemma AbsorbGroupRefines(s: State, k: string, ms: seq<Message>, spare: Group)
    requires CoreInv(s) && CanAdmit(s.ix, k, spare) && ms != []
    requires Inv(AbsorbGroup(View(s), k, ms))
    ensures TableOk(s.ix) && |s.st.ready| == 3
    ensures var s' := AbsorbGroupS(s, k, ms, spare);
            CoreInv(s') && View(s') == AbsorbGroup(View(s), k, ms)
  {
    hide AbsorbGroupS, AbsorbGroup, View, Sound, ContentsInv, LinesInv;
    CoreIsIndexed(s);
    assert |View(s).st.ready| == 3 by { ViewStats(s); }
    if k in s.ix.table { AbsorbOld(s, k, ms, spare); } else { AbsorbNew(s, k, ms, spare); }
    AssembleCore(AbsorbGroupS(s, k, ms, spare), AbsorbGroup(View(s), k, ms));
  }

  lemma AbsorbDelayedRefines(s: State, m: Message)
    requires CoreInv(s) && Inv(AbsorbDelayed(View(s), m))
    ensures |s.st.ready| == 3
    ensures CoreInv(AbsorbDelayedS(s, m)) && View(AbsorbDelayedS(s, m)) == AbsorbDelayed(View(s), m)
  {
    var s' := AbsorbDelayedS(s, m);
    LinkSame(s, s');
    TimersSame(s, s');
    AssembleCore(s', AbsorbDelayed(View(s), m));
  }

  lemma NothingBrought(v: Plain, ms: seq<Message>, now: Time)
    ensures Runs(v, [], v) && Transfers([]) && Partly(v, v, ms, now, {}, [])
  {
    assert v.delayed + SetOf([]) == v.delayed;
  }

  lemma ShareIs(byGroup: map<string, seq<Message>>, k: string, ms: seq<Message>, now: Time)
    requires k in byGroup && byGroup[k] != [] && ListOf(byGroup, k) == ReadyOf(ms, k, now)
    ensures byGroup[k] == ReadyOf(ms, k, now) && ReadyOf(ms, k, now) != []
  {
  }

  lemma SharesAre(byGroup: map<string, seq<Message>>, ms: seq<Message>, now: Time)
    requires forall k :: ListOf(byGroup, k) == ReadyOf(ms, k, now)
    requires forall k | k in byGroup :: byGroup[k] != []
    ensures forall k :: k in byGroup.Keys <==> ReadyOf(ms, k, now) != []
  {
    forall k
      ensures k in byGroup.Keys <==> ReadyOf(ms, k, now) != []
    {
      assert ListOf(byGroup, k) == ReadyOf(ms, k, now);
    }
  }

  lemma CoreIsView(s: State)
    requires CoreInv(s)
    ensures Inv(View(s))
  {
  }

  // ---- Copies ----

  /** What the slot holds, part by part, each part without repetition. */
  lemma Holdings(s: State)
    requires CoreInv(s)
    ensures TableOk(s.ix) && GroupsHold(s)
    ensures forall id | id in s.leases :: s.leases[id].msg.id == id
    ensures InFlightOf(s, s.leases.Keys) !! ReadyFrom(s, s.ix.table.Keys)
    ensures InFlightOf(s, s.leases.Keys) !! s.delayed && ReadyFrom(s, s.ix.table.Keys) !! s.delayed
    ensures ContentsOf(View(s)).All() == InFlightOf(s, s.leases.Keys) + ReadyFrom(s, s.ix.table.Keys) + s.delayed
  {
    hide Sound, GaugesOk, ListsOk, LinesInv, ReadyIn, InFlightIn, LinesOf, NonEmpty, Deliveries, GroupsHold, InFlightOf, ReadyFrom;
    CoreIsIndexed(s);
    InFlightIs(s);
    ReadyIs(s);
    GroupsHoldLists(s);
    LeaseIds(s);
  }

  ghost predicate GroupsHold(s: State)
    requires TableOk(s.ix)
  {
    forall k | k in s.ix.table :: var ms := s.ix.recs[s.ix.table[k]].msgs; NoDup(ms) && forall m | m in ms :: m.Key() == k
  }

  lemma GroupsHoldLists(s: State)
    requires TableOk(s.ix) && ListsOk(View(s).lists)
    ensures GroupsHold(s)
  {
    forall k | k in s.ix.table
      ensures var ms := s.ix.recs[s.ix.table[k]].msgs; NoDup(ms) && forall m | m in ms :: m.Key() == k
    {
      assert ListOf(View(s).lists, k) == s.ix.recs[s.ix.table[k]].msgs;
    }
  }

  lemma LeaseIds(s: State)
    requires TableOk(s.ix) && LeasesOk(View(s).leases, View(s).epoch)
    ensures forall id | id in s.leases :: s.leases[id].msg.id == id
  {
    forall id | id in s.leases
      ensures s.leases[id].msg.id == id
    {
      assert View(s).leases[id].msg == s.leases[id].msg;
    }
  }

  lemma InFlightIs(s: State)
    requires TableOk(s.ix)
    ensures InFlightIn(View(s).leases) == InFlightOf(s, s.leases.Keys)
  {
    forall m
      ensures m in InFlightIn(View(s).leases) <==> m in InFlightOf(s, s.leases.Keys)
    {
      if m in InFlightOf(s, s.leases.Keys) {
        var id :| id in s.leases && s.leases[id].msg == m;
        assert View(s).leases[id].msg == m;
      }
    }
  }

  function InFlightOf(s: State, ids: set<string>): set<Message> {
    set id | id in ids && id in s.leases :: s.leases[id].msg
  }

  function ReadyFrom(s: State, ks: set<string>): set<Message>
    requires TableOk(s.ix)
  {
    set k, m | k in ks && k in s.ix.table && m in s.ix.recs[s.ix.table[k]].msgs :: m
  }

  lemma ReadyIs(s: State)
    requires TableOk(s.ix)
    ensures ReadyIn(View(s).lists) == ReadyFrom(s, s.ix.table.Keys)
  {
    forall m
      ensures m in ReadyIn(View(s).lists) <==> m in ReadyFrom(s, s.ix.table.Keys)
    {
      if m in ReadyFrom(s, s.ix.table.Keys) {
        var k :| k in s.ix.table && m in s.ix.recs[s.ix.table[k]].msgs;
        assert m in View(s).lists[k];
      }
      if m in ReadyIn(View(s).lists) {
        var k :| k in View(s).lists && m in View(s).lists[k];
        assert k in s.ix.table && m in s.ix.recs[s.ix.table[k]].msgs;
      }
    }
  }

  lemma OneMoreGroup(s: State, done: set<string>, k: string, out: seq<Message>)
    requires TableOk(s.ix) && GroupsHold(s) && k in s.ix.table && k !in done
    requires NoDup(out) && SetOf(out) == ReadyFrom(s, done)
    ensures var ms := s.ix.recs[s.ix.table[k]].msgs;
            NoDup(out + ms) && SetOf(out + ms) == ReadyFrom(s, done + {k})
  {
    var ms := s.ix.recs[s.ix.table[k]].msgs;
    forall m | m in out
      ensures m !in ms
    {
      assert m in ReadyFrom(s, done);
    }
    NoDupAppend(out, ms);
    forall m
      ensures m in SetOf(out + ms) <==> m in ReadyFrom(s, done + {k})
    {
      assert m in SetOf(out + ms) <==> m in SetOf(out) || m in ms;
    }
  }

  lemma ThreeParts(a: seq<Message>, b: seq<Message>, c: seq<Message>)
    requires NoDup(a) && NoDup(b) && NoDup(c)
    requires SetOf(a) !! SetOf(b) && SetOf(a) !! SetOf(c) && SetOf(b) !! SetOf(c)
    ensures NoDup(a + b + c) && SetOf(a + b + c) == SetOf(a) + SetOf(b) + SetOf(c)
  {
    assert forall m | m in a :: m in SetOf(a);
    assert forall m | m in b :: m in SetOf(b);
    assert forall m | m in c :: m in SetOf(c);
    NoDupAppend(a, b);
    NoDupAppend(a + b, c);
  }

  lemma OneMoreLease(s: State, done: set<string>, id: string, out: seq<Message>)
    requires id in s.leases && id !in done && forall j | j in s.leases :: s.leases[j].msg.id == j
    requires NoDup(out) && SetOf(out) == InFlightOf(s, done)
    ensures NoDup(out + [s.leases[id].msg]) && SetOf(out + [s.leases[id].msg]) == InFlightOf(s, done + {id})
  {
    var m := s.leases[id].msg;
    assert m in out <==> m in SetOf(out);
    NoDupAppend(out, [m]);
    forall x
      ensures x in SetOf(out + [m]) <==> x in InFlightOf(s, done + {id})
    {
      assert x in SetOf(out + [m]) <==> x in SetOf(out) || x == m;
    }
  }
}
