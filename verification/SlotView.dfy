/** The plain slot a slot's fields stand for, and the invariant that ties the two together. */
module SlotView {
  import opened Messages
  import opened Seqs
  import opened GroupIndex
  import opened PlainSlot
  import opened SlotState

  function Names(l: seq<Group>): seq<string> {
    seq(|l|, i requires 0 <= i < |l| => l[i].id)
  }

  function LinesOf(ix: Index): map<Priority, seq<string>> {
    map p: Priority | p <= MAX_PRIORITY :: Names(LiveLine(ix, p))
  }

  function NonEmpty(lists: map<string, seq<Message>>): map<string, seq<Message>> {
    map k | k in lists && lists[k] != [] :: lists[k]
  }

  function Deliveries(leases: map<string, Lease>): map<string, Delivery> {
    map id | id in leases :: Delivery(leases[id].msg, leases[id].epoch, leases[id].deadline)
  }

  function View(s: State): Plain
    requires TableOk(s.ix)
  {
    Plain(LinesOf(s.ix), NonEmpty(Lists(s.ix)), Deliveries(s.leases), s.delayed, s.epoch, s.st)
  }

  lemma ViewStats(s: State)
    requires TableOk(s.ix)
    ensures View(s).st == s.st
  {
  }

  /** Each lease's group is in the table under the message's key, and the locked groups are exactly those. */
  ghost predicate LinkOk(s: State)
    requires TableOk(s.ix)
  {
    && (forall id | id in s.leases :: Listed(s.ix, s.leases[id].g) && s.leases[id].g.id == s.leases[id].msg.Key())
    && Locked(s.ix) == Busy(Deliveries(s.leases))
  }

  /**
   * Each lease has its own timer; a timer that still names a lease carries that lease's deadline; timers of leases
   * that are gone can never name a later one.
   */
  ghost predicate TimersOk(s: State) {
    && (forall id | id in s.leases :: Timer(id, s.leases[id].epoch, s.leases[id].deadline) in s.timers)
    && (forall t | t in s.timers :: t.epoch <= s.epoch)
    && (forall t | t in s.timers && t.id in s.leases && s.leases[t.id].epoch == t.epoch :: t.at == s.leases[t.id].deadline)
  }

  ghost predicate Sound(s: State) {
    IndexInv(s.ix, {}) && LinkOk(s) && TimersOk(s)
  }

  ghost predicate CoreInv(s: State) {
    Sound(s) && Inv(View(s))
  }

  ghost predicate HintOk(s: State) {
    s.hint == HintOf(s.ix) && s.headSeq == HeadSeqOf(s.ix)
  }

  /** The invariant of a slot between operations. */
  ghost predicate SlotInv(s: State) {
    CoreInv(s) && HintOk(s)
  }

  // ---- How changes of the index show in the view ----

  lemma NamesWithout(l: seq<Group>, g: Group)
    requires forall h | h in l :: h.id == g.id ==> h == g
    ensures Names(Without(l, g)) == Without(Names(l), g.id)
  {
    if l != [] {
      NamesWithout(l[1..], g);
      assert Names(l) == [l[0].id] + Names(l[1..]);
      if l[0] != g {
        assert Names([l[0]] + Without(l[1..], g)) == [l[0].id] + Names(Without(l[1..], g));
      }
    }
  }

  lemma NamesAppend(l: seq<Group>, g: Group)
    ensures Names(l + [g]) == Names(l) + [g.id]
  {
  }

  lemma NamesTail(l: seq<Group>)
    requires l != []
    ensures Names(l)[0] == l[0].id && Names(l[1..]) == Names(l)[1..]
  {
  }

  lemma LineIsListed(ix: Index, p: Priority, h: Group, open: set<Group>)
    requires LinesOk(ix) && ServeOk(ix, open) && h in LiveLine(ix, p)
    ensures Listed(ix, h)
  {
    assert h in ix.recs && ix.recs[h].inBand;
    assert GroupOk(ix, h, h in open);
  }

  /** A group out of its line is, by id, out of the view's line. */
  lemma LinesLoseView(ix: Index, ix': Index, g: Group, open: set<Group>)
    requires LinesOk(ix) && ServeOk(ix, open) && Listed(ix, g) && LinesLose(ix, ix', g)
    ensures forall p: Priority :: LinesOf(ix')[p] == Without(LinesOf(ix)[p], g.id)
  {
    forall p: Priority
      ensures LinesOf(ix')[p] == Without(LinesOf(ix)[p], g.id)
    {
      forall h | h in LiveLine(ix, p) && h.id == g.id
        ensures h == g
      {
        LineIsListed(ix, p, h, open);
      }
      NamesWithout(LiveLine(ix, p), g);
      assert LiveLine(ix', p) == Without(LiveLine(ix, p), g);
    }
  }

  lemma SameLinesView(ix: Index, ix': Index)
    requires SameLines(ix, ix')
    ensures LinesOf(ix') == LinesOf(ix)
  {
    forall p: Priority
      ensures LinesOf(ix')[p] == LinesOf(ix)[p]
    {
      assert LiveLine(ix', p) == LiveLine(ix, p);
    }
  }

  lemma LinesAreView(ix: Index, ix': Index, p: Priority, l: seq<Group>)
    requires LinesAre(ix, ix', p, l)
    ensures LinesOf(ix') == LinesOf(ix)[p := Names(l)]
  {
    forall q: Priority
      ensures LinesOf(ix')[q] == LinesOf(ix)[p := Names(l)][q]
    {
      assert LiveLine(ix', q) == if q == p then l else LiveLine(ix, q);
    }
  }

  lemma NonEmptyWrite(lists: map<string, seq<Message>>, k: string, ms: seq<Message>)
    ensures NonEmpty(lists[k := ms]) == SetList(NonEmpty(lists), k, ms)
    ensures ListOf(NonEmpty(lists), k) == ListOf(lists, k)
  {
  }

  lemma NonEmptyDropEmpty(lists: map<string, seq<Message>>, k: string)
    requires ListOf(lists, k) == []
    ensures NonEmpty(lists - {k}) == NonEmpty(lists)
  {
  }

  lemma DeliveriesAdd(leases: map<string, Lease>, id: string, l: Lease)
    ensures Deliveries(leases[id := l]) == Deliveries(leases)[id := Delivery(l.msg, l.epoch, l.deadline)]
  {
  }

  lemma DeliveriesDrop(leases: map<string, Lease>, id: string)
    ensures Deliveries(leases - {id}) == Deliveries(leases) - {id}
  {
  }
}
