/** The pass that compares what the nodes hold with placement, and repairs what a handoff left behind. */
module HandoffRepair {
  import opened Messages
  import opened Handoff

  /** What a node reports of a queue it has open: the slots it holds anything in, and the ones it keeps out of service. */
  datatype Report = Report(node: Node, slots: set<SlotId>, frozen: set<SlotId>)

  function HeldSlots(h: System, n: Node): (r: set<SlotId>)
    ensures forall s :: s in r <==> n in h.span && Held(h, n, s) != {}
  {
    set p | p in h.held && p.node == n && n in h.span && h.held[p] != {} :: p.slot
  }

  function FrozenSlots(h: System, n: Node): (r: set<SlotId>)
    ensures forall s :: s in r <==> n in h.span && Place(n, s) in h.frozen
  {
    set p | p in h.frozen && p.node == n && n in h.span :: p.slot
  }

  /** Data for a slot that someone else owns. */
  ghost predicate Leftover(h: System, n: Node, s: SlotId, reached: set<Node>) {
    n in reached && n in h.span && s in h.owner && h.owner[s] != n && Held(h, n, s) != {}
  }

  /** A slot its own owner keeps out of service. */
  ghost predicate Stranded(h: System, n: Node, s: SlotId, reached: set<Node>) {
    n in reached && n in h.span && s in h.owner && h.owner[s] == n && Place(n, s) in h.frozen
  }

  /**
   * What one pass must have done, given the nodes it reached. A node leaves alone the slots it does not take the queue to
   * have, but removes their logs all the same.
   */
  ghost predicate Repaired(h: System, h': System, reached: set<Node>) {
    && h' == h.(held := h'.held, logged := h'.logged, frozen := h'.frozen)
    && (forall n: Node, s: SlotId ::
          Held(h', n, s) == if Leftover(h, n, s, reached) && Covers(h, n, s) then {} else Held(h, n, s))
    && (forall n: Node, s: SlotId :: Logged(h', n, s) == if Leftover(h, n, s, reached) then {} else Logged(h, n, s))
    && (forall n: Node, s: SlotId :: Place(n, s) in h'.frozen <==>
          Place(n, s) in h.frozen && !(Covers(h, n, s) && (Stranded(h, n, s, reached) || Leftover(h, n, s, reached))))
  }

  function NodesOf(members: seq<Node>): set<Node> {
    set n | n in members
  }

  lemma OneMoreNode(members: seq<Node>, i: nat)
    requires i < |members|
    ensures NodesOf(members[..i + 1]) == NodesOf(members[..i]) + {members[i]}
  {
    assert members[..i + 1] == members[..i] + [members[i]];
  }

  method Orphaned(r: Report, owner: map<SlotId, Node>) returns (out: set<SlotId>)
    ensures forall s :: s in out <==> s in r.slots && s in owner && owner[s] != r.node
  {
    out := {};
    var todo := r.slots;
    while todo != {}
      invariant todo <= r.slots
      invariant forall s :: s in out <==> s in r.slots - todo && s in owner && owner[s] != r.node
    {
      var s :| s in todo;
      todo := todo - {s};
      if s in owner && owner[s] != r.node {
        out := out + {s};
      }
    }
  }

  method StrandedAt(r: Report, owner: map<SlotId, Node>) returns (out: set<SlotId>)
    ensures forall s :: s in out <==> s in r.frozen && s in owner && owner[s] == r.node
  {
    out := {};
    var todo := r.frozen;
    while todo != {}
      invariant todo <= r.frozen
      invariant forall s :: s in out <==> s in r.frozen - todo && s in owner && owner[s] == r.node
    {
      var s :| s in todo;
      todo := todo - {s};
      if s in owner && owner[s] == r.node {
        out := out + {s};
      }
    }
  }

  /** The two repairs of one node: slots of its own back into service, leftovers dropped. */
  function RepairedAt(h: System, n: Node, stranded: set<SlotId>, orphaned: set<SlotId>): System {
    Drop(Thaw(h, n, stranded), n, orphaned)
  }

  lemma RepairOne(h0: System, h: System, n: Node, stranded: set<SlotId>, orphaned: set<SlotId>, reached: set<Node>)
    requires Repaired(h0, h, reached) && n !in reached
    requires forall s :: s in stranded <==> n in h0.span && Place(n, s) in h0.frozen && s in h0.owner && h0.owner[s] == n
    requires forall s :: s in orphaned <==> n in h0.span && Held(h0, n, s) != {} && s in h0.owner && h0.owner[s] != n
    ensures Repaired(h0, RepairedAt(h, n, stranded, orphaned), reached + {n})
  {
    var h1 := Thaw(h, n, stranded);
    var h2 := Drop(h1, n, orphaned);
    DropLeaves(h1, n, orphaned);
    forall k: Node, s: SlotId
      ensures Held(h2, k, s) == if Leftover(h0, k, s, reached + {n}) && Covers(h0, k, s) then {} else Held(h0, k, s)
      ensures Logged(h2, k, s) == if Leftover(h0, k, s, reached + {n}) then {} else Logged(h0, k, s)
      ensures Place(k, s) in h2.frozen <==>
                Place(k, s) in h0.frozen &&
                !(Covers(h0, k, s) && (Stranded(h0, k, s, reached + {n}) || Leftover(h0, k, s, reached + {n})))
    {
      RepairedPlace(h0, h, n, stranded, orphaned, reached, k, s);
    }
  }

  lemma RepairedPlace(h0: System, h: System, n: Node, stranded: set<SlotId>, orphaned: set<SlotId>, reached: set<Node>,
                      k: Node, s: SlotId)
    requires Repaired(h0, h, reached) && n !in reached
    requires forall s :: s in stranded <==> n in h0.span && Place(n, s) in h0.frozen && s in h0.owner && h0.owner[s] == n
    requires forall s :: s in orphaned <==> n in h0.span && Held(h0, n, s) != {} && s in h0.owner && h0.owner[s] != n
    ensures var h2 := RepairedAt(h, n, stranded, orphaned);
            && Held(h2, k, s) == (if Leftover(h0, k, s, reached + {n}) && Covers(h0, k, s) then {} else Held(h0, k, s))
            && Logged(h2, k, s) == (if Leftover(h0, k, s, reached + {n}) then {} else Logged(h0, k, s))
            && (Place(k, s) in h2.frozen <==>
                  Place(k, s) in h0.frozen &&
                  !(Covers(h0, k, s) && (Stranded(h0, k, s, reached + {n}) || Leftover(h0, k, s, reached + {n}))))
  {
    var h1 := Thaw(h, n, stranded);
    ThawLeaves(h, n, stranded);
    ThawedAt(h, n, stranded, k, s);
    DroppedAt(h1, n, orphaned, k, s);
    hide Drop, Thaw;
    assert Covers(h1, n, s) == Covers(h0, n, s) && Held(h1, k, s) == Held(h, k, s) && Logged(h1, k, s) == Logged(h, k, s);
    assert Place(k, s) in h.frozen <==>
           Place(k, s) in h0.frozen && !(Covers(h0, k, s) && (Stranded(h0, k, s, reached) || Leftover(h0, k, s, reached)));
  }

  lemma NothingRepaired(h: System)
    ensures Repaired(h, h, {})
  {
  }

  /**
   * One pass over the nodes that answer, each once: the reports first, then placement, then the repairs. A queue in the
   * middle of a move is left alone.
   */
  method Reconcile(h: System, members: seq<Node>) returns (after: System)
    requires forall i, j | 0 <= i < j < |members| :: members[i] != members[j]
    ensures if h.migrating then after == h else Repaired(h, after, NodesOf(members))
  {
    hide Repaired, RepairedAt;
    var reports: seq<Report> := [];
    var i := 0;
    while i < |members|
      invariant i <= |members| == |reports| + (|members| - i)
      invariant forall k | 0 <= k < i :: reports[k] == Report(members[k], HeldSlots(h, members[k]), FrozenSlots(h, members[k]))
    {
      reports := reports + [Report(members[i], HeldSlots(h, members[i]), FrozenSlots(h, members[i]))];
      i := i + 1;
    }
    after := h;
    if h.migrating {
      return;
    }
    var owner := h.owner;
    NothingRepaired(h);
    assert NodesOf(members[..0]) == {};
    i := 0;
    while i < |reports|
      invariant i <= |reports| == |members| && Repaired(h, after, NodesOf(members[..i]))
    {
      var r := reports[i];
      var stranded := StrandedAt(r, owner);
      var orphaned := Orphaned(r, owner);
      OneMoreNode(members, i);
      assert r.node !in members[..i];
      RepairOne(h, after, r.node, stranded, orphaned, NodesOf(members[..i]));
      after := RepairedAt(after, r.node, stranded, orphaned);
      i := i + 1;
    }
    assert members[..i] == members;
  }

  /**
   * Whatever step a move stopped at: a pass frees every slot that a node it reached owns, loses no live message, and
   * empties a leftover just when its node takes the queue to have that slot.
   */
  lemma PassRepairs(count: nat, ss: seq<Step>, h: System, h': System, reached: set<Node>)
    requires count >= RECOVERED && Runs(Created(count), ss, h) && CarefulRun(Created(count), ss)
    requires !h.migrating && h.move.None? && Repaired(h, h', reached)
    ensures Inv(h') && forall s | s in h.owner :: Live(h, s) <= Has(h', h.owner[s], s)
    ensures forall n, s | n in reached && s in h.owner && h.owner[s] == n ::
              Place(n, s) !in h'.frozen && Held(h', n, s) == Held(h, n, s)
    ensures forall n, s | n in reached && n in h.span && s in h.owner && h.owner[s] != n ::
              Held(h', n, s) == {} <==> Held(h, n, s) == {} || Covers(h, n, s)
  {
    CreatedOk(count);
    RunKeeps(Created(count), ss, h);
    assert SpanOk(h);
    forall s
      ensures SafeAt(h', s)
      ensures s in h.owner ==> Live(h, s) <= Has(h', h.owner[s], s)
    {
      assert SafeAt(h, s);
      OwnerKept(h, h', reached, s);
    }
    forall n, s | n in reached && s in h.owner && h.owner[s] == n
      ensures Place(n, s) !in h'.frozen && Held(h', n, s) == Held(h, n, s)
    {
      OwnerKept(h, h', reached, s);
    }
    forall n, s | n in reached && n in h.span && s in h.owner && h.owner[s] != n
      ensures Held(h', n, s) == {} <==> Held(h, n, s) == {} || Covers(h, n, s)
    {
      assert Leftover(h, n, s, reached) || Held(h, n, s) == {};
    }
    StillSpanned(h, h', reached);
  }

  lemma OwnerKept(h: System, h': System, reached: set<Node>, s: SlotId)
    requires Repaired(h, h', reached) && SpanOk(h)
    ensures s in h.owner ==>
              var n := h.owner[s];
              && Has(h', n, s) == Has(h, n, s) && Held(h', n, s) == Held(h, n, s)
              && (n in reached ==> Place(n, s) !in h'.frozen)
  {
    if s in h.owner { assert !Leftover(h, h.owner[s], s, reached); }
  }

  lemma StillSpanned(h: System, h': System, reached: set<Node>)
    requires Repaired(h, h', reached) && SpanOk(h)
    ensures SpanOk(h')
  {
    forall p | p in h'.frozen
      ensures Covers(h', p.node, p.slot)
    {
      assert Place(p.node, p.slot) in h'.frozen;
    }
  }
}
