/** Every operation of the plain slot keeps the lines equal to the servable groups. */
module PlainLines {
  import opened Messages
  import opened Seqs
  import opened Stats
  import opened PlainSlot
  import opened PlainContents

  /** The lines are right for every group but `k`, which is in none of them. */
  ghost predicate LinesBut(v: Plain, k: string) {
    forall p: Priority :: LineBut(v, p, k)
  }

  ghost predicate LineBut(v: Plain, p: Priority, k: string) {
    && p in v.lines && NoDup(v.lines[p]) && k !in v.lines[p]
    && forall j :: j != k ==> (j in v.lines[p] <==> Serves(v, p, j))
  }

  predicate Servable(v: Plain, k: string) {
    ListOf(v.lists, k) != [] && k !in Busy(v.leases)
  }

  /** Only group `k` differs between `v` and `v'`. */
  ghost predicate OnlyGroup(v: Plain, v': Plain, k: string) {
    && v'.lines == v.lines
    && v'.lists - {k} == v.lists - {k}
    && Busy(v'.leases) - {k} == Busy(v.leases) - {k}
  }

  lemma ServesSame(v: Plain, v': Plain, k: string, p: Priority, j: string)
    requires OnlyGroup(v, v', k) && j != k
    ensures Serves(v', p, j) <==> Serves(v, p, j)
  {
    assert j in v.lists <==> j in v.lists - {k};
    assert j in v'.lists <==> j in v'.lists - {k};
    if j in v.lists { assert (v.lists - {k})[j] == v.lists[j] == (v'.lists - {k})[j]; }
    assert j in Busy(v.leases) <==> j in Busy(v.leases) - {k};
    assert j in Busy(v'.leases) <==> j in Busy(v'.leases) - {k};
  }

  lemma ButFrame(v: Plain, v': Plain, k: string)
    requires LinesBut(v, k) && OnlyGroup(v, v', k)
    ensures LinesBut(v', k)
  {
    forall p: Priority
      ensures LineBut(v', p, k)
    {
      assert LineBut(v, p, k);
      forall j | j != k
        ensures j in v'.lines[p] <==> Serves(v', p, j)
      {
        ServesSame(v, v', k, p, j);
      }
    }
  }

  lemma Open(v: Plain, k: string)
    requires LinesInv(v) && !Servable(v, k)
    ensures LinesBut(v, k)
  {
    forall p: Priority
      ensures LineBut(v, p, k)
    {
      assert LineOk(v, p);
      assert !Serves(v, p, k);
    }
  }

  lemma Settle(v: Plain, k: string)
    requires LinesBut(v, k) && !Servable(v, k)
    ensures LinesInv(v)
  {
    forall p: Priority
      ensures LineOk(v, p)
    {
      assert LineBut(v, p, k);
      assert !Serves(v, p, k);
    }
  }

  lemma JoinLines(v: Plain, k: string)
    requires LinesBut(v, k) && Servable(v, k)
    ensures LinesInv(Join(v, k))
  {
    var v' := Join(v, k);
    var head := v.lists[k][0].priority;
    forall p: Priority
      ensures LineOk(v', p)
    {
      assert LineBut(v, p, k);
      assert LineBut(v, head, k);
      forall j
        ensures j in v'.lines[p] <==> Serves(v', p, j)
      {
        assert Serves(v', p, j) <==> Serves(v, p, j);
      }
    }
  }

  lemma PulledLines(v: Plain, p: Priority)
    requires LinesInv(v) && Line(v, p) != []
    ensures LinesBut(Pulled(v, p), Line(v, p)[0]) && Servable(v, Line(v, p)[0])
  {
    var k := Line(v, p)[0];
    var v' := Pulled(v, p);
    assert LineOk(v, p);
    assert Serves(v, p, k);
    forall q: Priority
      ensures LineBut(v', q, k)
    {
      assert LineOk(v, q);
      forall j
        ensures Serves(v', q, j) <==> Serves(v, q, j)
      {
      }
      if q == p {
        assert v.lines[p] == [k] + v'.lines[p];
      } else {
        assert !Serves(v, q, k);
      }
    }
  }

  /** Whatever line `k` was in, `Quit` takes it out. */
  lemma QuitLines(v: Plain, k: string)
    requires forall p: Priority :: p in v.lines && NoDup(v.lines[p])
    requires forall p: Priority, j :: j != k ==> (j in Line(v, p) <==> Serves(v, p, j))
    ensures LinesBut(Quit(v, k), k)
  {
    var v' := Quit(v, k);
    forall p: Priority
      ensures LineBut(v', p, k)
    {
      WithoutNoDup(v.lines[p], k);
      forall j | j != k
        ensures j in v'.lines[p] <==> Serves(v', p, j)
      {
        assert j in Line(v, p) <==> Serves(v, p, j);
        assert Serves(v', p, j) <==> Serves(v, p, j);
      }
    }
  }

  /** After group `k` alone changed, `Relist` puts every line right. */
  lemma RelistLines(v: Plain, v1: Plain, k: string)
    requires LinesInv(v) && OnlyGroup(v, v1, k)
    ensures LinesInv(Relist(v1, k))
  {
    forall p: Priority
      ensures p in v1.lines && NoDup(v1.lines[p])
    {
      assert LineOk(v, p);
    }
    forall p: Priority, j | j != k
      ensures j in Line(v1, p) <==> Serves(v1, p, j)
    {
      assert LineOk(v, p);
      ServesSame(v, v1, k, p, j);
    }
    QuitLines(v1, k);
    if Servable(v1, k) {
      JoinLines(Quit(v1, k), k);
    } else {
      Settle(Quit(v1, k), k);
    }
  }

  // ---- Operations ----

  lemma AppendLines(v: Plain, v1: Plain, m: Message)
    requires LinesInv(v) && v1.lines == v.lines && v1.lists == v.lists && v1.leases == v.leases
    ensures LinesInv(Append(v1, m))
  {
    var k := m.Key();
    var v' := v1.(lists := SetList(v1.lists, k, ListOf(v1.lists, k) + [m]));
    if ListOf(v.lists, k) != [] || k in Busy(v.leases) {
      forall p: Priority
        ensures LineOk(v', p)
      {
        assert LineOk(v, p);
        forall j
          ensures Serves(v', p, j) <==> Serves(v, p, j)
        {
        }
      }
    } else {
      Open(v, k);
      ButFrame(v, v', k);
      JoinLines(v', k);
    }
  }

  lemma SameLinesInv(v: Plain, v': Plain)
    requires LinesInv(v) && v'.lines == v.lines && v'.lists == v.lists && v'.leases == v.leases
    ensures LinesInv(v')
  {
    forall p: Priority
      ensures LineOk(v', p)
    {
      assert LineOk(v, p);
      forall j
        ensures Serves(v', p, j) <==> Serves(v, p, j)
      {
      }
    }
  }

  lemma EnqueueLines(v: Plain, m: Message, now: Time)
    requires LinesInv(v) && |v.st.ready| == 3
    ensures LinesInv(Enqueue(v, m, now))
  {
    if m.Waiting(now) {
      SameLinesInv(v, Enqueue(v, m, now));
    } else {
      AppendLines(v, Submitted(v, m, Ready), m);
    }
  }

  lemma ServeLines(v: Plain, k: string, now: Time, deadline: Time)
    requires LinesBut(v, k) && ContentsInv(v) && k !in Busy(v.leases)
    ensures LinesInv(Serve(v, k, now, deadline).0)
  {
    var v1 := DropExpired(v, k, now);
    DropExpiredFrame(v, k, now);
    DropExpiredContents(v, k, now);
    ButFrame(v, v1, k);
    if ListOf(v1.lists, k) == [] {
      Settle(v1, k);
    } else {
      DeliverLines(v1, k, deadline);
    }
  }

  lemma DeliverGroup(v: Plain, k: string, deadline: Time)
    requires ListOf(v.lists, k) != [] && v.lists[k][0].Key() == k && v.lists[k][0].id !in v.leases && |v.st.ready| == 3
    ensures OnlyGroup(v, Deliver(v, k, deadline).0, k)
    ensures k in Busy(Deliver(v, k, deadline).0.leases)
  {
    var (v', d) := Deliver(v, k, deadline);
    InFlightAdd(v.leases, v.lists[k][0].id, d);
    assert v'.lists - {k} == v.lists - {k};
  }

  lemma DeliverLines(v: Plain, k: string, deadline: Time)
    requires LinesBut(v, k) && ContentsInv(v) && ListOf(v.lists, k) != [] && k !in Busy(v.leases)
    ensures LinesInv(Deliver(v, k, deadline).0)
  {
    ReadyPop(v.lists, k);
    IdsOf(v);
    DeliverGroup(v, k, deadline);
    ButFrame(v, Deliver(v, k, deadline).0, k);
    Settle(Deliver(v, k, deadline).0, k);
  }

  lemma TakeLines(v: Plain, p: Priority, now: Time, deadline: Time)
    requires Inv(v)
    ensures LinesInv(Take(v, p, now, deadline).0)
  {
    if Line(v, p) != [] {
      PulledLines(v, p);
      SameContents(v, Pulled(v, p));
      ServeLines(Pulled(v, p), Line(v, p)[0], now, deadline);
    }
  }

  lemma ReleaseLines(v: Plain, k: string)
    requires LinesBut(v, k) && k !in Busy(v.leases)
    ensures LinesInv(Release(v, k))
  {
    if ListOf(v.lists, k) != [] { JoinLines(v, k); } else { Settle(v, k); }
  }

  /** The delivery of `id` ended, and at most its own group's list changed. */
  lemma EndLines(v: Plain, v': Plain, id: string)
    requires Inv(v) && id in v.leases && v'.leases == v.leases - {id} && v'.lines == v.lines
    requires v'.lists - {v.leases[id].msg.Key()} == v.lists - {v.leases[id].msg.Key()}
    ensures LinesInv(Release(v', v.leases[id].msg.Key()))
  {
    var k := v.leases[id].msg.Key();
    InFlightDrop(v.leases, v.epoch, id);
    assert k in Busy(v.leases);
    Open(v, k);
    ButFrame(v, v', k);
    ReleaseLines(v', k);
  }

  lemma AckLines(v: Plain, id: string, epoch: nat)
    requires Inv(v)
    ensures LinesInv(Ack(v, id, epoch).0)
  {
    if Ack(v, id, epoch).1 == Done {
      EndLines(v, Acked(v, id), id);
    }
  }

  lemma RetiredFrame(v: Plain, id: string, now: Time, delay: Time, retry: Retry)
    requires id in v.leases && |v.st.ready| == 3
    ensures var v' := Retired(v, id, now, delay, retry);
            && v'.leases == v.leases - {id} && v'.lines == v.lines && v'.epoch == v.epoch
            && v'.lists - {v.leases[id].msg.Key()} == v.lists - {v.leases[id].msg.Key()}
  {
  }

  lemma RetireLines(v: Plain, id: string, now: Time, delay: Time, retry: Retry)
    requires Inv(v) && id in v.leases
    ensures LinesInv(Retire(v, id, now, delay, retry).0)
  {
    RetiredFrame(v, id, now, delay, retry);
    EndLines(v, Retired(v, id, now, delay, retry), id);
  }

  lemma ReleaseDelayedLines(v: Plain, m: Message)
    requires LinesInv(v) && |v.st.ready| == 3
    ensures LinesInv(ReleaseDelayed(v, m))
  {
    AppendLines(v, Moved(v.(delayed := v.delayed - {m}), Due(m), Delayed, Ready), Due(m));
  }

  lemma ExpireLines(v: Plain, k: string, now: Time)
    requires LinesInv(v) && |v.st.ready| == 3
    ensures LinesInv(Expire(v, k, now))
  {
    DropExpiredFrame(v, k, now);
    RelistLines(v, DropExpired(v, k, now), k);
  }

  lemma AbsorbGroupLines(v: Plain, k: string, ms: seq<Message>)
    requires LinesInv(v) && |v.st.ready| == 3
    ensures LinesInv(AbsorbGroup(v, k, ms))
  {
    RelistLines(v, v.(lists := SetList(v.lists, k, ms + ListOf(v.lists, k)), st := ArriveStats(v.st, ms)), k);
  }

  lemma DrainLines(v: Plain)
    ensures LinesInv(Drain(v).0)
  {
    var v' := Drain(v).0;
    forall p: Priority
      ensures LineOk(v', p)
    {
      assert v'.lines[p] == [];
    }
  }
}
