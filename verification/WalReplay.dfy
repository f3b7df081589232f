/** Replaying a slot's log: a fold over its records, and the list it hands to recovery. */
module WalReplay {
  import opened Messages
  import opened WalRecord

  // ---- Entries ----

  /** What an enqueue record keeps of a message: everything but the attempts. */
  datatype Payload = Payload(
    id: string,
    payload: Bytes,
    priority: Priority,
    group: string,
    seqNo: nat,
    at: Time,
    exp: Option<Time>,
    after: Option<Time>)

  function PayloadFromMessage(m: Message): Payload {
    Payload(m.id, m.payload, m.priority, m.groupId, m.seqNo, m.enqueuedAt, m.expiresAt, m.deliverAfter)
  }

  function MessageFromPayload(p: Payload): Message {
    Message(p.id, p.payload, p.priority, p.group, p.seqNo, p.at, p.exp, p.after, 0)
  }

  datatype Entry =
    | Enqueue(p: Payload)
    | Attempt(id: string, n: nat, epoch: nat)
    | Terminal(id: string, why: nat)

  function KindOf(e: Entry): Byte {
    match e
    case Enqueue(_) => 1
    case Attempt(_, _, _) => 2
    case Terminal(_, _) => 3
  }

  function IdOf(e: Entry): string {
    match e
    case Enqueue(p) => p.id
    case Attempt(id, _, _) => id
    case Terminal(id, _) => id
  }

  /** How bodies are written and read. Nothing is assumed of it but that what was written can be read. */
  datatype Codec = Codec(enc: Entry -> Bytes, dec: (Byte, Bytes) -> Option<Entry>)

  ghost predicate Faithful(c: Codec) {
    forall e :: c.dec(KindOf(e), c.enc(e)) == Some(e)
  }

  function RecOf(c: Codec, e: Entry): Rec {
    Rec(KindOf(e), c.enc(e))
  }

  function RecsOf(c: Codec, es: seq<Entry>): (rs: seq<Rec>)
    ensures |rs| == |es| && forall i :: 0 <= i < |es| ==> rs[i] == RecOf(c, es[i])
  {
    seq(|es|, i requires 0 <= i < |es| => RecOf(c, es[i]))
  }

  // ---- The fold ----

  /** The messages not ended yet, and the ids in the order they were first seen. */
  datatype Live = Live(live: map<string, Message>, order: seq<string>)

  const START := Live(map[], [])

  function Apply(s: Live, e: Entry): Live {
    match e
    case Enqueue(p) =>
      Live(s.live[p.id := MessageFromPayload(p)], if p.id in s.live then s.order else s.order + [p.id])
    case Attempt(id, n, _) => if id in s.live then s.(live := s.live[id := s.live[id].(attempts := n)]) else s
    case Terminal(id, _) => s.(live := s.live - {id})
  }

  function Fold(s: Live, es: seq<Entry>): Live {
    if es == [] then s else Apply(Fold(s, es[..|es| - 1]), es[|es| - 1])
  }

  /** The ids in order, those still live, as messages. */
  function Listing(s: Live): seq<Message> {
    ListingOf(s.live, s.order)
  }

  function ListingOf(live: map<string, Message>, order: seq<string>): seq<Message> {
    if order == [] then []
    else
      var id := order[|order| - 1];
      ListingOf(live, order[..|order| - 1]) + (if id in live then [live[id]] else [])
  }

  // ---- The fold over records: an unknown kind is skipped, an unreadable body fails the replay ----

  predicate Known(k: Byte) {
    1 <= k <= 3
  }

  function FoldRecs(c: Codec, s: Live, rs: seq<Rec>): Option<Live>
    decreases |rs|
  {
    if rs == [] then Some(s)
    else if !Known(rs[0].kind) then FoldRecs(c, s, rs[1..])
    else
      match c.dec(rs[0].kind, rs[0].body)
      case None => None
      case Some(e) => FoldRecs(c, Apply(s, e), rs[1..])
  }

  lemma {:induction false} FoldFront(s: Live, e: Entry, es: seq<Entry>)
    ensures Fold(s, [e] + es) == Fold(Apply(s, e), es)
    decreases |es|
  {
    var all := [e] + es;
    if es == [] {
      assert all[..0] == [];
    } else {
      FoldFront(s, e, es[..|es| - 1]);
      assert all[..|all| - 1] == [e] + es[..|es| - 1];
    }
  }

  lemma {:induction false} FoldAppend(s: Live, a: seq<Entry>, b: seq<Entry>)
    ensures Fold(s, a + b) == Fold(Fold(s, a), b)
    decreases |b|
  {
    if b == [] {
      assert a + b == a;
    } else {
      FoldAppend(s, a, b[..|b| - 1]);
      assert (a + b)[..|a + b| - 1] == a + b[..|b| - 1];
    }
  }

  /** Reading back the records of `es` folds `es`. */
  lemma {:induction false} RecordsFold(c: Codec, s: Live, es: seq<Entry>)
    requires Faithful(c)
    ensures FoldRecs(c, s, RecsOf(c, es)) == Some(Fold(s, es))
    decreases |es|
  {
    if es != [] {
      var e := es[0];
      assert RecsOf(c, es)[1..] == RecsOf(c, es[1..]);
      assert c.dec(KindOf(e), c.enc(e)) == Some(e);
      RecordsFold(c, Apply(s, e), es[1..]);
      FoldFront(s, e, es[1..]);
      assert es == [e] + es[1..];
    }
  }

  // ---- The replay itself ----

  datatype Replayed = Failed | Replayed(msgs: seq<Message>, file: Bytes)

  /** What replaying `file` must come to: the listing of the fold, with a torn tail cut off. */
  function ReplaySpec(c: Codec, file: Bytes): Replayed {
    var a := ReadAll(file);
    match FoldRecs(c, START, a.recs)
    case None => Failed
    case Some(s) => Replayed(Listing(s), if a.torn then file[..a.good] else file)
  }

  method ApplyEntry(live0: map<string, Message>, order0: seq<string>, e: Entry)
    returns (live: map<string, Message>, order: seq<string>)
    ensures Live(live, order) == Apply(Live(live0, order0), e)
  {
    live, order := live0, order0;
    match e {
      case Enqueue(p) =>
        if p.id !in live {
          order := order + [p.id];
        }
        live := live[p.id := MessageFromPayload(p)];
      case Attempt(id, n, _) =>
        if id in live {
          live := live[id := live[id].(attempts := n)];
        }
      case Terminal(id, _) =>
        live := live - {id};
    }
  }

  /** `replaySlot`. */
  method ReplaySlot(c: Codec, file: Bytes) returns (r: Replayed)
    ensures r == ReplaySpec(c, file)
  {
    hide Apply, ReadFront, Crc32;
    var reader := new Reader(file);
    var live: map<string, Message> := map[];
    var order: seq<string> := [];
    var good := 0;
    var after := file;
    ghost var all := ReadAll(file);
    assert file[0..] == file;
    while true
      invariant good == reader.pos <= |file| && reader.data == file && after == file
      invariant var rest := ReadAll(file[good..]);
                all.good == good + rest.good && all.torn == rest.torn &&
                FoldRecs(c, START, all.recs) == FoldRecs(c, Live(live, order), rest.recs)
      decreases |file| - good
    {
      var o := reader.ReadRecord();
      if o.End? {
        break;
      }
      if o.Torn? {
        after := file[..good];
        break;
      }
      assert file[good..][HEADER + |o.rec.body|..] == file[good + HEADER + |o.rec.body|..];
      good := good + HEADER + |o.rec.body|;
      if Known(o.rec.kind) {
        var e := c.dec(o.rec.kind, o.rec.body);
        if e.None? {
          return Failed;
        }
        live, order := ApplyEntry(live, order, e.value);
      }
    }
    var msgs := [];
    var i := 0;
    while i < |order|
      invariant i <= |order| && msgs == ListingOf(live, order[..i])
    {
      assert order[..i + 1][..i] == order[..i];
      if order[i] in live {
        msgs := msgs + [live[order[i]]];
      }
      i := i + 1;
    }
    assert order[..i] == order;
    r := Replayed(msgs, after);
  }

  ghost predicate EntriesFit(c: Codec, es: seq<Entry>) {
    forall i :: 0 <= i < |es| ==> Fits(RecOf(c, es[i]))
  }

  /**
   * A log of entries, cut at any byte, replays to the fold of the entries that lie wholly before the cut, and is left as
   * the log of just those.
   */
  lemma ReplayOfCut(c: Codec, es: seq<Entry>, cut: nat)
    requires Faithful(c) && EntriesFit(c, es) && cut <= |File(RecsOf(c, es))|
    ensures var k := Whole(RecsOf(c, es), cut);
            ReplaySpec(c, File(RecsOf(c, es))[..cut]) ==
            Replayed(Listing(Fold(START, es[..k])), File(RecsOf(c, es[..k])))
  {
    hide File, Whole, ReadAll, Fold, FoldRecs, Listing;
    var rs := RecsOf(c, es);
    assert AllFit(rs);
    CutAnywhere(rs, cut);
    Truncated(rs, cut);
    var k := Whole(rs, cut);
    assert rs[..k] == RecsOf(c, es[..k]);
    RecordsFold(c, START, es[..k]);
    assert ReadAll(File(rs)[..cut]).good == cut ==> File(rs)[..cut][..cut] == File(rs)[..cut];
  }

  // ---- What the list holds ----

  ghost predicate Sane(s: Live) {
    && (forall id | id in s.live :: s.live[id].id == id)
    && (forall id | id in s.live :: id in s.order)
  }

  lemma {:induction false} FoldSane(es: seq<Entry>)
    ensures Sane(Fold(START, es))
  {
    if es != [] { FoldSane(es[..|es| - 1]); }
  }

  function Count(order: seq<string>, id: string): nat {
    if order == [] then 0
    else Count(order[..|order| - 1], id) + (if order[|order| - 1] == id then 1 else 0)
  }

  lemma {:induction false} CountIn(order: seq<string>, id: string)
    ensures Count(order, id) > 0 <==> id in order
  {
    if order != [] {
      CountIn(order[..|order| - 1], id);
      assert order == order[..|order| - 1] + [order[|order| - 1]];
    }
  }

  lemma CountPush(order: seq<string>, x: string, id: string)
    ensures Count(order + [x], id) == Count(order, id) + (if x == id then 1 else 0)
  {
    assert (order + [x])[..|order|] == order;
  }

  /** The list holds each live message as often as its id stands in the order. */
  lemma {:induction false} ListingHas(live: map<string, Message>, order: seq<string>, m: Message)
    requires forall id | id in live :: live[id].id == id
    ensures m in ListingOf(live, order) <==> m.id in live && live[m.id] == m && m.id in order
  {
    if order != [] {
      ListingHas(live, order[..|order| - 1], m);
      assert order == order[..|order| - 1] + [order[|order| - 1]];
    }
  }

  /** The messages of a replay are the live ones, all of them. */
  lemma ListingIsLive(es: seq<Entry>)
    ensures var s := Fold(START, es);
            forall m :: m in Listing(s) <==> m.id in s.live && s.live[m.id] == m
  {
    hide Fold;
    FoldSane(es);
    var s := Fold(START, es);
    forall m
      ensures m in Listing(s) <==> m.id in s.live && s.live[m.id] == m
    {
      ListingHas(s.live, s.order, m);
    }
  }

  /** No id is enqueued twice. */
  ghost predicate IdsOnce(es: seq<Entry>) {
    forall i, j :: 0 <= i < j < |es| && es[i].Enqueue? && es[j].Enqueue? ==> es[i].p.id != es[j].p.id
  }

  lemma {:induction false} EnqueuedInOrder(es: seq<Entry>, i: nat)
    requires i < |es| && es[i].Enqueue?
    ensures es[i].p.id in Fold(START, es).order
  {
    var n := |es| - 1;
    FoldSane(es[..n]);
    if i < n { EnqueuedInOrder(es[..n], i); }
  }

  lemma {:induction false} LiveWasEnqueued(es: seq<Entry>, id: string)
    requires id in Fold(START, es).live
    ensures exists i :: 0 <= i < |es| && es[i].Enqueue? && es[i].p.id == id
  {
    if es != [] {
      var n := |es| - 1;
      if !(es[n].Enqueue? && es[n].p.id == id) {
        LiveWasEnqueued(es[..n], id);
        var i :| 0 <= i < n && es[..n][i].Enqueue? && es[..n][i].p.id == id;
        assert es[i].Enqueue?;
      }
    }
  }

  /** The order is that of the enqueues. */
  lemma {:induction false} OrderFollows(es: seq<Entry>, i: nat, j: nat) returns (x: nat, y: nat)
    requires i < j < |es| && es[i].Enqueue? && es[j].Enqueue? && IdsOnce(es)
    ensures x < y < |Fold(START, es).order|
    ensures Fold(START, es).order[x] == es[i].p.id && Fold(START, es).order[y] == es[j].p.id
  {
    var n := |es| - 1;
    var s := Fold(START, es[..n]);
    if j < n {
      x, y := OrderFollows(es[..n], i, j);
    } else {
      EnqueuedInOrder(es[..n], i);
      x :| 0 <= x < |s.order| && s.order[x] == es[i].p.id;
      y := |s.order|;
      if es[n].p.id in s.live {
        LiveWasEnqueued(es[..n], es[n].p.id);
        assert false;
      }
    }
  }

  lemma {:induction false} ListingFollows(live: map<string, Message>, order: seq<string>, x: nat, y: nat)
    requires (forall id | id in live :: live[id].id == id) && x < y < |order| && order[x] in live && order[y] in live
    ensures exists a, b :: 0 <= a < b < |ListingOf(live, order)| &&
              ListingOf(live, order)[a] == live[order[x]] && ListingOf(live, order)[b] == live[order[y]]
  {
    var n := |order| - 1;
    var (front, all) := (ListingOf(live, order[..n]), ListingOf(live, order));
    if y < n {
      ListingFollows(live, order[..n], x, y);
      var a, b :| 0 <= a < b < |front| && front[a] == live[order[..n][x]] && front[b] == live[order[..n][y]];
      assert all[a] == live[order[x]] && all[b] == live[order[y]];
    } else {
      ListingHas(live, order[..n], live[order[x]]);
      assert order[..n][x] in order[..n];
      var a :| 0 <= a < |front| && front[a] == live[order[x]];
      assert all[a] == live[order[x]] && all[|front|] == live[order[y]];
    }
  }

  /** Of two messages that are live, the one enqueued first is listed first. */
  lemma ListedInOrder(es: seq<Entry>, i: nat, j: nat)
    requires i < j < |es| && es[i].Enqueue? && es[j].Enqueue? && IdsOnce(es)
    requires es[i].p.id in Fold(START, es).live && es[j].p.id in Fold(START, es).live
    ensures var l := Listing(Fold(START, es));
            exists a, b :: 0 <= a < b < |l| && l[a].id == es[i].p.id && l[b].id == es[j].p.id
  {
    var s := Fold(START, es);
    FoldSane(es);
    var x, y := OrderFollows(es, i, j);
    hide Fold, ListingOf;
    ListingFollows(s.live, s.order, x, y);
    var a, b :| 0 <= a < b < |ListingOf(s.live, s.order)| &&
                ListingOf(s.live, s.order)[a] == s.live[s.order[x]] && ListingOf(s.live, s.order)[b] == s.live[s.order[y]];
    assert Listing(s)[a].id == es[i].p.id && Listing(s)[b].id == es[j].p.id;
  }

  // ---- An id used again ----

  /** Entry `i` ends message `id`. */
  ghost predicate EndsAt(es: seq<Entry>, i: nat, id: string)
    requires i < |es|
  {
    es[i].Terminal? && es[i].id == id && id in Fold(START, es[..i]).live
  }

  ghost predicate Ended(es: seq<Entry>, id: string) {
    exists i :: 0 <= i < |es| && EndsAt(es, i, id)
  }

  /** Message `id` was enqueued again after it had ended. */
  ghost predicate Reused(es: seq<Entry>, id: string) {
    exists i, j :: 0 <= i < j < |es| && EndsAt(es, i, id) && es[j].Enqueue? && es[j].p.id == id
  }

  lemma EndsPrefix(es: seq<Entry>, i: nat, id: string)
    requires i < |es| - 1
    ensures EndsAt(es, i, id) <==> EndsAt(es[..|es| - 1], i, id)
  {
    assert es[..|es| - 1][..i] == es[..i];
  }

  lemma EndedMore(es: seq<Entry>, id: string)
    requires es != []
    ensures Ended(es, id) <==> Ended(es[..|es| - 1], id) || EndsAt(es, |es| - 1, id)
  {
    var front := es[..|es| - 1];
    if Ended(front, id) {
      var i :| 0 <= i < |front| && EndsAt(front, i, id);
      EndsPrefix(es, i, id);
      assert EndsAt(es, i, id);
    }
    if Ended(es, id) {
      var i :| 0 <= i < |es| && EndsAt(es, i, id);
      if i < |es| - 1 { EndsPrefix(es, i, id); assert EndsAt(front, i, id); }
    }
  }

  lemma ReusedMore(es: seq<Entry>, id: string)
    requires es != []
    ensures var last := es[|es| - 1];
            Reused(es, id) <==> Reused(es[..|es| - 1], id) || (last.Enqueue? && last.p.id == id && Ended(es[..|es| - 1], id))
  {
    var n := |es| - 1;
    var front := es[..n];
    if Reused(front, id) {
      var i, j :| 0 <= i < j < |front| && EndsAt(front, i, id) && front[j].Enqueue? && front[j].p.id == id;
      EndsPrefix(es, i, id);
      assert EndsAt(es, i, id) && es[j].Enqueue? && es[j].p.id == id;
    }
    if es[n].Enqueue? && es[n].p.id == id && Ended(front, id) {
      var i :| 0 <= i < |front| && EndsAt(front, i, id);
      EndsPrefix(es, i, id);
      assert EndsAt(es, i, id) && es[n].Enqueue? && es[n].p.id == id;
    }
    if Reused(es, id) {
      var i, j :| 0 <= i < j < |es| && EndsAt(es, i, id) && es[j].Enqueue? && es[j].p.id == id;
      EndsPrefix(es, i, id);
      assert EndsAt(front, i, id);
      if j < n { assert front[j].Enqueue? && front[j].p.id == id; }
    }
  }

  /** An id stands in the order twice just when it was enqueued again after it had ended. */
  lemma {:induction false} TwiceIffReused(es: seq<Entry>, id: string)
    ensures var s := Fold(START, es);
            && (Count(s.order, id) >= 2 <==> Reused(es, id))
            && (Count(s.order, id) >= 1 && id !in s.live ==> Ended(es, id))
            && (Ended(es, id) ==> Count(s.order, id) >= 1 && (id in s.live ==> Reused(es, id)))
  {
    if es == [] {
      NothingTwice(id);
    } else {
      hide Reused, Ended, Fold, Apply, Count, Sane;
      var n := |es| - 1;
      var (e, front) := (es[n], es[..n]);
      FoldLast(es);
      TwiceIffReused(front, id);
      EndedMore(es, id);
      ReusedMore(es, id);
      FoldSane(front);
      CountStep(Fold(START, front), e, id);
    }
  }

  lemma FoldLast(es: seq<Entry>)
    requires es != []
    ensures Fold(START, es) == Apply(Fold(START, es[..|es| - 1]), es[|es| - 1])
  {
  }

  lemma NothingTwice(id: string)
    ensures Count(Fold(START, []).order, id) == 0 && !Reused([], id) && !Ended([], id)
  {
  }

  /** What one entry does to an id's place in the order. */
  lemma CountStep(s: Live, e: Entry, id: string)
    requires Sane(s)
    ensures var s' := Apply(s, e);
            && Count(s'.order, id) == Count(s.order, id) + (if e.Enqueue? && e.p.id == id && id !in s.live then 1 else 0)
            && (id in s.live ==> Count(s.order, id) >= 1)
            && (id in s'.live <==> if e.Enqueue? && e.p.id == id then true else id in s.live && !(e.Terminal? && e.id == id))
  {
    if id in s.live { CountIn(s.order, id); }
    if e.Enqueue? { CountPush(s.order, e.p.id, id); }
  }

  function Occurrences(ms: seq<Message>, id: string): nat {
    if ms == [] then 0
    else Occurrences(ms[..|ms| - 1], id) + (if ms[|ms| - 1].id == id then 1 else 0)
  }

  lemma {:induction false} ListedAsOften(live: map<string, Message>, order: seq<string>, id: string)
    requires forall k | k in live :: live[k].id == k
    ensures Occurrences(ListingOf(live, order), id) == if id in live then Count(order, id) else 0
  {
    if order != [] {
      var front := order[..|order| - 1];
      var last := order[|order| - 1];
      ListedAsOften(live, front, id);
      if last in live {
        assert (ListingOf(live, front) + [live[last]])[..|ListingOf(live, front)|] == ListingOf(live, front);
      } else {
        assert ListingOf(live, front) + [] == ListingOf(live, front);
      }
    }
  }

  /** A replay hands a message over more than once just when its id was used again after its end, and is live. */
  lemma ListedTwiceIff(es: seq<Entry>, id: string)
    ensures var s := Fold(START, es);
            Occurrences(Listing(s), id) >= 2 <==> Reused(es, id) && id in s.live
  {
    hide Fold;
    FoldSane(es);
    var s := Fold(START, es);
    ListedAsOften(s.live, s.order, id);
    TwiceIffReused(es, id);
  }

  /** It happens: enqueued, ended, and enqueued again into the same log. */
  lemma ListedTwice(p: Payload, why: nat)
    ensures Occurrences(Listing(Fold(START, [Enqueue(p), Terminal(p.id, why), Enqueue(p)])), p.id) >= 2
  {
    var es := [Enqueue(p), Terminal(p.id, why), Enqueue(p)];
    assert es[..2] == [Enqueue(p), Terminal(p.id, why)] && es[..2][..1] == [Enqueue(p)] == es[..1] && es[..1][..0] == [];
    assert Fold(START, es[..1]) == Apply(START, Enqueue(p));
    assert EndsAt(es, 1, p.id);
    ListedTwiceIff(es, p.id);
  }
}
