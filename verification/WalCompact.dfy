/** Compaction: a snapshot's records, spliced onto the log from a mark, replay to what the whole log replays to. */
module WalCompact {
  import opened Messages
  import opened Seqs
  import opened PlainContents
  import opened WalRecord
  import opened WalReplay

  // ---- What is written ----

  /** A message as records: its enqueue, and its attempts if there were any. */
  function EntriesOf(m: Message): seq<Entry> {
    [Enqueue(PayloadFromMessage(m))] + (if m.attempts > 0 then [Attempt(m.id, m.attempts, 0)] else [])
  }

  function SnapEntries(ms: seq<Message>): seq<Entry> {
    if ms == [] then [] else SnapEntries(ms[..|ms| - 1]) + EntriesOf(ms[|ms| - 1])
  }

  function Tail(file: Bytes, from: nat): Bytes {
    if |file| <= from then [] else file[from..]
  }

  /** `Compact`: the snapshot's records, then what was written past the mark. */
  method Compact(c: Codec, file: Bytes, ms: seq<Message>, from: nat) returns (f: Bytes)
    ensures f == File(RecsOf(c, SnapEntries(ms))) + Tail(file, from)
  {
    hide Encode, File;
    FileNone();
    f := [];
    var i := 0;
    assert RecsOf(c, SnapEntries(ms[..0])) == [];
    while i < |ms|
      invariant i <= |ms| && f == File(RecsOf(c, SnapEntries(ms[..i])))
    {
      var m := ms[i];
      assert ms[..i + 1][..i] == ms[..i];
      MoreRecords(c, SnapEntries(ms[..i]), m);
      f := f + Encode(RecOf(c, Enqueue(PayloadFromMessage(m))));
      if m.attempts > 0 {
        f := f + Encode(RecOf(c, Attempt(m.id, m.attempts, 0)));
      }
      i := i + 1;
    }
    assert ms[..i] == ms;
    if |file| > from {
      f := f + file[from..];
    }
  }

  lemma OneRecord(c: Codec, es: seq<Entry>, e: Entry)
    ensures File(RecsOf(c, es + [e])) == File(RecsOf(c, es)) + Encode(RecOf(c, e))
  {
    hide Encode;
    assert RecsOf(c, es + [e]) == RecsOf(c, es) + [RecOf(c, e)];
    FileAppend(RecsOf(c, es), [RecOf(c, e)]);
    assert [RecOf(c, e)][1..] == [];
    assert File([RecOf(c, e)]) == Encode(RecOf(c, e)) + File([]);
  }

  lemma MoreRecords(c: Codec, es: seq<Entry>, m: Message)
    ensures var f := File(RecsOf(c, es)) + Encode(RecOf(c, Enqueue(PayloadFromMessage(m))));
            File(RecsOf(c, es + EntriesOf(m))) ==
            if m.attempts > 0 then f + Encode(RecOf(c, Attempt(m.id, m.attempts, 0))) else f
  {
    hide Encode, File, RecsOf;
    var e := Enqueue(PayloadFromMessage(m));
    OneRecord(c, es, e);
    if m.attempts > 0 {
      var a := Attempt(m.id, m.attempts, 0);
      OneRecord(c, es + [e], a);
      assert es + EntriesOf(m) == es + [e] + [a];
    } else {
      assert es + EntriesOf(m) == es + [e];
    }
  }

  // ---- One id at a time ----

  function Look(live: map<string, Message>, id: string): Option<Message> {
    if id in live then Some(live[id]) else None
  }

  /** What one entry makes of message `id`. */
  function Touch(o: Option<Message>, e: Entry, id: string): Option<Message> {
    match e
    case Enqueue(p) => if p.id == id then Some(MessageFromPayload(p)) else o
    case Attempt(i, n, _) => if i == id && o.Some? then Some(o.value.(attempts := n)) else o
    case Terminal(i, _) => if i == id then None else o
  }

  function Track(o: Option<Message>, es: seq<Entry>, id: string): Option<Message> {
    if es == [] then o else Touch(Track(o, es[..|es| - 1], id), es[|es| - 1], id)
  }

  lemma {:induction false} FoldTracks(s: Live, es: seq<Entry>, id: string)
    ensures Look(Fold(s, es).live, id) == Track(Look(s.live, id), es, id)
  {
    if es != [] { FoldTracks(s, es[..|es| - 1], id); }
  }

  lemma {:induction false} TrackAppend(o: Option<Message>, a: seq<Entry>, b: seq<Entry>, id: string)
    ensures Track(o, a + b, id) == Track(Track(o, a, id), b, id)
    decreases |b|
  {
    if b == [] {
      assert a + b == a;
    } else {
      TrackAppend(o, a, b[..|b| - 1], id);
      assert (a + b)[..|a + b| - 1] == a + b[..|b| - 1];
    }
  }

  /** Some entry settles whether `id` is live, whatever was before. */
  predicate Settles(es: seq<Entry>, id: string) {
    exists i :: 0 <= i < |es| && !es[i].Attempt? && IdOf(es[i]) == id
  }

  lemma SettlesMore(es: seq<Entry>, id: string)
    requires es != []
    ensures var last := es[|es| - 1];
            Settles(es, id) <==> Settles(es[..|es| - 1], id) || (!last.Attempt? && IdOf(last) == id)
  {
    var front := es[..|es| - 1];
    if Settles(front, id) {
      var i :| 0 <= i < |front| && !front[i].Attempt? && IdOf(front[i]) == id;
      assert !es[i].Attempt? && IdOf(es[i]) == id;
    }
    if Settles(es, id) {
      var i :| 0 <= i < |es| && !es[i].Attempt? && IdOf(es[i]) == id;
      if i < |front| { assert !front[i].Attempt? && IdOf(front[i]) == id; }
    }
  }

  /** Entries that settle `id` forget where they started; others leave an absent message absent. */
  lemma {:induction false} Forgets(o: Option<Message>, o': Option<Message>, es: seq<Entry>, id: string)
    ensures Settles(es, id) ==> Track(o, es, id) == Track(o', es, id)
    ensures !Settles(es, id) ==> (Track(o, es, id).None? <==> o.None?)
  {
    if es != [] {
      Forgets(o, o', es[..|es| - 1], id);
      SettlesMore(es, id);
    }
  }

  /** Applying the same attempts again changes nothing. */
  lemma {:induction false} AttemptsTwice(o: Option<Message>, es: seq<Entry>, id: string)
    requires !Settles(es, id) && o.Some?
    ensures var r := Track(o, es, id);
            && r.Some? && r.value.(attempts := 0) == o.value.(attempts := 0)
            && forall o': Option<Message> :: o'.Some? && o'.value.(attempts := 0) == o.value.(attempts := 0) ==>
                 Track(o', es, id) == r || (Track(o', es, id) == o' && r == o)
  {
    if es != [] {
      SettlesMore(es, id);
      AttemptsTwice(o, es[..|es| - 1], id);
    }
  }

  /** Replaying a stretch of the log on top of what it led to leads there again. */
  lemma Again(o: Option<Message>, es: seq<Entry>, id: string)
    ensures Track(Track(o, es, id), es, id) == Track(o, es, id)
  {
    if Settles(es, id) {
      Forgets(o, Track(o, es, id), es, id);
    } else if o.Some? {
      AttemptsTwice(o, es, id);
    } else {
      Forgets(o, o, es, id);
    }
  }

  /** Started from nothing, a stretch leads to the same end or to nothing. */
  lemma FromNothing(o: Option<Message>, es: seq<Entry>, id: string)
    ensures Track(None, es, id) == None || Track(None, es, id) == Track(o, es, id)
  {
    Forgets(None, o, es, id);
  }

  // ---- The snapshot ----

  lemma {:induction false} SnapTracks(ms: seq<Message>, id: string)
    requires NewIds(ms, {})
    ensures forall m | m in ms && m.id == id :: Track(None, SnapEntries(ms), id) == Some(m)
    ensures (forall m | m in ms :: m.id != id) ==> Track(None, SnapEntries(ms), id) == None
  {
    if ms != [] {
      var (front, last) := (ms[..|ms| - 1], ms[|ms| - 1]);
      SnapTracks(front, id);
      TrackAppend(None, SnapEntries(front), EntriesOf(last), id);
      TrackOne(Track(None, SnapEntries(front), id), last, id);
      forall m | m in front
        ensures m.id != last.id
      {
        var i :| 0 <= i < |front| && front[i] == m;
        assert ms[i].id != ms[|ms| - 1].id;
      }
    }
  }

  lemma TrackOne(o: Option<Message>, m: Message, id: string)
    ensures Track(o, EntriesOf(m), id) == if m.id == id then Some(m) else o
  {
    var e := Enqueue(PayloadFromMessage(m));
    assert Track(o, [], id) == o;
    assert [e][..0] == [];
    assert Track(o, [e], id) == Touch(Track(o, [], id), e, id);
    if m.attempts > 0 {
      var a := Attempt(m.id, m.attempts, 0);
      assert [e, a][..1] == [e] && EntriesOf(m) == [e, a];
      assert Track(o, [e, a], id) == Touch(Track(o, [e], id), a, id);
    } else {
      assert EntriesOf(m) == [e];
    }
  }

  // ---- Compaction ----

  /** The messages of `ms` are live at `live`, as they are there. */
  ghost predicate TakenFrom(ms: seq<Message>, live: map<string, Message>) {
    NewIds(ms, {}) && forall m | m in ms :: m.id in live && live[m.id] == m
  }

  ghost predicate Covers(ms: seq<Message>, id: string) {
    exists m :: m in ms && m.id == id
  }

  /** One message through a compaction: kept as the log has it, or dropped if the snapshot had dropped it. */
  lemma CompactOne(es: seq<Entry>, mark: nat, at: nat, ms: seq<Message>, id: string)
    requires mark <= at <= |es| && TakenFrom(ms, Fold(START, es[..at]).live)
    ensures var got := Track(None, SnapEntries(ms) + es[mark..], id);
            var want := Track(None, es, id);
            && (got == want || got == None)
            && (Covers(ms, id) || Track(None, es[..at], id) == None ==> got == want)
  {
    var (a, b, d) := (es[..mark], es[mark..at], es[at..]);
    Splits(es, mark, at);
    FoldTracks(START, es[..at], id);
    TrackAppend(None, a, b, id);
    TrackAppend(None, es[..at], d, id);
    TrackAppend(None, SnapEntries(ms), es[mark..], id);
    var s := Track(None, SnapEntries(ms), id);
    TrackAppend(s, b, d, id);
    SnapTracks(ms, id);
    var p := Track(None, es[..at], id);
    if Covers(ms, id) {
      var m :| m in ms && m.id == id;
      assert s == Some(m) == p;
      Again(Track(None, a, id), b, id);
    } else {
      assert s == None;
      FromNothing(Track(None, a, id), b, id);
      FromNothing(p, d, id);
    }
  }

  /**
   * If the snapshot is what the log says at some point at or after the mark, replaying the compacted log gives exactly the
   * messages of the whole log, attempts included. Messages the snapshot had already let go of may be missing, and nothing
   * else may.
   */
  lemma CompactionKeepsReplay(es: seq<Entry>, mark: nat, at: nat, ms: seq<Message>)
    requires mark <= at <= |es| && TakenFrom(ms, Fold(START, es[..at]).live)
    ensures var got := Fold(START, SnapEntries(ms) + es[mark..]).live;
            var want := Fold(START, es).live;
            && (forall id | id in got :: id in want && got[id] == want[id])
            && (forall id | id in want :: id in got || (id in Fold(START, es[..at]).live && !Covers(ms, id)))
            && ((forall id | id in Fold(START, es[..at]).live :: Covers(ms, id)) ==> got == want)
  {
    var got := Fold(START, SnapEntries(ms) + es[mark..]).live;
    var want := Fold(START, es).live;
    forall id
      ensures Look(got, id) == Look(want, id) || (Look(got, id) == None && id in Fold(START, es[..at]).live && !Covers(ms, id))
    {
      FoldTracks(START, SnapEntries(ms) + es[mark..], id);
      FoldTracks(START, es, id);
      FoldTracks(START, es[..at], id);
      CompactOne(es, mark, at, ms, id);
    }
    forall id
      ensures id in got ==> id in want && got[id] == want[id]
      ensures id in want ==> id in got || (id in Fold(START, es[..at]).live && !Covers(ms, id))
    {
      assert Look(got, id) == Look(want, id) || Look(got, id) == None;
    }
  }

  /** A mark taken after the snapshot loses what was written in between. */
  lemma LateMarkLoses(m: Message)
    ensures var es := [Enqueue(PayloadFromMessage(m))];
            m.id in Fold(START, es).live && m.id !in Fold(START, SnapEntries([]) + es[1..]).live
  {
    var es := [Enqueue(PayloadFromMessage(m))];
    assert es[..0] == [] && es[1..] == [] && SnapEntries([]) + es[1..] == [];
  }

  /** On disk: the rewritten file is the log of the snapshot's entries followed by the entries from the mark on. */
  lemma CompactedFile(c: Codec, es: seq<Entry>, mark: nat, ms: seq<Message>)
    requires mark <= |es|
    ensures var file := File(RecsOf(c, es));
            var from := |File(RecsOf(c, es[..mark]))|;
            File(RecsOf(c, SnapEntries(ms))) + Tail(file, from) == File(RecsOf(c, SnapEntries(ms) + es[mark..]))
  {
    hide *;
    var (a, b) := (RecsOf(c, es[..mark]), RecsOf(c, es[mark..]));
    assert es == es[..mark] + es[mark..];
    RecsAppend(c, es[..mark], es[mark..]);
    FileAppend(a, b);
    RecsAppend(c, SnapEntries(ms), es[mark..]);
    FileAppend(RecsOf(c, SnapEntries(ms)), b);
    TailOfTwo(File(a), File(b));
  }

  lemma RecsAppend(c: Codec, a: seq<Entry>, b: seq<Entry>)
    ensures RecsOf(c, a + b) == RecsOf(c, a) + RecsOf(c, b)
  {
  }

  lemma TailOfTwo(a: Bytes, b: Bytes)
    ensures Tail(a + b, |a|) == b
  {
  }
}
