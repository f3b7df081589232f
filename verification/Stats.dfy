/** A slot's gauges and lifetime counters, and what the gauges count. */
module Stats {
  import opened Messages

  /** Where a message is. Exactly one at a time. */
  datatype Where = Absent | Ready | InFlight | Delayed

  datatype Stats = Stats(
    ready: seq<int>,
    inFlight: int,
    delayed: int,
    bytes: int,
    enqueued: nat,
    acked: nat,
    expired: nat,
    requeued: nat,
    deadLettered: nat)

  const ZERO := Stats([0, 0, 0], 0, 0, 0, 0, 0, 0, 0, 0)

  /** `resetGauges`: the gauges go to zero, the lifetime counters stay. */
  function ResetGauges(st: Stats): Stats {
    st.(ready := [0, 0, 0], inFlight := 0, delayed := 0, bytes := 0)
  }

  function Leave(st: Stats, m: Message, from: Where): Stats
    requires |st.ready| == 3
  {
    match from
    case Ready => st.(ready := st.ready[Bucket(m.priority) := st.ready[Bucket(m.priority)] - 1])
    case InFlight => st.(inFlight := st.inFlight - 1)
    case Delayed => st.(delayed := st.delayed - 1)
    case Absent => st.(bytes := st.bytes + |m.payload|)
  }

  function Arrive(st: Stats, m: Message, to: Where): Stats
    requires |st.ready| == 3
  {
    match to
    case Ready => st.(ready := st.ready[Bucket(m.priority) := st.ready[Bucket(m.priority)] + 1])
    case InFlight => st.(inFlight := st.inFlight + 1)
    case Delayed => st.(delayed := st.delayed + 1)
    case Absent => st.(bytes := st.bytes - |m.payload|)
  }

  /** `move`: both sides of a transition in one call. */
  function Move(st: Stats, m: Message, from: Where, to: Where): (r: Stats)
    requires |st.ready| == 3
    ensures |r.ready| == 3
  {
    Arrive(Leave(st, m, from), m, to)
  }

  // The lifetime counters.

  function CountEnqueued(st: Stats): Stats {
    st.(enqueued := st.enqueued + 1)
  }

  function CountAcked(st: Stats): Stats {
    st.(acked := st.acked + 1)
  }

  function CountExpired(st: Stats): Stats {
    st.(expired := st.expired + 1)
  }

  function CountRequeued(st: Stats): Stats {
    st.(requeued := st.requeued + 1)
  }

  function CountDeadLettered(st: Stats): Stats {
    st.(deadLettered := st.deadLettered + 1)
  }

  // ---- What the gauges count ----

  /** The messages a slot holds, by where they are. */
  datatype Contents = Contents(ready: set<Message>, inFlight: set<Message>, delayed: set<Message>) {
    function All(): set<Message> {
      ready + inFlight + delayed
    }

    function At(w: Where): set<Message> {
      match w
      case Ready => ready
      case InFlight => inFlight
      case Delayed => delayed
      case Absent => {}
    }

    function Remove(m: Message): Contents {
      Contents(ready - {m}, inFlight - {m}, delayed - {m})
    }

    function Insert(m: Message, w: Where): Contents {
      match w
      case Ready => this.(ready := ready + {m})
      case InFlight => this.(inFlight := inFlight + {m})
      case Delayed => this.(delayed := delayed + {m})
      case Absent => this
    }

    function Ids(): set<string> {
      set m | m in All() :: m.id
    }

    /** Each message is in one place, and no two share an id. */
    ghost predicate Distinct() {
      && ready !! inFlight && ready !! delayed && inFlight !! delayed
      && (forall a, b | a in All() && b in All() && a.id == b.id :: a == b)
    }
  }

  function InBucket(ms: set<Message>, b: nat): set<Message> {
    set m | m in ms && Bucket(m.priority) == b
  }

  ghost function Bytes(ms: set<Message>): nat {
    if ms == {} then 0
    else var m :| m in ms; |m.payload| + Bytes(ms - {m})
  }

  lemma {:induction false} BytesWithout(ms: set<Message>, m: Message)
    requires m in ms
    ensures Bytes(ms) == |m.payload| + Bytes(ms - {m})
  {
    var n :| n in ms && Bytes(ms) == |n.payload| + Bytes(ms - {n});
    if n != m {
      BytesWithout(ms - {n}, m);
      BytesWithout(ms - {m}, n);
      assert ms - {n} - {m} == ms - {m} - {n};
    }
  }

  lemma BytesWith(ms: set<Message>, m: Message)
    requires m !in ms
    ensures Bytes(ms + {m}) == |m.payload| + Bytes(ms)
  {
    BytesWithout(ms + {m}, m);
    assert ms + {m} - {m} == ms;
  }

  ghost predicate GaugesOk(st: Stats, c: Contents) {
    && |st.ready| == 3
    && (forall b | 0 <= b < 3 :: st.ready[b] == |InBucket(c.ready, b)|)
    && st.inFlight == |c.inFlight|
    && st.delayed == |c.delayed|
    && st.bytes == Bytes(c.ready) + Bytes(c.inFlight) + Bytes(c.delayed)
  }

  /** Every message in one place under an id of its own, and gauges that count it there. */
  ghost predicate Counted(st: Stats, c: Contents) {
    c.Distinct() && GaugesOk(st, c)
  }

  ghost predicate SameGauges(a: Stats, b: Stats) {
    a.ready == b.ready && a.inFlight == b.inFlight && a.delayed == b.delayed && a.bytes == b.bytes
  }

  function Changed(ms: set<Message>, w: Where, m: Message, m': Message, from: Where, to: Where): set<Message> {
    if from == w then (if to == w then ms - {m} + {m'} else ms - {m})
    else if to == w then ms + {m'} else ms
  }

  /** The contents after `m` left `from` and `m'` arrived at `to`. */
  function Shifted(c: Contents, m: Message, m': Message, from: Where, to: Where): Contents {
    Contents(
      Changed(c.ready, Ready, m, m', from, to),
      Changed(c.inFlight, InFlight, m, m', from, to),
      Changed(c.delayed, Delayed, m, m', from, to))
  }

  lemma BucketWith(ms: set<Message>, m: Message, b: nat)
    requires m !in ms
    ensures |InBucket(ms + {m}, b)| == |InBucket(ms, b)| + (if Bucket(m.priority) == b then 1 else 0)
  {
    if Bucket(m.priority) == b {
      assert InBucket(ms + {m}, b) == InBucket(ms, b) + {m};
    } else {
      assert InBucket(ms + {m}, b) == InBucket(ms, b);
    }
  }

  /** Takes one message out of the gauges. */
  function Out(st: Stats, m: Message, from: Where): Stats
    requires |st.ready| == 3
  {
    Leave(st, m, from).(bytes := st.bytes - |m.payload|)
  }

  /** Puts one message into the gauges. */
  function In(st: Stats, m: Message, to: Where): Stats
    requires |st.ready| == 3
  {
    Arrive(st.(bytes := st.bytes + |m.payload|), m, to)
  }

  lemma UninsertCounts(st: Stats, c: Contents, m: Message, to: Where)
    requires to != Absent && m !in c.All() && GaugesOk(st, c.Insert(m, to))
    ensures GaugesOk(Out(st, m, to), c)
  {
    BytesWith(c.At(to), m);
    forall b | 0 <= b < 3
      ensures to == Ready ==> |InBucket(c.ready + {m}, b)| == |InBucket(c.ready, b)| + (if Bucket(m.priority) == b then 1 else 0)
    {
      if to == Ready { BucketWith(c.ready, m, b); }
    }
  }

  lemma RemoveInsert(c: Contents, m: Message, w: Where)
    requires c.Distinct() && w != Absent && m in c.At(w)
    ensures c.Remove(m).Insert(m, w) == c
  {
    match w
    case Ready => assert c.ready - {m} + {m} == c.ready;
    case InFlight => assert c.inFlight - {m} + {m} == c.inFlight;
    case Delayed => assert c.delayed - {m} + {m} == c.delayed;
  }

  lemma InsertCounts(st: Stats, c: Contents, m: Message, to: Where)
    requires GaugesOk(st, c) && to != Absent && m !in c.All()
    ensures GaugesOk(In(st, m, to), c.Insert(m, to))
  {
    BytesWith(c.At(to), m);
    forall b | 0 <= b < 3
      ensures to == Ready ==> |InBucket(c.ready + {m}, b)| == |InBucket(c.ready, b)| + (if Bucket(m.priority) == b then 1 else 0)
    {
      if to == Ready { BucketWith(c.ready, m, b); }
    }
  }

  lemma MoveIsOutAndIn(st: Stats, m: Message, m': Message, from: Where, to: Where)
    requires |st.ready| == 3 && from != to
    requires m'.priority == m.priority && |m'.payload| == |m.payload|
    ensures var out := if from == Absent then st else Out(st, m, from);
            Move(st, m', from, to) == if to == Absent then out else In(out, m', to)
  {
  }

  /** `move` keeps the gauges equal to the true counts, whatever the message and both its places. */
  lemma MoveCounts(st: Stats, c: Contents, m: Message, m': Message, from: Where, to: Where)
    requires GaugesOk(st, c) && c.Distinct()
    requires from != to && m'.priority == m.priority && |m'.payload| == |m.payload|
    requires if from == Absent then m' !in c.All() else m in c.At(from) && m' !in c.Remove(m).All()
    ensures GaugesOk(Move(st, m', from, to), (if from == Absent then c else c.Remove(m)).Insert(m', to))
  {
    MoveIsOutAndIn(st, m, m', from, to);
    var out := if from == Absent then st else Out(st, m, from);
    if from != Absent { 
      RemoveInsert(c, m, from);
      UninsertCounts(st, c.Remove(m), m, from);
    }
    if to != Absent { InsertCounts(out, if from == Absent then c else c.Remove(m), m', to); }
  }

  /** Ids stay distinct when a message changes place, or a new id arrives. */
  lemma MoveDistinct(c: Contents, m: Message, m': Message, from: Where, to: Where)
    requires c.Distinct() && m'.id == m.id
    requires if from == Absent then m.id !in c.Ids() else m in c.At(from)
    ensures (if from == Absent then c else c.Remove(m)).Insert(m', to).Distinct()
    ensures from == Absent ==> m' !in c.All()
    ensures m' !in c.Remove(m).All()
  {
    var c' := if from == Absent then c else c.Remove(m);
    assert forall a | a in c'.All() :: a.id != m.id by {
      forall a | a in c'.All()
        ensures a.id != m.id
      {
        assert a in c.All();
        if from == Absent { assert a.id in c.Ids(); } else { assert m in c.All() && a != m; }
      }
    }
    forall a | a in c.Remove(m).All()
      ensures a.id != m.id
    {
      assert a in c.All() && a != m;
      if from == Absent { assert a.id in c.Ids(); } else { assert m in c.All(); }
    }
  }

  lemma ShiftedIs(c: Contents, m: Message, m': Message, from: Where, to: Where)
    requires c.Distinct() && from != to && (from == Absent || m in c.At(from))
    ensures Shifted(c, m, m', from, to) == (if from == Absent then c else c.Remove(m)).Insert(m', to)
  {
    match from
    case Absent =>
    case Ready => assert c.inFlight - {m} == c.inFlight && c.delayed - {m} == c.delayed;
    case InFlight => assert c.ready - {m} == c.ready && c.delayed - {m} == c.delayed;
    case Delayed => assert c.ready - {m} == c.ready && c.inFlight - {m} == c.inFlight;
  }

  lemma MembersHaveIds(c: Contents)
    ensures forall m | m in c.All() :: m.id in c.Ids()
  {
  }

  /** One message moved, arrived or left, and `move` was told so: still counted. */
  lemma Shift(st: Stats, c: Contents, st': Stats, c': Contents, m: Message, m': Message, from: Where, to: Where)
    requires Counted(st, c) && from != to
    requires m'.id == m.id && m'.priority == m.priority && m'.payload == m.payload
    requires if from == Absent then m.id !in c.Ids() else m in c.At(from)
    requires c' == Shifted(c, m, m', from, to) && SameGauges(st', Move(st, m', from, to))
    ensures Counted(st', c')
  {
    ShiftedIs(c, m, m', from, to);
    MoveDistinct(c, m, m', from, to);
    MoveCounts(st, c, m, m', from, to);
  }
}
