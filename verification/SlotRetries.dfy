/** Failed deliveries: which message is given up, how often one goes out, and how long one that was put off stays away. */
module SlotRetries {
  import opened Messages
  import opened Stats
  import opened PlainSlot
  import opened PlainContents
  import opened SlotRefines
  import opened SlotRuns
  import opened SlotSweeps

  // ---- The verdict on one failed delivery ----

  predicate Unexpired(m: Message, now: Time) {
    m.expiresAt.None? || now < m.expiresAt.value
  }

  /** The message went out as often as it may, and there is somewhere to put it. */
  predicate Spent(m: Message, retry: Retry) {
    retry.hasDeadLetter && retry.maxRetries <= m.attempts
  }

  /**
   * A nack is taken just for the receipt of the delivery in progress, and hands over just an unexpired message out of
   * retries.
   */
  lemma NackVerdict(v: Plain, id: string, epoch: nat, now: Time, delay: Time, retry: Retry)
    requires |v.st.ready| == 3
    ensures var (v', dead, out) := Nack(v, id, epoch, now, delay, retry);
            && (out == Done <==> id in v.leases && v.leases[id].epoch == epoch)
            && (out != Done ==> v' == v && dead.None?)
            && (forall m :: dead == Some(m) <==>
                  out == Done && m == v.leases[id].msg && Unexpired(m, now) && Spent(m, retry))
  {
  }

  /** Its message leaves, or waits out the delay, or is the first of its group again; no other message is touched. */
  lemma NackPlaces(v: Plain, id: string, epoch: nat, now: Time, delay: Time, retry: Retry)
    requires |v.st.ready| == 3 && id in v.leases && v.leases[id].epoch == epoch
    ensures var (v', m) := (Nack(v, id, epoch, now, delay, retry).0, v.leases[id].msg);
            && v'.leases == v.leases - {id}
            && if !Unexpired(m, now) || Spent(m, retry) then v'.lists == v.lists && v'.delayed == v.delayed
               else if delay > 0 then
                 v'.lists == v.lists && v'.delayed == v.delayed + {m.(deliverAfter := Some(now + delay))}
               else
                 v'.delayed == v.delayed && exists k :: v'.lists == v.lists[k := [m] + ListOf(v.lists, k)]
  {
    RetiredParts(v, id, now, delay, retry);
    var m := v.leases[id].msg;
    assert SetList(v.lists, m.Key(), [m] + ListOf(v.lists, m.Key())) == v.lists[m.Key() := [m] + ListOf(v.lists, m.Key())];
  }

  /** An ack is taken just for that receipt, and its message leaves; no other message is touched. */
  lemma AckVerdict(v: Plain, id: string, epoch: nat)
    requires |v.st.ready| == 3
    ensures var (v', out) := Ack(v, id, epoch);
            && (out == Done <==> id in v.leases && v.leases[id].epoch == epoch)
            && v'.lists == v.lists && v'.delayed == v.delayed
            && v'.leases == (if out == Done then v.leases - {id} else v.leases)
            && (out != Done ==> v' == v)
  {
  }

  /** What is submitted waits if its time has not come, and otherwise is the last of its group at once. */
  lemma SubmitPlaces(v: Plain, m: Message, now: Time)
    requires |v.st.ready| == 3
    ensures var v' := Enqueue(v, m, now);
            && v'.leases == v.leases
            && if m.deliverAfter.Some? && now < m.deliverAfter.value then v'.lists == v.lists && v'.delayed == v.delayed + {m}
               else v'.delayed == v.delayed && exists k :: v'.lists == v.lists[k := ListOf(v.lists, k) + [m]]
  {
    assert SetList(v.lists, m.Key(), ListOf(v.lists, m.Key()) + [m]) == v.lists[m.Key() := ListOf(v.lists, m.Key()) + [m]];
  }

  /** What comes due is the last of its group, and waits for nothing more. */
  lemma DuePlaces(v: Plain, m: Message)
    requires |v.st.ready| == 3
    ensures var (v', m') := (ReleaseDelayed(v, m), m.(deliverAfter := None));
            && v'.leases == v.leases && v'.delayed == v.delayed - {m}
            && exists k :: v'.lists == v.lists[k := ListOf(v.lists, k) + [m']]
  {
    var m' := m.(deliverAfter := None);
    assert SetList(v.lists, m'.Key(), ListOf(v.lists, m'.Key()) + [m']) == v.lists[m'.Key() := ListOf(v.lists, m'.Key()) + [m']];
  }

  /** A sweep gives up on just the messages whose delivery is overdue, unexpired and out of retries. */
  lemma SweepVerdict(leases: map<string, Delivery>, now: Time, retry: Retry, m: Message)
    ensures m in GivenUp(leases, now, retry) <==>
            exists id :: id in leases && leases[id].msg == m && leases[id].deadline <= now && Unexpired(m, now) && Spent(m, retry)
  {
    if m in GivenUp(leases, now, retry) {
      var id :| id in leases && leases[id].deadline <= now && Dead(leases[id].msg, now, retry).Some? && leases[id].msg == m;
      assert leases[id].msg == m;
    }
    if id :| id in leases && leases[id].msg == m && leases[id].deadline <= now && Unexpired(m, now) && Spent(m, retry) {
      assert leases[id].msg in GivenUp(leases, now, retry);
    }
  }

  // ---- What holds of every message, place by place ----

  /** `r` of everything ready, `l` of everything in flight, `w` of everything that waits. */
  ghost predicate Each(v: Plain, r: Message -> bool, l: Message -> bool, w: Message -> bool) {
    && EachList(v.lists, r)
    && (forall id | id in v.leases :: l(v.leases[id].msg))
    && (forall m | m in v.delayed :: w(m))
  }

  ghost predicate EachList(lists: map<string, seq<Message>>, r: Message -> bool) {
    forall k | k in lists :: EachIn(lists[k], r)
  }

  ghost predicate EachIn(ms: seq<Message>, r: Message -> bool) {
    forall m | m in ms :: r(m)
  }

  /** The step takes each message from a place where one of the three holds to a place where the next one does. */
  ghost predicate Carries(v: Plain, op: Op, r: Message -> bool, l: Message -> bool, w: Message -> bool)
    requires |v.st.ready| == 3
  {
    match op
    case Submit(m, now) => if m.Waiting(now) then w(m) else r(m)
    case Dispatch(p, now, deadline) => var d := Take(v, p, now, deadline).1; d.Some? ==> l(d.value.msg)
    case Refuse(_, _, now, delay, retry) => Returns(now, delay, retry, r, l, w)
    case TimeOut(_, now, retry) => Returns(now, 0, retry, r, l, w)
    case ComeDue(m, now) => w(m) && !m.Waiting(now) ==> r(Due(m))
    case Bring(_, ms) => EachIn(ms, r)
    case BringDelayed(m) => w(m)
    case _ => true
  }

  ghost predicate Returns(now: Time, delay: Time, retry: Retry, r: Message -> bool, l: Message -> bool, w: Message -> bool) {
    forall m: Message | l(m) && !Spent(m, retry) :: if delay > 0 then w(Postponed(m, now, delay)) else r(m)
  }

  lemma SetListEach(lists: map<string, seq<Message>>, k: string, ms: seq<Message>, r: Message -> bool)
    requires EachList(lists, r) && EachIn(ms, r)
    ensures EachList(SetList(lists, k, ms), r)
  {
  }

  lemma ListEach(lists: map<string, seq<Message>>, k: string, r: Message -> bool)
    requires EachList(lists, r)
    ensures EachIn(ListOf(lists, k), r)
  {
  }

  lemma {:induction false} DropEach(v: Plain, k: string, now: Time, r: Message -> bool)
    requires |v.st.ready| == 3 && EachList(v.lists, r)
    ensures EachList(DropExpired(v, k, now).lists, r)
    decreases |ListOf(v.lists, k)|
  {
    if ListOf(v.lists, k) != [] && v.lists[k][0].Expired(now) {
      ListEach(v.lists, k, r);
      SetListEach(v.lists, k, v.lists[k][1..], r);
      DropEach(DropHead(v, k), k, now, r);
    }
  }

  lemma TakeEach(v: Plain, p: Priority, now: Time, deadline: Time, r: Message -> bool, l: Message -> bool, w: Message -> bool)
    requires |v.st.ready| == 3 && Each(v, r, l, w) && Carries(v, Dispatch(p, now, deadline), r, l, w)
    ensures Each(Take(v, p, now, deadline).0, r, l, w)
  {
    if Line(v, p) != [] {
      var k := Line(v, p)[0];
      var v1 := DropExpired(Pulled(v, p), k, now);
      DropEach(Pulled(v, p), k, now, r);
      DropExpiredFrame(Pulled(v, p), k, now);
      if ListOf(v1.lists, k) != [] {
        ListEach(v1.lists, k, r);
        SetListEach(v1.lists, k, v1.lists[k][1..], r);
      }
    }
  }

  lemma AppendEach(v: Plain, m: Message, r: Message -> bool, l: Message -> bool, w: Message -> bool)
    requires Each(v, r, l, w) && r(m)
    ensures Each(Append(v, m), r, l, w)
  {
    ListEach(v.lists, m.Key(), r);
    SetListEach(v.lists, m.Key(), ListOf(v.lists, m.Key()) + [m], r);
  }

  lemma RetireEach(v: Plain, id: string, now: Time, delay: Time, retry: Retry,
                   r: Message -> bool, l: Message -> bool, w: Message -> bool)
    requires |v.st.ready| == 3 && id in v.leases && Each(v, r, l, w) && Returns(now, delay, retry, r, l, w)
    ensures Each(Retire(v, id, now, delay, retry).0, r, l, w)
  {
    var m := v.leases[id].msg;
    ListEach(v.lists, m.Key(), r);
    if !m.Expired(now) && !Exhausted(m, retry) && delay <= 0 {
      SetListEach(v.lists, m.Key(), [m] + ListOf(v.lists, m.Key()), r);
    }
    var v1 := Retired(v, id, now, delay, retry);
    assert Each(v1, r, l, w);
  }

  lemma BringEach(v: Plain, k: string, ms: seq<Message>, r: Message -> bool, l: Message -> bool, w: Message -> bool)
    requires |v.st.ready| == 3 && Each(v, r, l, w) && EachIn(ms, r)
    ensures Each(AbsorbGroup(v, k, ms), r, l, w)
  {
    ListEach(v.lists, k, r);
    SetListEach(v.lists, k, ms + ListOf(v.lists, k), r);
  }

  lemma StepEach(v: Plain, op: Op, r: Message -> bool, l: Message -> bool, w: Message -> bool)
    requires |v.st.ready| == 3 && Enabled(v, op) && Each(v, r, l, w) && Carries(v, op, r, l, w)
    ensures Each(Apply(v, op), r, l, w)
  {
    match op
    case Submit(m, now) => if !m.Waiting(now) { AppendEach(Submitted(v, m, Ready), m, r, l, w); }
    case Dispatch(p, now, deadline) => TakeEach(v, p, now, deadline, r, l, w);
    case Confirm(id, epoch) =>
    case Refuse(id, epoch, now, delay, retry) =>
      if id in v.leases && v.leases[id].epoch == epoch { RetireEach(v, id, now, delay, retry, r, l, w); }
    case TimeOut(id, now, retry) => RetireEach(v, id, now, 0, retry, r, l, w);
    case ComeDue(m, _) => AppendEach(Moved(v.(delayed := v.delayed - {m}), Due(m), Delayed, Ready), Due(m), r, l, w);
    case DropOld(k, now) => DropEach(v, k, now, r); DropExpiredFrame(v, k, now);
    case Bring(k, ms) => BringEach(v, k, ms, r, l, w);
    case BringDelayed(m) =>
    case Empty =>
  }

  // ---- Deliveries of a run ----

  /** What a step delivers of message `id`. */
  function HandedBy(v: Plain, op: Op, id: string): seq<Message>
    requires |v.st.ready| == 3
  {
    match op
    case Dispatch(p, now, deadline) =>
      var d := Take(v, p, now, deadline).1;
      if d.Some? && d.value.msg.id == id then [d.value.msg] else []
    case _ => []
  }

  /** The deliveries of message `id` in a run, in order. */
  ghost function Handed(v: Plain, ops: seq<Op>, id: string): seq<Message>
    decreases |ops|
  {
    if ops == [] || |v.st.ready| != 3 then [] else HandedBy(v, ops[0], id) + Handed(Apply(v, ops[0]), ops[1..], id)
  }

  /** The step brings a message of that id in. */
  predicate ComesIn(op: Op, id: string) {
    match op
    case Submit(m, _) => m.id == id
    case Bring(_, ms) => exists m | m in ms :: m.id == id
    case BringDelayed(m) => m.id == id
    case _ => false
  }

  lemma FirstHanded(v: Plain, ops: seq<Op>, v': Plain, id: string)
    requires ops != [] && Runs(v, ops, v')
    ensures |v.st.ready| == 3 && Enabled(v, ops[0]) && Runs(Apply(v, ops[0]), ops[1..], v')
    ensures Handed(v, ops, id) == HandedBy(v, ops[0], id) + Handed(Apply(v, ops[0]), ops[1..], id)
  {
    hide Enabled, Apply, HandedBy;
  }

  /** What is delivered was ready and had not expired, and counts one delivery more. */
  lemma TakeServes(v: Plain, p: Priority, now: Time, deadline: Time, r: Message -> bool)
    requires |v.st.ready| == 3 && EachList(v.lists, r)
    ensures var (v', d) := Take(v, p, now, deadline);
            d.Some? ==> Unexpired(d.value.msg, now) && exists h :: r(h) && d.value.msg == h.(attempts := h.attempts + 1)
  {
    if Line(v, p) != [] {
      var k := Line(v, p)[0];
      var v1 := DropExpired(Pulled(v, p), k, now);
      DropEach(Pulled(v, p), k, now, r);
      DropExpiredFrame(Pulled(v, p), k, now);
      if ListOf(v1.lists, k) != [] {
        ListEach(v1.lists, k, r);
        var h := v1.lists[k][0];
        assert h in ListOf(v1.lists, k);
        assert r(h) && Attempted(h) == h.(attempts := h.attempts + 1);
      }
    }
  }

  lemma {:induction false} DropsExpired(v: Plain, k: string, now: Time) returns (n: nat)
    requires |v.st.ready| == 3
    ensures n <= |ListOf(v.lists, k)| && ListOf(DropExpired(v, k, now).lists, k) == ListOf(v.lists, k)[n..]
    ensures forall j | 0 <= j < n :: !Unexpired(ListOf(v.lists, k)[j], now)
    ensures n < |ListOf(v.lists, k)| ==> Unexpired(ListOf(v.lists, k)[n], now)
    decreases |ListOf(v.lists, k)|
  {
    n := 0;
    var ms := ListOf(v.lists, k);
    if ms != [] && v.lists[k][0].Expired(now) {
      var v1 := DropHead(v, k);
      assert ListOf(v1.lists, k) == ms[1..];
      var rest := DropsExpired(v1, k, now);
      n := rest + 1;
      assert ms[1..][rest..] == ms[n..];
      forall j | 0 <= j < n
        ensures !Unexpired(ms[j], now)
      {
        if j > 0 { assert ms[j] == ms[1..][j - 1]; }
      }
    }
  }

  /**
   * What a take of a line delivers: of the first group, the first message that has not expired, counted as one delivery more
   * and leased until `deadline`; the messages before it are gone. It delivers nothing just when all of them have expired.
   */
  lemma TakesFirstUnexpired(v: Plain, p: Priority, now: Time, deadline: Time) returns (n: nat)
    requires |v.st.ready| == 3 && Line(v, p) != []
    ensures var (k, (v', d)) := (Line(v, p)[0], Take(v, p, now, deadline));
            var ms := ListOf(v.lists, k);
            && n <= |ms| && (forall j | 0 <= j < n :: !Unexpired(ms[j], now))
            && (d.None? <==> n == |ms|)
            && (d.Some? ==>
                  && Unexpired(ms[n], now) && d.value.msg == ms[n].(attempts := ms[n].attempts + 1)
                  && d.value.deadline == deadline && ListOf(v'.lists, k) == ms[n + 1..])
  {
    n := DropsExpired(Pulled(v, p), Line(v, p)[0], now);
  }

  // ---- How often a message goes out ----

  /** What comes in has not been out before. */
  predicate FreshIn(op: Op) {
    match op
    case Submit(m, _) => m.attempts == 0
    case Bring(_, ms) => forall m | m in ms :: m.attempts == 0
    case BringDelayed(m) => m.attempts == 0
    case _ => true
  }

  /** A delivery that fails is judged by `retry`. */
  predicate JudgedBy(op: Op, retry: Retry) {
    match op
    case Refuse(_, _, _, _, used) => used == retry
    case TimeOut(_, _, used) => used == retry
    case _ => true
  }

  /** A message goes out once at least. */
  function Most(retry: Retry): nat {
    if retry.maxRetries <= 1 then 1 else retry.maxRetries
  }

  ghost predicate NoneSpent(v: Plain, most: nat) {
    Each(v, (m: Message) => m.attempts < most, (m: Message) => m.attempts <= most, (m: Message) => m.attempts < most)
  }

  lemma StepNoneSpent(v: Plain, op: Op, retry: Retry, id: string)
    requires |v.st.ready| == 3 && Enabled(v, op) && FreshIn(op) && JudgedBy(op, retry) && retry.hasDeadLetter
    requires NoneSpent(v, Most(retry))
    ensures NoneSpent(Apply(v, op), Most(retry))
    ensures forall m | m in HandedBy(v, op, id) :: m.attempts <= Most(retry)
  {
    var most := Most(retry);
    var r, l := (m: Message) => m.attempts < most, (m: Message) => m.attempts <= most;
    if op.Dispatch? { TakeServes(v, op.p, op.now, op.deadline, r); }
    assert Each(v, r, l, r);
    StepEach(v, op, r, l, r);
    assert Each(Apply(v, op), r, l, r);
  }

  lemma {:induction false} NoneTooOften(v: Plain, ops: seq<Op>, v': Plain, id: string, retry: Retry)
    requires Inv(v) && Runs(v, ops, v') && NoneSpent(v, Most(retry)) && retry.hasDeadLetter
    requires forall i | 0 <= i < |ops| :: FreshIn(ops[i]) && JudgedBy(ops[i], retry)
    ensures forall m | m in Handed(v, ops, id) :: m.attempts <= Most(retry)
    decreases |ops|
  {
    hide *;
    if ops == [] {
      NoneHanded(v, id);
    } else {
      FirstHanded(v, ops, v', id);
      StepNoneSpent(v, ops[0], retry, id);
      StepInv(v, ops[0]);
      NoneTooOften(Apply(v, ops[0]), ops[1..], v', id, retry);
    }
  }

  lemma NoneHanded(v: Plain, id: string)
    ensures Handed(v, [], id) == []
  {
  }

  /** Every message of that id that is held went out `n` times. */
  ghost predicate WentOut(v: Plain, id: string, n: nat) {
    var c := (m: Message) => m.id == id ==> m.attempts == n;
    Each(v, c, c, c)
  }

  /** What the step brings in of that id went out `n` times before. */
  predicate Brings(op: Op, id: string, n: nat) {
    match op
    case Submit(m, _) => m.id == id ==> m.attempts == n
    case Bring(_, ms) => forall m | m in ms && m.id == id :: m.attempts == n
    case BringDelayed(m) => m.id == id ==> m.attempts == n
    case _ => true
  }

  lemma OnlyOneOfId(v: Plain, d: Delivery)
    requires Inv(v) && d.msg.id in v.leases && v.leases[d.msg.id] == d
    ensures WentOut(v, d.msg.id, d.msg.attempts)
  {
    hide LinesInv, GaugesOk, ListsOk;
    var c, id := ContentsOf(v), d.msg.id;
    assert d.msg in c.inFlight && d.msg in c.All();
    forall k, m | k in v.lists && m in v.lists[k]
      ensures m.id == id ==> m == d.msg
    {
      assert m in c.ready && m in c.All();
    }
    forall i | i in v.leases
      ensures v.leases[i].msg.id == id ==> v.leases[i].msg == d.msg
    {
      assert v.leases[i].msg in c.inFlight && v.leases[i].msg in c.All();
    }
    forall m | m in v.delayed
      ensures m.id == id ==> m == d.msg
    {
      assert m in c.All();
    }
  }

  lemma HandedOnce(v: Plain, op: Op, id: string)
    requires |v.st.ready| == 3
    ensures HandedBy(v, op, id) != [] ==>
              && op.Dispatch? && var d := Take(v, op.p, op.now, op.deadline).1;
              && d.Some? && d.value.msg.id == id && HandedBy(v, op, id) == [d.value.msg]
              && id in Apply(v, op).leases && Apply(v, op).leases[id] == d.value
  {
  }

  lemma TakenNumbersOn(v: Plain, p: Priority, now: Time, deadline: Time, id: string, n: nat)
    requires |v.st.ready| == 3 && WentOut(v, id, n)
    ensures var d := Take(v, p, now, deadline).1; d.Some? && d.value.msg.id == id ==> d.value.msg.attempts == n + 1
  {
    TakeServes(v, p, now, deadline, (m: Message) => m.id == id ==> m.attempts == n);
    hide Take;
  }

  lemma HandedWentOut(v: Plain, op: Op, id: string, n: nat)
    requires Inv(v) && |v.st.ready| == 3 && Enabled(v, op) && WentOut(v, id, n) && HandedBy(v, op, id) != []
    ensures WentOut(Apply(v, op), id, n + 1) && |HandedBy(v, op, id)| == 1 && HandedBy(v, op, id)[0].attempts == n + 1
  {
    hide *;
    HandedOnce(v, op, id);
    TakenNumbersOn(v, op.p, op.now, op.deadline, id, n);
    StepInv(v, op);
    OnlyOneOfId(Apply(v, op), Take(v, op.p, op.now, op.deadline).1.value);
  }

  lemma OtherWentOut(v: Plain, op: Op, id: string, n: nat)
    requires |v.st.ready| == 3 && Enabled(v, op) && Brings(op, id, n) && WentOut(v, id, n) && HandedBy(v, op, id) == []
    ensures WentOut(Apply(v, op), id, n)
  {
    var c := (m: Message) => m.id == id ==> m.attempts == n;
    assert Each(v, c, c, c);
    StepEach(v, op, c, c, c);
    assert Each(Apply(v, op), c, c, c);
  }

  lemma StepWentOut(v: Plain, op: Op, id: string, n: nat)
    requires Inv(v) && |v.st.ready| == 3 && Enabled(v, op) && Brings(op, id, n) && WentOut(v, id, n)
    ensures WentOut(Apply(v, op), id, n + |HandedBy(v, op, id)|)
    ensures |HandedBy(v, op, id)| <= 1 && forall m | m in HandedBy(v, op, id) :: m.attempts == n + 1
  {
    hide Inv, Enabled, WentOut, Apply;
    if HandedBy(v, op, id) != [] {
      HandedWentOut(v, op, id, n);
    } else {
      OtherWentOut(v, op, id, n);
    }
  }

  /** From then on the deliveries of a message number on, as long as its id does not come in again. */
  lemma {:induction false} NumbersOn(v: Plain, ops: seq<Op>, v': Plain, id: string, n: nat)
    requires Inv(v) && Runs(v, ops, v') && WentOut(v, id, n) && forall i | 0 <= i < |ops| :: !ComesIn(ops[i], id)
    ensures forall i | 0 <= i < |Handed(v, ops, id)| :: Handed(v, ops, id)[i].attempts == n + i + 1
    decreases |ops|
  {
    hide *;
    if ops == [] {
      NoneHanded(v, id);
    } else {
      FirstHanded(v, ops, v', id);
      BringsNone(ops[0], id, n);
      StepWentOut(v, ops[0], id, n);
      StepInv(v, ops[0]);
      NumbersOn(Apply(v, ops[0]), ops[1..], v', id, n + |HandedBy(v, ops[0], id)|);
    }
  }

  lemma BringsNone(op: Op, id: string, n: nat)
    requires !ComesIn(op, id) || (FreshIn(op) && n == 0)
    ensures Brings(op, id, n)
  {
  }

  ghost predicate Away(v: Plain, id: string) {
    var c := (m: Message) => m.id != id;
    Each(v, c, c, c)
  }

  lemma StepAway(v: Plain, op: Op, id: string)
    requires |v.st.ready| == 3 && Enabled(v, op) && Away(v, id) && !ComesIn(op, id)
    ensures Away(Apply(v, op), id) && HandedBy(v, op, id) == []
  {
    var c := (m: Message) => m.id != id;
    if op.Dispatch? { TakeServes(v, op.p, op.now, op.deadline, c); }
    assert Each(v, c, c, c);
    StepEach(v, op, c, c, c);
    assert Each(Apply(v, op), c, c, c);
  }

  lemma AwayFresh(v: Plain, op: Op, id: string)
    requires |v.st.ready| == 3 && Enabled(v, op) && Away(v, id) && ComesIn(op, id) && FreshIn(op)
    ensures WentOut(Apply(v, op), id, 0) && HandedBy(v, op, id) == []
  {
    BringsNone(op, id, 0);
    OtherWentOut(v, op, id, 0);
  }

  /** No message of that id comes in twice. */
  predicate ComesOnce(ops: seq<Op>, id: string) {
    forall i, j | 0 <= i < j < |ops| :: !(ComesIn(ops[i], id) && ComesIn(ops[j], id))
  }

  lemma {:induction false} Numbers(v: Plain, ops: seq<Op>, v': Plain, id: string)
    requires Inv(v) && Runs(v, ops, v') && Away(v, id) && ComesOnce(ops, id)
    requires forall i | 0 <= i < |ops| :: FreshIn(ops[i])
    ensures forall i | 0 <= i < |Handed(v, ops, id)| :: Handed(v, ops, id)[i].attempts == i + 1
    decreases |ops|
  {
    hide Inv, Runs, Away, ComesIn, FreshIn, Enabled, Apply, HandedBy, Handed, WentOut;
    if ops == [] {
      NoneHanded(v, id);
    } else {
      FirstHanded(v, ops, v', id);
      StepInv(v, ops[0]);
      if ComesIn(ops[0], id) {
        AwayFresh(v, ops[0], id);
        NumbersOn(Apply(v, ops[0]), ops[1..], v', id, 0);
      } else {
        StepAway(v, ops[0], id);
        Numbers(Apply(v, ops[0]), ops[1..], v', id);
      }
    }
  }

  /** The k-th delivery of a message carries k, in every run from a new slot in which its id comes in once. */
  lemma KthDelivery(v0: Plain, ops: seq<Op>, v: Plain, id: string)
    requires v0 == PlainSlot.EMPTY && Runs(v0, ops, v) && ComesOnce(ops, id)
    requires forall i | 0 <= i < |ops| :: FreshIn(ops[i])
    ensures forall i | 0 <= i < |Handed(v0, ops, id)| :: Handed(v0, ops, id)[i].attempts == i + 1
  {
    NewHolds(v0, id, 1);
    EmptyPlainOk();
    Numbers(v0, ops, v, id);
  }

  lemma NewHolds(v0: Plain, id: string, most: nat)
    requires v0 == PlainSlot.EMPTY
    ensures Away(v0, id) && NoneSpent(v0, most)
  {
  }

  /** With a dead-letter queue a message goes out no more often than its retries allow, and once if they allow none. */
  lemma NeverTooOften(v0: Plain, ops: seq<Op>, v: Plain, id: string, retry: Retry)
    requires v0 == PlainSlot.EMPTY && Runs(v0, ops, v) && retry.hasDeadLetter
    requires forall i | 0 <= i < |ops| :: FreshIn(ops[i]) && JudgedBy(ops[i], retry)
    ensures forall m | m in Handed(v0, ops, id) :: m.attempts <= if retry.maxRetries == 0 then 1 else retry.maxRetries
    ensures ComesOnce(ops, id) ==> |Handed(v0, ops, id)| <= if retry.maxRetries == 0 then 1 else retry.maxRetries
  {
    hide Runs, Handed, FreshIn, JudgedBy, ComesOnce, Inv;
    NewHolds(v0, id, Most(retry));
    EmptyPlainOk();
    NoneTooOften(v0, ops, v, id, retry);
    var h := Handed(v0, ops, id);
    if ComesOnce(ops, id) && h != [] {
      KthDelivery(v0, ops, v, id);
      assert h[|h| - 1] in h;
    }
  }

  // ---- A message that was put off ----

  /** The step happens before `t`. */
  predicate Earlier(op: Op, t: Time) {
    match op
    case Submit(_, now) => now < t
    case Dispatch(_, now, _) => now < t
    case Refuse(_, _, now, _, _) => now < t
    case TimeOut(_, now, _) => now < t
    case ComeDue(_, now) => now < t
    case DropOld(_, now) => now < t
    case _ => true
  }

  /** A message of that id is held nowhere but among those that wait, and until `t`. */
  ghost predicate PutOff(v: Plain, id: string, t: Time) {
    var c := (m: Message) => m.id != id;
    Each(v, c, c, (m: Message) => m.id == id ==> m.deliverAfter == Some(t))
  }

  lemma StepPutOff(v: Plain, op: Op, id: string, t: Time)
    requires |v.st.ready| == 3 && Enabled(v, op) && PutOff(v, id, t) && Earlier(op, t) && !ComesIn(op, id)
    ensures PutOff(Apply(v, op), id, t) && HandedBy(v, op, id) == []
  {
    var c, w := (m: Message) => m.id != id, (m: Message) => m.id == id ==> m.deliverAfter == Some(t);
    if op.Dispatch? { TakeServes(v, op.p, op.now, op.deadline, c); }
    assert Each(v, c, c, w);
    StepEach(v, op, c, c, w);
    assert Each(Apply(v, op), c, c, w);
  }

  lemma {:induction false} StaysAway(v: Plain, ops: seq<Op>, v': Plain, id: string, t: Time)
    requires Inv(v) && Runs(v, ops, v') && PutOff(v, id, t)
    requires forall i | 0 <= i < |ops| :: Earlier(ops[i], t) && !ComesIn(ops[i], id)
    ensures Handed(v, ops, id) == []
    decreases |ops|
  {
    hide *;
    if ops == [] {
      NoneHanded(v, id);
    } else {
      FirstHanded(v, ops, v', id);
      StepPutOff(v, ops[0], id, t);
      StepInv(v, ops[0]);
      StaysAway(Apply(v, ops[0]), ops[1..], v', id, t);
    }
  }

  /** Submitted with a delay that is not over, a message is not delivered by any run of earlier times than the delay's end. */
  lemma NotBeforeItsTime(v: Plain, m: Message, now: Time, t: Time, ops: seq<Op>, v': Plain)
    requires Inv(v) && |v.st.ready| == 3 && Enabled(v, Submit(m, now)) && m.deliverAfter == Some(t) && now < t
    requires Runs(Enqueue(v, m, now), ops, v')
    requires forall i | 0 <= i < |ops| :: Earlier(ops[i], t) && !ComesIn(ops[i], m.id)
    ensures Handed(Enqueue(v, m, now), ops, m.id) == []
  {
    StepInv(v, Submit(m, now));
    SubmitPutsOff(v, m, now, t);
    hide *;
    StaysAway(Enqueue(v, m, now), ops, v', m.id, t);
  }

  lemma SubmitPutsOff(v: Plain, m: Message, now: Time, t: Time)
    requires |v.st.ready| == 3 && m.id !in ContentsOf(v).Ids() && m.deliverAfter == Some(t) && now < t
    ensures PutOff(Enqueue(v, m, now), m.id, t)
  {
    var c := ContentsOf(v);
    forall k, x | k in v.lists && x in v.lists[k]
      ensures x.id != m.id
    {
      assert x in c.ready && x in c.All();
    }
    forall i | i in v.leases
      ensures v.leases[i].msg.id != m.id
    {
      assert v.leases[i].msg in c.inFlight && v.leases[i].msg in c.All();
    }
    forall x | x in v.delayed
      ensures x.id != m.id
    {
      assert x in c.All();
    }
  }

  lemma NackPutsOff(v: Plain, id: string, epoch: nat, now: Time, delay: Time, retry: Retry)
    requires Inv(v) && |v.st.ready| == 3 && id in v.leases && v.leases[id].epoch == epoch && delay > 0
    requires var m := v.leases[id].msg; Unexpired(m, now) && !Spent(m, retry)
    ensures PutOff(Nack(v, id, epoch, now, delay, retry).0, id, now + delay)
  {
    hide LinesInv, GaugesOk, ListsOk;
    var c, m := ContentsOf(v), v.leases[id].msg;
    var v' := Nack(v, id, epoch, now, delay, retry).0;
    assert m.id == id && m in c.inFlight && m in c.All();
    forall k, x | k in v.lists && x in v.lists[k]
      ensures x.id != id
    {
      assert x in c.ready && x in c.All();
    }
    forall x | x in v.delayed
      ensures x.id != id
    {
      assert x in c.All();
    }
  }

  /**
   * Nacked with a delay at `now`, a message that is not given up is not delivered by any run of earlier times than its
   * delay's end.
   */
  lemma NotBeforeItsDelay(v: Plain, id: string, epoch: nat, now: Time, delay: Time, retry: Retry, ops: seq<Op>, v': Plain)
    requires Inv(v) && |v.st.ready| == 3 && id in v.leases && v.leases[id].epoch == epoch && delay > 0
    requires var m := v.leases[id].msg; Unexpired(m, now) && !Spent(m, retry)
    requires Runs(Nack(v, id, epoch, now, delay, retry).0, ops, v')
    requires forall i | 0 <= i < |ops| :: Earlier(ops[i], now + delay) && !ComesIn(ops[i], id)
    ensures Handed(Nack(v, id, epoch, now, delay, retry).0, ops, id) == []
  {
    hide *;
    NackPutsOff(v, id, epoch, now, delay, retry);
    NackKeeps(v, id, epoch, now, delay, retry);
    StaysAway(Nack(v, id, epoch, now, delay, retry).0, ops, v', id, now + delay);
  }
}
