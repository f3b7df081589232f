/**
 * What a slot is for, without the machinery that makes it fast: per priority a line of group ids, per group a list of
 * messages, the deliveries in progress, the messages not due yet. No versions, no stale entries, no timers, no cached
 * hint. GroupIndex and Slot are proved to be this queue in disguise.
 */
module PlainSlot {
  import opened Messages
  import opened Seqs
  import opened Stats

  datatype Delivery = Delivery(msg: Message, epoch: nat, deadline: Time)

  datatype Plain = Plain(
    lines: map<Priority, seq<string>>,
    lists: map<string, seq<Message>>,
    leases: map<string, Delivery>,
    delayed: set<Message>,
    epoch: nat,
    st: Stats)

  datatype Outcome = Done | NotInFlight | LeaseExpired

  /** Retry settings as they are when a delivery fails. */
  datatype Retry = Retry(maxRetries: nat, hasDeadLetter: bool)

  const EMPTY := Plain(map p: Priority | p <= MAX_PRIORITY :: [], map[], map[], {}, 0, ZERO)

  // ---- Parts ----

  function Line(v: Plain, p: Priority): seq<string> {
    if p in v.lines then v.lines[p] else []
  }

  function ListOf(lists: map<string, seq<Message>>, k: string): seq<Message> {
    if k in lists then lists[k] else []
  }

  /** Lists with list `k` replaced; an empty list is no list. */
  function SetList(lists: map<string, seq<Message>>, k: string, ms: seq<Message>): map<string, seq<Message>> {
    if ms == [] then lists - {k} else lists[k := ms]
  }

  /** The groups with a delivery in progress. */
  function Busy(leases: map<string, Delivery>): set<string> {
    set id | id in leases :: leases[id].msg.Key()
  }

  function ReadyIn(lists: map<string, seq<Message>>): set<Message> {
    set k, m | k in lists && m in lists[k] :: m
  }

  function InFlightIn(leases: map<string, Delivery>): set<Message> {
    set id | id in leases :: leases[id].msg
  }

  function ContentsOf(v: Plain): Contents {
    Contents(ReadyIn(v.lists), InFlightIn(v.leases), v.delayed)
  }

  // ---- Invariant ----

  ghost predicate ListsOk(lists: map<string, seq<Message>>) {
    forall k | k in lists :: lists[k] != [] && NoDup(lists[k]) && forall m | m in lists[k] :: m.Key() == k
  }

  /** One delivery per group, each under an epoch of its own that was handed out. */
  ghost predicate LeasesOk(leases: map<string, Delivery>, epoch: nat) {
    && (forall id | id in leases :: leases[id].msg.id == id && leases[id].epoch <= epoch)
    && (forall i, j | i in leases && j in leases && i != j ::
          leases[i].msg.Key() != leases[j].msg.Key() && leases[i].epoch != leases[j].epoch)
  }

  ghost predicate Shaped(v: Plain) {
    && ListsOk(v.lists)
    && LeasesOk(v.leases, v.epoch)
    && (forall m | m in v.delayed :: m.deliverAfter.Some?)
  }

  ghost predicate ContentsInv(v: Plain) {
    Shaped(v) && Counted(v.st, ContentsOf(v))
  }

  /** Group `k` can be served at priority `p`: it has a head of that priority and no delivery in progress. */
  ghost predicate Serves(v: Plain, p: Priority, k: string) {
    k in v.lists && v.lists[k] != [] && v.lists[k][0].priority == p && k !in Busy(v.leases)
  }

  ghost predicate LineOk(v: Plain, p: Priority) {
    p in v.lines && NoDup(v.lines[p]) && forall k :: k in v.lines[p] <==> Serves(v, p, k)
  }

  /** The lines are exactly the servable groups, each once, in the band of its head. */
  ghost predicate LinesInv(v: Plain) {
    forall p: Priority :: LineOk(v, p)
  }

  ghost predicate Inv(v: Plain) {
    ContentsInv(v) && LinesInv(v)
  }

  // ---- Operations ----

  /** Lists group `k` at the back of the band of its head. */
  function Join(v: Plain, k: string): Plain
    requires k in v.lists && v.lists[k] != []
  {
    var p := v.lists[k][0].priority;
    v.(lines := v.lines[p := Line(v, p) + [k]])
  }

  function Quit(v: Plain, k: string): Plain {
    v.(lines := map p: Priority | p <= MAX_PRIORITY :: Without(Line(v, p), k))
  }

  /** `k` moves to the back of the line its head belongs to, if it can be served at all. */
  function Relist(v: Plain, k: string): Plain {
    var v' := Quit(v, k);
    if ListOf(v.lists, k) != [] && k !in Busy(v.leases) then Join(v', k) else v'
  }

  function Append(v: Plain, m: Message): Plain {
    var k := m.Key();
    var v' := v.(lists := SetList(v.lists, k, ListOf(v.lists, k) + [m]));
    if ListOf(v.lists, k) != [] || k in Busy(v.leases) then v' else Join(v', k)
  }

  function Moved(v: Plain, m: Message, from: Where, to: Where): Plain
    requires |v.st.ready| == 3
  {
    v.(st := Move(v.st, m, from, to))
  }

  function Submitted(v: Plain, m: Message, to: Where): Plain
    requires |v.st.ready| == 3
  {
    Moved(v.(st := CountEnqueued(v.st)), m, Absent, to)
  }

  function Enqueue(v: Plain, m: Message, now: Time): Plain
    requires |v.st.ready| == 3
  {
    if m.Waiting(now) then Submitted(v.(delayed := v.delayed + {m}), m, Delayed)
    else Append(Submitted(v, m, Ready), m)
  }

  /** The head of list `k` has outlived its time. */
  function DropHead(v: Plain, k: string): Plain
    requires ListOf(v.lists, k) != [] && |v.st.ready| == 3
  {
    var m := v.lists[k][0];
    v.(lists := SetList(v.lists, k, v.lists[k][1..]), st := CountExpired(Move(v.st, m, Ready, Absent)))
  }

  function DropExpired(v: Plain, k: string, now: Time): (r: Plain)
    requires |v.st.ready| == 3
    ensures |r.st.ready| == 3
    decreases |ListOf(v.lists, k)|
  {
    if ListOf(v.lists, k) != [] && v.lists[k][0].Expired(now) then DropExpired(DropHead(v, k), k, now) else v
  }

  /** A message on its way out once more. */
  function Attempted(m: Message): Message {
    m.(attempts := m.attempts + 1)
  }

  function NextEpoch(epoch: nat): nat {
    epoch + 1
  }

  function Deliver(v: Plain, k: string, deadline: Time): (Plain, Delivery)
    requires ListOf(v.lists, k) != [] && |v.st.ready| == 3
  {
    var m := v.lists[k][0];
    var d := Delivery(Attempted(m), NextEpoch(v.epoch), deadline);
    (Moved(v, d.msg, Ready, InFlight).(
       lists := SetList(v.lists, k, v.lists[k][1..]), leases := v.leases[m.id := d], epoch := d.epoch), d)
  }

  /** Group `k` has left its line: its first message that has not expired goes out, if there is one. */
  function Serve(v: Plain, k: string, now: Time, deadline: Time): (Plain, Option<Delivery>)
    requires |v.st.ready| == 3
  {
    var v1 := DropExpired(v, k, now);
    if ListOf(v1.lists, k) == [] then (v1, None)
    else
      var (v2, d) := Deliver(v1, k, deadline);
      (v2, Some(d))
  }

  function Pulled(v: Plain, p: Priority): Plain
    requires Line(v, p) != []
  {
    v.(lines := v.lines[p := Line(v, p)[1..]])
  }

  /** Serves the first group of line `p`. */
  function Take(v: Plain, p: Priority, now: Time, deadline: Time): (Plain, Option<Delivery>)
    requires |v.st.ready| == 3
  {
    if Line(v, p) == [] then (v, None)
    else Serve(Pulled(v, p), Line(v, p)[0], now, deadline)
  }

  /** The delivery of group `k` ended; its next message may go out. */
  function Release(v: Plain, k: string): Plain {
    if ListOf(v.lists, k) != [] then Join(v, k) else v
  }

  function Ack(v: Plain, id: string, epoch: nat): (Plain, Outcome)
    requires |v.st.ready| == 3
  {
    if id !in v.leases then (v, NotInFlight)
    else if v.leases[id].epoch != epoch then (v, LeaseExpired)
    else (Release(Acked(v, id), v.leases[id].msg.Key()), Done)
  }

  function Acked(v: Plain, id: string): Plain
    requires id in v.leases && |v.st.ready| == 3
  {
    v.(leases := v.leases - {id}, st := CountAcked(Move(v.st, v.leases[id].msg, InFlight, Absent)))
  }

  predicate Exhausted(m: Message, retry: Retry) {
    m.attempts >= retry.maxRetries && retry.hasDeadLetter
  }

  function Postponed(m: Message, now: Time, delay: Time): Message {
    m.(deliverAfter := Some(now + delay))
  }

  /** A delivery failed: the message expires, is dead-lettered, waits, or returns to the front of its group. */
  function Retired(v: Plain, id: string, now: Time, delay: Time, retry: Retry): Plain
    requires id in v.leases && |v.st.ready| == 3
  {
    var m := v.leases[id].msg;
    var k := m.Key();
    var v1 := v.(leases := v.leases - {id});
    if m.Expired(now) then v1.(st := CountExpired(Move(v.st, m, InFlight, Absent)))
    else if Exhausted(m, retry) then v1.(st := CountDeadLettered(Move(v.st, m, InFlight, Absent)))
    else if delay > 0 then
      var m' := Postponed(m, now, delay);
      v1.(delayed := v.delayed + {m'}, st := CountRequeued(Move(v.st, m', InFlight, Delayed)))
    else
      v1.(lists := SetList(v.lists, k, [m] + ListOf(v.lists, k)), st := CountRequeued(Move(v.st, m, InFlight, Ready)))
  }

  /** What a failed delivery hands to the dead-letter queue. */
  function Dead(m: Message, now: Time, retry: Retry): Option<Message> {
    if !m.Expired(now) && Exhausted(m, retry) then Some(m) else None
  }

  function Retire(v: Plain, id: string, now: Time, delay: Time, retry: Retry): (Plain, Option<Message>)
    requires id in v.leases && |v.st.ready| == 3
  {
    var m := v.leases[id].msg;
    (Release(Retired(v, id, now, delay, retry), m.Key()), Dead(m, now, retry))
  }

  function Nack(v: Plain, id: string, epoch: nat, now: Time, delay: Time, retry: Retry): (Plain, Option<Message>, Outcome)
    requires |v.st.ready| == 3
  {
    if id !in v.leases then (v, None, NotInFlight)
    else if v.leases[id].epoch != epoch then (v, None, LeaseExpired)
    else
      var (v', dead) := Retire(v, id, now, delay, retry);
      (v', dead, Done)
  }

  /** The message a delayed one becomes when its delay is over. */
  function Due(m: Message): Message {
    m.(deliverAfter := None)
  }

  /** The delay of `m` is over; it joins the end of its group. */
  function ReleaseDelayed(v: Plain, m: Message): Plain
    requires |v.st.ready| == 3
  {
    Append(Moved(v.(delayed := v.delayed - {m}), Due(m), Delayed, Ready), Due(m))
  }

  /** `sweepTTL` on one group: expired heads go, and a group whose head changed is listed anew. */
  function Expire(v: Plain, k: string, now: Time): Plain
    requires |v.st.ready| == 3
  {
    if ListOf(v.lists, k) != [] && v.lists[k][0].Expired(now) then Relist(DropExpired(v, k, now), k) else v
  }

  function ArriveStats(st: Stats, ms: seq<Message>): (r: Stats)
    requires |st.ready| == 3
    ensures |r.ready| == 3
    decreases |ms|
  {
    if ms == [] then st else ArriveStats(Move(st, ms[0], Absent, Ready), ms[1..])
  }

  /** Messages of group `k` arrive from another owner or from the log, ahead of what is here. */
  function AbsorbGroup(v: Plain, k: string, ms: seq<Message>): Plain
    requires |v.st.ready| == 3
  {
    Relist(v.(lists := SetList(v.lists, k, ms + ListOf(v.lists, k)), st := ArriveStats(v.st, ms)), k)
  }

  function AbsorbDelayed(v: Plain, m: Message): Plain
    requires |v.st.ready| == 3
  {
    Moved(v.(delayed := v.delayed + {m}), m, Absent, Delayed)
  }

  function Drain(v: Plain): (Plain, set<Message>) {
    (EMPTY.(epoch := v.epoch, st := ResetGauges(v.st)), ContentsOf(v).All())
  }
}
