/** Messages, priorities and receipts: the values every other module moves around. */
module Messages {

  datatype Option<+T> = None | Some(value: T)

  /** Nanoseconds on the queue's clock; differences are durations. */
  type Time = int

  const MAX_PRIORITY := 100

  type Priority = p: nat | p <= MAX_PRIORITY

  type Byte = b: nat | b < 256

  datatype Message = Message(
    id: string,
    payload: seq<Byte>,
    priority: Priority,
    groupId: string,
    seqNo: nat,
    enqueuedAt: Time,
    expiresAt: Option<Time>,
    deliverAfter: Option<Time>,
    attempts: nat)
  {
    predicate Expired(now: Time) {
      expiresAt.Some? && expiresAt.value <= now
    }

    /** A message that names no group is a group of its own. */
    function Key(): string {
      if groupId != "" then groupId else id
    }

    predicate Waiting(now: Time) {
      deliverAfter.Some? && now < deliverAfter.value
    }
  }

  /** The three buckets gauges are reported in. */
  function Bucket(p: Priority): (b: nat)
    ensures b < 3
  {
    if p <= 33 then 0 else if p <= 66 then 1 else 2
  }
}
