/** The FIFO that priority bands and group lists rest on: a buffer whose first `head` cells are spent. */
module Deque {

  class Deque<T(0)> {
    var buf: seq<T>
    var head: nat

    ghost predicate Valid()
      reads this
    {
      head <= |buf|
    }

    ghost function Contents(): seq<T>
      requires Valid()
      reads this
    {
      buf[head..]
    }

    constructor ()
      ensures Valid() && Contents() == []
    {
      buf, head := [], 0;
    }

    method Len() returns (n: nat)
      requires Valid()
      ensures n == |Contents()|
    {
      n := |buf| - head;
    }

    method PushBack(v: T)
      requires Valid()
      modifies this
      ensures Valid() && Contents() == old(Contents()) + [v]
    {
      buf := buf + [v];
    }

    /** Reuses a spent cell when there is one, and shifts the whole buffer otherwise. */
    method PushFront(v: T)
      requires Valid()
      modifies this
      ensures Valid() && Contents() == [v] + old(Contents())
    {
      if head > 0 {
        head := head - 1;
        buf := buf[head := v];
        return;
      }
      buf := buf + [v];
      buf := [buf[0]] + buf[..|buf| - 1];
      buf := buf[0 := v];
    }

    /** Clears the cell it empties (`zero` is Go's zero value) and compacts once half the buffer is spent. */
    method PopFront(zero: T) returns (v: T, ok: bool)
      requires Valid()
      modifies this
      ensures Valid() && ok == (old(Contents()) != [])
      ensures ok ==> v == old(Contents())[0] && Contents() == old(Contents())[1..]
      ensures !ok ==> v == zero && Contents() == []
      ensures ok && old(head) < 32 ==> head == old(head) + 1
      ensures 2 * head < |buf| || head <= 32 || !ok
    {
      if head == |buf| {
        return zero, false;
      }
      v, ok := buf[head], true;
      buf := buf[head := zero];
      head := head + 1;
      if head > 32 && head * 2 >= |buf| {
        buf := buf[head..];
        head := 0;
      }
    }

    method Front(zero: T) returns (v: T, ok: bool)
      requires Valid()
      ensures ok == (Contents() != [])
      ensures v == if ok then Contents()[0] else zero
    {
      if head == |buf| {
        return zero, false;
      }
      return buf[head], true;
    }

    method At(i: nat) returns (v: T)
      requires Valid() && i < |Contents()|
      ensures v == Contents()[i]
    {
      v := buf[head + i];
    }

    method All() returns (out: seq<T>)
      requires Valid()
      ensures out == Contents()
    {
      out := buf[head..];
    }

    method Prepend(vs: seq<T>)
      requires Valid()
      modifies this
      ensures Valid() && Contents() == vs + old(Contents())
    {
      if |vs| == 0 {
        return;
      }
      buf, head := vs + buf[head..], 0;
    }
  }
}
