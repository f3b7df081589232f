/** The set of non-empty bands, kept as two 64-bit words. A word is the set of its bit positions. */
module BandMask {
  import opened Messages

  type BitIndex = i: nat | i < 64

  /** The bits of the upper word that some priority stands for. */
  type HighBit = i: nat | i <= MAX_PRIORITY - 64

  datatype Mask = Mask(low: set<BitIndex>, high: set<HighBit>)

  const EMPTY := Mask({}, {})

  ghost function Bands(m: Mask): set<Priority> {
    set p: Priority | if p < 64 then p in m.low else (p - 64) in m.high
  }

  predicate Has(m: Mask, p: Priority)
    ensures Has(m, p) <==> p in Bands(m)
  {
    if p / 64 == 0 then p % 64 in m.low else p % 64 in m.high
  }

  function Set(m: Mask, p: Priority): (r: Mask)
    ensures Bands(r) == Bands(m) + {p}
  {
    if p / 64 == 0 then m.(low := m.low + {p % 64}) else m.(high := m.high + {p % 64})
  }

  function Clear(m: Mask, p: Priority): (r: Mask)
    ensures Bands(r) == Bands(m) - {p}
  {
    if p / 64 == 0 then m.(low := m.low - {p % 64}) else m.(high := m.high - {p % 64})
  }

  /** `63 - bits.LeadingZeros64(w)`: the top set bit at or below `i`. */
  function TopBit(w: set<nat>, i: nat): (r: nat)
    requires exists j :: j in w && j <= i
    ensures r in w && r <= i
    ensures forall j :: j in w && j <= i ==> j <= r
    decreases i
  {
    if i in w then i else TopBit(w, i - 1)
  }

  /** `highestBand`: no false negative, and the largest of the set bits. */
  function Highest(m: Mask): (r: Option<Priority>)
    ensures r.None? <==> Bands(m) == {}
    ensures r.Some? ==> r.value in Bands(m) && forall q :: q in Bands(m) ==> q <= r.value
  {
    if m.high != {} then
      var j :| j in m.high;
      assert j <= MAX_PRIORITY - 64;
      var top := 64 + TopBit(m.high, MAX_PRIORITY - 64);
      assert top in Bands(m);
      Some(top)
    else if m.low != {} then
      var j :| j in m.low;
      assert j <= 63;
      var top: Priority := TopBit(m.low, 63);
      assert top in Bands(m);
      Some(top)
    else
      None
  }
}
