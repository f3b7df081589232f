/** Group records, the band deques that list them, and the table that finds them by id. */
module GroupIndex {
  import opened Messages
  import opened Seqs
  import BandMask

  /** One ordering group. A record can outlive its place in the table: an old band entry may still point at it. */
  class Group {
    const id: string
    var msgs: seq<Message>
    var locked: bool
    var inBand: bool
    var band: Priority
    var version: nat

    constructor (id: string)
      ensures this.id == id && Rec() == NEW_RECORD
    {
      this.id := id;
      msgs, locked, inBand, band, version := [], false, false, 0, 0;
    }

    function Rec(): Record
      reads this
    {
      Record(msgs, locked, inBand, band, version)
    }
  }

  /** The fields of a group at one moment. */
  datatype Record = Record(
    msgs: seq<Message>,
    locked: bool,
    inBand: bool,
    band: Priority,
    version: nat)

  const NEW_RECORD := Record([], false, false, 0, 0)

  datatype Entry = Entry(g: Group, ver: nat)

  datatype Index = Index(
    bands: map<Priority, seq<Entry>>,
    mask: BandMask.Mask,
    table: map<string, Group>,
    recs: map<Group, Record>)

  const EMPTY := Index(map[], BandMask.EMPTY, map[], map[])

  // ---- What the index means ----

  predicate Current(e: Entry, recs: map<Group, Record>) {
    e.g in recs && e.ver == recs[e.g].version
  }

  /** The groups a band really offers, in order: its entries without the stale ones. */
  function Live(es: seq<Entry>, recs: map<Group, Record>): seq<Group> {
    if es == [] then []
    else (if Current(es[0], recs) then [es[0].g] else []) + Live(es[1..], recs)
  }

  function Band(ix: Index, p: Priority): seq<Entry> {
    if p in ix.bands then ix.bands[p] else []
  }

  function LiveLine(ix: Index, p: Priority): seq<Group> {
    Live(Band(ix, p), ix.recs)
  }

  function Lists(ix: Index): map<string, seq<Message>>
    requires TableOk(ix)
  {
    map id | id in ix.table :: ix.recs[ix.table[id]].msgs
  }

  function Locked(ix: Index): set<string>
    requires TableOk(ix)
  {
    set id | id in ix.table && ix.recs[ix.table[id]].locked
  }

  predicate Listed(ix: Index, g: Group) {
    g in ix.recs && g.id in ix.table && ix.table[g.id] == g
  }

  // ---- Representation invariant ----

  predicate TableOk(ix: Index) {
    forall id :: id in ix.table ==> ix.table[id] in ix.recs && ix.table[id].id == id
  }

  ghost predicate EntriesBelow(es: seq<Entry>, recs: map<Group, Record>) {
    forall i :: 0 <= i < |es| ==> es[i].g in recs && es[i].ver <= recs[es[i].g].version
  }

  ghost predicate EntriesOk(ix: Index) {
    forall p :: p in ix.bands ==> ix.bands[p] != [] && EntriesBelow(ix.bands[p], ix.recs)
  }

  ghost predicate MaskOk(ix: Index) {
    BandMask.Bands(ix.mask) == ix.bands.Keys
  }

  /** Every listed group says so, and every group that says so is listed, once, in the band it names. */
  ghost predicate LinesOk(ix: Index) {
    && (forall p: Priority :: NoDup(LiveLine(ix, p)))
    && (forall p: Priority, g | g in LiveLine(ix, p) :: g in ix.recs && ix.recs[g].inBand && ix.recs[g].band == p)
    && (forall g | g in ix.recs && ix.recs[g].inBand :: g in LiveLine(ix, ix.recs[g].band))
  }

  /**
   * A group is listed in the band of its head exactly when it is unlocked and not empty.
   * Groups in `open` are the ones an operation has taken out of their line for the moment.
   */
  ghost predicate ServeOk(ix: Index, open: set<Group>) {
    forall g | g in ix.recs :: GroupOk(ix, g, g in open)
  }

  ghost predicate GroupOk(ix: Index, g: Group, open: bool)
    requires g in ix.recs
  {
    var r := ix.recs[g];
    if !Listed(ix, g) then !r.inBand && !r.locked && r.msgs == []
    else if open then !r.inBand
    else
      && (r.locked || r.msgs != [])
      && (r.inBand <==> !r.locked)
      && (r.inBand ==> r.band == r.msgs[0].priority)
  }

  ghost predicate IndexInv(ix: Index, open: set<Group>) {
    TableOk(ix) && EntriesOk(ix) && MaskOk(ix) && LinesOk(ix) && ServeOk(ix, open)
  }

  // ---- Lines and versions ----

  lemma {:induction false} LiveAppend(es: seq<Entry>, e: Entry, recs: map<Group, Record>)
    ensures Live(es + [e], recs) == Live(es, recs) + (if Current(e, recs) then [e.g] else [])
  {
    if es == [] {
      assert es + [e] == [e];
    } else {
      LiveAppend(es[1..], e, recs);
      assert (es + [e])[1..] == es[1..] + [e];
    }
  }

  lemma {:induction false} LiveSame(es: seq<Entry>, recs: map<Group, Record>, recs': map<Group, Record>)
    requires forall i :: 0 <= i < |es| ==> (Current(es[i], recs) <==> Current(es[i], recs'))
    ensures Live(es, recs') == Live(es, recs)
  {
    if es != [] {
      assert Current(es[0], recs) <==> Current(es[0], recs');
      forall i | 0 <= i < |es[1..]|
        ensures Current(es[1..][i], recs) <==> Current(es[1..][i], recs')
      {
        assert es[1..][i] == es[i + 1];
      }
      LiveSame(es[1..], recs, recs');
    }
  }

  /** Raising a version makes every entry of that group stale and no other. */
  lemma {:induction false} LiveBumped(es: seq<Entry>, recs: map<Group, Record>, g: Group, r: Record)
    requires EntriesBelow(es, recs)
    requires g in recs && r.version > recs[g].version
    ensures Live(es, recs[g := r]) == Without(Live(es, recs), g)
  {
    if es != [] {
      forall i | 0 <= i < |es[1..]|
        ensures es[1..][i].g in recs && es[1..][i].ver <= recs[es[1..][i].g].version
      {
        assert es[1..][i] == es[i + 1];
      }
      LiveBumped(es[1..], recs, g, r);
      var first := if Current(es[0], recs) then [es[0].g] else [];
      WithoutAppend(first, Live(es[1..], recs), g);
      assert es[0].ver <= recs[es[0].g].version;
    }
  }

  // ---- pushGroup ----

  /** Writes `g`'s fields. */
  function SetRec(ix: Index, g: Group, r: Record): Index {
    ix.(recs := ix.recs[g := r])
  }

  /** Appends an entry to a band, and marks the band as not empty. */
  function AddEntry(ix: Index, p: Priority, e: Entry): Index {
    ix.(bands := ix.bands[p := Band(ix, p) + [e]], mask := BandMask.Set(ix.mask, p))
  }

  /** Appends the entry of a servable group to the band of its head, under a new version. */
  function Push(ix: Index, g: Group): Index
    requires g in ix.recs
  {
    var r := ix.recs[g];
    if r.msgs == [] || r.locked then ix
    else
      var p := r.msgs[0].priority;
      var r' := r.(version := r.version + 1, band := p, inBand := true);
      AddEntry(SetRec(ix, g, r'), p, Entry(g, r'.version))
  }

  lemma PushSteps(ix: Index, g: Group)
    requires g in ix.recs && ix.recs[g].msgs != [] && !ix.recs[g].locked
    ensures var r := ix.recs[g];
            var p := r.msgs[0].priority;
            var r' := r.(version := r.version + 1, band := p, inBand := true);
            Push(ix, g) == AddEntry(SetRec(ix, g, r'), p, Entry(g, r'.version))
  {
  }

  /** The lines of `ix` with `g` appended to line `p`. */
  ghost predicate LinesAre(ix: Index, ix': Index, p: Priority, l: seq<Group>) {
    forall q: Priority :: LiveLine(ix', q) == if q == p then l else LiveLine(ix, q)
  }

  ghost predicate SameLines(ix: Index, ix': Index) {
    forall q: Priority :: LiveLine(ix', q) == LiveLine(ix, q)
  }

  /** Nothing but the band bookkeeping differs. */
  ghost predicate SameLists(ix: Index, ix': Index)
    requires TableOk(ix) && TableOk(ix')
  {
    Lists(ix') == Lists(ix) && Locked(ix') == Locked(ix)
  }

  lemma PushLines(ix: Index, g: Group)
    requires IndexInv(ix, {g}) && Listed(ix, g)
    requires ix.recs[g].msgs != [] && !ix.recs[g].locked
    ensures var p := ix.recs[g].msgs[0].priority;
            LinesAre(ix, Push(ix, g), p, LiveLine(ix, p) + [g])
  {
    var r := ix.recs[g];
    var p := r.msgs[0].priority;
    var ix' := Push(ix, g);
    assert !r.inBand by { assert GroupOk(ix, g, true); }
    forall q: Priority
      ensures LiveLine(ix', q) == if q == p then LiveLine(ix, p) + [g] else LiveLine(ix, q)
    {
      assert g !in LiveLine(ix, q);
      if q in ix.bands { LiveBumped(Band(ix, q), ix.recs, g, ix'.recs[g]); }
      if q == p {
        LiveAppend(Band(ix, p), Entry(g, r.version + 1), ix'.recs);
      }
    }
  }

  lemma PushServe(ix: Index, g: Group)
    requires TableOk(ix) && ServeOk(ix, {g}) && Listed(ix, g)
    requires ix.recs[g].msgs != [] && !ix.recs[g].locked
    ensures ServeOk(Push(ix, g), {})
  {
    var ix' := Push(ix, g);
    forall h | h in ix'.recs
      ensures GroupOk(ix', h, false)
    {
      assert GroupOk(ix, h, h in {g});
    }
  }

  lemma PushEntries(ix: Index, g: Group)
    requires EntriesOk(ix) && g in ix.recs
    ensures EntriesOk(Push(ix, g))
  {
    var ix' := Push(ix, g);
    forall q | q in ix'.bands
      ensures ix'.bands[q] != [] && EntriesBelow(ix'.bands[q], ix'.recs)
    {
      assert EntriesBelow(Band(ix, q), ix.recs);
    }
  }

  /** Lines after `g`, which was in none of them, joins the end of line `p`. */
  lemma JoinLines(ix: Index, ix': Index, g: Group, p: Priority)
    requires LinesOk(ix) && LinesAre(ix, ix', p, LiveLine(ix, p) + [g])
    requires g in ix.recs && !ix.recs[g].inBand
    requires g in ix'.recs && ix'.recs == ix.recs[g := ix'.recs[g]]
    requires ix'.recs[g].inBand && ix'.recs[g].band == p
    ensures LinesOk(ix')
  {
    forall q: Priority
      ensures NoDup(LiveLine(ix', q))
    {
      assert g !in LiveLine(ix, q);
      assert NoDup(LiveLine(ix, q));
    }
    forall q: Priority, h | h in LiveLine(ix', q)
      ensures h in ix'.recs && ix'.recs[h].inBand && ix'.recs[h].band == q
    {
      assert h in LiveLine(ix, q) || (h == g && p == q);
    }
    forall h | h in ix'.recs && ix'.recs[h].inBand
      ensures h in LiveLine(ix', ix'.recs[h].band)
    {
      assert h == g || h in LiveLine(ix, ix.recs[h].band);
    }
  }

  lemma PushMaskAndTable(ix: Index, g: Group)
    requires TableOk(ix) && MaskOk(ix) && g in ix.recs
    ensures TableOk(Push(ix, g)) && MaskOk(Push(ix, g))
    ensures SameLists(ix, Push(ix, g))
  {
  }

  lemma PushKeepsInv(ix: Index, g: Group)
    requires IndexInv(ix, {g}) && Listed(ix, g)
    requires ix.recs[g].msgs != [] && !ix.recs[g].locked
    ensures IndexInv(Push(ix, g), {})
    ensures SameLists(ix, Push(ix, g))
  {
    assert !ix.recs[g].inBand by { assert GroupOk(ix, g, true); }
    PushLines(ix, g);
    JoinLines(ix, Push(ix, g), g, ix.recs[g].msgs[0].priority);
    PushServe(ix, g);
    PushEntries(ix, g);
    PushMaskAndTable(ix, g);
  }

  // ---- takeGroup ----

  function DropBand(ix: Index, p: Priority): Index {
    ix.(bands := ix.bands - {p}, mask := BandMask.Clear(ix.mask, p))
  }

  datatype Popped = Popped(recs: map<Group, Record>, rest: seq<Entry>, got: Option<Group>)

  /** Pops entries until one is current and its group can be served. A stale entry leaves its group alone. */
  function PopCurrent(es: seq<Entry>, recs: map<Group, Record>): Popped {
    if es == [] then Popped(recs, [], None)
    else if !Current(es[0], recs) then PopCurrent(es[1..], recs)
    else
      var r := recs[es[0].g];
      var recs' := recs[es[0].g := r.(inBand := false)];
      if r.locked || r.msgs == [] then PopCurrent(es[1..], recs')
      else Popped(recs', es[1..], Some(es[0].g))
  }

  function TakeGroup(ix: Index, p: Priority): (Index, Option<Group>) {
    if p !in ix.bands then (ix.(mask := BandMask.Clear(ix.mask, p)), None)
    else
      var d := PopCurrent(ix.bands[p], ix.recs);
      var ix' := ix.(recs := d.recs);
      if d.rest == [] then (DropBand(ix', p), d.got)
      else (ix'.(bands := ix.bands[p := d.rest]), d.got)
  }

  ghost predicate Servable(es: seq<Entry>, recs: map<Group, Record>) {
    forall i :: 0 <= i < |es| && Current(es[i], recs) ==> !recs[es[i].g].locked && recs[es[i].g].msgs != []
  }

  lemma {:induction false} PopCurrentSpec(es: seq<Entry>, recs: map<Group, Record>)
    requires Servable(es, recs)
    ensures var d := PopCurrent(es, recs);
            && |d.rest| <= |es| && d.rest == es[|es| - |d.rest|..]
            && (es != [] ==> |d.rest| < |es|)
            && (d.got.None? <==> Live(es, recs) == [])
            && (d.got.None? ==> d.recs == recs && d.rest == [])
            && (d.got.Some? ==>
                 var g := d.got.value;
                 && g in recs
                 && d.recs == recs[g := recs[g].(inBand := false)]
                 && Live(es, recs) == [g] + Live(d.rest, recs))
  {
    if es != [] && !Current(es[0], recs) {
      forall i | 0 <= i < |es[1..]| && Current(es[1..][i], recs)
        ensures !recs[es[1..][i].g].locked && recs[es[1..][i].g].msgs != []
      {
        assert es[1..][i] == es[i + 1];
      }
      PopCurrentSpec(es[1..], recs);
    }
  }

  lemma LiveFlags(es: seq<Entry>, recs: map<Group, Record>, g: Group, r: Record)
    requires g in recs && r.version == recs[g].version
    ensures Live(es, recs[g := r]) == Live(es, recs)
  {
    LiveSame(es, recs, recs[g := r]);
  }

  lemma {:induction false} LiveMember(es: seq<Entry>, recs: map<Group, Record>, i: nat)
    requires i < |es| && Current(es[i], recs)
    ensures es[i].g in Live(es, recs)
  {
    if i > 0 {
      assert es[1..][i - 1] == es[i];
      LiveMember(es[1..], recs, i - 1);
    }
  }

  lemma BandIsServable(ix: Index, p: Priority)
    requires IndexInv(ix, {})
    ensures Servable(Band(ix, p), ix.recs)
  {
    var es := Band(ix, p);
    forall i | 0 <= i < |es| && Current(es[i], ix.recs)
      ensures !ix.recs[es[i].g].locked && ix.recs[es[i].g].msgs != []
    {
      LiveMember(es, ix.recs, i);
      assert es[i].g in LiveLine(ix, p);
      assert GroupOk(ix, es[i].g, false);
    }
  }

  lemma TakeGroupBands(ix: Index, p: Priority, q: Priority)
    ensures Band(TakeGroup(ix, p).0, q) ==
            if q == p then PopCurrent(Band(ix, p), ix.recs).rest else Band(ix, q)
    ensures TakeGroup(ix, p).0.recs == PopCurrent(Band(ix, p), ix.recs).recs
    ensures TakeGroup(ix, p).1 == PopCurrent(Band(ix, p), ix.recs).got
  {
  }

  /** `takeGroup` serves the head of the line, or finds the line empty; either way no other line moves. */
  lemma TakeGroupLines(ix: Index, p: Priority)
    requires Servable(Band(ix, p), ix.recs)
    ensures var (ix', got) := TakeGroup(ix, p);
            && got == (if LiveLine(ix, p) == [] then None else Some(LiveLine(ix, p)[0]))
            && LinesAre(ix, ix', p, if LiveLine(ix, p) == [] then [] else LiveLine(ix, p)[1..])
            && (got.None? ==> ix'.recs == ix.recs)
            && (got.Some? ==> got.value in ix.recs && ix'.recs == ix.recs[got.value := ix.recs[got.value].(inBand := false)])
  {
    var d := PopCurrent(Band(ix, p), ix.recs);
    var (ix', got) := TakeGroup(ix, p);
    TakeGroupBands(ix, p, p);
    PopCurrentSpec(Band(ix, p), ix.recs);
    forall q: Priority
      ensures LiveLine(ix', q) == if q == p then Live(d.rest, ix.recs) else LiveLine(ix, q)
    {
      TakeGroupBands(ix, p, q);
      if got.Some? { LiveFlags(Band(ix', q), ix.recs, got.value, d.recs[got.value]); }
    }
  }

  lemma TakeGroupServe(ix: Index, p: Priority)
    requires IndexInv(ix, {}) && Servable(Band(ix, p), ix.recs)
    ensures var (ix', got) := TakeGroup(ix, p);
            && ServeOk(ix', if got.None? then {} else {got.value})
            && (got.Some? ==> Listed(ix', got.value) && !ix'.recs[got.value].locked && ix'.recs[got.value].msgs != [])
  {
    TakeGroupLines(ix, p);
    var (ix', got) := TakeGroup(ix, p);
    assert ix'.table == ix.table;
    hide *;
    IndexParts(ix);
    ServeAfterTake(ix, ix', got, p);
  }

  lemma IndexParts(ix: Index)
    requires IndexInv(ix, {})
    ensures LinesOk(ix) && ServeOk(ix, {})
  {
  }

  /** The group that left line `p` is open; every other is served as before. */
  lemma ServeAfterTake(ix: Index, ix': Index, got: Option<Group>, p: Priority)
    requires LinesOk(ix) && ServeOk(ix, {}) && ix'.table == ix.table
    requires if got.None? then ix'.recs == ix.recs
             else LiveLine(ix, p) != [] && got.value == LiveLine(ix, p)[0] && got.value in ix.recs &&
                  ix'.recs == ix.recs[got.value := ix.recs[got.value].(inBand := false)]
    ensures ServeOk(ix', if got.None? then {} else {got.value})
    ensures got.Some? ==> Listed(ix', got.value) && !ix'.recs[got.value].locked && ix'.recs[got.value].msgs != []
  {
    hide LiveLine;
    if got.Some? {
      assert got.value in LiveLine(ix, p);
      assert GroupOk(ix, got.value, false);
    }
    forall h | h in ix'.recs
      ensures GroupOk(ix', h, got.Some? && h == got.value)
    {
      assert GroupOk(ix, h, false);
    }
  }

  /** Dropping a prefix of a band, and changing no version, keeps entries below their group's version. */
  lemma SuffixBelow(es: seq<Entry>, rest: seq<Entry>, recs: map<Group, Record>, recs': map<Group, Record>)
    requires EntriesBelow(es, recs)
    requires |rest| <= |es| && rest == es[|es| - |rest|..]
    requires forall g | g in recs :: g in recs' && recs'[g].version == recs[g].version
    ensures EntriesBelow(rest, recs')
  {
    forall i | 0 <= i < |rest|
      ensures rest[i].g in recs' && rest[i].ver <= recs'[rest[i].g].version
    {
      assert rest[i] == es[|es| - |rest| + i];
    }
  }

  lemma TakeGroupEntries(ix: Index, p: Priority)
    requires EntriesOk(ix) && Servable(Band(ix, p), ix.recs)
    ensures EntriesOk(TakeGroup(ix, p).0)
  {
    PopCurrentSpec(Band(ix, p), ix.recs);
    var ix' := TakeGroup(ix, p).0;
    forall q | q in ix'.bands
      ensures ix'.bands[q] != [] && EntriesBelow(ix'.bands[q], ix'.recs)
    {
      SuffixBelow(Band(ix, q), Band(ix', q), ix.recs, ix'.recs);
    }
  }

  /** Flags and versions do not show in the table's lists. */
  lemma TableSame(ix: Index, ix': Index)
    requires TableOk(ix) && ix'.table == ix.table
    requires forall g | g in ix.recs :: g in ix'.recs
    requires forall g | g in ix.recs :: ix'.recs[g].msgs == ix.recs[g].msgs && ix'.recs[g].locked == ix.recs[g].locked
    ensures TableOk(ix') && SameLists(ix, ix')
  {
  }

  lemma TakeGroupMask(ix: Index, p: Priority)
    requires MaskOk(ix)
    ensures MaskOk(TakeGroup(ix, p).0)
  {
  }

  /** Lines after `g` left the front of line `p`. */
  lemma LeaveLines(ix: Index, ix': Index, g: Group, p: Priority)
    requires LinesOk(ix) && LiveLine(ix, p) != [] && LiveLine(ix, p)[0] == g
    requires LinesAre(ix, ix', p, LiveLine(ix, p)[1..])
    requires g in ix.recs && g in ix'.recs && ix'.recs == ix.recs[g := ix'.recs[g]] && !ix'.recs[g].inBand
    ensures LinesOk(ix')
  {
    forall q: Priority
      ensures NoDup(LiveLine(ix', q)) && g !in LiveLine(ix', q)
    {
      assert NoDup(LiveLine(ix, q));
      assert g in LiveLine(ix, p);
    }
    forall q: Priority, h | h in LiveLine(ix', q)
      ensures h in ix'.recs && ix'.recs[h].inBand && ix'.recs[h].band == q
    {
      assert h in LiveLine(ix, q);
    }
    forall h | h in ix'.recs && ix'.recs[h].inBand
      ensures h in LiveLine(ix', ix'.recs[h].band)
    {
      assert h in LiveLine(ix, ix.recs[h].band);
    }
  }

  lemma TakeGroupKeepsInv(ix: Index, p: Priority)
    requires IndexInv(ix, {})
    ensures var (ix', got) := TakeGroup(ix, p);
            && IndexInv(ix', if got.None? then {} else {got.value})
            && SameLists(ix, ix')
  {
    hide EntriesOk, MaskOk, LinesOk, ServeOk, Servable, SameLists;
    BandIsServable(ix, p);
    TakeGroupEntries(ix, p);
    TakeGroupMask(ix, p);
    TakeGroupServe(ix, p);
    TakeGroupLinesOk(ix, p);
    TakeGroupSame(ix, p);
  }

  lemma TakeGroupSame(ix: Index, p: Priority)
    requires TableOk(ix) && Servable(Band(ix, p), ix.recs)
    ensures var ix' := TakeGroup(ix, p).0; TableOk(ix') && SameLists(ix, ix')
  {
    hide SameLists, Servable;
    TakeGroupLines(ix, p);
    TableSame(ix, TakeGroup(ix, p).0);
  }

  lemma TakeGroupLinesOk(ix: Index, p: Priority)
    requires IndexInv(ix, {}) && Servable(Band(ix, p), ix.recs)
    ensures LinesOk(TakeGroup(ix, p).0)
  {
    hide EntriesOk, MaskOk, ServeOk;
    TakeGroupLines(ix, p);
    var (ix', got) := TakeGroup(ix, p);
    if got.Some? {
      LeaveLines(ix, ix', got.value, p);
    } else {
      SameLinesOk(ix, ix');
    }
  }

  lemma SameLinesOk(ix: Index, ix': Index)
    requires LinesOk(ix) && SameLines(ix, ix') && ix'.recs == ix.recs
    ensures LinesOk(ix')
  {
    forall q: Priority
      ensures LiveLine(ix', q) == LiveLine(ix, q) && NoDup(LiveLine(ix, q))
    {
    }
  }

  // ---- Writing one group, adding one, dropping one ----

  /** `Lists` and `Locked` after listed group `g` was given the fields `r`. */
  ghost predicate Writes(ix: Index, ix': Index, g: Group, r: Record)
    requires TableOk(ix) && TableOk(ix')
  {
    && Lists(ix') == Lists(ix)[g.id := r.msgs]
    && Locked(ix') == if r.locked then Locked(ix) + {g.id} else Locked(ix) - {g.id}
  }

  lemma SetRecTable(ix: Index, g: Group, r: Record)
    requires TableOk(ix) && Listed(ix, g)
    ensures TableOk(SetRec(ix, g, r)) && Writes(ix, SetRec(ix, g, r), g, r)
  {
    var ix' := SetRec(ix, g, r);
    forall id | id in ix.table
      ensures ix'.recs[ix'.table[id]].msgs == if id == g.id then r.msgs else ix.recs[ix.table[id]].msgs
    {
    }
  }

  /** A write that keeps the version and the band flags, and leaves the group in order or open, keeps the index. */
  lemma SetRecKeepsInv(ix: Index, g: Group, r: Record, open: set<Group>, open': set<Group>)
    requires IndexInv(ix, open) && Listed(ix, g) && open - {g} == open' - {g}
    requires var was := ix.recs[g]; r == was.(msgs := r.msgs, locked := r.locked)
    requires GroupOk(SetRec(ix, g, r), g, g in open')
    ensures IndexInv(SetRec(ix, g, r), open')
    ensures SameLines(ix, SetRec(ix, g, r)) && Writes(ix, SetRec(ix, g, r), g, r)
  {
    var ix' := SetRec(ix, g, r);
    SetRecTable(ix, g, r);
    SetRecServe(ix, g, r, open, open');
    SetRecEntries(ix, g, r);
    forall q: Priority
      ensures LiveLine(ix', q) == LiveLine(ix, q)
    {
      LiveFlags(Band(ix, q), ix.recs, g, r);
    }
    SameFlagsLinesOk(ix, ix');
  }

  lemma SetRecServe(ix: Index, g: Group, r: Record, open: set<Group>, open': set<Group>)
    requires TableOk(ix) && ServeOk(ix, open) && Listed(ix, g)
    requires open - {g} == open' - {g}
    requires GroupOk(SetRec(ix, g, r), g, g in open')
    ensures ServeOk(SetRec(ix, g, r), open')
  {
    var ix' := SetRec(ix, g, r);
    forall h | h in ix'.recs
      ensures GroupOk(ix', h, h in open')
    {
      if h != g {
        assert GroupOk(ix, h, h in open);
        assert h in open <==> h in open - {g};
        assert h in open' <==> h in open' - {g};
      }
    }
  }

  lemma SetRecEntries(ix: Index, g: Group, r: Record)
    requires EntriesOk(ix) && g in ix.recs && ix.recs[g].version <= r.version
    ensures EntriesOk(SetRec(ix, g, r))
  {
    var ix' := SetRec(ix, g, r);
    forall q | q in ix'.bands
      ensures ix'.bands[q] != [] && EntriesBelow(ix'.bands[q], ix'.recs)
    {
      assert EntriesBelow(ix.bands[q], ix.recs);
    }
  }

  lemma SameFlagsLinesOk(ix: Index, ix': Index)
    requires LinesOk(ix) && SameLines(ix, ix')
    requires forall g | g in ix.recs :: g in ix'.recs && ix'.recs[g].inBand == ix.recs[g].inBand && ix'.recs[g].band == ix.recs[g].band
    requires forall g | g in ix'.recs && ix'.recs[g].inBand :: g in ix.recs
    ensures LinesOk(ix')
  {
    forall q: Priority
      ensures LiveLine(ix', q) == LiveLine(ix, q) && NoDup(LiveLine(ix, q))
    {
    }
  }

  function AddGroup(ix: Index, id: string, g: Group): Index {
    ix.(table := ix.table[id := g], recs := ix.recs[g := NEW_RECORD])
  }

  /** A new record enters the table open: nothing is listed for it yet. */
  lemma AddGroupKeepsInv(ix: Index, id: string, g: Group)
    requires IndexInv(ix, {}) && id !in ix.table && g !in ix.recs && g.id == id
    ensures IndexInv(AddGroup(ix, id, g), {g}) && Listed(AddGroup(ix, id, g), g)
    ensures SameLines(ix, AddGroup(ix, id, g))
    ensures Lists(AddGroup(ix, id, g)) == Lists(ix)[id := []] && Locked(AddGroup(ix, id, g)) == Locked(ix)
  {
    AddGroupLines(ix, id, g);
    AddGroupServe(ix, id, g);
    AddGroupEntries(ix, id, g);
    AddGroupTable(ix, id, g);
  }

  lemma AddGroupTable(ix: Index, id: string, g: Group)
    requires TableOk(ix) && id !in ix.table && g !in ix.recs && g.id == id
    ensures var ix' := AddGroup(ix, id, g);
            TableOk(ix') && Listed(ix', g) && Lists(ix') == Lists(ix)[id := []] && Locked(ix') == Locked(ix)
  {
  }

  lemma AddGroupLines(ix: Index, id: string, g: Group)
    requires EntriesOk(ix) && LinesOk(ix) && g !in ix.recs
    ensures SameLines(ix, AddGroup(ix, id, g)) && LinesOk(AddGroup(ix, id, g))
  {
    var ix' := AddGroup(ix, id, g);
    forall q: Priority
      ensures LiveLine(ix', q) == LiveLine(ix, q)
    {
      assert EntriesBelow(Band(ix, q), ix.recs);
      LiveSame(Band(ix, q), ix.recs, ix'.recs);
    }
    SameFlagsLinesOk(ix, ix');
  }

  lemma AddGroupServe(ix: Index, id: string, g: Group)
    requires TableOk(ix) && ServeOk(ix, {}) && id !in ix.table && g !in ix.recs && g.id == id
    ensures ServeOk(AddGroup(ix, id, g), {g}) && TableOk(AddGroup(ix, id, g))
  {
    var ix' := AddGroup(ix, id, g);
    forall h | h in ix'.recs
      ensures GroupOk(ix', h, h in {g})
    {
      if h != g { assert GroupOk(ix, h, false); }
    }
  }

  lemma AddGroupEntries(ix: Index, id: string, g: Group)
    requires EntriesOk(ix) && g !in ix.recs
    ensures EntriesOk(AddGroup(ix, id, g))
  {
    forall q | q in ix.bands
      ensures EntriesBelow(ix.bands[q], AddGroup(ix, id, g).recs)
    {
      assert EntriesBelow(ix.bands[q], ix.recs);
    }
  }

  function DropIdle(ix: Index, g: Group): Index
    requires g in ix.recs
  {
    var r := ix.recs[g];
    if !r.locked && r.msgs == [] && !r.inBand then ix.(table := ix.table - {g.id}) else ix
  }

  lemma DropIdleServe(ix: Index, g: Group)
    requires TableOk(ix) && ServeOk(ix, {g}) && Listed(ix, g)
    requires !ix.recs[g].locked && ix.recs[g].msgs == []
    ensures ServeOk(DropIdle(ix, g), {})
  {
    var ix' := DropIdle(ix, g);
    assert GroupOk(ix, g, true);
    forall h | h in ix'.recs
      ensures GroupOk(ix', h, false)
    {
      assert GroupOk(ix, h, h in {g});
    }
  }

  lemma DropIdleTable(ix: Index, g: Group)
    requires TableOk(ix) && Listed(ix, g)
    requires !ix.recs[g].locked && ix.recs[g].msgs == [] && !ix.recs[g].inBand
    ensures TableOk(DropIdle(ix, g))
    ensures Lists(DropIdle(ix, g)) == Lists(ix) - {g.id} && Locked(DropIdle(ix, g)) == Locked(ix)
  {
  }

  lemma DropIdleKeepsInv(ix: Index, g: Group)
    requires IndexInv(ix, {g}) && Listed(ix, g)
    requires !ix.recs[g].locked && ix.recs[g].msgs == []
    ensures IndexInv(DropIdle(ix, g), {})
    ensures SameLines(ix, DropIdle(ix, g))
    ensures Lists(DropIdle(ix, g)) == Lists(ix) - {g.id} && Locked(DropIdle(ix, g)) == Locked(ix)
  {
    assert GroupOk(ix, g, true);
    DropIdleTable(ix, g);
    DropIdleServe(ix, g);
    SameLinesOk(ix, DropIdle(ix, g));
  }

  // ---- Reissuing a group's entry ----

  /** `g.version++; g.inBand = false`: whatever entry `g` had is stale from here on. */
  function Bump(ix: Index, g: Group): Index
    requires g in ix.recs
  {
    var r := ix.recs[g];
    SetRec(ix, g, r.(version := r.version + 1, inBand := false))
  }

  ghost predicate LinesLose(ix: Index, ix': Index, g: Group) {
    forall q: Priority :: LiveLine(ix', q) == Without(LiveLine(ix, q), g)
  }

  lemma BumpLines(ix: Index, g: Group)
    requires EntriesOk(ix) && LinesOk(ix) && g in ix.recs
    ensures LinesLose(ix, Bump(ix, g), g) && LinesOk(Bump(ix, g))
  {
    var ix' := Bump(ix, g);
    forall q: Priority
      ensures LiveLine(ix', q) == Without(LiveLine(ix, q), g) && NoDup(LiveLine(ix', q))
    {
      assert NoDup(LiveLine(ix, q));
      LiveBumped(Band(ix, q), ix.recs, g, ix'.recs[g]);
      WithoutNoDup(LiveLine(ix, q), g);
    }
    forall q: Priority, h | h in LiveLine(ix', q)
      ensures h in ix'.recs && ix'.recs[h].inBand && ix'.recs[h].band == q
    {
      assert h in LiveLine(ix, q);
    }
    forall h | h in ix'.recs && ix'.recs[h].inBand
      ensures h in LiveLine(ix', ix'.recs[h].band)
    {
      assert h in LiveLine(ix, ix.recs[h].band);
    }
  }

  lemma BumpKeepsInv(ix: Index, g: Group, open: set<Group>)
    requires IndexInv(ix, open) && Listed(ix, g) && open <= {g}
    ensures IndexInv(Bump(ix, g), {g}) && LinesLose(ix, Bump(ix, g), g)
    ensures SameLists(ix, Bump(ix, g))
  {
    var ix' := Bump(ix, g);
    BumpLines(ix, g);
    TableSame(ix, ix');
    SetRecEntries(ix, g, ix'.recs[g]);
    SetRecServe(ix, g, ix'.recs[g], open, {g});
  }

  // ---- admit and unlock ----

  /** The group with id `k`, created as `spare` when the table has none. */
  function Ensure(ix: Index, k: string, spare: Group): Index {
    if k in ix.table then ix else AddGroup(ix, k, spare)
  }

  /** Appends a message to its group, and lists the group when nothing lists it yet. */
  function Admit(ix: Index, m: Message, spare: Group): Index
    requires TableOk(ix)
  {
    var ix1 := Ensure(ix, m.Key(), spare);
    var g := ix1.table[m.Key()];
    var r := ix1.recs[g];
    var ix2 := SetRec(ix1, g, r.(msgs := r.msgs + [m]));
    if !r.locked && !r.inBand then Push(ix2, g) else ix2
  }

  lemma LinesChain(a: Index, b: Index, c: Index, p: Priority, g: Group)
    requires SameLines(a, b) && LinesAre(b, c, p, LiveLine(b, p) + [g])
    ensures LinesAre(a, c, p, LiveLine(a, p) + [g])
  {
    forall q: Priority
      ensures LiveLine(c, q) == if q == p then LiveLine(a, p) + [g] else LiveLine(a, q)
    {
      assert LiveLine(b, q) == LiveLine(a, q);
    }
  }

  lemma SameLinesChain(a: Index, b: Index, c: Index)
    requires SameLines(a, b) && SameLines(b, c)
    ensures SameLines(a, c)
  {
    forall q: Priority
      ensures LiveLine(c, q) == LiveLine(a, q)
    {
      assert LiveLine(b, q) == LiveLine(a, q);
    }
  }

  lemma AdmitToGroup(ix: Index, m: Message, spare: Group)
    requires IndexInv(ix, {}) && m.Key() in ix.table
    ensures var (ix', k) := (Admit(ix, m, spare), m.Key());
            && IndexInv(ix', {}) && ix'.table == ix.table
            && Lists(ix') == Lists(ix)[k := Lists(ix)[k] + [m]] && Locked(ix') == Locked(ix)
            && SameLines(ix, ix')
  {
    var g := ix.table[m.Key()];
    var r := ix.recs[g];
    assert GroupOk(ix, g, false);
    SetRecKeepsInv(ix, g, r.(msgs := r.msgs + [m]), {}, {});
  }

  /** An open group may be written freely: nothing lists it. */
  lemma WriteOpen(ix: Index, g: Group, r: Record)
    requires IndexInv(ix, {g}) && Listed(ix, g) && r == ix.recs[g].(msgs := r.msgs, locked := r.locked)
    ensures IndexInv(SetRec(ix, g, r), {g}) && Listed(SetRec(ix, g, r), g)
    ensures SameLines(ix, SetRec(ix, g, r)) && Writes(ix, SetRec(ix, g, r), g, r) && !r.inBand
  {
    assert GroupOk(ix, g, true);
    SetRecKeepsInv(ix, g, r, {g}, {g});
  }

  lemma AddThenWrite(ix: Index, k: string, ms: seq<Message>, g: Group) returns (ix2: Index)
    requires IndexInv(ix, {}) && k !in ix.table && g !in ix.recs && g.id == k
    ensures ix2 == SetRec(AddGroup(ix, k, g), g, NEW_RECORD.(msgs := ms))
    ensures IndexInv(ix2, {g}) && Listed(ix2, g) && SameLines(ix, ix2)
    ensures Lists(ix2) == Lists(ix)[k := ms] && Locked(ix2) == Locked(ix)
  {
    AddGroupKeepsInv(ix, k, g);
    AddedIsUnlocked(ix, k);
    ix2 := WriteAdded(ix, AddGroup(ix, k, g), k, ms, g);
  }

  lemma WriteAdded(ix: Index, ix1: Index, k: string, ms: seq<Message>, g: Group) returns (ix2: Index)
    requires TableOk(ix) && IndexInv(ix1, {g}) && SameLines(ix, ix1)
    requires Listed(ix1, g) && ix1.recs[g] == NEW_RECORD && g.id == k
    requires Lists(ix1) == Lists(ix)[k := []] && Locked(ix1) == Locked(ix) && k !in Locked(ix)
    ensures ix2 == SetRec(ix1, g, NEW_RECORD.(msgs := ms))
    ensures IndexInv(ix2, {g}) && Listed(ix2, g) && SameLines(ix, ix2)
    ensures Lists(ix2) == Lists(ix)[k := ms] && Locked(ix2) == Locked(ix)
  {
    var r := NEW_RECORD.(msgs := ms);
    ix2 := SetRec(ix1, g, r);
    WriteOpen(ix1, g, r);
    SameLinesChain(ix, ix1, ix2);
    UpdateTwice(Lists(ix), k, [], ms);
  }

  lemma UpdateTwice<K, V>(m: map<K, V>, k: K, v: V, w: V)
    ensures m[k := v][k := w] == m[k := w]
  {
  }

  lemma AddedIsUnlocked(ix: Index, k: string)
    requires TableOk(ix) && k !in ix.table
    ensures k !in Locked(ix)
  {
  }

  lemma AdmitNewSteps(ix: Index, m: Message, spare: Group)
    requires TableOk(ix) && m.Key() !in ix.table && spare !in ix.recs && spare.id == m.Key()
    ensures Admit(ix, m, spare) ==
            Push(SetRec(AddGroup(ix, m.Key(), spare), spare, NEW_RECORD.(msgs := [m])), spare)
  {
    assert [] + [m] == [m];
  }

  lemma AdmitToNew(ix: Index, m: Message, spare: Group)
    requires IndexInv(ix, {}) && m.Key() !in ix.table && spare !in ix.recs && spare.id == m.Key()
    ensures var (ix', k) := (Admit(ix, m, spare), m.Key());
            && IndexInv(ix', {}) && ix'.table == ix.table[k := spare]
            && Lists(ix') == Lists(ix)[k := [m]] && Locked(ix') == Locked(ix)
            && LinesAre(ix, ix', m.priority, LiveLine(ix, m.priority) + [spare])
  {
    AdmitNewSteps(ix, m, spare);
    var ix2 := AddThenWrite(ix, m.Key(), [m], spare);
    PushListed(ix, ix2, spare, m.priority);
  }

  /** Listing the open group `g` of `b`, when `b` shows the same lines as `a`. */
  lemma PushListed(a: Index, b: Index, g: Group, p: Priority)
    requires IndexInv(b, {g}) && Listed(b, g) && SameLines(a, b)
    requires b.recs[g].msgs != [] && !b.recs[g].locked && p == b.recs[g].msgs[0].priority
    ensures IndexInv(Push(b, g), {}) && SameLists(b, Push(b, g)) && Push(b, g).table == b.table
    ensures LinesAre(a, Push(b, g), p, LiveLine(a, p) + [g])
  {
    PushLines(b, g);
    PushKeepsInv(b, g);
    LinesChain(a, b, Push(b, g), p, g);
  }

  function Unlock(ix: Index, g: Group): Index
    requires g in ix.recs
  {
    var ix1 := SetRec(ix, g, ix.recs[g].(locked := false));
    if ix.recs[g].msgs == [] then DropIdle(ix1, g)
    else if !ix.recs[g].inBand then Push(ix1, g)
    else ix1
  }

  lemma UnlockIdle(ix: Index, g: Group)
    requires IndexInv(ix, {}) && Listed(ix, g) && ix.recs[g].locked && ix.recs[g].msgs == []
    ensures var (ix', k) := (Unlock(ix, g), g.id);
            && IndexInv(ix', {}) && ix'.table == ix.table - {k}
            && Lists(ix') == Lists(ix) - {k} && Locked(ix') == Locked(ix) - {k}
            && SameLines(ix, ix')
  {
    var ix1 := OpenUnlocked(ix, g);
    DropIdleKeepsInv(ix1, g);
    SameLinesChain(ix, ix1, DropIdle(ix1, g));
  }

  lemma OpenUnlocked(ix: Index, g: Group) returns (ix1: Index)
    requires IndexInv(ix, {}) && Listed(ix, g) && ix.recs[g].locked
    ensures ix1 == SetRec(ix, g, ix.recs[g].(locked := false))
    ensures IndexInv(ix1, {g}) && Listed(ix1, g) && SameLines(ix, ix1) && !ix.recs[g].inBand
    ensures Lists(ix1) == Lists(ix) && Locked(ix1) == Locked(ix) - {g.id}
  {
    assert GroupOk(ix, g, false);
    var r := ix.recs[g].(locked := false);
    ix1 := SetRec(ix, g, r);
    SetRecKeepsInv(ix, g, r, {}, {g});
  }

  /** A group whose delivery ended goes to the back of the band of its next message. */
  lemma UnlockWaiting(ix: Index, g: Group)
    requires IndexInv(ix, {}) && Listed(ix, g) && ix.recs[g].locked && ix.recs[g].msgs != []
    ensures var (ix', r) := (Unlock(ix, g), ix.recs[g]);
            && IndexInv(ix', {}) && ix'.table == ix.table
            && Lists(ix') == Lists(ix) && Locked(ix') == Locked(ix) - {g.id}
            && LinesAre(ix, ix', r.msgs[0].priority, LiveLine(ix, r.msgs[0].priority) + [g])
  {
    var ix1 := OpenUnlocked(ix, g);
    PushListed(ix, ix1, g, ix.recs[g].msgs[0].priority);
  }
}
