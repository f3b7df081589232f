/** Who owns a key: the member that scores highest, and the machines a queue may use: the best of the same ranking. */
module Placement {
  import opened Messages
  import opened Mixer

  datatype Member = Member(id: string, addr: string)

  /** The hash of strings is not fixed here; all that is ever asked of it is that different ids hash differently. */
  type Hash = string -> bv64

  function Score(h: Hash, key: string, m: Member): nat {
    Mix(h(key), h(m.id)) as nat
  }

  lemma SameWord(x: bv64, y: bv64)
    requires x as nat == y as nat
    ensures x == y
  {
    assert (x as nat) as bv64 == x && (y as nat) as bv64 == y;
  }

  // ---- OwnerFor ----

  /** The best of the first members; on a tie the earlier one stays. */
  function Best(h: Hash, key: string, ms: seq<Member>): Option<Member> {
    if ms == [] then None
    else
      var (front, last) := (Best(h, key, ms[..|ms| - 1]), ms[|ms| - 1]);
      if front.None? || Score(h, key, last) > Score(h, key, front.value) then Some(last) else front
  }

  method OwnerFor(h: Hash, key: string, ms: seq<Member>) returns (owner: Option<Member>)
    ensures owner == Best(h, key, ms) && (owner.None? <==> ms == [])
    ensures owner.Some? ==>
              exists b :: 0 <= b < |ms| && owner.value == ms[b]
                && (forall j :: 0 <= j < |ms| ==> Score(h, key, ms[j]) <= Score(h, key, ms[b]))
                && (forall j :: 0 <= j < b ==> Score(h, key, ms[j]) < Score(h, key, ms[b]))
  {
    hide Mix, Score;
    owner := None;
    var bestScore: nat := 0;
    ghost var b := 0;
    var i := 0;
    while i < |ms|
      invariant i <= |ms| && owner == Best(h, key, ms[..i]) && (owner.None? <==> i == 0)
      invariant owner.Some? ==> 0 <= b < i && owner.value == ms[b] && bestScore == Score(h, key, ms[b])
      invariant owner.Some? ==> forall j :: 0 <= j < i ==> Score(h, key, ms[j]) <= bestScore
      invariant owner.Some? ==> forall j :: 0 <= j < b ==> Score(h, key, ms[j]) < bestScore
    {
      assert ms[..i + 1][..i] == ms[..i];
      var s := Score(h, key, ms[i]);
      if owner.None? || s > bestScore {
        owner, bestScore := Some(ms[i]), s;
        b := i;
      }
      i := i + 1;
    }
    assert ms[..i] == ms;
  }

  ghost predicate Top(h: Hash, key: string, s: set<Member>, m: Member) {
    m in s && forall x | x in s :: Score(h, key, x) <= Score(h, key, m)
  }

  function SetOf(ms: seq<Member>): set<Member> {
    set m | m in ms
  }

  lemma {:induction false} BestIsTop(h: Hash, key: string, ms: seq<Member>)
    ensures var b := Best(h, key, ms);
            if ms == [] then b.None? else b.Some? && Top(h, key, SetOf(ms), b.value)
  {
    hide Score, Mix;
    if ms != [] {
      var front := ms[..|ms| - 1];
      BestIsTop(h, key, front);
      assert ms == front + [ms[|ms| - 1]];
    }
  }

  /** No two members of the set share an id, and their ids hash differently. */
  ghost predicate Apart(h: Hash, s: set<Member>) {
    forall a, b | a in s && b in s && h(a.id) == h(b.id) :: a == b
  }

  lemma NoTies(h: Hash, key: string, s: set<Member>, a: Member, b: Member)
    requires Apart(h, s) && a in s && b in s && Score(h, key, a) == Score(h, key, b)
    ensures a == b
  {
    hide Mix;
    SameWord(Mix(h(key), h(a.id)), Mix(h(key), h(b.id)));
    NeverTie(h(key), h(a.id), h(b.id));
  }

  /** A member's scores for keys that hash differently are different. */
  lemma ScoresVary(h: Hash, key: string, other: string, m: Member)
    requires h(key) != h(other)
    ensures Score(h, key, m) != Score(h, other, m)
  {
    hide Mix;
    if Score(h, key, m) == Score(h, other, m) {
      SameWord(Mix(h(key), h(m.id)), Mix(h(other), h(m.id)));
      KeysDiffer(h(key), h(other), h(m.id));
      assert false;
    }
  }

  lemma TopIsUnique(h: Hash, key: string, s: set<Member>, a: Member, b: Member)
    requires Apart(h, s) && Top(h, key, s, a) && Top(h, key, s, b)
    ensures a == b
  {
    hide Score, Mix;
    NoTies(h, key, s, a, b);
  }

  lemma NoneInNothing(a: seq<Member>)
    ensures a == [] <==> SetOf(a) == {}
  {
    if a != [] { assert a[0] in SetOf(a); }
  }

  /** The owner depends on who the members are, not on the order they are listed in. */
  lemma OwnerIgnoresOrder(h: Hash, key: string, a: seq<Member>, b: seq<Member>)
    requires SetOf(a) == SetOf(b) && Apart(h, SetOf(a))
    ensures Best(h, key, a) == Best(h, key, b)
  {
    hide Score, Mix, Best, Top;
    BestIsTop(h, key, a);
    BestIsTop(h, key, b);
    NoneInNothing(a);
    NoneInNothing(b);
    if a != [] {
      TopIsUnique(h, key, SetOf(a), Best(h, key, a).value, Best(h, key, b).value);
    }
  }

  /** A machine that joins takes keys for itself and moves no other. */
  lemma JoinTakesOnly(h: Hash, key: string, ms: seq<Member>, n: Member, all: seq<Member>)
    requires ms != [] && SetOf(all) == SetOf(ms) + {n} && Apart(h, SetOf(all))
    ensures Best(h, key, all) == Best(h, key, ms) || Best(h, key, all) == Some(n)
  {
    hide Score, Mix, Best;
    BestIsTop(h, key, ms);
    BestIsTop(h, key, all);
    assert all != [] by { assert n in SetOf(all); }
    var b := Best(h, key, all).value;
    if b != n {
      TopIsUnique(h, key, SetOf(ms), b, Best(h, key, ms).value);
    }
  }

  /** A machine that leaves without owning the key changes nothing for it. */
  lemma LeaveMovesNothing(h: Hash, key: string, all: seq<Member>, n: Member, ms: seq<Member>)
    requires all != [] && SetOf(ms) == SetOf(all) - {n} && Apart(h, SetOf(all)) && Best(h, key, all) != Some(n)
    ensures Best(h, key, ms) == Best(h, key, all)
  {
    hide Score, Mix, Best;
    BestIsTop(h, key, ms);
    BestIsTop(h, key, all);
    var b := Best(h, key, all).value;
    assert b in SetOf(ms);
    assert ms != [];
    assert Top(h, key, SetOf(all), b);
    var c := Best(h, key, ms).value;
    assert Top(h, key, SetOf(ms), b);
    TopIsUnique(h, key, SetOf(ms), b, c);
  }

  // ---- The order of the ranking ----

  /** Byte order of strings. */
  predicate StrLess(a: string, b: string)
    decreases |a|
  {
    if b == "" then false
    else if a == "" then true
    else if a[0] != b[0] then a[0] < b[0]
    else StrLess(a[1..], b[1..])
  }

  predicate Beats(h: Hash, key: string, a: Member, b: Member) {
    var (sa, sb) := (Score(h, key, a), Score(h, key, b));
    if sa != sb then sa > sb else StrLess(a.id, b.id)
  }

  lemma {:induction false} StrOrder(a: string, b: string)
    ensures a == b ==> !StrLess(a, b)
    ensures a != b ==> (StrLess(a, b) <==> !StrLess(b, a))
    decreases |a|
  {
    if a != "" && b != "" {
      StrOrder(a[1..], b[1..]);
      assert a == [a[0]] + a[1..] && b == [b[0]] + b[1..];
    }
  }

  lemma {:induction false} StrTrans(a: string, b: string, c: string)
    requires StrLess(a, b) && StrLess(b, c)
    ensures StrLess(a, c)
    decreases |a|
  {
    if a != "" && a[0] == b[0] && b[0] == c[0] { StrTrans(a[1..], b[1..], c[1..]); }
  }

  /** The ranking is a strict order of members with different ids. */
  lemma BeatsOrder(h: Hash, key: string, a: Member, b: Member, c: Member)
    ensures !Beats(h, key, a, a)
    ensures a.id != b.id ==> (Beats(h, key, a, b) <==> !Beats(h, key, b, a))
    ensures Beats(h, key, a, b) && Beats(h, key, b, c) ==> Beats(h, key, a, c)
  {
    hide Score, Mix;
    StrOrder(a.id, a.id);
    StrOrder(a.id, b.id);
    if StrLess(a.id, b.id) && StrLess(b.id, c.id) { StrTrans(a.id, b.id, c.id); }
  }

  // ---- CandidatesFor ----

  ghost predicate Ranked(h: Hash, key: string, r: seq<Member>) {
    forall i, j :: 0 <= i < j < |r| ==> Beats(h, key, r[i], r[j])
  }

  ghost predicate IdsApart(s: set<Member>) {
    forall a, b | a in s && b in s && a.id == b.id :: a == b
  }

  /** `m` put where it belongs in a ranking. */
  function Insert(h: Hash, key: string, r: seq<Member>, m: Member): (q: seq<Member>)
    ensures multiset(q) == multiset(r) + multiset{m}
  {
    if r == [] || Beats(h, key, m, r[0]) then [m] + r
    else
      assert r == [r[0]] + r[1..];
      [r[0]] + Insert(h, key, r[1..], m)
  }

  /** The library sort of a copy. */
  function Rank(h: Hash, key: string, ms: seq<Member>): (r: seq<Member>)
    ensures multiset(r) == multiset(ms)
  {
    if ms == [] then []
    else
      assert ms == ms[..|ms| - 1] + [ms[|ms| - 1]];
      Insert(h, key, Rank(h, key, ms[..|ms| - 1]), ms[|ms| - 1])
  }

  lemma SameMembers(a: seq<Member>, b: seq<Member>)
    requires multiset(a) == multiset(b)
    ensures SetOf(a) == SetOf(b) && |a| == |b|
  {
    assert |multiset(a)| == |a| && |multiset(b)| == |b|;
    forall m
      ensures m in a <==> m in b
    {
      assert m in multiset(a) <==> m in multiset(b);
    }
  }

  lemma InsertHas(h: Hash, key: string, r: seq<Member>, m: Member)
    ensures forall x :: x in Insert(h, key, r, m) <==> x in r || x == m
  {
    var q := Insert(h, key, r, m);
    forall x
      ensures x in q <==> x in r || x == m
    {
      assert x in q <==> x in multiset(q);
    }
  }

  lemma {:induction false} InsertRanked(h: Hash, key: string, r: seq<Member>, m: Member)
    requires Ranked(h, key, r) && forall x | x in r :: x.id != m.id
    ensures Ranked(h, key, Insert(h, key, r, m))
  {
    hide Beats;
    if r == [] || Beats(h, key, m, r[0]) {
      forall i | 0 <= i < |r|
        ensures Beats(h, key, m, r[i])
      {
        BeatsOrder(h, key, m, r[0], r[i]);
      }
    } else {
      InsertRanked(h, key, r[1..], m);
      InsertHas(h, key, r[1..], m);
      BeatsOrder(h, key, r[0], m, m);
      var q := Insert(h, key, r[1..], m);
      forall x | x in q
        ensures Beats(h, key, r[0], x)
      {
        if x != m {
          var i :| 0 <= i < |r[1..]| && r[1..][i] == x;
          assert r[i + 1] == x;
        }
      }
    }
  }

  /** Different ids, each listed once. */
  ghost predicate Listed(ms: seq<Member>) {
    forall i, j :: 0 <= i < j < |ms| ==> ms[i].id != ms[j].id
  }

  lemma {:induction false} RankIsRanked(h: Hash, key: string, ms: seq<Member>)
    requires Listed(ms)
    ensures Ranked(h, key, Rank(h, key, ms))
  {
    if ms != [] {
      var (front, last) := (ms[..|ms| - 1], ms[|ms| - 1]);
      RankIsRanked(h, key, front);
      var r := Rank(h, key, front);
      SameMembers(r, front);
      forall x | x in r
        ensures x.id != last.id
      {
        assert x in SetOf(front);
        var i :| 0 <= i < |front| && front[i] == x;
        assert ms[i].id != ms[|ms| - 1].id;
      }
      InsertRanked(h, key, r, last);
    }
  }

  function Candidates(h: Hash, key: string, ms: seq<Member>, width: int): seq<Member> {
    if width <= 0 || width >= |ms| then ms
    else
      var r := Rank(h, key, ms);
      assert |multiset(r)| == |multiset(ms)|;
      r[..width]
  }

  lemma CandidatesFromRank(h: Hash, key: string, ms: seq<Member>, width: int) returns (r: seq<Member>)
    requires Listed(ms) && 0 < width < |ms|
    ensures Ranked(h, key, r) && |r| == |ms| && Candidates(h, key, ms, width) == r[..width] && forall m :: m in r <==> m in ms
  {
    hide Score, Mix, Beats;
    r := Rank(h, key, ms);
    RankIsRanked(h, key, ms);
    SameMembers(r, ms);
    forall m
      ensures m in r <==> m in ms
    {
      assert m in SetOf(r) <==> m in SetOf(ms);
    }
  }

  /** No member that is not a candidate scores higher than one that is. */
  lemma CandidatesScoreBest(h: Hash, key: string, ms: seq<Member>, width: int, c: Member, m: Member)
    requires Listed(ms) && c in Candidates(h, key, ms, width) && m in ms && m !in Candidates(h, key, ms, width)
    ensures Score(h, key, m) <= Score(h, key, c)
  {
    hide Score, Mix, Rank;
    var r := CandidatesFromRank(h, key, ms, width);
    var i :| 0 <= i < width && r[..width][i] == c;
    var j :| 0 <= j < |r| && r[j] == m;
    assert forall k | 0 <= k < width :: r[..width][k] == r[k];
    assert Beats(h, key, r[i], r[j]);
  }

  /** The owner of a key is the first of its candidates, however many they are. */
  lemma OwnerIsCandidate(h: Hash, key: string, ms: seq<Member>, width: int)
    requires ms != [] && Listed(ms) && Apart(h, SetOf(ms))
    ensures Best(h, key, ms).Some? && Best(h, key, ms).value in Candidates(h, key, ms, width)
  {
    hide Score, Mix, Rank, Best;
    BestIsTop(h, key, ms);
    var b := Best(h, key, ms).value;
    if 0 < width < |ms| {
      var r := CandidatesFromRank(h, key, ms, width);
      assert r[0] == r[..width][0] && r[0] in r[..width];
      if b !in r[..width] {
        CandidatesScoreBest(h, key, ms, width, r[0], b);
        NoTies(h, key, SetOf(ms), b, r[0]);
        assert false;
      }
    }
  }

  // ---- Candidates as a set ----

  /** The members ahead of `m`. */
  function Ahead(h: Hash, key: string, s: set<Member>, m: Member): set<Member> {
    set x | x in s && Beats(h, key, x, m)
  }

  /** The best `w` of a set: those with fewer than `w` ahead of them. */
  function TopSet(h: Hash, key: string, s: set<Member>, w: nat): set<Member> {
    set m | m in s && |Ahead(h, key, s, m)| < w
  }

  lemma PrefixMore(r: seq<Member>, i: nat)
    requires Listed(r) && i < |r|
    ensures SetOf(r[..i + 1]) == SetOf(r[..i]) + {r[i]} && r[i] !in SetOf(r[..i])
  {
    assert r[..i + 1] == r[..i] + [r[i]];
    forall j | 0 <= j < i
      ensures r[j] != r[i]
    {
      assert r[j].id != r[i].id;
    }
  }

  lemma PrefixSize(r: seq<Member>, i: nat)
    requires Listed(r) && i <= |r|
    ensures |SetOf(r[..i])| == i
  {
    if i > 0 {
      PrefixSize(r, i - 1);
      PrefixMore(r, i - 1);
      hide SetOf, Listed;
    }
  }

  /** In a ranking, exactly the members before one are ahead of it. */
  lemma AheadIsPrefix(h: Hash, key: string, r: seq<Member>, i: nat)
    requires Ranked(h, key, r) && Listed(r) && i < |r|
    ensures Ahead(h, key, SetOf(r), r[i]) == SetOf(r[..i])
    ensures |Ahead(h, key, SetOf(r), r[i])| == i
  {
    hide Beats;
    forall x
      ensures x in Ahead(h, key, SetOf(r), r[i]) <==> x in r[..i]
    {
      if x in r {
        var j :| 0 <= j < |r| && r[j] == x;
        BeatsOrder(h, key, r[j], r[i], r[i]);
        if j < i { assert r[..i][j] == x; }
        if i < j { assert Beats(h, key, r[i], r[j]); }
        if x in r[..i] {
          var k :| 0 <= k < i && r[k] == x;
          assert Beats(h, key, r[k], r[i]);
        }
      }
    }
    PrefixSize(r, i);
  }

  lemma ListedOrder(a: seq<Member>, b: seq<Member>)
    requires multiset(a) == multiset(b) && Listed(a)
    ensures Listed(b)
  {
    forall i, j | 0 <= i < j < |b|
      ensures b[i].id != b[j].id
    {
      if b[i].id == b[j].id {
        SameMembers(a, b);
        assert b[i] in SetOf(b) && b[j] in SetOf(b);
        var k :| 0 <= k < |a| && a[k] == b[i];
        var n :| 0 <= n < |a| && a[n] == b[j];
        assert k == n;
        Once(a, k);
        Twice(b, i, j);
      }
    }
  }

  lemma Once(a: seq<Member>, k: nat)
    requires Listed(a) && k < |a|
    ensures multiset(a)[a[k]] == 1
  {
    assert a == a[..k] + [a[k]] + a[k + 1..];
    assert forall j :: 0 <= j < k ==> a[j].id != a[k].id;
    assert forall j :: k < j < |a| ==> a[k].id != a[j].id;
    assert a[k] !in a[..k] && a[k] !in a[k + 1..];
  }

  lemma Twice(b: seq<Member>, i: nat, j: nat)
    requires i < j < |b| && b[i] == b[j]
    ensures multiset(b)[b[i]] >= 2
  {
    assert b == b[..i] + [b[i]] + b[i + 1..j] + [b[j]] + b[j + 1..];
  }

  /** The candidates of a list are the best `width` of its members, in whatever order it lists them. */
  lemma CandidatesAreTop(h: Hash, key: string, ms: seq<Member>, width: nat)
    requires Listed(ms) && 0 < width < |ms|
    ensures SetOf(Candidates(h, key, ms, width)) == TopSet(h, key, SetOf(ms), width)
    ensures |SetOf(Candidates(h, key, ms, width))| == width
  {
    hide Rank, Beats, Ahead;
    var r := Rank(h, key, ms);
    RankIsRanked(h, key, ms);
    ListedOrder(ms, r);
    SameMembers(ms, r);
    PrefixSize(r, width);
    forall m
      ensures m in r[..width] <==> m in TopSet(h, key, SetOf(r), width)
    {
      if m in r {
        var i :| 0 <= i < |r| && r[i] == m;
        AheadIsPrefix(h, key, r, i);
        if i < width { assert r[..width][i] == m; }
        if m in r[..width] {
          var k :| 0 <= k < width && r[k] == m;
          AheadIsPrefix(h, key, r, k);
        }
      }
    }
  }

  lemma CandidatesIgnoreOrder(h: Hash, key: string, a: seq<Member>, b: seq<Member>, width: int)
    requires Listed(a) && Listed(b) && SetOf(a) == SetOf(b)
    ensures SetOf(Candidates(h, key, a, width)) == SetOf(Candidates(h, key, b, width))
  {
    hide Rank, TopSet, Listed;
    SizeOf(a);
    SizeOf(b);
    if 0 < width < |a| {
      CandidatesAreTop(h, key, a, width);
      CandidatesAreTop(h, key, b, width);
    }
  }

  lemma SizeOf(a: seq<Member>)
    requires Listed(a)
    ensures |SetOf(a)| == |a|
  {
    PrefixSize(a, |a|);
    assert a[..|a|] == a;
  }

  // ---- A machine joins ----

  lemma AheadOfEachOther(h: Hash, key: string, s: set<Member>, a: Member, b: Member)
    requires IdsApart(s) && a in s && b in s && a != b
    ensures |Ahead(h, key, s, a)| != |Ahead(h, key, s, b)|
  {
    hide Beats;
    BeatsOrder(h, key, a, b, b);
    if Beats(h, key, a, b) { AheadGrows(h, key, s, a, b); } else { AheadGrows(h, key, s, b, a); }
  }

  lemma AheadGrows(h: Hash, key: string, s: set<Member>, a: Member, b: Member)
    requires a in s && b in s && Beats(h, key, a, b)
    ensures |Ahead(h, key, s, a)| < |Ahead(h, key, s, b)|
  {
    hide Beats;
    var (p, q) := (Ahead(h, key, s, a), Ahead(h, key, s, b));
    BeatsOrder(h, key, a, a, a);
    forall x | x in p
      ensures x in q
    {
      BeatsOrder(h, key, x, a, b);
    }
    assert p <= q && a in q && a !in p;
    Smaller(p, q, a);
  }

  lemma Smaller(p: set<Member>, q: set<Member>, a: Member)
    requires p <= q && a in q && a !in p
    ensures |p| < |q|
  {
    assert q == p + (q - p) && a in q - p;
    assert |q| == |p| + |q - p|;
  }

  lemma JoinMovesTop(h: Hash, key: string, s: set<Member>, n: Member, w: nat)
    requires IdsApart(s + {n}) && n !in s
    ensures var (c, c') := (TopSet(h, key, s, w), TopSet(h, key, s + {n}, w));
            && c' <= c + {n}
            && (forall a, b | a in c - c' && b in c - c' :: a == b)
  {
    hide Beats;
    var (c, c') := (TopSet(h, key, s, w), TopSet(h, key, s + {n}, w));
    forall m | m in s
      ensures |Ahead(h, key, s + {n}, m)| == |Ahead(h, key, s, m)| + (if Beats(h, key, n, m) then 1 else 0)
    {
      assert Ahead(h, key, s + {n}, m) == Ahead(h, key, s, m) + (if Beats(h, key, n, m) then {n} else {});
    }
    forall a, b | a in c - c' && b in c - c'
      ensures a == b
    {
      if a != b { AheadOfEachOther(h, key, s, a, b); }
    }
  }

  lemma InTop(h: Hash, key: string, s: set<Member>, w: nat)
    ensures TopSet(h, key, s, w) <= s
  {
  }

  lemma WideTop(h: Hash, key: string, s: set<Member>, w: nat)
    requires |s| <= w
    ensures TopSet(h, key, s, w) == s
  {
    forall m | m in s
      ensures |Ahead(h, key, s, m)| < w
    {
      BeatsOrder(h, key, m, m, m);
      assert m !in Ahead(h, key, s, m);
      Smaller(Ahead(h, key, s, m), s, m);
    }
  }

  /** Of any list, wide or not, the candidates are the best `width` of its members. */
  lemma CandidatesOf(h: Hash, key: string, ms: seq<Member>, width: nat)
    requires Listed(ms) && 0 < width
    ensures SetOf(Candidates(h, key, ms, width)) == TopSet(h, key, SetOf(ms), width)
  {
    hide TopSet, Listed, Rank;
    if width < |ms| {
      CandidatesAreTop(h, key, ms, width);
    } else {
      SizeOf(ms);
      WideTop(h, key, SetOf(ms), width);
    }
  }

  /**
   * A machine that joins brings in no other, and pushes out at most one: whatever the width, and in whatever order the lists
   * name the machines.
   */
  lemma JoinDisplacesOne(h: Hash, key: string, ms: seq<Member>, n: Member, all: seq<Member>, width: int)
    requires Listed(ms) && Listed(all) && n !in SetOf(ms) && SetOf(all) == SetOf(ms) + {n}
    ensures var (c, c') := (SetOf(Candidates(h, key, ms, width)), SetOf(Candidates(h, key, all, width)));
            && c' <= c + {n}
            && (forall a, b | a in c - c' && b in c - c' :: a == b)
  {
    hide TopSet, Rank;
    if 0 < width {
      CandidatesOf(h, key, ms, width);
      CandidatesOf(h, key, all, width);
      ListedApart(all);
      JoinMovesTop(h, key, SetOf(ms), n, width);
    }
  }

  lemma ListedApart(ms: seq<Member>)
    requires Listed(ms)
    ensures IdsApart(SetOf(ms))
  {
    forall a, b | a in SetOf(ms) && b in SetOf(ms) && a != b
      ensures a.id != b.id
    {
      var i :| 0 <= i < |ms| && ms[i] == a;
      var j :| 0 <= j < |ms| && ms[j] == b;
      assert i < j || j < i;
    }
  }

  /** A slot whose owner stays a candidate when a machine joins stays where it is, or moves to the newcomer. */
  lemma JoinKeepsSlots(h: Hash, key: string, slot: string, ms: seq<Member>, n: Member, all: seq<Member>, width: int)
    requires Listed(ms) && Listed(all) && n !in SetOf(ms) && SetOf(all) == SetOf(ms) + {n} && Apart(h, SetOf(all))
    requires var was := Best(h, slot, Candidates(h, key, ms, width));
             was.Some? && was.value in Candidates(h, key, all, width)
    ensures var (was, now) := (Best(h, slot, Candidates(h, key, ms, width)), Best(h, slot, Candidates(h, key, all, width)));
            now == was || now == Some(n)
  {
    hide TopSet, Rank, Best, Top, Score, Mix, Candidates;
    var (c, c') := (Candidates(h, key, ms, width), Candidates(h, key, all, width));
    BestIsTop(h, slot, c);
    BestIsTop(h, slot, c');
    NoneInNothing(c');
    NothingBest(h, slot, c);
    CandidatesWithin(h, key, all, width);
    JoinDisplacesOne(h, key, ms, n, all, width);
    var (was, now) := (Best(h, slot, c).value, Best(h, slot, c').value);
    TopBoth(h, slot, SetOf(c), SetOf(c'), SetOf(all), was, now, n);
  }

  lemma NothingBest(h: Hash, key: string, ms: seq<Member>)
    ensures ms == [] ==> Best(h, key, ms) == None
  {
  }

  lemma CandidatesWithin(h: Hash, key: string, ms: seq<Member>, width: int)
    requires Listed(ms)
    ensures SetOf(Candidates(h, key, ms, width)) <= SetOf(ms)
  {
    hide TopSet, Rank;
    if 0 < width {
      CandidatesOf(h, key, ms, width);
      InTop(h, key, SetOf(ms), width);
    }
  }

  lemma TopBoth(h: Hash, slot: string, c: set<Member>, c': set<Member>, s: set<Member>, was: Member, now: Member, n: Member)
    requires Apart(h, s) && c' <= s && c' <= c + {n} && Top(h, slot, c, was) && Top(h, slot, c', now) && was in c' && was in s
    ensures now == was || now == n
  {
    hide Score, Mix;
    if now != n {
      assert now in c;
      NoTies(h, slot, s, now, was);
    }
  }

  /** The machines that own some slot of a queue, given the machines it may use. */
  function Used(h: Hash, slots: set<string>, c: seq<Member>): set<Option<Member>> {
    set k | k in slots :: Best(h, k, c)
  }

  /** However many slots a queue has, they use at most `width` machines. */
  lemma SlotsUseWidth(h: Hash, key: string, slots: set<string>, ms: seq<Member>, width: nat)
    requires Listed(ms) && 0 < width < |ms|
    ensures |Used(h, slots, Candidates(h, key, ms, width))| <= width
  {
    hide Rank, TopSet, Best;
    var c := Candidates(h, key, ms, width);
    CandidatesAreTop(h, key, ms, width);
    assert c != [];
    forall o | o in Used(h, slots, c)
      ensures o in Wrapped(SetOf(c))
    {
      var k :| k in slots && o == Best(h, k, c);
      BestIsTop(h, k, c);
    }
    WrappedSize(SetOf(c));
    SubsetSize(Used(h, slots, c), Wrapped(SetOf(c)));
  }

  function Wrapped(s: set<Member>): set<Option<Member>> {
    set m | m in s :: Some(m)
  }

  lemma {:induction false} WrappedSize(s: set<Member>)
    ensures |Wrapped(s)| == |s|
    decreases |s|
  {
    if s != {} {
      var x :| x in s;
      WrappedSize(s - {x});
      assert Wrapped(s) == Wrapped(s - {x}) + {Some(x)};
    }
  }

  lemma SubsetSize(a: set<Option<Member>>, b: set<Option<Member>>)
    requires a <= b
    ensures |a| <= |b|
  {
    assert b == a + (b - a);
    assert |b| == |a| + |b - a|;
  }
}
