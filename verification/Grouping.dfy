/**
 * Candidates sorted by region and id and dealt into one queue per region
 * (deploy/engine.py): what the round-robin selection starts from.
 */
module Grouping {
  import opened Base
  import opened Events
  import opened Models
  import opened RoundRobin

  // ---------- Lexicographic order ----------

  predicate AtMost(a: string, b: string) {
    a == "" || (b != "" && (a[0] < b[0] || (a[0] == b[0] && AtMost(a[1..], b[1..]))))
  }

  lemma {:induction false} AtMostTotal(a: string, b: string)
    ensures AtMost(a, b) || AtMost(b, a)
    ensures AtMost(a, b) && AtMost(b, a) ==> a == b
  {
    if a != "" && b != "" && a[0] == b[0] {
      AtMostTotal(a[1..], b[1..]);
      assert a == [a[0]] + a[1..] && b == [b[0]] + b[1..];
    }
  }

  lemma {:induction false} AtMostTransitive(a: string, b: string, c: string)
    requires AtMost(a, b) && AtMost(b, c)
    ensures AtMost(a, c)
  {
    if a != "" && a[0] == b[0] == c[0] {
      AtMostTransitive(a[1..], b[1..], c[1..]);
    }
  }

  // Dictionary order, over characters: a prefix, or less where they first differ.
  ghost predicate Lexical(a: string, b: string) {
    a <= b || exists n :: LessAt(a, b, n)
  }

  ghost predicate LessAt(a: string, b: string, n: nat) {
    n < |a| && n < |b| && a[..n] == b[..n] && a[n] < b[n]
  }

  lemma {:induction false} AtMostIs(a: string, b: string)
    ensures AtMost(a, b) <==> Lexical(a, b)
  {
    if a != "" && b != "" {
      forall n: nat { SameFirst(a, b, n); }
      if a[0] == b[0] {
        AtMostIs(a[1..], b[1..]);
        LexicalTail(a, b);
      } else {
        assert LessAt(a, b, 0) <==> a[0] < b[0];
      }
    }
  }

  lemma SameFirst(a: string, b: string, n: nat)
    ensures LessAt(a, b, n) && n > 0 ==> a[0] == b[0] && LessAt(a[1..], b[1..], n - 1)
  {
    if LessAt(a, b, n) && n > 0 {
      assert a[..n][0] == a[0] && b[..n][0] == b[0];
      assert a[1..][..n - 1] == a[..n][1..] && b[1..][..n - 1] == b[..n][1..];
    }
  }

  lemma LexicalTail(a: string, b: string)
    requires a != "" && b != "" && a[0] == b[0]
    ensures Lexical(a, b) <==> Lexical(a[1..], b[1..])
  {
    assert a == [a[0]] + a[1..] && b == [b[0]] + b[1..];
    assert a <= b <==> a[1..] <= b[1..];
    if exists n :: LessAt(a, b, n) {
      var n: nat :| LessAt(a, b, n);
      SameFirst(a, b, n);
    }
    if exists n :: LessAt(a[1..], b[1..], n) {
      var n: nat :| LessAt(a[1..], b[1..], n);
      assert a[..n + 1] == [a[0]] + a[1..][..n] && b[..n + 1] == [b[0]] + b[1..][..n];
      assert LessAt(a, b, n + 1);
    }
  }

  // The sort key (region, id).
  predicate KeyAtMost(s: Server, t: Server) {
    if s.region == t.region then AtMost(s.id, t.id) else AtMost(s.region, t.region)
  }

  lemma KeyOrder(s: Server, t: Server, u: Server)
    ensures KeyAtMost(s, t) || KeyAtMost(t, s)
    ensures KeyAtMost(s, t) && KeyAtMost(t, u) ==> KeyAtMost(s, u)
  {
    AtMostTotal(s.id, t.id);
    AtMostTotal(s.region, t.region);
    if KeyAtMost(s, t) && KeyAtMost(t, u) {
      if s.region == t.region == u.region {
        AtMostTransitive(s.id, t.id, u.id);
      } else if s.region != t.region && t.region != u.region {
        AtMostTransitive(s.region, t.region, u.region);
        AtMostTotal(t.region, u.region);
      }
    }
  }

  // ---------- Sorting ----------

  ghost predicate Sorted(s: seq<Server>) {
    s == [] || (Sorted(Init(s)) && forall x | x in Init(s) :: KeyAtMost(x, Last(s)))
  }

  function Insert(s: seq<Server>, x: Server): (r: seq<Server>)
    ensures multiset(r) == multiset(s) + multiset{x}
  {
    if s == [] || KeyAtMost(Last(s), x) then s + [x]
    else SplitLast(s); Insert(Init(s), x) + [Last(s)]
  }

  function SortServers(s: seq<Server>): (r: seq<Server>)
    ensures multiset(r) == multiset(s)
  {
    if s == [] then [] else SplitLast(s); Insert(SortServers(Init(s)), Last(s))
  }

  lemma {:induction false} InsertSorted(s: seq<Server>, x: Server)
    requires Sorted(s)
    ensures Sorted(Insert(s, x))
  {
    if s == [] || KeyAtMost(Last(s), x) {
      assert Init(s + [x]) == s;
      forall y | y in s ensures KeyAtMost(y, x) {
        SplitLast(s);
        KeyOrder(y, Last(s), x);
      }
    } else {
      InsertSorted(Init(s), x);
      var r := Insert(Init(s), x);
      assert Init(r + [Last(s)]) == r;
      KeyOrder(x, Last(s), x);
      forall y | y in r ensures KeyAtMost(y, Last(s)) {
        assert y in multiset(r);
      }
    }
  }

  lemma {:induction false} SortServersSorted(s: seq<Server>)
    ensures Sorted(SortServers(s))
  {
    if s != [] {
      SortServersSorted(Init(s));
      InsertSorted(SortServers(Init(s)), Last(s));
    }
  }

  lemma SortedMax(s: seq<Server>, x: Server)
    requires Sorted(s) && x in s
    ensures KeyAtMost(x, Last(s))
  {
    SplitLast(s);
    KeyOrder(x, x, x);
  }

  lemma KeyUnique(x: Server, y: Server)
    requires KeyAtMost(x, y) && KeyAtMost(y, x)
    ensures x.id == y.id
  {
    AtMostTotal(x.id, y.id);
    AtMostTotal(x.region, y.region);
  }

  // Servers with distinct ids can be sorted in one way only.
  lemma {:induction false} SortedUnique(a: seq<Server>, b: seq<Server>)
    requires Sorted(a) && Sorted(b) && multiset(a) == multiset(b)
    requires forall x, y | x in a && y in a && x.id == y.id :: x == y
    ensures a == b
    decreases |a|
  {
    SameElems(a, b);
    if a == [] {
      assert |multiset(b)| == 0;
    } else {
      assert |multiset(b)| > 0;
      SplitLast(a);
      SplitLast(b);
      assert Last(a) in a && Last(b) in b;
      SortedMax(a, Last(b));
      SortedMax(b, Last(a));
      KeyUnique(Last(a), Last(b));
      assert multiset(Init(a)) == multiset(a) - multiset{Last(a)} == multiset(Init(b));
      SortedUnique(Init(a), Init(b));
    }
  }

  // ---------- Grouping ----------

  function QueueIn(queues: Queues, r: Region): seq<ServerId> {
    if r in queues then queues[r] else []
  }

  function Group(s: seq<Server>): Queues {
    if s == [] then map[] else
    var q, x := Group(Init(s)), Last(s);
    q[x.region := QueueIn(q, x.region) + [x.id]]
  }

  function RegionsOf(s: seq<Server>): seq<Region> {
    if s == [] then [] else
    var rs := RegionsOf(Init(s));
    if Last(s).region in rs then rs else rs + [Last(s).region]
  }

  ghost predicate DistinctIds(s: seq<Server>) {
    s == [] || (DistinctIds(Init(s)) && forall x | x in Init(s) :: x.id != Last(s).id)
  }

  ghost predicate Rising(ids: seq<string>) {
    ids == [] || (Rising(Init(ids)) && forall x | x in Init(ids) :: AtMost(x, Last(ids)))
  }

  ghost predicate Holds(s: seq<Server>, r: Region, id: ServerId) {
    exists x :: x in s && x.region == r && x.id == id
  }

  lemma {:induction false} GroupElems(s: seq<Server>, r: Region, id: ServerId)
    ensures id in QueueIn(Group(s), r) <==> Holds(s, r, id)
    ensures r in Group(s) <==> r in RegionsOf(s)
    ensures r in Group(s) ==> Group(s)[r] != []
  {
    if s != [] {
      SplitLast(s);
      GroupElems(Init(s), r, id);
      GroupElems(Init(s), Last(s).region, id);
      var q := QueueIn(Group(Init(s)), r);
      if r == Last(s).region {
        assert QueueIn(Group(s), r) == q + [Last(s).id];
        assert Last(s) in s;
      }
      forall x | x in Init(s) ensures x in s {}
    }
  }

  lemma {:induction false} GroupDistinct(s: seq<Server>, r: Region)
    requires DistinctIds(s)
    ensures NoDup(QueueIn(Group(s), r)) && NoDup(RegionsOf(s))
    ensures Sorted(s) ==> Rising(QueueIn(Group(s), r))
  {
    if s != [] {
      SplitLast(s);
      GroupDistinct(Init(s), r);
      var q := QueueIn(Group(Init(s)), r);
      if r == Last(s).region {
        assert Init(q + [Last(s).id]) == q;
        forall id | id in q ensures id != Last(s).id && (Sorted(s) ==> AtMost(id, Last(s).id)) {
          GroupElems(Init(s), r, id);
        }
      }
      var rs := RegionsOf(Init(s));
      assert Init(rs + [Last(s).region]) == rs;
    }
  }

  lemma {:induction false} RegionsRising(s: seq<Server>)
    requires Sorted(s)
    ensures Rising(RegionsOf(s))
  {
    if s != [] {
      SplitLast(s);
      RegionsRising(Init(s));
      var rs := RegionsOf(Init(s));
      assert Init(rs + [Last(s).region]) == rs;
      forall r | r in rs ensures AtMost(r, Last(s).region) || Last(s).region in rs {
        GroupElems(Init(s), r, "");
        RegionHasServer(Init(s), r);
      }
    }
  }

  lemma {:induction false} RegionHasServer(s: seq<Server>, r: Region)
    requires r in RegionsOf(s)
    ensures exists x :: x in s && x.region == r
  {
    SplitLast(s);
    if r in RegionsOf(Init(s)) {
      RegionHasServer(Init(s), r);
      var x :| x in Init(s) && x.region == r;
      assert x in s;
    } else {
      assert Last(s) in s;
    }
  }

  lemma SameIdSameServer(s: seq<Server>, x: Server, y: Server)
    requires DistinctIds(s) && x in s && y in s && x.id == y.id
    ensures x == y
  {
    if s != [] {
      SplitLast(s);
      if x != Last(s) && y != Last(s) { SameIdSameServer(Init(s), x, y); }
    }
  }

  lemma GroupApart(s: seq<Server>)
    requires DistinctIds(s)
    ensures Apart(Group(s)) && Open(SizesOf(Group(s)), RegionsOf(s))
  {
    var q := Group(s);
    forall r { GroupDistinct(s, r); }
    forall r { GroupElems(s, r, ""); }
    forall r | r in q ensures NoDup(q[r]) { assert q[r] == QueueIn(q, r); }
    forall r, t | r in q && t in q && r != t ensures Elems(q[r]) !! Elems(q[t]) {
      forall id | id in Elems(q[r]) ensures id !in Elems(q[t]) {
        GroupElems(s, r, id);
        GroupElems(s, t, id);
        var x :| x in s && x.region == r && x.id == id;
        if y :| y in s && y.region == t && y.id == id {
          SameIdSameServer(s, x, y);
        }
      }
    }
  }

  lemma GroupListed(s: seq<Server>)
    ensures forall r :: r in RegionsOf(s) <==> r in Group(s)
  {
    forall r { GroupElems(s, r, ""); }
  }

  lemma SizesAppend(q: Queues, r: Region, id: ServerId)
    ensures var sizes := SizesOf(q);
            SizesOf(q[r := QueueIn(q, r) + [id]]) == sizes[r := if r in sizes then sizes[r] + 1 else 1]
  {
  }

  lemma {:induction false} GroupTotal(s: seq<Server>)
    requires DistinctIds(s)
    ensures forall r | r in RegionsOf(s) :: r in SizesOf(Group(s))
    ensures Total(SizesOf(Group(s)), RegionsOf(s)) == |s|
  {
    GroupListed(s);
    if s != [] {
      var r, sizes, rs := Last(s).region, SizesOf(Group(Init(s))), RegionsOf(Init(s));
      GroupTotal(Init(s));
      GroupDistinct(Init(s), r);
      GroupListed(Init(s));
      TotalBump(sizes, rs, r);
      SizesAppend(Group(Init(s)), r, Last(s).id);
    }
  }

  lemma TotalBump(sizes: Sizes, regions: seq<Region>, r: Region)
    requires NoDup(regions) && forall x :: x in regions <==> x in sizes
    ensures var sizes' := sizes[r := if r in sizes then sizes[r] + 1 else 1];
            var regions' := if r in regions then regions else regions + [r];
            && (forall x | x in regions' :: x in sizes')
            && Total(sizes', regions') == Total(sizes, regions) + 1
  {
    if r in regions {
      TotalPlus(sizes, regions, r);
    } else {
      TotalFrame(sizes, sizes[r := 1], regions);
      TotalAppend(sizes[r := 1], regions, r);
    }
  }

  lemma {:induction false} TotalPlus(sizes: Sizes, regions: seq<Region>, r: Region)
    requires NoDup(regions) && r in regions && forall x | x in regions :: x in sizes
    ensures Total(sizes[r := sizes[r] + 1], regions) == Total(sizes, regions) + 1
  {
    var tail := regions[1..];
    assert regions == [regions[0]] + tail;
    NoDupConcat([regions[0]], tail);
    if regions[0] == r {
      assert r in Elems([regions[0]]);
      TotalFrame(sizes, sizes[r := sizes[r] + 1], tail);
    } else {
      TotalPlus(sizes, tail, r);
    }
  }

  lemma {:induction false} TotalAppend(sizes: Sizes, regions: seq<Region>, r: Region)
    requires r in sizes && forall x | x in regions :: x in sizes
    ensures Total(sizes, regions + [r]) == Total(sizes, regions) + sizes[r]
  {
    if regions != [] {
      TotalAppend(sizes, regions[1..], r);
      assert (regions + [r])[1..] == regions[1..] + [r];
    } else {
      assert ([] + [r])[1..] == [];
    }
  }

  // ---------- The selection ----------

  // The selection as a function of the candidates: sort, group, deal.
  ghost function Selection(candidates: seq<Server>, count: nat): seq<ServerId>
    requires DistinctIds(candidates)
  {
    var s := SortServers(candidates);
    SortedDistinct(candidates);
    GroupApart(s);
    StartDeal(Group(s), RegionsOf(s), 0, count);
    Deal(Group(s), Schedule(SizesOf(Group(s)), RegionsOf(s), 0, count))
  }

  lemma {:induction false} DistinctIdsMultiset(s: seq<Server>, t: seq<Server>)
    requires multiset(s) == multiset(t) && DistinctIds(s)
    ensures DistinctIds(t)
  {
    DistinctNoDup(s);
    NoDupPermute(t, s);
    SameElems(s, t);
    NoDupDistinct(s, t);
  }

  lemma {:induction false} DistinctNoDup(s: seq<Server>)
    requires DistinctIds(s)
    ensures NoDup(s)
  {
    if s != [] {
      DistinctNoDup(Init(s));
    }
  }

  lemma {:induction false} NoDupDistinct(s: seq<Server>, t: seq<Server>)
    requires DistinctIds(s) && NoDup(t) && forall x | x in t :: x in s
    ensures DistinctIds(t)
  {
    if t != [] {
      SplitLast(t);
      NoDupDistinct(s, Init(t));
      assert Last(t) in t;
      forall x | x in Init(t) ensures x.id != Last(t).id {
        if x.id == Last(t).id { SameIdSameServer(s, x, Last(t)); }
      }
    }
  }

  lemma SortedDistinct(candidates: seq<Server>)
    requires DistinctIds(candidates)
    ensures DistinctIds(SortServers(candidates))
  {
    DistinctIdsMultiset(candidates, SortServers(candidates));
  }

  lemma {:induction false} DealLength(queues: Queues, picks: seq<Region>)
    requires forall r | r in picks :: r in queues && multiset(picks)[r] <= |queues[r]|
    ensures |Deal(queues, picks)| == |picks|
    decreases |picks|
  {
    if picks != [] {
      DealStep(queues, picks);
      DealLength(queues[picks[0] := queues[picks[0]][1..]], picks[1..]);
    }
  }

  // Exactly as many as asked for, or all; distinct; and from each region a prefix
  // of its ids in ascending order.
  lemma SelectionFacts(candidates: seq<Server>, count: nat)
    requires DistinctIds(candidates)
    ensures var picked := Selection(candidates, count);
            && NoDup(picked)
            && |picked| == (if count <= |candidates| then count else |candidates|)
            && forall id | id in picked :: exists x :: x in candidates && x.id == id
  {
    var s := SortServers(candidates);
    SortedDistinct(candidates);
    SameElems(s, candidates);
    GroupApart(s);
    GroupTotal(s);
    var queues, regions := Group(s), RegionsOf(s);
    StartDeal(queues, regions, 0, count);
    var picks := Schedule(SizesOf(queues), regions, 0, count);
    DealtDistinct(queues, picks);
    ScheduleLength(SizesOf(queues), regions, 0, count);
    DealLength(queues, picks);
    forall id | id in Selection(candidates, count) ensures exists x :: x in candidates && x.id == id {
      DealtPrefixes(queues, picks, id);
      var r :| r in queues && id in queues[r][..Picked(picks, r)];
      GroupElems(s, r, id);
      HoldsSame(s, candidates, r, id);
    }
  }

  // The order in which candidates are listed does not matter.
  lemma SelectionIndifferent(a: seq<Server>, b: seq<Server>, count: nat)
    requires DistinctIds(a) && DistinctIds(b) && multiset(a) == multiset(b)
    ensures Selection(a, count) == Selection(b, count)
  {
    SortServersSorted(a);
    SortServersSorted(b);
    SameElems(SortServers(a), a);
    forall x, y | x in SortServers(a) && y in SortServers(a) && x.id == y.id ensures x == y {
      SameIdSameServer(a, x, y);
    }
    SortedUnique(SortServers(a), SortServers(b));
  }

  lemma HoldsSame(s: seq<Server>, t: seq<Server>, r: Region, id: ServerId)
    requires multiset(s) == multiset(t)
    ensures Holds(s, r, id) <==> Holds(t, r, id)
  {
    SameElems(s, t);
  }

  lemma HoldsOnce(s: seq<Server>, r: Region, t: Region, id: ServerId)
    requires DistinctIds(s) && Holds(s, r, id) && Holds(s, t, id)
    ensures r == t
  {
    var x :| x in s && x.region == r && x.id == id;
    var y :| y in s && y.region == t && y.id == id;
    SameIdSameServer(s, x, y);
  }

  // Strictly ascending in dictionary order.
  ghost predicate Ascending(s: seq<string>) {
    forall i, j | 0 <= i < j < |s| :: Lexical(s[i], s[j]) && s[i] != s[j]
  }

  lemma {:induction false} RisingAscends(s: seq<string>)
    requires Rising(s) && NoDup(s)
    ensures Ascending(s)
  {
    if s != [] {
      RisingAscends(Init(s));
      NoDupIndex(s);
      forall i | 0 <= i < |s| - 1 ensures Lexical(s[i], Last(s)) {
        assert s[i] == Init(s)[i] && s[i] in Init(s);
        AtMostIs(s[i], Last(s));
      }
      forall i, j | 0 <= i < j < |s| - 1 ensures Lexical(s[i], s[j]) {
        assert s[i] == Init(s)[i] && s[j] == Init(s)[j];
      }
    }
  }

  // From each region, a prefix of its candidates' ids in ascending order: as long
  // as the region has turns in the schedule.
  lemma SelectionByRegion(candidates: seq<Server>, count: nat, r: Region, id: ServerId)
    requires DistinctIds(candidates)
    ensures var s := SortServers(candidates);
            var queue := QueueIn(Group(s), r);
            && Ascending(queue)
            && (id in queue <==> Holds(candidates, r, id))
            && Ascending(RegionsOf(s)) && Open(SizesOf(Group(s)), RegionsOf(s))
            && var n := Picked(Schedule(SizesOf(Group(s)), RegionsOf(s), 0, count), r);
               n <= |queue| && (Holds(candidates, r, id) ==> (id in Selection(candidates, count) <==> id in queue[..n]))
  {
    var s := SortServers(candidates);
    SortedDistinct(candidates);
    SortServersSorted(candidates);
    RegionsRising(s);
    GroupApart(s);
    GroupDistinct(s, r);
    RisingAscends(QueueIn(Group(s), r));
    RisingAscends(RegionsOf(s));
    GroupElems(s, r, id);
    HoldsSame(s, candidates, r, id);
    var queues, regions := Group(s), RegionsOf(s);
    StartDeal(queues, regions, 0, count);
    var picks := Schedule(SizesOf(queues), regions, 0, count);
    DealtPrefixes(queues, picks, id);
    assert r in picks <==> Picked(picks, r) > 0;
    if Holds(candidates, r, id) {
      if t :| t in queues && id in queues[t][..Picked(picks, t)] {
        GroupElems(s, t, id);
        HoldsOnce(s, r, t, id);
      }
    }
  }

  method SelectServers(candidates: seq<Server>, count: nat) returns (selected: seq<ServerId>)
    requires DistinctIds(candidates)
    ensures selected == Selection(candidates, count)
  {
    var pending := SortServers(candidates);
    SortedDistinct(candidates);
    GroupApart(pending);
    var queues: Queues, regions: seq<Region> := map[], [];
    for i := 0 to |pending|
      invariant queues == Group(pending[..i]) && regions == RegionsOf(pending[..i])
    {
      var s := pending[i];
      assert Init(pending[..i + 1]) == pending[..i];
      if s.region !in regions {
        regions := regions + [s.region];
      }
      queues := queues[s.region := QueueIn(queues, s.region) + [s.id]];
    }
    assert pending[..|pending|] == pending;
    selected := Select(queues, regions, count);
  }
}
