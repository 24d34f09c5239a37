/**
 * Round-robin selection over regions (deploy/engine.py, and the same loop in
 * deploy/activities.py): a rotating index over a list of regions that shrinks as
 * regions run out. The index is not rebased when the list shrinks.
 */
module RoundRobin {
  import opened Base
  import opened Events

  type Queues = map<Region, seq<ServerId>>

  type Sizes = map<Region, nat>

  function SizesOf(queues: Queues): Sizes {
    map r | r in queues :: |queues[r]|
  }

  function Without(regions: seq<Region>, r: Region): seq<Region> {
    if regions == [] then []
    else if regions[0] == r then Without(regions[1..], r)
    else [regions[0]] + Without(regions[1..], r)
  }

  // Every listed region still holds servers, and every other is empty.
  ghost predicate Open(sizes: Sizes, regions: seq<Region>) {
    NoDup(regions) && forall r :: r in regions <==> r in sizes && sizes[r] > 0
  }

  // The regions picked from, in order. It depends on the queue lengths alone.
  ghost function Schedule(sizes: Sizes, regions: seq<Region>, idx: nat, count: nat): seq<Region>
    requires Open(sizes, regions)
    decreases count
  {
    if count == 0 || regions == [] then [] else
    var r := regions[idx % |regions|];
    OpenAfter(sizes, regions, r);
    [r] + Schedule(sizes[r := sizes[r] - 1], RegionsAfter(sizes, regions, r), idx + 1, count - 1)
  }

  function RegionsAfter(sizes: Sizes, regions: seq<Region>, r: Region): seq<Region>
    requires r in sizes
  {
    if sizes[r] <= 1 then Without(regions, r) else regions
  }

  lemma {:induction false} WithoutElems(regions: seq<Region>, r: Region)
    ensures forall x :: x in Without(regions, r) <==> x in regions && x != r
    ensures NoDup(regions) ==> NoDup(Without(regions, r))
    ensures |Without(regions, r)| <= |regions|
    ensures r !in regions ==> Without(regions, r) == regions
  {
    if regions != [] {
      WithoutElems(regions[1..], r);
      assert regions == [regions[0]] + regions[1..];
      NoDupConcat([regions[0]], regions[1..]);
      NoDupConcat([regions[0]], Without(regions[1..], r));
      assert Init([regions[0]]) == [];
    }
  }

  lemma OpenAfter(sizes: Sizes, regions: seq<Region>, r: Region)
    requires Open(sizes, regions) && r in regions
    ensures Open(sizes[r := sizes[r] - 1], RegionsAfter(sizes, regions, r))
  {
    WithoutElems(regions, r);
  }

  // No region is picked more often than its queue allows.
  ghost predicate Fits(queues: Queues, picks: seq<Region>) {
    forall r | r in picks :: r in queues && multiset(picks)[r] <= |queues[r]|
  }

  // The ids dealt by a schedule: each pick takes the head of its region's queue.
  ghost function Deal(queues: Queues, picks: seq<Region>): seq<ServerId>
    requires Fits(queues, picks)
    decreases |picks|
  {
    if picks == [] then [] else
    var r := picks[0];
    assert picks == [r] + picks[1..];
    [queues[r][0]] + Deal(queues[r := queues[r][1..]], picks[1..])
  }

  // How often a region is picked.
  ghost function Picked(picks: seq<Region>, r: Region): nat {
    multiset(picks)[r]
  }

  lemma HeadPicked(x: Region, picks: seq<Region>, r: Region)
    ensures Picked([x] + picks, r) == Picked(picks, r) + if r == x then 1 else 0
  {
  }

  lemma {:induction false} ScheduleFits(sizes: Sizes, regions: seq<Region>, idx: nat, count: nat)
    requires Open(sizes, regions)
    ensures forall r | r in Schedule(sizes, regions, idx, count) ::
              r in sizes && Picked(Schedule(sizes, regions, idx, count), r) <= sizes[r]
    decreases count
  {
    if count > 0 && regions != [] {
      var r := regions[idx % |regions|];
      OpenAfter(sizes, regions, r);
      var sizes', regions' := sizes[r := sizes[r] - 1], RegionsAfter(sizes, regions, r);
      ScheduleFits(sizes', regions', idx + 1, count - 1);
      var rest := Schedule(sizes', regions', idx + 1, count - 1);
      forall x | x in [r] + rest ensures x in sizes && Picked([r] + rest, x) <= sizes[x] {
        HeadPicked(r, rest, x);
        assert x in rest <==> Picked(rest, x) > 0;
      }
    }
  }

  // ---------- How many servers are picked ----------

  ghost function Total(sizes: Sizes, regions: seq<Region>): nat
    requires forall r | r in regions :: r in sizes
  {
    if regions == [] then 0 else sizes[regions[0]] + Total(sizes, regions[1..])
  }

  lemma {:induction false} TotalFrame(a: Sizes, b: Sizes, regions: seq<Region>)
    requires forall r | r in regions :: r in a && r in b && a[r] == b[r]
    ensures Total(a, regions) == Total(b, regions)
  {
    if regions != [] {
      TotalFrame(a, b, regions[1..]);
    }
  }

  lemma {:induction false} TotalAfter(sizes: Sizes, regions: seq<Region>, r: Region)
    requires NoDup(regions) && r in regions && forall x | x in regions :: x in sizes && sizes[x] > 0
    ensures forall x | x in RegionsAfter(sizes, regions, r) :: x in sizes
    ensures Total(sizes[r := sizes[r] - 1], RegionsAfter(sizes, regions, r)) == Total(sizes, regions) - 1
  {
    var sizes', tail := sizes[r := sizes[r] - 1], regions[1..];
    assert regions == [regions[0]] + tail;
    NoDupConcat([regions[0]], tail);
    WithoutElems(regions, r);
    if regions[0] == r {
      assert r in Elems([regions[0]]);
      WithoutElems(tail, r);
      TotalFrame(sizes, sizes', tail);
      assert r !in tail;
    } else {
      TotalAfter(sizes, tail, r);
      assert RegionsAfter(sizes, regions, r) == [regions[0]] + RegionsAfter(sizes, tail, r);
    }
  }

  lemma {:induction false} ScheduleLength(sizes: Sizes, regions: seq<Region>, idx: nat, count: nat)
    requires Open(sizes, regions)
    ensures |Schedule(sizes, regions, idx, count)| == if count <= Total(sizes, regions) then count else Total(sizes, regions)
    decreases count
  {
    if count > 0 && regions != [] {
      var r := regions[idx % |regions|];
      OpenAfter(sizes, regions, r);
      TotalAfter(sizes, regions, r);
      ScheduleLength(sizes[r := sizes[r] - 1], RegionsAfter(sizes, regions, r), idx + 1, count - 1);
    }
  }

  // ---------- What is picked from each region ----------

  lemma DealStep(queues: Queues, picks: seq<Region>)
    requires picks != [] && Fits(queues, picks)
    ensures var r := picks[0];
            && queues[r] != []
            && forall x | x in picks[1..] :: x in queues && multiset(picks[1..])[x] <= |queues[r := queues[r][1..]][x]|
  {
    var r := picks[0];
    assert picks == [r] + picks[1..];
  }

  lemma TakeStep(queues: Queues, x: Region, rest: seq<Region>, r: Region, id: ServerId)
    requires x in queues && queues[x] != [] && r in queues
    requires Picked(rest, r) <= |queues[x := queues[x][1..]][r]|
    ensures Picked([x] + rest, r) <= |queues[r]|
    ensures id in queues[r][..Picked([x] + rest, r)] <==>
              id in queues[x := queues[x][1..]][r][..Picked(rest, r)] || (r == x && id == queues[x][0])
  {
    HeadPicked(x, rest, r);
    if r == x {
      assert queues[x][..Picked(rest, x) + 1] == [queues[x][0]] + queues[x][1..][..Picked(rest, x)];
    }
  }

  // From each region, the first so many of its queue; from elsewhere, nothing.
  lemma {:induction false} DealtPrefixes(queues: Queues, picks: seq<Region>, id: ServerId)
    requires Fits(queues, picks)
    ensures forall r | r in queues :: Picked(picks, r) <= |queues[r]|
    ensures id in Deal(queues, picks) <==> exists r :: r in queues && id in queues[r][..Picked(picks, r)]
    decreases |picks|
  {
    if picks != [] {
      var x, rest := picks[0], picks[1..];
      DealStep(queues, picks);
      DealtPrefixes(queues[x := queues[x][1..]], rest, id);
      assert picks == [x] + rest;
      forall r | r in queues { TakeStep(queues, x, rest, r, id); }
    }
  }

  ghost predicate Apart(queues: Queues) {
    && (forall r | r in queues :: NoDup(queues[r]))
    && (forall r, q | r in queues && q in queues && r != q :: Elems(queues[r]) !! Elems(queues[q]))
  }

  lemma HeadApart(queues: Queues, x: Region, id: ServerId, r: Region)
    requires Apart(queues) && x in queues && queues[x] != [] && r in queues
    ensures r != x && id in queues[r] ==> id != queues[x][0]
    ensures queues[x][0] !in queues[x][1..] && NoDup(queues[x][1..])
    ensures Elems(queues[x][1..]) <= Elems(queues[x])
  {
    var q := queues[x];
    assert q[0] in Elems(q);
    assert id in queues[r] ==> id in Elems(queues[r]);
    assert q == [q[0]] + q[1..];
    NoDupConcat([q[0]], q[1..]);
    ElemsConcat([q[0]], q[1..]);
    assert q[0] in Elems([q[0]]);
  }

  lemma {:induction false} DealtDistinct(queues: Queues, picks: seq<Region>)
    requires Fits(queues, picks)
    requires Apart(queues)
    ensures NoDup(Deal(queues, picks))
    decreases |picks|
  {
    if picks != [] {
      var x, rest := picks[0], picks[1..];
      DealStep(queues, picks);
      var queues' := queues[x := queues[x][1..]];
      var head := queues[x][0];
      forall r | r in queues { HeadApart(queues, x, head, r); }
      DealtDistinct(queues', rest);
      DealtPrefixes(queues', rest, head);
      var tail := Deal(queues', rest);
      forall r | r in queues' ensures head !in queues'[r][..Picked(rest, r)] {
        HeadApart(queues, x, head, r);
      }
      NoDupConcat([head], tail);
      assert Deal(queues, picks) == [head] + tail;
    }
  }

  // ---------- Fairness ----------

  // Since the list last shrank, the index has gone round `level` times and then
  // past `d` more positions, starting from position `from`.
  datatype Round = Round(level: nat, from: nat, d: nat)

  ghost predicate InRound(round: Round, m: nat, idx: nat) {
    m > 0 && round.from < m && round.d < m && idx % m == Wrap(round.from + round.d, m)
  }

  function Wrap(x: nat, m: nat): nat {
    if x < m then x else x - m
  }

  // How often position `j` was picked since then.
  function Turns(round: Round, m: nat, j: nat): nat
    requires round.from < m && j < m
  {
    round.level + if (if j >= round.from then j - round.from else j - round.from + m) < round.d then 1 else 0
  }

  function NextRound(round: Round, m: nat): Round {
    if round.d + 1 == m then Round(round.level + 1, round.from, 0) else round.(d := round.d + 1)
  }

  lemma Remainder(x: int, n: nat, q: int, w: nat)
    requires w < n && x == q * n + w
    ensures x % n == w
  {
    assert (q - x / n) * n == x % n - w;
    AtLeastOnce(q - x / n, n);
  }

  lemma {:induction false} AtLeastOnce(d: int, n: nat)
    ensures d > 0 ==> d * n >= n
    ensures d < 0 ==> d * n + n <= 0
    decreases if d < 0 then -d else d
  {
    if d > 1 {
      AtLeastOnce(d - 1, n);
      assert d * n == (d - 1) * n + n;
    } else if d < -1 {
      AtLeastOnce(d + 1, n);
      assert d * n == (d + 1) * n - n;
    }
  }

  lemma ModNext(x: nat, m: nat)
    requires m > 0
    ensures (x + 1) % m == if x % m == m - 1 then 0 else x % m + 1
  {
    var q, r := x / m, x % m;
    assert x == q * m + r;
    if r == m - 1 {
      assert x + 1 == (q + 1) * m;
      Remainder(x + 1, m, q + 1, 0);
    } else {
      Remainder(x + 1, m, q, r + 1);
    }
  }

  lemma RoundStep(round: Round, m: nat, idx: nat, j: nat)
    requires InRound(round, m, idx) && j < m
    ensures InRound(NextRound(round, m), m, idx + 1)
    ensures Turns(NextRound(round, m), m, j) == Turns(round, m, j) + if j == idx % m then 1 else 0
  {
    ModNext(idx, m);
  }

  // The regions that a schedule runs out.
  ghost function Exhausted(sizes: Sizes, picks: seq<Region>): set<Region> {
    set r | r in sizes && sizes[r] > 0 && Picked(picks, r) == sizes[r]
  }

  ghost predicate Survives(sizes: Sizes, picks: seq<Region>, r: Region) {
    r in sizes && Picked(picks, r) < sizes[r]
  }

  lemma ExhaustedStep(sizes: Sizes, x: Region, rest: seq<Region>)
    requires x in sizes && 0 < sizes[x] && Picked(rest, x) < sizes[x]
    ensures var sizes' := sizes[x := sizes[x] - 1];
            |Exhausted(sizes, [x] + rest)| >= |Exhausted(sizes', rest)| + if sizes[x] == 1 then 1 else 0
  {
    var sizes' := sizes[x := sizes[x] - 1];
    forall r { HeadPicked(x, rest, r); }
    if sizes[x] == 1 {
      assert x !in Exhausted(sizes', rest);
      SubsetCard(Exhausted(sizes', rest) + {x}, Exhausted(sizes, [x] + rest));
    } else {
      SubsetCard(Exhausted(sizes', rest), Exhausted(sizes, [x] + rest));
    }
  }

  // `picks` follows the rotation for as long as it lasts.
  ghost predicate Rotates(sizes: Sizes, regions: seq<Region>, idx: nat, picks: seq<Region>)
    decreases |picks|
  {
    picks == [] ||
    (&& regions != [] && picks[0] == regions[idx % |regions|] && picks[0] in sizes && sizes[picks[0]] > 0
     && Rotates(sizes[picks[0] := sizes[picks[0]] - 1], RegionsAfter(sizes, regions, picks[0]), idx + 1, picks[1..]))
  }

  lemma {:induction false} RotatesFits(sizes: Sizes, regions: seq<Region>, idx: nat, picks: seq<Region>, r: Region)
    requires Rotates(sizes, regions, idx, picks) && r in sizes
    ensures Picked(picks, r) <= sizes[r]
    decreases |picks|
  {
    if picks != [] {
      var x, rest := picks[0], picks[1..];
      RotatesFits(sizes[x := sizes[x] - 1], RegionsAfter(sizes, regions, x), idx + 1, rest, r);
      assert picks == [x] + rest;
      HeadPicked(x, rest, r);
    }
  }

  lemma {:induction false} ScheduleRotates(sizes: Sizes, regions: seq<Region>, idx: nat, count: nat)
    requires Open(sizes, regions)
    ensures Rotates(sizes, regions, idx, Schedule(sizes, regions, idx, count))
    decreases count
  {
    if count > 0 && regions != [] {
      var r := regions[idx % |regions|];
      assert r in regions;
      OpenAfter(sizes, regions, r);
      ScheduleRotates(sizes[r := sizes[r] - 1], RegionsAfter(sizes, regions, r), idx + 1, count - 1);
    }
  }

  lemma SurvivesStep(sizes: Sizes, x: Region, rest: seq<Region>, a: Region)
    requires x in sizes && sizes[x] > 0 && Survives(sizes, [x] + rest, a)
    ensures Survives(sizes[x := sizes[x] - 1], rest, a)
    ensures Picked([x] + rest, a) == Picked(rest, a) + if a == x then 1 else 0
  {
    HeadPicked(x, rest, a);
  }

  // One pick seen from what remains of the rotation.
  lemma PickStep(sizes: Sizes, regions: seq<Region>, idx: nat, picks: seq<Region>, a: Region)
    requires Open(sizes, regions) && Rotates(sizes, regions, idx, picks) && picks != [] && Survives(sizes, picks, a)
    ensures var r, rest := picks[0], picks[1..];
            var sizes' := sizes[r := sizes[r] - 1];
            && Open(sizes', RegionsAfter(sizes, regions, r))
            && Survives(sizes', rest, a) && a in RegionsAfter(sizes, regions, r)
            && Picked(picks, a) == Picked(rest, a) + (if a == r then 1 else 0)
            && |Exhausted(sizes, picks)| >= |Exhausted(sizes', rest)| + if sizes[r] == 1 then 1 else 0
  {
    var r, rest := picks[0], picks[1..];
    assert picks == [r] + rest;
    OpenAfter(sizes, regions, r);
    RotatesFits(sizes[r := sizes[r] - 1], RegionsAfter(sizes, regions, r), idx + 1, rest, r);
    ExhaustedStep(sizes, r, rest);
    SurvivesStep(sizes, r, rest, a);
  }

  lemma PositionIs(regions: seq<Region>, i: nat, at: nat)
    requires NoDup(regions) && i < |regions| && at < |regions|
    ensures regions[i] == regions[at] <==> i == at
  {
    NoDupIndex(regions);
  }

  // The picks of one region: `base` when the list last shrank, `total` by now.
  datatype Tally = Tally(at: nat, base: nat, total: nat)

  ghost predicate Tallied(t: Tally, regions: seq<Region>, idx: nat, round: Round, r: Region) {
    && InRound(round, |regions|, idx)
    && t.at < |regions| && regions[t.at] == r
    && t.total == t.base + Turns(round, |regions|, t.at)
  }

  lemma TallyStep(t: Tally, regions: seq<Region>, idx: nat, round: Round, r: Region)
    requires NoDup(regions) && Tallied(t, regions, idx, round, r)
    ensures var t' := t.(total := t.total + if regions[idx % |regions|] == r then 1 else 0);
            Tallied(t', regions, idx + 1, NextRound(round, |regions|), r)
  {
    RoundStep(round, |regions|, idx, t.at);
    PositionIs(regions, t.at, idx % |regions|);
  }

  // When a region has run out, the totals become the bases of a new round.
  lemma TallyAgain(total: nat, regions: seq<Region>, idx: nat, r: Region) returns (t: Tally)
    requires r in regions
    ensures t.total == t.base == total && Tallied(t, regions, idx, Round(0, idx % |regions|, 0), r)
  {
    var i :| 0 <= i < |regions| && regions[i] == r;
    t := Tally(i, total, total);
  }

  lemma {:induction false} FairFrom(sizes: Sizes, regions: seq<Region>, idx: nat, picks: seq<Region>,
                                    round: Round, spread: nat, a: Region, b: Region, t: Tally, u: Tally)
    requires Open(sizes, regions) && Rotates(sizes, regions, idx, picks)
    requires Survives(sizes, picks, a) && Survives(sizes, picks, b)
    requires Tallied(t, regions, idx, round, a) && Tallied(u, regions, idx, round, b)
    requires t.base <= u.base + spread
    ensures t.total + Picked(picks, a) <= u.total + Picked(picks, b) + spread + 1 + |Exhausted(sizes, picks)|
    decreases |picks|
  {
    if picks != [] {
      var r := picks[0];
      PickStep(sizes, regions, idx, picks, a);
      PickStep(sizes, regions, idx, picks, b);
      TallyStep(t, regions, idx, round, a);
      TallyStep(u, regions, idx, round, b);
      var t' := t.(total := t.total + if r == a then 1 else 0);
      var u' := u.(total := u.total + if r == b then 1 else 0);
      var regions' := RegionsAfter(sizes, regions, r);
      var round', spread' := NextRound(round, |regions|), spread;
      if sizes[r] == 1 {
        round', spread' := Round(0, (idx + 1) % |regions'|, 0), spread + 1;
        t' := TallyAgain(t'.total, regions', idx + 1, a);
        u' := TallyAgain(u'.total, regions', idx + 1, b);
      }
      FairFrom(sizes[r := sizes[r] - 1], regions', idx + 1, picks[1..], round', spread', a, b, t', u');
    }
  }

  // Two regions that still hold servers were picked from equally often, give or
  // take one, and one more for each region that ran out on the way.
  lemma NearFair(sizes: Sizes, regions: seq<Region>, count: nat, a: Region, b: Region)
    requires Open(sizes, regions)
    ensures var picks := Schedule(sizes, regions, 0, count);
            Survives(sizes, picks, a) && Survives(sizes, picks, b) ==>
              Picked(picks, a) <= Picked(picks, b) + 1 + |Exhausted(sizes, picks)|
  {
    var picks := Schedule(sizes, regions, 0, count);
    if Survives(sizes, picks, a) && Survives(sizes, picks, b) {
      ScheduleRotates(sizes, regions, 0, count);
      var t := TallyAgain(0, regions, 0, a);
      var u := TallyAgain(0, regions, 0, b);
      FairFrom(sizes, regions, 0, picks, Round(0, 0 % |regions|, 0), 0, a, b, t, u);
    }
  }

  // One is not enough once a region has run out, because the index is not rebased:
  // after x, y and the end of y, the next turn is x again.
  lemma GapOfTwo(x: Region, y: Region, z: Region, sizes: Sizes)
    requires x != y && y != z && x != z
    requires Open(sizes, [x, y, z]) && sizes[x] > 2 && sizes[y] == 1
    ensures var picks := Schedule(sizes, [x, y, z], 0, 3);
            Survives(sizes, picks, x) && Survives(sizes, picks, z) && Picked(picks, x) == 2 && Picked(picks, z) == 0
  {
    OneMore(sizes, [x, y, z], 0, 3, x, [x, y, z]);
    WithoutMiddle(x, y, z);
    OneMore(sizes[x := sizes[x] - 1], [x, y, z], 1, 2, y, [x, z]);
    OneMore(sizes[x := sizes[x] - 1][y := 0], [x, z], 2, 1, x, [x, z]);
    assert z in [x, y, z];
  }

  lemma WithoutMiddle(x: Region, y: Region, z: Region)
    requires x != y && y != z
    ensures Without([x, y, z], y) == [x, z]
  {
    assert [x, y, z][1..] == [y, z] && [y, z][1..] == [z] && [z][1..] == [];
    assert Without([z], y) == [z];
    assert Without([y, z], y) == [z];
  }

  lemma OneMore(sizes: Sizes, regions: seq<Region>, idx: nat, count: nat, r: Region, regions': seq<Region>)
    requires Open(sizes, regions) && regions != [] && count > 0
    requires regions[idx % |regions|] == r && RegionsAfter(sizes, regions, r) == regions'
    ensures Open(sizes[r := sizes[r] - 1], regions')
    ensures Schedule(sizes, regions, idx, count) == [r] + Schedule(sizes[r := sizes[r] - 1], regions', idx + 1, count - 1)
  {
    OpenAfter(sizes, regions, r);
  }

  // ---------- When no region runs out ----------

  // How many picks come before the next from the `i`-th of `n` regions.
  function Wait(idx: nat, n: nat, i: nat): (w: nat)
    requires i < n
    ensures w < n
  {
    (i - idx) % n
  }

  lemma WaitStep(idx: nat, n: nat, i: nat)
    requires i < n
    ensures Wait(idx + 1, n, i) == if Wait(idx, n, i) == 0 then n - 1 else Wait(idx, n, i) - 1
    ensures Wait(idx, n, i) == 0 <==> i == idx % n
  {
    var q, w := (i - idx) / n, (i - idx) % n;
    assert i - idx == q * n + w;
    if w == 0 {
      Remainder(i - idx - 1, n, q - 1, n - 1);
      Remainder(idx, n, -q, i);
    } else {
      Remainder(i - idx - 1, n, q, w - 1);
      if i == idx % n {
        Remainder(i - idx, n, -(idx / n), 0);
      }
    }
  }

  // No region has its last server picked.
  ghost predicate Enough(sizes: Sizes, regions: seq<Region>, idx: nat, count: nat)
    requires Open(sizes, regions)
  {
    forall i | 0 <= i < |regions| :: count <= (sizes[regions[i]] - 1) * |regions| + Wait(idx, |regions|, i)
  }

  lemma EnoughStep(sizes: Sizes, regions: seq<Region>, idx: nat, count: nat, i: nat)
    requires Open(sizes, regions) && regions != [] && count > 0 && i < |regions|
    requires var r := regions[idx % |regions|]; sizes[r] > 1
    ensures var r, n := regions[idx % |regions|], |regions|;
            var sizes' := sizes[r := sizes[r] - 1];
            count <= (sizes[regions[i]] - 1) * n + Wait(idx, n, i) <==>
            count - 1 <= (sizes'[regions[i]] - 1) * n + Wait(idx + 1, n, i)
  {
    var n := |regions|;
    WaitStep(idx, n, i);
    NoDupIndex(regions);
    if i == idx % n {
      var s := sizes[regions[i]];
      assert (s - 1) * n == (s - 2) * n + n;
    }
  }

  lemma ExhaustedSame(sizes: Sizes, x: Region, rest: seq<Region>)
    requires x in sizes && sizes[x] > 1
    ensures Exhausted(sizes, [x] + rest) == Exhausted(sizes[x := sizes[x] - 1], rest)
  {
    forall r { HeadPicked(x, rest, r); }
  }

  lemma EnoughNext(sizes: Sizes, regions: seq<Region>, idx: nat, count: nat, sizes': Sizes)
    requires Open(sizes, regions) && regions != [] && count > 0
    requires var r := regions[idx % |regions|]; sizes[r] > 1 && sizes' == sizes[r := sizes[r] - 1]
    ensures Open(sizes', regions)
    ensures Enough(sizes, regions, idx, count) <==> Enough(sizes', regions, idx + 1, count - 1)
  {
    forall i: nat | i < |regions| { EnoughStep(sizes, regions, idx, count, i); }
  }

  lemma NotEnough(sizes: Sizes, regions: seq<Region>, idx: nat, count: nat)
    requires Open(sizes, regions) && regions != [] && count > 0 && sizes[regions[idx % |regions|]] == 1
    ensures !Enough(sizes, regions, idx, count)
  {
    WaitStep(idx, |regions|, idx % |regions|);
  }

  lemma EnoughOf(sizes: Sizes, regions: seq<Region>, idx: nat)
    requires Open(sizes, regions)
    ensures Enough(sizes, regions, idx, 0)
  {
    forall i: nat | i < |regions| ensures 0 <= (sizes[regions[i]] - 1) * |regions| + Wait(idx, |regions|, i) {
      assert regions[i] in regions;
      NoLess(sizes[regions[i]] - 1, |regions|);
    }
  }

  lemma NoLess(a: nat, b: nat)
    ensures a * b >= 0
  {
  }

  lemma {:induction false} NoneRunsOutFrom(sizes: Sizes, regions: seq<Region>, idx: nat, count: nat)
    requires Open(sizes, regions)
    ensures Exhausted(sizes, Schedule(sizes, regions, idx, count)) == {} <==> Enough(sizes, regions, idx, count)
    decreases count
  {
    if count == 0 || regions == [] {
      NothingPicked(sizes);
      EnoughOf(sizes, regions, idx);
    } else {
      var r := regions[idx % |regions|];
      if sizes[r] == 1 {
        LastPicked(sizes, regions, idx, count);
        NotEnough(sizes, regions, idx, count);
      } else {
        var sizes' := sizes[r := sizes[r] - 1];
        OneMore(sizes, regions, idx, count, r, regions);
        ExhaustedSame(sizes, r, Schedule(sizes', regions, idx + 1, count - 1));
        EnoughNext(sizes, regions, idx, count, sizes');
        NoneRunsOutFrom(sizes', regions, idx + 1, count - 1);
      }
    }
  }

  lemma NothingPicked(sizes: Sizes)
    ensures Exhausted(sizes, []) == {}
  {
  }

  lemma LastPicked(sizes: Sizes, regions: seq<Region>, idx: nat, count: nat)
    requires Open(sizes, regions) && count > 0 && regions != [] && sizes[regions[idx % |regions|]] == 1
    ensures regions[idx % |regions|] in Exhausted(sizes, Schedule(sizes, regions, idx, count))
  {
    var r := regions[idx % |regions|];
    var picks := Schedule(sizes, regions, idx, count);
    assert picks[0] == r;
    assert r in picks;
    ScheduleFits(sizes, regions, idx, count);
    assert Picked(picks, r) > 0;
  }

  // No region runs out exactly if each has a server left after its share of the
  // turns; and then no two shares differ by more than one.
  lemma EvenShares(sizes: Sizes, regions: seq<Region>, count: nat)
    requires Open(sizes, regions)
    ensures var picks := Schedule(sizes, regions, 0, count);
            && (Exhausted(sizes, picks) == {} <==>
                  forall i | 0 <= i < |regions| :: count <= (sizes[regions[i]] - 1) * |regions| + i)
            && (Exhausted(sizes, picks) == {} ==>
                  forall a, b | a in regions && b in regions :: Picked(picks, a) <= Picked(picks, b) + 1)
  {
    var picks := Schedule(sizes, regions, 0, count);
    NoneRunsOutFrom(sizes, regions, 0, count);
    assert Enough(sizes, regions, 0, count) <==>
           forall i | 0 <= i < |regions| :: count <= (sizes[regions[i]] - 1) * |regions| + i by {
      forall i: nat | i < |regions| ensures Wait(0, |regions|, i) == i { Remainder(i, |regions|, 0, i); }
    }
    if Exhausted(sizes, picks) == {} {
      forall a, b | a in regions && b in regions ensures Picked(picks, a) <= Picked(picks, b) + 1 {
        StillHolds(sizes, regions, count, a);
        StillHolds(sizes, regions, count, b);
        NearFair(sizes, regions, count, a, b);
      }
    }
  }

  lemma StillHolds(sizes: Sizes, regions: seq<Region>, count: nat, a: Region)
    requires Open(sizes, regions) && a in regions && Exhausted(sizes, Schedule(sizes, regions, 0, count)) == {}
    ensures Survives(sizes, Schedule(sizes, regions, 0, count), a)
  {
    var picks := Schedule(sizes, regions, 0, count);
    ScheduleFits(sizes, regions, 0, count);
    assert a !in Exhausted(sizes, picks);
    assert a !in picks ==> Picked(picks, a) == 0;
  }

  // ---------- The loop ----------

  lemma PopHead(queues: Queues, regions: seq<Region>, r: Region)
    requires Open(SizesOf(queues), regions) && r in regions
    ensures r in queues && queues[r] != []
    ensures SizesOf(queues[r := queues[r][1..]]) == SizesOf(queues)[r := |queues[r]| - 1]
    ensures Open(SizesOf(queues[r := queues[r][1..]]), RegionsAfter(SizesOf(queues), regions, r))
  {
    OpenAfter(SizesOf(queues), regions, r);
  }

  lemma StartDeal(queues: Queues, regions: seq<Region>, idx: nat, count: nat)
    requires Open(SizesOf(queues), regions)
    ensures Fits(queues, Schedule(SizesOf(queues), regions, idx, count))
  {
    ScheduleFits(SizesOf(queues), regions, idx, count);
  }

  lemma DealOne(queues: Queues, r: Region, rest: seq<Region>)
    requires Fits(queues, [r] + rest)
    ensures r in queues && queues[r] != []
    ensures Fits(queues[r := queues[r][1..]], rest)
    ensures Deal(queues, [r] + rest) == [queues[r][0]] + Deal(queues[r := queues[r][1..]], rest)
  {
    DealStep(queues, [r] + rest);
    assert ([r] + rest)[1..] == rest;
  }

  // The servers still to be selected.
  ghost function Dealt(queues: Queues, regions: seq<Region>, idx: nat, count: nat): seq<ServerId>
    requires Open(SizesOf(queues), regions)
  {
    StartDeal(queues, regions, idx, count);
    Deal(queues, Schedule(SizesOf(queues), regions, idx, count))
  }

  lemma DealtStep(queues: Queues, regions: seq<Region>, idx: nat, count: nat)
    requires Open(SizesOf(queues), regions) && count > 0 && regions != []
    ensures var r := regions[idx % |regions|];
            && r in queues && queues[r] != []
            && var queues', regions' := queues[r := queues[r][1..]], RegionsAfter(SizesOf(queues), regions, r);
               && Open(SizesOf(queues'), regions')
               && Dealt(queues, regions, idx, count) == [queues[r][0]] + Dealt(queues', regions', idx + 1, count - 1)
  {
    var r := regions[idx % |regions|];
    PopHead(queues, regions, r);
    StartDeal(queues, regions, idx, count);
    DealOne(queues, r, Schedule(SizesOf(queues[r := queues[r][1..]]), RegionsAfter(SizesOf(queues), regions, r), idx + 1, count - 1));
  }

  method Select(queues0: Queues, regions0: seq<Region>, count: nat) returns (selected: seq<ServerId>)
    requires Open(SizesOf(queues0), regions0)
    ensures var picks := Schedule(SizesOf(queues0), regions0, 0, count);
            && Fits(queues0, picks)
            && selected == Deal(queues0, picks)
  {
    var queues, regions, idx := queues0, regions0, 0;
    selected := [];
    while |selected| < count && regions != []
      invariant Open(SizesOf(queues), regions) && |selected| <= count
      invariant selected + Dealt(queues, regions, idx, count - |selected|) == Dealt(queues0, regions0, 0, count)
      decreases count - |selected|
    {
      var region := regions[idx % |regions|];
      assert region in regions;
      DealtStep(queues, regions, idx, count - |selected|);
      ConcatAssoc3(selected, [queues[region][0]],
                   Dealt(queues[region := queues[region][1..]], RegionsAfter(SizesOf(queues), regions, region), idx + 1, count - |selected| - 1));
      regions := if |queues[region]| <= 1 then Without(regions, region) else regions;
      selected := selected + [queues[region][0]];
      queues := queues[region := queues[region][1..]];
      idx := idx + 1;
    }
    StartDeal(queues0, regions0, 0, count);
  }
}
