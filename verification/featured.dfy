/** `FeaturedClubs`: the three clubs with the most members, as the home page shows them. */
module FeaturedClubs {
  import opened Domain
  import opened Seqs

  /** `club.membersCount || 0`. */
  function MembersOf(c: Club): int {
    c.membersCount.GetOr(0)
  }

  /** Ordered by member count, largest first. */
  predicate SortedDesc(s: seq<Club>) {
    forall i, j :: 0 <= i < j < |s| ==> MembersOf(s[i]) >= MembersOf(s[j])
  }

  /** Every club of `s` has at most `n` members. */
  predicate AllAtMost(s: seq<Club>, n: int) {
    forall i :: 0 <= i < |s| ==> MembersOf(s[i]) <= n
  }

  /** Puts `c` in front of the first club with no more members than it has: an insertion that
      keeps equal counts in their input order when `c` came first. */
  function Insert(c: Club, s: seq<Club>): (r: seq<Club>)
    requires SortedDesc(s)
    ensures SortedDesc(r)
    ensures multiset(r) == multiset(s) + multiset{c}
    ensures forall n :: AllAtMost(s, n) && MembersOf(c) <= n ==> AllAtMost(r, n)
    decreases |s|
  {
    if s == [] then [c]
    else if MembersOf(c) >= MembersOf(s[0]) then
      assert AllAtMost(s, MembersOf(c));
      SortedCons(c, s);
      [c] + s
    else
      SortedTail(s);
      var rest := Insert(c, s[1..]);
      SortedCons(s[0], rest);
      AllAtMostCons(s[0], rest);
      [s[0]] + rest
  }

  /** The tail of a sorted list is sorted, bounded by its head, and the list is head plus tail. */
  lemma SortedTail(s: seq<Club>)
    requires SortedDesc(s) && s != []
    ensures SortedDesc(s[1..]) && AllAtMost(s[1..], MembersOf(s[0]))
    ensures multiset(s) == multiset{s[0]} + multiset(s[1..])
  {
    assert s == [s[0]] + s[1..];
  }

  /** A club with at least as many members as every club of a sorted list can go in front. */
  lemma SortedCons(x: Club, t: seq<Club>)
    requires SortedDesc(t) && AllAtMost(t, MembersOf(x))
    ensures SortedDesc([x] + t)
  {
  }

  /** A bound holds of `[x] + t` when it holds of `x` and of `t`. */
  lemma AllAtMostCons(x: Club, t: seq<Club>)
    ensures forall n :: MembersOf(x) <= n && AllAtMost(t, n) ==> AllAtMost([x] + t, n)
  {
  }

  /** `clubs.sort((a, b) => (b.membersCount || 0) - (a.membersCount || 0))`. */
  function SortByMembers(s: seq<Club>): (r: seq<Club>)
    ensures SortedDesc(r)
    ensures multiset(r) == multiset(s)
    ensures |r| == |s|
    decreases |s|
  {
    if s == [] then []
    else
      assert s == [s[0]] + s[1..];
      Insert(s[0], SortByMembers(s[1..]))
  }

  /** The featured clubs: `.slice(0, 3)` of the sorted list. */
  function Featured(clubs: seq<Club>): (r: seq<Club>)
    ensures |r| == if |clubs| < 3 then |clubs| else 3
    ensures SortedDesc(r)
    ensures multiset(r) <= multiset(clubs)
  {
    var sorted := SortByMembers(clubs);
    var k := if |clubs| < 3 then |clubs| else 3;
    assert sorted == sorted[..k] + sorted[k..];
    sorted[..k]
  }

  /** In a list sorted largest first, everything after position `k` is at most everything before it. */
  lemma PrefixDominates(s: seq<Club>, k: nat)
    requires SortedDesc(s) && k <= |s|
    ensures forall x, y :: x in s[k..] && y in s[..k] ==> MembersOf(x) <= MembersOf(y)
  {
    forall x, y | x in s[k..] && y in s[..k]
      ensures MembersOf(x) <= MembersOf(y)
    {
      var i :| 0 <= i < |s[k..]| && s[k..][i] == x;
      var j :| 0 <= j < k && s[..k][j] == y;
      assert s[j] == y && s[k + i] == x;
    }
  }

  /** No club left out of the featured three has more members than any featured club. */
  lemma FeaturedAreLargest(clubs: seq<Club>)
    ensures forall x, y :: x in multiset(clubs) - multiset(Featured(clubs)) && y in Featured(clubs) ==> MembersOf(x) <= MembersOf(y)
  {
    var sorted := SortByMembers(clubs);
    var k := if |clubs| < 3 then |clubs| else 3;
    assert Featured(clubs) == sorted[..k];
    assert sorted == sorted[..k] + sorted[k..];
    assert multiset(clubs) - multiset(sorted[..k]) == multiset(sorted[k..]);
    PrefixDominates(sorted, k);
  }

  /** With three or fewer clubs every club is featured. */
  lemma SmallListsAllFeatured(clubs: seq<Club>)
    requires |clubs| <= 3
    ensures multiset(Featured(clubs)) == multiset(clubs)
  {
    var sorted := SortByMembers(clubs);
    assert sorted[..|sorted|] == sorted;
  }

  /** The clubs of `s` with exactly `n` members, in their order in `s`
      (`s.filter(c => (c.membersCount || 0) === n)`). */
  function WithCount(s: seq<Club>, n: int): seq<Club>
    decreases |s|
  {
    if s == [] then []
    else (if MembersOf(s[0]) == n then [s[0]] else []) + WithCount(s[1..], n)
  }

  lemma WithCountCons(x: Club, s: seq<Club>, n: int)
    ensures WithCount([x] + s, n) == (if MembersOf(x) == n then [x] else []) + WithCount(s, n)
  {
    assert ([x] + s)[1..] == s;
  }

  /** `c` has fewer members than `x`, so at most one of them has exactly `n`: their
      contributions to `WithCount` commute. */
  lemma SwapSingletons(x: Club, c: Club, n: int, t: seq<Club>)
    requires MembersOf(c) < MembersOf(x)
    ensures (if MembersOf(x) == n then [x] else []) + ((if MembersOf(c) == n then [c] else []) + t)
         == (if MembersOf(c) == n then [c] else []) + ((if MembersOf(x) == n then [x] else []) + t)
  {
  }

  /** Inserting keeps `c` ahead of the clubs of equal count already in `s`. */
  lemma {:induction false} InsertStable(c: Club, s: seq<Club>, n: int)
    requires SortedDesc(s)
    ensures WithCount(Insert(c, s), n) == (if MembersOf(c) == n then [c] else []) + WithCount(s, n)
    decreases |s|
  {
    if s == [] {
      WithCountCons(c, [], n);
    } else if MembersOf(c) >= MembersOf(s[0]) {
      WithCountCons(c, s, n);
    } else {
      var rest := Insert(c, s[1..]);
      assert Insert(c, s) == [s[0]] + rest;
      InsertStable(c, s[1..], n);
      WithCountCons(s[0], rest, n);
      WithCountCons(s[0], s[1..], n);
      assert s == [s[0]] + s[1..];
      SwapSingletons(s[0], c, n, WithCount(s[1..], n));
    }
  }

  /** The sort is stable: clubs with equal member counts keep their relative order, which
      together with `SortedDesc` and the multiset equality fixes the result completely. */
  lemma {:induction false} SortStable(s: seq<Club>, n: int)
    ensures WithCount(SortByMembers(s), n) == WithCount(s, n)
    decreases |s|
  {
    if s != [] {
      SortStable(s[1..], n);
      InsertStable(s[0], SortByMembers(s[1..]), n);
      WithCountCons(s[0], s[1..], n);
      assert s == [s[0]] + s[1..];
    }
  }
}
