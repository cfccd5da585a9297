/**
 * Leaderboard order, pages and 1-based ranks over the ledger's table
 * (the queries of src/DB.py).
 */
module Standings {
  import opened UserRecords

  /** The column a leaderboard sorts by. */
  datatype Metric = ByBalance | ByExperience

  function Score(u: User, m: Metric): int
  {
    match m
    case ByBalance => u.balance
    case ByExperience => u.experience
  }

  /** Leaderboard order: the higher metric first, ties broken by the lower id. */
  predicate Precedes(a: User, b: User, m: Metric)
  {
    Score(a, m) > Score(b, m) || (Score(a, m) == Score(b, m) && a.discordId < b.discordId)
  }

  /** `id` heads the table: its row precedes every other row. */
  predicate Leads(t: Table, id: int, m: Metric)
  {
    id in t && forall k :: k in t && k != id ==> Precedes(t[id], t[k], m)
  }

  lemma HasKey(t: Table)
    ensures |t| > 0 ==> exists k :: k in t
  {
    if forall k :: k !in t {
      assert t == map[];
    }
  }

  lemma {:induction false} LeaderExists(t: Table, m: Metric)
    requires WellKeyed(t) && |t| > 0
    ensures exists id :: Leads(t, id, m)
    decreases |t|
  {
    HasKey(t);
    var k :| k in t;
    var rest := t - {k};
    assert rest.Keys == t.Keys - {k};
    if |rest| == 0 {
      assert t.Keys == {k} by {
        assert |t.Keys - {k}| == 0;
      }
      assert Leads(t, k, m);
    } else {
      LeaderExists(rest, m);
      var f :| Leads(rest, f, m);
      if Precedes(t[f], t[k], m) {
        forall j | j in t && j != f
          ensures Precedes(t[f], t[j], m)
        {
          if j != k {
            assert j in rest;
          }
        }
        assert Leads(t, f, m);
      } else {
        assert Precedes(t[k], t[f], m);
        forall j | j in t && j != k
          ensures Precedes(t[k], t[j], m)
        {
          if j != f {
            assert j in rest && Precedes(rest[f], rest[j], m);
          }
        }
        assert Leads(t, k, m);
      }
    }
  }

  lemma LeaderUnique(t: Table, m: Metric)
    requires WellKeyed(t)
    ensures forall a, b :: Leads(t, a, m) && Leads(t, b, m) ==> a == b
  {
  }

  /** The id at the head of the leaderboard. */
  function Leader(t: Table, m: Metric): (id: int)
    requires WellKeyed(t) && |t| > 0
    ensures Leads(t, id, m)
  {
    LeaderExists(t, m);
    LeaderUnique(t, m);
    var id :| Leads(t, id, m);
    id
  }

  /** The whole table in leaderboard order (ORDER BY metric DESC, discord_id ASC). */
  function Ranking(t: Table, m: Metric): (r: seq<User>)
    requires WellKeyed(t)
    ensures OrderedListing(t, r, m)
    decreases |t|
  {
    if |t| == 0 then []
    else
      var id := Leader(t, m);
      var rest := t - {id};
      assert rest.Keys == t.Keys - {id};
      var tail := Ranking(rest, m);
      LeaderThenRest(t, m, id, tail);
      [t[id]] + tail
  }

  /** `r` lists every row of `t` once, in leaderboard order. */
  ghost predicate OrderedListing(t: Table, r: seq<User>, m: Metric)
  {
    |r| == |t| && ListsRowsOf(t, r) && ListsAllOf(t, r) && Sorted(r, m)
  }

  ghost predicate ListsRowsOf(t: Table, r: seq<User>)
  {
    forall i :: 0 <= i < |r| ==> r[i].discordId in t && t[r[i].discordId] == r[i]
  }

  ghost predicate ListsAllOf(t: Table, r: seq<User>)
  {
    forall id :: id in t ==> t[id] in r
  }

  ghost predicate Sorted(r: seq<User>, m: Metric)
  {
    forall i, j :: 0 <= i < j < |r| ==> Precedes(r[i], r[j], m)
  }

  lemma LeaderThenRest(t: Table, m: Metric, id: int, tail: seq<User>)
    requires WellKeyed(t) && Leads(t, id, m)
    requires OrderedListing(t - {id}, tail, m)
    ensures OrderedListing(t, [t[id]] + tail, m)
  {
    var rest := t - {id};
    assert rest.Keys == t.Keys - {id};
    assert |rest| + 1 == |t|;
    ConsRows(t, id, tail);
    ConsAll(t, id, tail);
    ConsSorted(t, m, id, tail);
  }

  lemma ConsRows(t: Table, id: int, tail: seq<User>)
    requires WellKeyed(t) && id in t && ListsRowsOf(t - {id}, tail)
    ensures ListsRowsOf(t, [t[id]] + tail)
  {
    var r := [t[id]] + tail;
    forall i | 0 <= i < |r|
      ensures r[i].discordId in t && t[r[i].discordId] == r[i]
    {
      if i > 0 {
        assert r[i] == tail[i - 1];
      }
    }
  }

  lemma ConsAll(t: Table, id: int, tail: seq<User>)
    requires id in t && ListsAllOf(t - {id}, tail)
    ensures ListsAllOf(t, [t[id]] + tail)
  {
    var r := [t[id]] + tail;
    forall k | k in t
      ensures t[k] in r
    {
      if k != id {
        assert k in t - {id};
        assert (t - {id})[k] in tail;
      } else {
        assert r[0] == t[k];
      }
    }
  }

  lemma ConsSorted(t: Table, m: Metric, id: int, tail: seq<User>)
    requires Leads(t, id, m) && ListsRowsOf(t - {id}, tail) && Sorted(tail, m)
    ensures Sorted([t[id]] + tail, m)
  {
    var r := [t[id]] + tail;
    forall i, j | 0 <= i < j < |r|
      ensures Precedes(r[i], r[j], m)
    {
      assert r[j] == tail[j - 1];
      if i > 0 {
        assert r[i] == tail[i - 1];
      } else {
        var k := tail[j - 1].discordId;
        assert k in t - {id};
        assert k in t && k != id && t[k] == tail[j - 1];
      }
    }
  }

  /** OFFSET offset LIMIT limit over an ordered result. */
  function Page(r: seq<User>, limit: nat, offset: nat): (p: seq<User>)
    ensures |p| == Min(limit, Max(0, |r| - offset))
    ensures forall i :: 0 <= i < |p| ==> p[i] == r[offset + i]
  {
    if offset >= |r| then [] else r[offset .. Min(offset + limit, |r|)]
  }

  /** The ids of rows whose metric is strictly greater than that of `id`. */
  function Above(t: Table, id: int, m: Metric): set<int>
    requires id in t
  {
    set k | k in t && Score(t[k], m) > Score(t[id], m)
  }

  lemma SubsetCard(a: set<int>, b: set<int>)
    requires a <= b
    ensures |a| <= |b|
  {
    assert b == a + (b - a);
  }

  lemma StrictSubsetCard(a: set<int>, b: set<int>, x: int)
    requires a <= b && x in b && x !in a
    ensures |a| < |b|
  {
    assert b == a + (b - a);
    assert x in b - a;
  }

  /** get_*_rank: 0 for an absent id, otherwise one more than the number of
      users with a strictly greater metric. */
  function RankOf(t: Table, id: int, m: Metric): (rank: nat)
    ensures id !in t ==> rank == 0
    ensures id in t ==> 1 <= rank <= |t|
  {
    if id !in t then 0
    else
      SubsetCard(Above(t, id, m), t.Keys - {id});
      |Above(t, id, m)| + 1
  }

  /** Ranks follow the metric in both directions: a strictly greater metric
      gives a strictly better (smaller) rank, and equal metrics share a rank. */
  lemma RankOrder(t: Table, a: int, b: int, m: Metric)
    requires a in t && b in t
    ensures RankOf(t, a, m) < RankOf(t, b, m) <==> Score(t[a], m) > Score(t[b], m)
    ensures RankOf(t, a, m) == RankOf(t, b, m) <==> Score(t[a], m) == Score(t[b], m)
  {
    var sa, sb := Score(t[a], m), Score(t[b], m);
    if sa > sb {
      StrictSubsetCard(Above(t, a, m), Above(t, b, m), a);
    } else if sa < sb {
      StrictSubsetCard(Above(t, b, m), Above(t, a, m), b);
    } else {
      assert Above(t, a, m) == Above(t, b, m);
    }
  }

  function IdsOf(s: seq<User>): set<int>
  {
    set i | 0 <= i < |s| :: s[i].discordId
  }

  lemma {:induction false} IdsOfCard(s: seq<User>)
    ensures |IdsOf(s)| <= |s|
  {
    if s != [] {
      var front := s[..|s| - 1];
      IdsOfCard(front);
      assert IdsOf(s) == IdsOf(front) + {s[|s| - 1].discordId};
    }
  }

  /** Every user with a strictly greater metric than the user at position i
      sits before position i. */
  lemma AboveWithinPrefix(t: Table, m: Metric, i: nat)
    requires WellKeyed(t) && i < |t|
    ensures Above(t, Ranking(t, m)[i].discordId, m) <= IdsOf(Ranking(t, m)[..i])
  {
    var r := Ranking(t, m);
    forall k | k in Above(t, r[i].discordId, m)
      ensures k in IdsOf(r[..i])
    {
      var j :| 0 <= j < |r| && r[j] == t[k];
      assert j < i;
      assert r[..i][j] == t[k];
    }
  }

  /** Where the metric drops strictly just above position i, every user
      before position i has a strictly greater metric. */
  lemma PrefixWithinAbove(t: Table, m: Metric, i: nat)
    requires WellKeyed(t) && i < |t|
    requires i > 0 ==> Score(Ranking(t, m)[i - 1], m) > Score(Ranking(t, m)[i], m)
    ensures IdsOf(Ranking(t, m)[..i]) <= Above(t, Ranking(t, m)[i].discordId, m)
  {
    var r := Ranking(t, m);
    forall k | k in IdsOf(r[..i])
      ensures k in Above(t, r[i].discordId, m)
    {
      var j :| 0 <= j < i && r[..i][j].discordId == k;
      assert r[j].discordId == k;
      if j < i - 1 {
        assert Precedes(r[j], r[i - 1], m);
      }
    }
  }

  /** The leaderboard never lists an id twice. */
  lemma RankingIdsDistinct(t: Table, m: Metric, i: nat)
    requires WellKeyed(t) && i <= |t|
    ensures forall a, b :: 0 <= a < b < |Ranking(t, m)[..i]| ==>
      Ranking(t, m)[..i][a].discordId != Ranking(t, m)[..i][b].discordId
  {
    var r := Ranking(t, m);
    forall a, b | 0 <= a < b < |r[..i]|
      ensures r[..i][a].discordId != r[..i][b].discordId
    {
      assert Precedes(r[a], r[b], m);
    }
  }

  /** The user at 0-based position i of the leaderboard has rank at most
      i + 1 (less when it ties with the users just above it), and the top
      entry always has rank 1. */
  lemma RankAtMostPosition(t: Table, m: Metric, i: nat)
    requires WellKeyed(t) && i < |t|
    ensures RankOf(t, Ranking(t, m)[i].discordId, m) <= i + 1
    ensures i == 0 ==> RankOf(t, Ranking(t, m)[i].discordId, m) == 1
  {
    var r := Ranking(t, m);
    AboveWithinPrefix(t, m, i);
    SubsetCard(Above(t, r[i].discordId, m), IdsOf(r[..i]));
    IdsOfCard(r[..i]);
  }

  lemma {:induction false} IdsOfDistinct(s: seq<User>)
    requires forall a, b :: 0 <= a < b < |s| ==> s[a].discordId != s[b].discordId
    ensures |IdsOf(s)| == |s|
  {
    if s != [] {
      var front := s[..|s| - 1];
      IdsOfDistinct(front);
      assert IdsOf(s) == IdsOf(front) + {s[|s| - 1].discordId};
      assert s[|s| - 1].discordId !in IdsOf(front);
    }
  }

  /** Where the metric drops strictly just above position i (or i is the top),
      the user at 0-based position i has rank exactly i + 1. */
  lemma RankIsPositionAfterDrop(t: Table, m: Metric, i: nat)
    requires WellKeyed(t) && i < |t|
    requires i > 0 ==> Score(Ranking(t, m)[i - 1], m) > Score(Ranking(t, m)[i], m)
    ensures RankOf(t, Ranking(t, m)[i].discordId, m) == i + 1
  {
    var r := Ranking(t, m);
    AboveWithinPrefix(t, m, i);
    PrefixWithinAbove(t, m, i);
    assert Above(t, r[i].discordId, m) == IdsOf(r[..i]);
    RankingIdsDistinct(t, m, i);
    IdsOfDistinct(r[..i]);
  }
}
