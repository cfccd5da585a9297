/**
 * The ledger of src/DB.py: one table of users keyed by Discord id, held in
 * memory. Every mutating operation is one read-modify-write on one row.
 */
module Ledger {
  import opened Wrappers
  import opened UserRecords
  import opened Standings

  /** The ValueError leaderboard raises for an unknown sort key. */
  datatype LedgerError = UnknownMetric(key: string)

  class Database {
    var users: Table
    /** Every update_balance call, in order, as (id, amount). */
    ghost var updates: seq<(int, int)>

    ghost predicate Valid()
      reads this
    {
      Consistent(users)
    }

    constructor ()
      ensures Valid() && users == map[] && updates == []
    {
      users := map[];
      updates := [];
    }

    /** add_user: insert a default row if the id is new; return the stored row. */
    method AddUser(id: int) returns (u: User)
      requires Valid()
      modifies this
      ensures Valid() && updates == old(updates)
      ensures users == Joined(old(users), id)
      ensures u == users[id] && u.discordId == id
      ensures id in old(users) ==> u == old(users)[id]
    {
      if id !in users {
        users := users[id := NewUser(id)];
      }
      u := users[id];
    }

    /** get_user: the stored row, or nothing for an unknown id. */
    function GetUser(id: int): (u: Option<User>)
      reads this
      requires Valid()
      ensures u.Some? <==> id in users
      ensures u.Some? ==> u.value == users[id] && u.value.discordId == id
    {
      if id in users then Some(users[id]) else None
    }

    /** update_balance: add `amount` to the row's balance (no floor); a silent
        no-op for an unknown id. */
    method UpdateBalance(id: int, amount: int)
      requires Valid()
      modifies this
      ensures Valid()
      ensures users == AddBalance(old(users), id, amount)
      ensures updates == old(updates) + [(id, amount)]
    {
      if id in users {
        var user := users[id];
        users := users[id := user.(balance := user.balance + amount)];
      }
      updates := updates + [(id, amount)];
    }

    /** set_balance: overwrite the row's balance; a no-op for an unknown id. */
    method SetBalance(id: int, amount: int)
      requires Valid()
      modifies this
      ensures Valid() && updates == old(updates)
      ensures users == SetBalanceTo(old(users), id, amount)
    {
      if id in users {
        users := users[id := users[id].(balance := amount)];
      }
    }

    /** update_experience: add `exp` and raise the level when the new
        experience earns a higher one. `ok` is false when the new experience
        would be negative: the source's square root then fails and nothing is
        committed. */
    method UpdateExperience(id: int, exp: int) returns (ok: bool)
      requires Valid()
      modifies this
      ensures Valid() && updates == old(updates)
      ensures users == AddExperience(old(users), id, exp)
      ensures ok <==> !(id in old(users) && old(users)[id].experience + exp < 0)
    {
      ok := true;
      if id in users {
        var user := users[id];
        var experience := user.experience + exp;
        if experience < 0 {
          ok := false;
          return;
        }
        var newLevel := LevelFor(experience);
        var level := user.level;
        if newLevel > level {
          level := newLevel;
        }
        users := users[id := user.(experience := experience, level := level)];
      }
    }

    /** set_experience: overwrite experience; the level is not recomputed. */
    method SetExperience(id: int, exp: int)
      requires Valid()
      modifies this
      ensures Valid() && updates == old(updates)
      ensures users == SetExperienceTo(old(users), id, exp)
    {
      if id in users {
        users := users[id := users[id].(experience := exp)];
      }
    }

    /** top_balance: rows offset .. offset + limit of the table ordered by
        balance descending, then id ascending. */
    function TopBalance(limit: nat, offset: nat): (page: seq<User>)
      reads this
      requires Valid()
      ensures |page| == Min(limit, Max(0, |users| - offset))
      ensures forall i :: 0 <= i < |page| ==> page[i] == Ranking(users, ByBalance)[offset + i]
      ensures forall i :: 0 <= i < |page| ==> page[i].discordId in users && users[page[i].discordId] == page[i]
      ensures forall i, j :: 0 <= i < j < |page| ==>
        (page[i].balance > page[j].balance || (page[i].balance == page[j].balance && page[i].discordId < page[j].discordId))
    {
      Page(Ranking(users, ByBalance), limit, offset)
    }

    /** top_experience: rows offset .. offset + limit of the table ordered by
        experience descending, then id ascending. */
    function TopExperience(limit: nat, offset: nat): (page: seq<User>)
      reads this
      requires Valid()
      ensures |page| == Min(limit, Max(0, |users| - offset))
      ensures forall i :: 0 <= i < |page| ==> page[i] == Ranking(users, ByExperience)[offset + i]
      ensures forall i :: 0 <= i < |page| ==> page[i].discordId in users && users[page[i].discordId] == page[i]
      ensures forall i, j :: 0 <= i < j < |page| ==>
        (page[i].experience > page[j].experience || (page[i].experience == page[j].experience && page[i].discordId < page[j].discordId))
    {
      Page(Ranking(users, ByExperience), limit, offset)
    }

    /** get_balance_rank: 0 for an unknown id, otherwise 1 + the number of
        users with a strictly greater balance. */
    function GetBalanceRank(id: int): (rank: nat)
      reads this
      requires Valid()
      ensures id !in users ==> rank == 0
      ensures id in users ==> 1 <= rank <= |users|
      ensures id in users ==> rank == 1 + |set k | k in users && users[k].balance > users[id].balance|
    {
      assert id in users ==> Above(users, id, ByBalance) == set k | k in users && users[k].balance > users[id].balance by {
        if id in users {
          forall k ensures k in Above(users, id, ByBalance) <==> k in users && users[k].balance > users[id].balance {
          }
        }
      }
      RankOf(users, id, ByBalance)
    }

    /** get_experience_rank: 0 for an unknown id, otherwise 1 + the number of
        users with strictly more experience. */
    function GetExperienceRank(id: int): (rank: nat)
      reads this
      requires Valid()
      ensures id !in users ==> rank == 0
      ensures id in users ==> 1 <= rank <= |users|
      ensures id in users ==> rank == 1 + |set k | k in users && users[k].experience > users[id].experience|
    {
      assert id in users ==> Above(users, id, ByExperience) == set k | k in users && users[k].experience > users[id].experience by {
        if id in users {
          forall k ensures k in Above(users, id, ByExperience) <==> k in users && users[k].experience > users[id].experience {
          }
        }
      }
      RankOf(users, id, ByExperience)
    }

    /** leaderboard: "balance" and "experience" select the matching query;
        any other key is rejected before any query runs. */
    function Leaderboard(key: string, limit: nat, offset: nat): (r: Result<seq<User>, LedgerError>)
      reads this
      requires Valid()
      ensures r.Success? <==> key == "balance" || key == "experience"
      ensures key == "balance" ==> r == Success(TopBalance(limit, offset))
      ensures key == "experience" ==> r == Success(TopExperience(limit, offset))
      ensures r.Failure? ==> r.error == UnknownMetric(key)
    {
      if key == "balance" then Success(TopBalance(limit, offset))
      else if key == "experience" then Success(TopExperience(limit, offset))
      else Failure(UnknownMetric(key))
    }
  }
}
