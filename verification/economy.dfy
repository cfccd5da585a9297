/**
 * The reward and leaderboard commands of cogs/EconomyCog.py: daily and
 * weekly claims gated by per-user cooldown dictionaries kept in memory, and
 * the numbering of leaderboard pages.
 */
module Economy {
  import opened Wrappers
  import opened UserRecords
  import opened Standings
  import Ledger

  /** Cooldown windows in seconds. */
  const DAY := 24 * 3600
  const WEEK := 7 * 24 * 3600

  /** Rewards of the two claims. */
  const DAILY_COINS := 1000
  const DAILY_XP := 10
  const WEEKLY_COINS := 50000
  const WEEKLY_XP := 50

  /** Whether a claim may go ahead, and if not how many seconds are left. */
  datatype Cooldown = Eligible | Wait(remaining: int)

  /** The last claim time of a user, as `dict.get` returns it. */
  function LastClaim(cooldowns: map<int, int>, id: int): (last: Option<int>)
    ensures last.Some? <==> id in cooldowns
    ensures last.Some? ==> last.value == cooldowns[id]
  {
    if id in cooldowns then Some(cooldowns[id]) else None
  }

  /** A user with no recorded claim is eligible; otherwise a claim is
      rejected while fewer than `period` seconds have passed since the last
      one, with the rest of the window as the remaining time. */
  function CheckCooldown(last: Option<int>, now: int, period: int): (c: Cooldown)
    requires period > 0
    ensures c.Eligible? <==> last.None? || now - last.value >= period
    ensures c.Wait? ==> 0 < c.remaining && now - last.value + c.remaining == period
  {
    match last
    case None => Eligible
    case Some(t) => if now - t < period then Wait(period - (now - t)) else Eligible
  }

  /** Once the window has passed it stays passed: eligibility is monotone in
      the clock, and right after a claim the whole window remains. */
  lemma CooldownWindow(last: int, now: int, later: int, period: int)
    requires period > 0 && now <= later
    ensures CheckCooldown(Some(last), now, period).Eligible? ==> CheckCooldown(Some(last), later, period).Eligible?
    ensures CheckCooldown(Some(last), last, period) == Wait(period)
    ensures CheckCooldown(Some(last), last + period, period).Eligible?
  {
  }

  /** The daily message's split of the remaining seconds into hours and
      minutes; the hours stay under 24 whenever some time has passed. */
  function DailyWait(remaining: int): (hm: (int, int))
    requires remaining > 0
    ensures hm.0 >= 0 && 0 <= hm.1 < 60
    ensures hm.0 * 3600 + hm.1 * 60 <= remaining < hm.0 * 3600 + hm.1 * 60 + 60
    ensures remaining < DAY ==> hm.0 < 24
  {
    (remaining / 3600, (remaining % 3600) / 60)
  }

  /** The weekly message's split of the remaining seconds into days and
      hours; the days stay under 7 whenever some time has passed. */
  function WeeklyWait(remaining: int): (dh: (int, int))
    requires remaining > 0
    ensures dh.0 >= 0 && 0 <= dh.1 < 24
    ensures dh.0 * DAY + dh.1 * 3600 <= remaining < dh.0 * DAY + dh.1 * 3600 + 3600
    ensures remaining < WEEK ==> dh.0 < 7
  {
    (remaining / DAY, (remaining % DAY) / 3600)
  }

  /** A rejected claim made strictly after the last one reports fewer than
      24 hours (daily) or 7 days (weekly). */
  lemma RejectionMessageBounds(last: int, now: int)
    requires last < now
    ensures CheckCooldown(Some(last), now, DAY).Wait? ==>
      DailyWait(CheckCooldown(Some(last), now, DAY).remaining).0 < 24
    ensures CheckCooldown(Some(last), now, WEEK).Wait? ==>
      WeeklyWait(CheckCooldown(Some(last), now, WEEK).remaining).0 < 7
  {
  }

  /** What a claim command reports: the wait split for the message, or a
      granted reward (whether the experience part could be applied). */
  datatype ClaimResult = TooSoon(major: int, minor: int) | Claimed(experienceApplied: bool)

  /** One leaderboard line: the shown number and the user. */
  datatype Entry = Entry(position: int, user: User)

  /** The numbering loop of baltop and xptop: entry i of a page is shown as
      number i + 1 + offset. */
  method NumberEntries(page: seq<User>, offset: int) returns (entries: seq<Entry>)
    ensures |entries| == |page|
    ensures forall i :: 0 <= i < |page| ==> entries[i].user == page[i] && entries[i].position == i + 1 + offset
  {
    entries := [];
    for i := 0 to |page|
      invariant |entries| == i
      invariant forall j :: 0 <= j < i ==> entries[j] == Entry(j + 1 + offset, page[j])
    {
      entries := entries + [Entry(i + 1 + offset, page[i])];
    }
  }

  /** The number shown for a leaderboard row is its 1-based position in the
      whole ordering; the ledger's rank of that user never exceeds it, and
      equals it where the metric drops strictly just above the row. */
  lemma ShownNumberIsPosition(t: Table, m: Metric, limit: nat, offset: nat, i: nat)
    requires WellKeyed(t) && i < |Page(Ranking(t, m), limit, offset)|
    ensures Page(Ranking(t, m), limit, offset)[i] == Ranking(t, m)[i + offset]
    ensures RankOf(t, Page(Ranking(t, m), limit, offset)[i].discordId, m) <= i + 1 + offset
    ensures i + offset > 0 && Score(Ranking(t, m)[i + offset - 1], m) > Score(Ranking(t, m)[i + offset], m) ==>
      RankOf(t, Page(Ranking(t, m), limit, offset)[i].discordId, m) == i + 1 + offset
  {
    RankAtMostPosition(t, m, i + offset);
    if i + offset > 0 && Score(Ranking(t, m)[i + offset - 1], m) > Score(Ranking(t, m)[i + offset], m) {
      RankIsPositionAfterDrop(t, m, i + offset);
    }
  }

  class EconomyCog {
    /** The cog's ledger; the auto-registration decorator opens the same store. */
    const db: Ledger.Database
    /** Last claim time in seconds, per user id, for each reward. */
    var dailyCooldowns: map<int, int>
    var weeklyCooldowns: map<int, int>

    /** A new cog starts with empty cooldowns: every user is eligible. */
    constructor (db: Ledger.Database)
      ensures this.db == db && dailyCooldowns == map[] && weeklyCooldowns == map[]
    {
      this.db := db;
      dailyCooldowns := map[];
      weeklyCooldowns := map[];
    }

    /** The balance command: register the caller, then read back the
        caller's row, which is now always present. */
    method Balance(userId: int) returns (u: User)
      requires db.Valid()
      modifies db
      ensures db.Valid()
      ensures db.users == Joined(old(db.users), userId) && db.updates == old(db.updates)
      ensures userId in db.users && u == db.users[userId]
      ensures userId in old(db.users) ==> u == old(db.users)[userId]
      ensures userId !in old(db.users) ==> u == NewUser(userId)
    {
      var _ := db.AddUser(userId);
      var row := db.GetUser(userId);
      u := row.value;
    }

    /** The daily command: register the caller, then either report the wait
        and change nothing more, or record `now` as the caller's last daily
        claim and add 1000 coins and 10 experience. */
    method Daily(userId: int, now: int) returns (r: ClaimResult)
      requires db.Valid()
      modifies this`dailyCooldowns, db
      ensures db.Valid()
      ensures CheckCooldown(LastClaim(old(dailyCooldowns), userId), now, DAY).Wait? ==>
        var rem := CheckCooldown(LastClaim(old(dailyCooldowns), userId), now, DAY).remaining;
        && r == TooSoon(DailyWait(rem).0, DailyWait(rem).1)
        && dailyCooldowns == old(dailyCooldowns)
        && db.users == Joined(old(db.users), userId) && db.updates == old(db.updates)
      ensures CheckCooldown(LastClaim(old(dailyCooldowns), userId), now, DAY).Eligible? ==>
        var joined := Joined(old(db.users), userId);
        && r.Claimed?
        && dailyCooldowns == old(dailyCooldowns)[userId := now]
        && db.users == AddExperience(AddBalance(joined, userId, DAILY_COINS), userId, DAILY_XP)
        && db.updates == old(db.updates) + [(userId, DAILY_COINS)]
        && (r.experienceApplied <==> joined[userId].experience + DAILY_XP >= 0)
    {
      var _ := db.AddUser(userId);
      var check := CheckCooldown(LastClaim(dailyCooldowns, userId), now, DAY);
      if check.Wait? {
        var (hours, minutes) := DailyWait(check.remaining);
        return TooSoon(hours, minutes);
      }
      dailyCooldowns := dailyCooldowns[userId := now];
      db.UpdateBalance(userId, DAILY_COINS);
      var ok := db.UpdateExperience(userId, DAILY_XP);
      r := Claimed(ok);
    }

    /** The weekly command: as the daily one with a 7-day window, 50000 coins
        and 50 experience, and its own dictionary. */
    method Weekly(userId: int, now: int) returns (r: ClaimResult)
      requires db.Valid()
      modifies this`weeklyCooldowns, db
      ensures db.Valid()
      ensures CheckCooldown(LastClaim(old(weeklyCooldowns), userId), now, WEEK).Wait? ==>
        var rem := CheckCooldown(LastClaim(old(weeklyCooldowns), userId), now, WEEK).remaining;
        && r == TooSoon(WeeklyWait(rem).0, WeeklyWait(rem).1)
        && weeklyCooldowns == old(weeklyCooldowns)
        && db.users == Joined(old(db.users), userId) && db.updates == old(db.updates)
      ensures CheckCooldown(LastClaim(old(weeklyCooldowns), userId), now, WEEK).Eligible? ==>
        var joined := Joined(old(db.users), userId);
        && r.Claimed?
        && weeklyCooldowns == old(weeklyCooldowns)[userId := now]
        && db.users == AddExperience(AddBalance(joined, userId, WEEKLY_COINS), userId, WEEKLY_XP)
        && db.updates == old(db.updates) + [(userId, WEEKLY_COINS)]
        && (r.experienceApplied <==> joined[userId].experience + WEEKLY_XP >= 0)
    {
      var _ := db.AddUser(userId);
      var check := CheckCooldown(LastClaim(weeklyCooldowns, userId), now, WEEK);
      if check.Wait? {
        var (days, hours) := WeeklyWait(check.remaining);
        return TooSoon(days, hours);
      }
      weeklyCooldowns := weeklyCooldowns[userId := now];
      db.UpdateBalance(userId, WEEKLY_COINS);
      var ok := db.UpdateExperience(userId, WEEKLY_XP);
      r := Claimed(ok);
    }

    /** The baltop command: register the caller, then number one page of the
        balance leaderboard. */
    method BalTop(userId: int, limit: nat, offset: nat) returns (entries: seq<Entry>)
      requires db.Valid()
      modifies db
      ensures db.Valid()
      ensures db.users == Joined(old(db.users), userId) && db.updates == old(db.updates)
      ensures |entries| == Min(limit, Max(0, |db.users| - offset))
      ensures forall i :: 0 <= i < |entries| ==>
        entries[i] == Entry(i + 1 + offset, Ranking(db.users, ByBalance)[offset + i])
    {
      var _ := db.AddUser(userId);
      var page := db.TopBalance(limit, offset);
      entries := NumberEntries(page, offset);
      forall i | 0 <= i < |entries|
        ensures entries[i] == Entry(i + 1 + offset, Ranking(db.users, ByBalance)[offset + i])
      {
        assert entries[i].user == page[i];
      }
    }

    /** The xptop command: as baltop over the experience leaderboard. */
    method XpTop(userId: int, limit: nat, offset: nat) returns (entries: seq<Entry>)
      requires db.Valid()
      modifies db
      ensures db.Valid()
      ensures db.users == Joined(old(db.users), userId) && db.updates == old(db.updates)
      ensures |entries| == Min(limit, Max(0, |db.users| - offset))
      ensures forall i :: 0 <= i < |entries| ==>
        entries[i] == Entry(i + 1 + offset, Ranking(db.users, ByExperience)[offset + i])
    {
      var _ := db.AddUser(userId);
      var page := db.TopExperience(limit, offset);
      entries := NumberEntries(page, offset);
      forall i | 0 <= i < |entries|
        ensures entries[i] == Entry(i + 1 + offset, Ranking(db.users, ByExperience)[offset + i])
      {
        assert entries[i].user == page[i];
      }
    }
  }
}
