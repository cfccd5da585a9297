/**
 * The per-user economy record of src/DB.py and the read-modify-write updates
 * the ledger applies to its table, stated as functions on the table.
 */
module UserRecords {

  /** One row of the `users` table. */
  datatype User = User(discordId: int, balance: int, experience: int, level: int)

  /** The table, keyed by Discord id. */
  type Table = map<int, User>

  /** Every row is stored under its own id. */
  predicate WellKeyed(t: Table)
  {
    forall id :: id in t ==> t[id].discordId == id
  }

  /** The ledger's invariant: rows are keyed by their id and every level is at least 1. */
  ghost predicate Consistent(t: Table)
  {
    WellKeyed(t) && forall id :: id in t ==> t[id].level >= 1
  }

  function Max(a: int, b: int): int
  {
    if a < b then b else a
  }

  function Min(a: int, b: int): int
  {
    if a < b then a else b
  }

  /** A new row takes the column defaults: balance 0, experience 0, level 1. */
  function NewUser(id: int): (u: User)
    ensures u.discordId == id && u.balance == 0 && u.experience == 0 && u.level == 1
  {
    User(id, 0, 0, 1)
  }

  /** add_user: the table after inserting `id` if it is missing. */
  function Joined(t: Table, id: int): (r: Table)
    ensures r.Keys == t.Keys + {id}
    ensures forall k :: k in t ==> r[k] == t[k]
    ensures id !in t ==> r[id] == NewUser(id)
  {
    if id in t then t else t[id := NewUser(id)]
  }

  /** Inserting twice is inserting once, and an existing row is never reset. */
  lemma JoinedIdempotent(t: Table, id: int)
    ensures Joined(Joined(t, id), id) == Joined(t, id)
    ensures id in t ==> Joined(t, id) == t
  {
  }

  lemma JoinedKeepsConsistent(t: Table, id: int)
    requires Consistent(t)
    ensures Consistent(Joined(t, id))
  {
  }

  /** update_balance: the row's balance moves by `amount`, with no floor; an
      absent id leaves the table as it was. */
  function AddBalance(t: Table, id: int, amount: int): (r: Table)
    ensures r.Keys == t.Keys
    ensures forall k :: k in t && k != id ==> r[k] == t[k]
    ensures id in t ==> r[id].balance == t[id].balance + amount
    ensures id in t ==> r[id].discordId == t[id].discordId && r[id].experience == t[id].experience && r[id].level == t[id].level
  {
    if id in t then t[id := t[id].(balance := t[id].balance + amount)] else t
  }

  /** set_balance: the row's balance becomes exactly `amount`; nothing else changes. */
  function SetBalanceTo(t: Table, id: int, amount: int): (r: Table)
    ensures r.Keys == t.Keys
    ensures forall k :: k in t && k != id ==> r[k] == t[k]
    ensures id in t ==> r[id].balance == amount
    ensures id in t ==> r[id].discordId == t[id].discordId && r[id].experience == t[id].experience && r[id].level == t[id].level
  {
    if id in t then t[id := t[id].(balance := amount)] else t
  }

  /** Two balance updates add up: posting `a` and then `b` equals posting `a + b`. */
  lemma AddBalanceComposes(t: Table, id: int, a: int, b: int)
    ensures AddBalance(AddBalance(t, id, a), id, b) == AddBalance(t, id, a + b)
  {
  }

  /** The table after `n` separate updates of +1 to one user. */
  function Increments(t: Table, id: int, n: nat): Table
  {
    if n == 0 then t else AddBalance(Increments(t, id, n - 1), id, 1)
  }

  /** N increments of +1 applied one after another leave the balance at the
      initial balance plus N: no update is lost. */
  lemma {:induction false} IncrementsAddUp(t: Table, id: int, n: nat)
    ensures Increments(t, id, n) == AddBalance(t, id, n)
  {
    if n > 0 {
      IncrementsAddUp(t, id, n - 1);
      AddBalanceComposes(t, id, n - 1, 1);
    }
  }

  /** The integer square root. */
  function ISqrt(n: nat): (r: nat)
    ensures r * r <= n < (r + 1) * (r + 1)
  {
    if n == 0 then 0
    else if n < 4 then 1
    else
      var h := ISqrt(n / 4);
      ISqrtStep(n, h);
      if (2 * h + 1) * (2 * h + 1) <= n then 2 * h + 1 else 2 * h
  }

  /** Doubling the root of n / 4 lands within one of the root of n. */
  lemma ISqrtStep(n: nat, h: nat)
    requires h * h <= n / 4 < (h + 1) * (h + 1)
    ensures (2 * h) * (2 * h) <= n < (2 * h + 2) * (2 * h + 2)
  {
    var q := n / 4;
    var lo, hi := h * h, (h + 1) * (h + 1);
    assert (2 * h) * (2 * h) == 4 * lo;
    assert (2 * h + 2) * (2 * h + 2) == 4 * hi;
    assert 4 * q <= n < 4 * q + 4;
  }

  lemma SquareMonotone(x: nat, y: nat)
    requires x <= y
    ensures x * x <= y * y
  {
    var d := y - x;
    assert y * y == x * x + 2 * (x * d) + d * d;
    assert x * d >= 0 && d * d >= 0;
  }

  lemma ISqrtMonotone(a: nat, b: nat)
    requires a <= b
    ensures ISqrt(a) <= ISqrt(b)
  {
    var ra, rb := ISqrt(a), ISqrt(b);
    if ra > rb {
      SquareMonotone(rb + 1, ra);
    }
  }

  /** The level a given experience earns: int((experience // 100) ** 0.5) + 1. */
  function LevelFor(experience: nat): (level: nat)
    ensures level >= 1
    ensures (level - 1) * (level - 1) * 100 <= experience
    ensures experience < level * level * 100
  {
    var q := experience / 100;
    var r := ISqrt(q);
    assert r * r * 100 <= q * 100 <= experience;
    assert experience < (q + 1) * 100 <= (r + 1) * (r + 1) * 100;
    r + 1
  }

  /** More experience never earns a lower level. */
  lemma LevelForMonotone(a: nat, b: nat)
    requires a <= b
    ensures LevelFor(a) <= LevelFor(b)
  {
    ISqrtMonotone(a / 100, b / 100);
  }

  /** update_experience: experience moves by `exp` and the level is raised to
      the level the new experience earns, never lowered. A result below zero
      makes the source's square root complex and the update fails, so the
      table stays as it was; an absent id is a no-op. */
  function AddExperience(t: Table, id: int, exp: int): (r: Table)
    ensures r.Keys == t.Keys
    ensures forall k :: k in t && k != id ==> r[k] == t[k]
    ensures id in t && t[id].experience + exp >= 0 ==>
      && r[id].experience == t[id].experience + exp
      && r[id].level == Max(t[id].level, LevelFor(t[id].experience + exp))
      && r[id].balance == t[id].balance && r[id].discordId == t[id].discordId
    ensures id in t && t[id].experience + exp < 0 ==> r == t
    ensures id in t ==> r[id].level >= t[id].level
  {
    if id in t && t[id].experience + exp >= 0 then
      var e := t[id].experience + exp;
      var lv := LevelFor(e);
      t[id := t[id].(experience := e, level := if lv > t[id].level then lv else t[id].level)]
    else t
  }

  /** set_experience: experience is overwritten and the level is left alone. */
  function SetExperienceTo(t: Table, id: int, exp: int): (r: Table)
    ensures r.Keys == t.Keys
    ensures forall k :: k in t && k != id ==> r[k] == t[k]
    ensures id in t ==> r[id].experience == exp
    ensures id in t ==> r[id].discordId == t[id].discordId && r[id].balance == t[id].balance && r[id].level == t[id].level
  {
    if id in t then t[id := t[id].(experience := exp)] else t
  }

  /** A row whose level matches its experience keeps matching after any
      non-negative experience gain, so from a fresh row the level is always
      the formula's value of the experience. */
  lemma LevelTracksExperience(t: Table, id: int, exp: int)
    requires id in t && t[id].experience >= 0 && exp >= 0
    requires t[id].level == LevelFor(t[id].experience)
    ensures AddExperience(t, id, exp)[id].level == LevelFor(t[id].experience + exp)
  {
    LevelForMonotone(t[id].experience, t[id].experience + exp);
  }

  /** A new user gaining 250 experience reaches level 2: floor(sqrt(2)) + 1. */
  lemma LevelExample(t: Table, id: int)
    requires id in t && t[id] == NewUser(id)
    ensures AddExperience(t, id, 250)[id].level == 2
  {
    assert ISqrt(2) == 1;
  }

  lemma UpdatesKeepConsistent(t: Table, id: int, amount: int)
    requires Consistent(t)
    ensures Consistent(AddBalance(t, id, amount))
    ensures Consistent(SetBalanceTo(t, id, amount))
    ensures Consistent(AddExperience(t, id, amount))
    ensures Consistent(SetExperienceTo(t, id, amount))
  {
  }
}
