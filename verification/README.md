# CantinaCasino blackjack engine and economy ledger, in Dafny

This project models the core of the CantinaCasino chat-casino bot:

- **the per-user economy ledger** (`src/DB.py`): a table of users, each with a balance, an experience total and a level. It offers increments and overwrites, the level formula, leaderboard pages and 1-based ranks;
- **the blackjack round** (`cogs/BlackJack.py` and its copies): the card table, the soft-ace hand value, a view object that owns the player's and the dealer's hands, a `finished` flag and four buttons, the dealer's draw-to-17 loop and the payout it posts to the ledger;
- **the economy commands** (`cogs/EconomyCog.py`): the balance lookup, which registers the caller, daily and weekly claims gated by in-memory cooldown dictionaries, and the numbering of leaderboard pages.

Modules, one file each:

| file | module | models |
|---|---|---|
| `wrappers.dfy` | `Wrappers` | `Option` and `Result` |
| `cards.dfy` | `Cards` | ranks, suits, `VALUES`, `draw_card`, `hand_value`, `format_hand` |
| `user_records.dfy` | `UserRecords` | the `User` row and every ledger update, as functions on the table |
| `standings.dfy` | `Standings` | leaderboard order, `OFFSET/LIMIT` pages, strictly-greater ranks |
| `ledger.dfy` | `Ledger` | class `Database` over a `map<int, User>`, one method per `src/DB.py` operation |
| `blackjack.dfy` | `Blackjack` | class `BlackjackView` (hands, `finished`, a `disabled` array of four button flags) and `BlackjackCog` |
| `economy.dfy` | `Economy` | class `EconomyCog` with the two cooldown maps, the balance lookup, the claim commands and page numbering |
| `copies_as_written.dfy` | `CopiesAsWritten` | the duplicated code as written: the static `Utils` class of `games/blackjack/utils.py` and the lookups that fail in the two view copies |

The main modelling choices:

- **Hand value.** `hand_value` is specified in closed form. The loop subtracts 10 once per ace, while the total is over 21 and aces remain. `Cards.Demotions` characterises how many aces it demotes, and the loop method `Cards.ComputeHandValue` is proved against it.
- **Ace, ace, nine.** The code scores this hand 21: 31 is over 21, so one ace is demoted. It does not score it 11.
- **Cards are drawn nondeterministically** from the `RANKS × SUITS` domain.
- **The ledger's `updates` history.** The ledger keeps a ghost list of every `update_balance` call. This lets the view's contracts say a payout is posted exactly once.
- **Levels.** `update_experience` computes the level as `int((experience // 100) ** 0.5) + 1`. The model uses an exact integer square root (`UserRecords.ISqrt`). The level never goes down. When the new experience is negative, Python raises a `TypeError` on a complex number, and the session closes without a commit. The model represents that as "no change" plus an error flag.
- **Time.** The economy cog takes the current time and the user id as parameters. Time is a whole number of seconds.

How the copies of the view differ from `cogs/BlackJack.py`:

- **`cogs/games/blackjack/utils.py`** finds the Play Again button by its label. `Blackjack.BlackjackView.ResetGameByLabel` and `EndGameByLabel` model these loops and reach the same flags. This file calls `Utils.*`, which it never imports.
- **`games/blackjack/views/blackjack_view.py`** deals inside its constructor. It also calls a `reset_game` it does not define. Its annotations name `Database`, and its bodies name `draw_card`, `hand_value` and `format_hand`, but it does not import any of them. The model follows the canonical behaviour for all of its operations except `play_again`.

Two more notes:

- The blackjack cog opens `Database()`, whose default file is `cantina.db`. The economy cog opens its own `Database` with a different path. In the model each cog holds its own `Ledger.Database`.
- The `autoregister` decorator is applied to five economy commands, and each application builds its own `Database` object from the same path as the economy cog's own when the class is defined. It is modelled as an `AddUser` call on the cog's ledger at the start of each command.

## Model

| member | source | states |
|---|---|---|
| Cards.Value | cogs/BlackJack.py:10-13 | every rank is worth 2 to 11, and exactly the ace is worth 11; the copy at games/blackjack/utils.py:5-8 behaves the same |
| Cards.DeckListsEachCardOnce | cogs/BlackJack.py:8-9 | the 13 ranks and 4 suits are each listed once, and every card's rank and suit are in the lists |
| Cards.DrawCard | cogs/BlackJack.py:16-17 | a drawn card has a rank from RANKS and a suit from SUITS; the copy at games/blackjack/utils.py:10-12 behaves the same |
| Cards.Demotions | cogs/BlackJack.py:23-25 | the loop demotes at most as many aces as the hand holds; each demotion happens only while the total is over 21; it stops at 21 or less, or when the aces run out; the copy at games/blackjack/utils.py:18-20 behaves the same |
| Cards.ComputeHandValue | cogs/BlackJack.py:20-26 | the ace-demotion loop returns exactly the closed-form hand value |
| Cards.RawSum | cogs/BlackJack.py:21 | the face-value sum of a hand (aces as 11) lies between 2 and 11 per card |
| Cards.AceCount | cogs/BlackJack.py:22 | the number of aces never exceeds the number of cards |
| Cards.HardValue | cogs/BlackJack.py:10-13 | a card counted with the ace as 1 is worth 1 to 10, and exactly the ace loses 10 against its table value |
| Cards.HardTotal | cogs/BlackJack.py:21-25 | the all-aces-as-1 total, the least the loop can reach, lies between 1 and 10 per card |
| Cards.HardTotalIsRawLessAces | cogs/BlackJack.py:21-25 | the hard total is the raw sum less 10 for every ace, so demoting every ace reaches it |
| Cards.HandValue | cogs/BlackJack.py:20-26 | the value lies between the hard total and the raw sum, and is over 21 only when every ace already counts 1 |
| Cards.RawSumAppend | cogs/BlackJack.py:21-22 | the raw sum and the ace count of a hand with one more card grow by that card's value and ace-ness |
| Cards.HardTotalGrows | cogs/BlackJack.py:125-126 | every card drawn by the dealer raises the all-aces-as-1 total by 1 to 10, so the dealer loop ends |
| Cards.HandValueBounds | cogs/BlackJack.py:20-26 | hard total <= value <= raw sum; no aces gives the raw sum; a value over 21 counts every ace as 1; a non-empty hand scores at least 2; the copy at games/blackjack/utils.py:14-21 behaves the same |
| Cards.TwoCardsNeverBust | cogs/BlackJack.py:41-44 | a freshly dealt two-card hand is worth at most 21 |
| Cards.TenKingIs20 | cogs/BlackJack.py:20-26 | 10 and K score 20 |
| Cards.HandOfThree | cogs/BlackJack.py:21-22 | a three-card hand's raw sum is its three table values added, and its ace count the number of aces among the three |
| Cards.AceSixFiveIs12 | cogs/BlackJack.py:20-26 | A, 6, 5 scores 12: the raw 22 demotes the ace once |
| Cards.AceAceNineIs21 | cogs/BlackJack.py:20-26 | A, A, 9 scores 21: the raw 31 demotes exactly one of the two aces |
| Cards.RankLabel | cogs/BlackJack.py:9 | every rank label is non-empty and contains no space |
| Cards.SuitSymbol | cogs/BlackJack.py:8 | every suit symbol is a single non-space character |
| Cards.CardText | cogs/BlackJack.py:30 | a card prints as rank then suit, at least two characters, with no space |
| Cards.FormatHand | cogs/BlackJack.py:29-30 | the text is empty exactly for the empty hand, and otherwise starts with the first card's text |
| Cards.CountSpacesConcat | cogs/BlackJack.py:30 | spaces in a concatenation add up |
| Cards.NoSpaces | cogs/BlackJack.py:30 | a string with no space character counts no separators, so card texts add none |
| Cards.FormatHandSeparators | cogs/BlackJack.py:29-30 | the empty hand formats as "", and only it does; n cards give exactly n-1 separating spaces and at least 3n-1 characters; the copy at games/blackjack/utils.py:23-25 behaves the same |
| UserRecords.NewUser | src/DB.py:15-18 | a new row has the given id, balance 0, experience 0 and level 1 |
| UserRecords.Joined | src/DB.py:34-48 | add_user adds the default row only for an absent id; every existing row is kept |
| UserRecords.JoinedIdempotent | src/DB.py:40-45 | adding the same user twice is the same as adding once, and adding an existing user changes nothing |
| UserRecords.JoinedKeepsConsistent | src/DB.py:34-48 | add_user keeps every row keyed by its own id with level at least 1 |
| UserRecords.AddBalance | src/DB.py:61-72 | update_balance adds the amount to that user's balance only; an unknown id changes nothing; no other field or row changes |
| UserRecords.AddBalanceComposes | src/DB.py:69 | two balance increments equal one increment by their sum |
| UserRecords.IncrementsAddUp | src/DB.py:61-72 | n increments of 1 equal one increment of n |
| UserRecords.SetBalanceTo | src/DB.py:74-85 | set_balance overwrites that user's balance only; an unknown id changes nothing |
| UserRecords.ISqrt | src/DB.py:96 | the integer square root r satisfies r*r <= n < (r+1)*(r+1) |
| UserRecords.SquareMonotone | src/DB.py:96 | squaring is monotone on naturals |
| UserRecords.ISqrtMonotone | src/DB.py:96 | the integer square root is monotone |
| UserRecords.LevelFor | src/DB.py:96 | the formula's level L is at least 1, with 100(L-1)^2 <= experience < 100 L^2 |
| UserRecords.LevelForMonotone | src/DB.py:96 | more experience never gives a lower formula level |
| UserRecords.AddExperience | src/DB.py:87-101 | update_experience adds exp; the level becomes the larger of the old level and the formula level; a negative result changes nothing; other rows are untouched; the level never decreases |
| UserRecords.SetExperienceTo | src/DB.py:103-114 | set_experience overwrites experience and leaves the level as it was |
| UserRecords.LevelTracksExperience | src/DB.py:95-98 | a row whose level matches its experience still matches after a non-negative gain |
| UserRecords.LevelExample | src/DB.py:95-98 | a new user gaining 250 experience reaches level 2 |
| UserRecords.UpdatesKeepConsistent | src/DB.py:61-114 | every balance and experience update keeps the table well keyed with levels at least 1 |
| Standings.LeaderExists | src/DB.py:122 | every non-empty table has a row that precedes all others in (metric desc, id asc) order |
| Standings.LeaderUnique | src/DB.py:122 | that leading row is unique |
| Standings.Leader | src/DB.py:122 | the leader precedes every other row |
| Standings.Ranking | src/DB.py:122-123 | the ordered query lists each row of the table exactly once, sorted by metric descending, then id ascending |
| Standings.LeaderThenRest | src/DB.py:122-123 | the leader followed by the ordering of the rest is an ordering of the whole table |
| Standings.Page | src/DB.py:123 | OFFSET/LIMIT keeps min(limit, max(0, n - offset)) rows, starting at position offset |
| Standings.RankOf | src/DB.py:140-152 | an absent id ranks 0; a present one ranks between 1 and the number of users |
| Standings.RankOrder | src/DB.py:149 | a strictly greater metric gives a strictly smaller rank and conversely; equal metrics share a rank and conversely |
| Standings.RankAtMostPosition | src/DB.py:122-149 | the user at leaderboard position i has rank at most i+1, and the top user has rank 1 |
| Standings.AboveWithinPrefix | src/DB.py:122-149 | every user with a strictly greater metric than the user at position i is listed before position i |
| Standings.PrefixWithinAbove | src/DB.py:122-149 | where the metric drops strictly just above position i, every user listed before it has a strictly greater metric |
| Standings.RankingIdsDistinct | src/DB.py:122-123 | the ordered query never lists an id twice |
| Standings.RankIsPositionAfterDrop | src/DB.py:122-149 | where the metric drops strictly just above position i, the rank there is exactly i+1 |
| Ledger.Database.constructor | src/DB.py:29-32 | a new ledger is empty and consistent |
| Ledger.Database.AddUser | src/DB.py:34-48 | the table becomes Joined(old, id) and the stored row is returned; an existing row comes back unchanged |
| Ledger.Database.GetUser | src/DB.py:50-59 | the stored row if the id is present, otherwise nothing |
| Ledger.Database.UpdateBalance | src/DB.py:61-72 | the table becomes AddBalance(old, id, amount) and the call is recorded once |
| Ledger.Database.SetBalance | src/DB.py:74-85 | the table becomes SetBalanceTo(old, id, amount) |
| Ledger.Database.UpdateExperience | src/DB.py:87-101 | the table becomes AddExperience(old, id, exp); it reports failure exactly when a present user's experience would go negative |
| Ledger.Database.SetExperience | src/DB.py:103-114 | the table becomes SetExperienceTo(old, id, exp) |
| Ledger.Database.TopBalance | src/DB.py:116-126 | a page of the balance ordering: the right length, stored rows only, in order balance desc then id asc |
| Ledger.Database.TopExperience | src/DB.py:128-138 | a page of the experience ordering, with the same guarantees |
| Ledger.Database.GetBalanceRank | src/DB.py:140-152 | 0 for an unknown id, otherwise 1 + the number of users with a strictly greater balance, between 1 and the number of users |
| Ledger.Database.GetExperienceRank | src/DB.py:154-166 | 0 for an unknown id, otherwise 1 + the number of users with strictly more experience |
| Ledger.Database.Leaderboard | src/DB.py:168-179 | "balance" gives the balance page, "experience" the experience page, any other key an error |
| Blackjack.Settle | cogs/BlackJack.py:128-135 | the payout is +stake exactly when the dealer busts or the player is higher; -stake exactly when the dealer stands higher; 0 exactly on equal totals |
| Blackjack.SettleExamples | cogs/BlackJack.py:128-155 | 20 against 18 wins 10, 18 against 20 loses 10, 19 against 19 pushes; a double stake doubles every outcome |
| Blackjack.DealerStep | cogs/BlackJack.py:125-126 | one pass of the dealer loop draws only below 17, raises the hard total, and keeps the draws within 17 minus the starting hard total |
| Blackjack.DealerDrawsAtMost15 | cogs/BlackJack.py:125-126 | from a dealt hand the dealer loop draws at most 15 cards |
| Blackjack.BlackjackView.constructor | cogs/BlackJack.py:34-39 | a 90-second view owned by the user, with two cards per hand, the round open and only Play Again disabled; the copy at games/blackjack/views/blackjack_view.py:5-17 behaves the same |
| Blackjack.BlackjackView.ResetGame | cogs/BlackJack.py:41-48 | two new cards each, the round open and not busted, and every button enabled except Play Again |
| Blackjack.BlackjackView.ResetGameByLabel | cogs/games/blackjack/utils.py:12-20 | the label-searching reset reaches the same hands and flags |
| Blackjack.BlackjackView.InteractionCheck | cogs/BlackJack.py:50-51 | a click is accepted exactly when it comes from the owner; the copy at cogs/games/blackjack/utils.py:22-23 behaves the same |
| Blackjack.BlackjackView.OnTimeout | cogs/BlackJack.py:53-56 | a timeout disables all four buttons and touches neither the hands nor the ledger; the copy at cogs/games/blackjack/utils.py:25-28 behaves the same |
| Blackjack.BlackjackView.EndGame | cogs/BlackJack.py:97-103 | sets finished, posts the payout in exactly one update_balance, and leaves only Play Again enabled; the copy at games/blackjack/views/blackjack_view.py:66-72 behaves the same |
| Blackjack.BlackjackView.EndGameByLabel | cogs/games/blackjack/utils.py:75-82 | the label-searching end_game has the same effect |
| Blackjack.BlackjackView.Hit | cogs/BlackJack.py:111-116 | appends exactly one player card; over 21 settles -10; otherwise the round, the flags and the ledger are unchanged; the copies at cogs/games/blackjack/utils.py:90-95 and games/blackjack/views/blackjack_view.py:80-85 behave the same |
| Blackjack.BlackjackView.DealerPlay | cogs/BlackJack.py:125-126 | the dealer's hand only grows; every card is drawn below 17; it ends at 17 or more after at most 17 - hard total draws |
| Blackjack.BlackjackView.Stand | cogs/BlackJack.py:124-135 | the dealer draws to 17, then the round settles Settle(player, dealer, 10) in one ledger call; the copies at cogs/games/blackjack/utils.py:103-115 and games/blackjack/views/blackjack_view.py:93-104 behave the same |
| Blackjack.BlackjackView.Double | cogs/BlackJack.py:138-155 | exactly one more player card; a bust settles -20 with the dealer untouched; otherwise the dealer draws to 17 and Settle(player, dealer, 20) is posted; the copies at cogs/games/blackjack/utils.py:118-136 and games/blackjack/views/blackjack_view.py:107-124 behave the same |
| Blackjack.BlackjackView.PlayAgain | cogs/BlackJack.py:158-159 | a new deal on the same view, with no ledger call |
| Blackjack.BlackjackView.Press | cogs/BlackJack.py:50-159 | a click from anyone but the owner changes nothing; the owner's Hit click has Hit's effect (one more card, a bust settles -10), Stand's the dealer's draw to 17 and Settle(player, dealer, 10), Double's one card then -20 or Settle(player, dealer, 20), Play Again's a fresh two-card deal with only Play Again disabled, with no ledger call |
| Blackjack.BlackjackCog.constructor | cogs/BlackJack.py:167-169 | the cog keeps its ledger |
| Blackjack.BlackjackCog.Blackjack | cogs/BlackJack.py:172-176 | registers the caller, then opens a fresh view with no balance change |
| Economy.LastClaim | cogs/EconomyCog.py:36 | dict.get: a time exactly when the user has a recorded claim |
| Economy.CheckCooldown | cogs/EconomyCog.py:36-39 | eligible exactly when no claim is recorded or a full period has elapsed; otherwise a positive remaining time that completes the period |
| Economy.CooldownWindow | cogs/EconomyCog.py:38-45 | eligibility persists as time passes; right after a claim the whole period remains; a full period later the claim is eligible |
| Economy.DailyWait | cogs/EconomyCog.py:39-41 | hours and minutes with minutes < 60 that account for the remaining seconds to the minute; hours < 24 when less than a day remains |
| Economy.WeeklyWait | cogs/EconomyCog.py:70-72 | days and hours with hours < 24 that account for the remaining seconds to the hour; days < 7 when less than a week remains |
| Economy.RejectionMessageBounds | cogs/EconomyCog.py:38-72 | a daily rejection made after the last claim reports under 24 hours, and a weekly one (lines 69-72) under 7 days |
| Economy.NumberEntries | cogs/EconomyCog.py:98-99 | page entry i is shown with number i + 1 + offset, for every entry |
| Economy.ShownNumberIsPosition | cogs/EconomyCog.py:96-99 | the shown number is the row's position in the whole ordering; the ledger's rank never exceeds it, and equals it where the metric drops strictly just above |
| Economy.EconomyCog.constructor | cogs/EconomyCog.py:10-14 | both cooldown dictionaries start empty |
| Economy.EconomyCog.Balance | cogs/EconomyCog.py:16-19 | registers the caller, then returns the caller's row: the stored one if present, otherwise the new default row, with no balance update |
| Economy.EconomyCog.Daily | cogs/EconomyCog.py:31-47 | registers the caller; inside the window it reports the wait and changes no cooldown or balance; otherwise it records now for this user in the daily map only and adds 1000 coins and 10 experience |
| Economy.EconomyCog.Weekly | cogs/EconomyCog.py:62-78 | the same with a 604800-second window, the weekly map only, 50000 coins and 50 experience |
| Economy.EconomyCog.BalTop | cogs/EconomyCog.py:93-99 | registers the caller, then numbers the balance page: entry i is number i+1+offset on the row at position offset+i |
| Economy.EconomyCog.XpTop | cogs/EconomyCog.py:103-109 | the same over the experience ordering |
| CopiesAsWritten.HandValueAsWritten | games/blackjack/utils.py:14-21 | as written: the empty hand scores 0, and any other hand fails on the unresolved name VALUES |
| CopiesAsWritten.HandValueAsWrittenFailsOnOneCard | games/blackjack/utils.py:15-16 | a one-card hand fails as written, while the intended value is that card's table value |
| CopiesAsWritten.DrawCardAsWritten | games/blackjack/utils.py:10-12 | as written: every call fails on the unimported name random |
| CopiesAsWritten.CopyViewDealAsWritten | cogs/games/blackjack/utils.py:10-14 | as written: constructing the copy's view fails on the unimported name Utils |
| CopiesAsWritten.ViewDealAsWritten | games/blackjack/views/blackjack_view.py:11 | as written: constructing the other copy's view fails on the undefined name draw_card |
| CopiesAsWritten.PlayAgainMissingReset | games/blackjack/views/blackjack_view.py:126-128 | as written: that copy's play_again fails on the undefined attribute reset_game before it changes anything |

## Left out

- Persistence: the SQLAlchemy engine, sessions and commits become one in-memory `map<int, User>`. The database URL each cog builds is not modelled.
- Column widths: balance and experience are unbounded integers. Values outside the signed 64-bit range, which the database driver rejects with `OverflowError`, are not modelled.
- The Discord layer is left out: embeds, `send_message`/`edit_message`, emoji, colours, `build_embed`, and the "No users yet" placeholder. Only the four buttons' disabled flags are kept, and the leaderboard text is reduced to its numbered entries.
- Concurrency and the timeout timer: handlers run one at a time, and `on_timeout` is an ordinary method.
- Button gating: `Press` dispatches any click from the owner, including one on a disabled button or one after `OnTimeout`, so the model allows Hit, Stand and Double after a round is settled or the view has expired. In the running bot the Discord client and discord.py's stopping of a timed-out view rule such clicks out; the callbacks themselves check nothing, and that gating is not modelled.
- Randomness: `random.choice` becomes a nondeterministic choice over the rank and suit lists.
- Floating point: `total_seconds()` becomes whole seconds. With whole seconds, a second claim at the very same second reports "24h 0m"; the message bounds are stated for claims made strictly later. `** 0.5` becomes an exact integer square root; the float result can differ for very large experience values.
- Economy.EconomyCog.Daily: an `update_experience` that raises after the balance was credited is reported as a `Claimed(false)` result. The model does not capture the aborted message.
- Economy.EconomyCog.Weekly: likewise, an `update_experience` that raises after the 50000 coins were credited (cogs/EconomyCog.py:76-78) is reported as a `Claimed(false)` result, and the aborted message is not captured.
- Ledger.Database.TopBalance: `limit` and `offset` are natural numbers; SQLite's handling of negative values is not modelled.
- Ledger.Database.TopExperience: `limit` and `offset` are natural numbers for the same reason.
- Economy.EconomyCog.BalTop: `limit` and `offset` are natural numbers. For a negative offset SQLite returns rows from the start while the loop still numbers them from offset+1, so the first numbers shown would be 0 or negative; this is not modelled.
- Economy.EconomyCog.XpTop: `limit` and `offset` are natural numbers; a negative offset numbers the experience page from 0 or below, as for BalTop, and is not modelled.
- Ledger.Database.Leaderboard: a `ValueError` for an unknown key becomes a `Failure` value; `limit` and `offset` are natural numbers, as for TopBalance.
- Standings.Page: `limit` and `offset` are natural numbers; SQLite's `LIMIT` and `OFFSET` with negative values (no limit, and no skipped rows) are not modelled.
- `cogs/InfoCog.py` and `app.py` are not part of this model: they hold static text, bootstrap and extension loading.
- `src/decorators.py` is modelled only as the `AddUser` call at the start of each economy command.
- `games/blackjack/views/blackjack_view.py` never imports `Database`, `draw_card`, `hand_value` or `format_hand`. Only the `Database` annotation at line 5 can fail at import time, and only on Python versions that evaluate annotations eagerly; `draw_card`, `hand_value` and `format_hand` (in `build_embed`, lines 43 and 50) fail when called, first in the constructor at line 11 (`CopiesAsWritten.ViewDealAsWritten`). Apart from that failure and `play_again`, that view is modelled as if those names resolved.
- `cogs/games/blackjack/utils.py` is modelled as if `Utils` resolved. As written its constructor raises `NameError` at line 13 (`CopiesAsWritten.CopyViewDealAsWritten`), and even with `Utils` imported, `Utils.draw_card` and `Utils.hand_value` fail on `random` and `VALUES` (games/blackjack/utils.py:12, 16).

## Findings

| source | as written | input that shows it | evidently intended | confidence | as-written member | corrected member |
|---|---|---|---|---|---|---|
| games/blackjack/utils.py:16 | the static `hand_value` names `VALUES` without the class prefix | any non-empty hand, e.g. one ace | `Utils.VALUES`, giving the soft-ace value | not executed | CopiesAsWritten.HandValueAsWrittenFailsOnOneCard | Cards.ComputeHandValue |
| games/blackjack/utils.py:12 | the static `draw_card` uses `random` (never imported) and unqualified `RANKS`/`SUITS` | every call | a card drawn from the rank and suit lists | not executed | CopiesAsWritten.DrawCardAsWritten | Cards.DrawCard |
| cogs/games/blackjack/utils.py:13 | the view copy calls `Utils.draw_card` but the file never imports `Utils` | constructing any view | a fresh two-card deal | not executed | CopiesAsWritten.CopyViewDealAsWritten | Blackjack.BlackjackView.ResetGameByLabel |
| games/blackjack/views/blackjack_view.py:128 | `play_again` calls `self.reset_game()`, which this class does not define | cannot occur as written, since the constructor already fails at line 11 on `draw_card`; with that name resolved, any Play Again click | a new deal, as in cogs/BlackJack.py | not executed | CopiesAsWritten.PlayAgainMissingReset | Blackjack.BlackjackView.PlayAgain |
