# SimplyBot core in Dafny

This project models the game and bookkeeping logic of the SimplyBot Discord bot ("Delirium Den"). Each cog is one module:

- `Cards`, `Blackjack` and `Casino` model `cogs/gambling.py`:
  - the 52-card deck with its refill-and-pop draw;
  - blackjack hand values with ace demotion;
  - the per-user blackjack and high-low tables;
  - the turn handlers (deal, natural, hit, stand, double down, dealer to 17, settlement, timeout);
  - the high-low streak and cash-out;
  - bet validation against the credit ledger;
  - the dice and lucky-number payout tables.
- `Profiles` models the shared user ledger (`levels_data.json`). `gambling.py` and `leveling.py` both read and write it. The model keeps it as one `UserStore` object that both cogs' classes hold.
- `Leveling` models `cogs/leveling.py`:
  - the level curve `int(150 * n ** 1.5)`, computed exactly as the integer square root of `22500 * n^3`, and its inverse `calculate_level`;
  - message XP with its cooldown, voice minutes and the minute tick;
  - daily credits and reputation with their 24-hour cooldowns;
  - the description limit, `givexp`, the two resets and the role import;
  - leaderboard paging.
- `Counting` models `cogs/counting.py`:
  - the per-guild counting game, with strict canonical-integer acceptance and the same-user rule;
  - reset bookkeeping and the leaderboard;
  - violation counters with the spam threshold;
  - the `change_setting` validation;
  - the default-key migration of `get_guild_data`.
- `ReactionRoles` models the message → emoji → role registry of `cogs/reactionroles.py` and its reaction lookup.
- `Monitor` models the guild → user → scope registry of `cogs/monitor.py`, its JSON key round trip and its message match condition.
- `StaffList` models the ordering and de-duplication of `cogs/stafflist.py`: roles sorted by weight, each member under its first role only.
- `Suggestions` models the suggestion store of `cogs/suggestions.py`: id allocation, the server settings, the `-anon` prefix and the status and delete commands.
- `Rules` models the rule lists of `cogs/rules.py`: the default lists, the edit and add commands, the counts and the section text.
- `Decimal` models Python's `str(int)` and `int(str)`. `Util` holds shared helpers (Option, ASCII character tests, `strip`, `lower`, `join`).

Randomness, clocks and the chat platform become parameters:

- A shuffle is any arrangement of the full deck (`IsShuffle`). `randint` results are parameters within their ranges.
- Clock readings are `real` timestamps passed in.
- Platform lookups become parameters: whether a message or role exists, whether a member is still in a guild, a channel's kind, the members of a role.

Every handler that changes state is a method on a class. Its `ensures` clauses give the new state as a function of the old one. The properties the bot promises are proved as lemmas about those functions.

## Model

| member | source | states |
|---|---|---|
| Cards.CardValue | cogs/gambling.py:17-24 | A jack, queen or king is worth 10 and a pip card its number. An ace, and only an ace, is worth 11. Every card is worth between 2 and 11. |
| Cards.FullDeckDistinctAndComplete | cogs/gambling.py:32-41 | A fresh deck has 52 cards, all pairwise distinct, and contains every (suit, rank) pair. |
| Cards.IndexOfCardAt | cogs/gambling.py:41 | The fresh deck is in suit-major order: card i has suit index `i / 13` and rank index `i % 13`. |
| Cards.DrawKeepsSubDeck | cogs/gambling.py:44-48 | A draw refills an empty deck from the shuffle and then pops the last card. The popped card plus the cards left are exactly the cards drawn from, so one card fewer remains. A deck made of cards of one full deck stays that way. |
| Cards.Deck.Draw | cogs/gambling.py:44-48 | The card returned and the deck left are what the refill-and-pop draw gives on the old deck. |
| Cards.Deck.constructor | cogs/gambling.py:35-37 | A new deck holds the given shuffle of the full deck. |
| Cards.Deck.Reset | cogs/gambling.py:39-42 | The deck becomes the given shuffle of the full deck. |
| Blackjack.GetValue | cogs/gambling.py:63-73 | The ace-demoting loop computes the hand value (`HandValue`). |
| Blackjack.HandValueCharacterization | cogs/gambling.py:63-73 | The value is the raw sum less 10 for each of k demoted aces, with k at most the number of aces. Aces are demoted only while the total is above 21: a hand with aces left undemoted is at most 21, and the last demotion was needed. |
| Blackjack.HandValueAtLeastHard | cogs/gambling.py:63-73 | The value lies between the all-aces-as-1 total and the raw total. |
| Blackjack.NaturalIffAceAndTen | cogs/gambling.py:79-81 | `is_blackjack` holds exactly for two cards, one an ace and the other worth 10. |
| Blackjack.ExampleSoftHands | cogs/gambling.py:63-73 | A, A, 9 is worth 21 and A, A is worth 12. |
| Blackjack.ExampleHardHands | cogs/gambling.py:75-81 | K, Q, 5 is bust and A, J is a natural. |
| Blackjack.DealerStandsOnSeventeen | cogs/gambling.py:703-705 | The dealer keeps its cards, ends at 17 or more, and was below 17 before every card it drew. |
| Blackjack.DealerPlayKeepsDeck | cogs/gambling.py:703-705 | After the dealer plays, the deck still holds only cards of one full deck. |
| Blackjack.PayoutMatchesOutcome | cogs/gambling.py:713-732 | For a positive bet, a hand pays more than its stake exactly when it beats the dealer, the stake exactly on a push, and nothing exactly when it loses. A bust pays nothing. A non-natural win pays twice the bet. |
| Blackjack.TotalPayoutBounds | cogs/gambling.py:710-737 | The game's total winnings are never negative and are at least what any single hand pays. |
| Blackjack.TotalPayoutZeroIffAllLose | cogs/gambling.py:710-737 | With no negative bet, the game pays nothing exactly when every hand pays nothing. |
| Blackjack.ValidateBet | cogs/gambling.py:484-496 | A bet is accepted exactly when `10 <= bet <= 10000` and `bet <= credits`. The refusals are checked in the source's order: below the minimum first, then above the maximum, then not enough credits. |
| Blackjack.ExactlyOneGuessWins | cogs/gambling.py:280-288 | On a tie neither guess wins. Otherwise exactly one of "higher" and "lower" wins. |
| Blackjack.Multiplier | cogs/gambling.py:432-439 | The corrected cash-out multiplier agrees with the source's table for streaks 1 to 6 and always has a positive denominator. |
| Blackjack.CashOutMonotone | cogs/gambling.py:242-247 | With the corrected multiplier, cashing out pays at least the total bet, and more streak never pays less. |
| Blackjack.AsWrittenLongStreakPaysLess | cogs/gambling.py:246-247 | As written, a streak of 7 on 100 credits pays 100 and a streak of 6 pays 500, so the 7-streak pays less than a 1-streak. |
| Blackjack.DiceOddsAreFair | cogs/gambling.py:383-384 | For every target from 2 to 12, the multiplier times the number of (die1, die2) pairs making that total is 36. |
| Blackjack.LuckyCloserPaysMore | cogs/gambling.py:887-901 | A closer lucky-number guess never pays a lower multiplier. A guess pays nothing exactly when it is more than 20 away. |
| Profiles.Lookup | cogs/leveling.py:53-69 | A user without a profile reads as the default profile (100 credits, level 0, "No description set."). A user with one reads as their profile. |
| Profiles.AddCreditsEffect | cogs/gambling.py:460-482 | Adding credits gives the user a profile if they had none and moves only their balance, by exactly the amount. It keeps the ledger free of negative balances when the new balance is not negative. |
| Profiles.UserStore.Credits | cogs/gambling.py:454-458 | An unknown user has 0 credits and a known one their stored balance. In a valid ledger the balance is never negative. |
| Profiles.UserStore.GetUserData | cogs/leveling.py:53-69 | Returns the user's profile, storing the default one first for a new user. Nothing else changes. |
| Profiles.UserStore.UpdateCredits | cogs/gambling.py:460-482 | The ledger becomes `AddCredits(old, user, amount)` and the returned balance is the old balance plus the amount. |
| Casino.NaturalPayout | cogs/gambling.py:616-628 | A deal settles at once exactly when the player has a natural. It refunds the bet against a dealer natural and pays `int(2.5 * bet)` otherwise, so never less than the bet. |
| Casino.Deal | cogs/gambling.py:593-603 | The opening deal pops player, dealer, player, dealer from a fresh deck and leaves the other 48 cards. |
| Casino.PlayDealer | cogs/gambling.py:703-705 | The dealer's draw loop yields the dealer cards and deck of `DealerPlay`. |
| Casino.SettleHands | cogs/gambling.py:710-734 | The settlement loop's total is the sum of the per-hand payouts. |
| Casino.Casino.constructor | cogs/gambling.py:417-425 | The cog starts with no blackjack and no high-low games, over a valid shared ledger. |
| Casino.Casino.StartBlackjack | cogs/gambling.py:577-628 | A second game is refused and a bad bet rejected, both with no deduction. Otherwise the bet is taken and the cards dealt. A natural is paid at once with no game left open; without one the player's game is seated. The ledger stays non-negative. |
| Casino.Casino.OpenGame | cogs/gambling.py:590-628 | The accepted start: deduct, deal, then either settle the natural or store the game with the dealt hands. |
| Casino.Casino.Advance | cogs/gambling.py:150-160 | Moving on makes the next hand current if there is one. Otherwise the dealer plays, the winnings are credited when positive, and the game is removed. |
| Casino.Casino.Hit | cogs/gambling.py:113-139 | Without a game nothing changes. Otherwise one card is added to the current hand. A bust moves on to the next hand or finishes the game. |
| Casino.Casino.Stand | cogs/gambling.py:142-160 | Without a game nothing changes. Otherwise it moves on to the next hand or finishes the game. |
| Casino.Casino.DoubleDown | cogs/gambling.py:163-197 | A double is refused unless the hand has two cards and is not doubled, and refused when its bet exceeds the balance. Otherwise the bet is deducted and doubled, the hand is marked doubled, exactly one card is drawn, and play moves on whatever the value. |
| Casino.Casino.TakeDouble | cogs/gambling.py:176-185 | An allowed double deducts the hand's bet, doubles it, marks the hand and adds one drawn card. |
| Casino.Casino.BlackjackTimeout | cogs/gambling.py:199-204 | The timeout removes the game. With a game, the dealer plays, every hand is settled, the winnings are credited when positive, and their amount is returned. Without one, nothing is paid and the ledger is unchanged. |
| Casino.Casino.StartHighLow | cogs/gambling.py:745-771 | A second game is refused and a bad bet rejected, both with no deduction. Otherwise the bet is taken and a game is opened with a fresh deck, the first card drawn and a streak of 0. |
| Casino.Casino.MakeGuess | cogs/gambling.py:268-325 | A new card is drawn. A correct guess (a tie is never correct) makes it the current card and adds 1 to the streak. A wrong guess ends the game with no payout. |
| Casino.Casino.CashOut | cogs/gambling.py:233-266 | Cashing out is refused with no streak. Otherwise it credits the corrected payout `CashOutPayout(total bet, streak)`, which keeps the 5x rate for streaks above 6, and removes the game. The payout is never below the total bet. |
| Casino.Casino.HighLowTimeout | cogs/gambling.py:327-330 | A timeout removes the high-low game and changes nothing else. |
| Leveling.CostIs | cogs/leveling.py:81 | The level cost is the integer square root of `22500 * n^3`, which equals `int(150 * n ** 1.5)`. Any c with `c^2 <= 22500 n^3 < (c+1)^2` is the cost. |
| Leveling.CostAtLeast | cogs/leveling.py:99 | Level n costs at least `150 * n` XP. |
| Leveling.CostExamples | cogs/leveling.py:99 | The first four levels cost 150, 424, 779 and 1200 XP. |
| Leveling.TotalXpForLevel | cogs/leveling.py:92-102 | The `xp_for_level` loop gives 0 for a target of 0 or below, and otherwise the sum of the costs of levels 1 to the target. |
| Leveling.XpForLevelStrict | cogs/leveling.py:92-102 | The total XP for a level strictly increases with the level. |
| Leveling.CalculateLevel | cogs/leveling.py:71-90 | The `calculate_level` loop yields `LevelOf(xp)`. |
| Leveling.LevelOfBounds | cogs/leveling.py:71-90 | Negative XP is level 0. Otherwise the level L satisfies `xp_for_level(L) <= xp < xp_for_level(L + 1)`. |
| Leveling.LevelOfUnique | cogs/leveling.py:71-90 | The level is the only L between whose totals the XP lies. |
| Leveling.LevelOfMonotone | cogs/leveling.py:71-90 | More XP never gives a lower level. |
| Leveling.LevelOfXpForLevel | cogs/leveling.py:71-102 | Exactly the total of level n is worth level n. |
| Leveling.ProgressBounds | cogs/leveling.py:104-117 | At the level its XP is worth, the progress lies in `[0, xp_for_next_level(level))`. |
| Leveling.RankFigures | cogs/leveling.py:254-263 | The rank card's level is the one the XP is worth. Its progress and next-level cost come from that level, and the progress lies in `[0, next)` for non-negative XP. |
| Leveling.RewardFor | cogs/leveling.py:125-149 | Only a rise in level to a level with a configured reward hands out a role, and it is that level's role. |
| Leveling.RaisedLevel | cogs/leveling.py:119-127 | `level_up_check` changes only the level, to the larger of the stored level and what the XP is worth, so it never lowers the level. When the stored level is not above the XP's worth, the result is exactly the XP's level. |
| Leveling.RewardRolesInRange | cogs/leveling.py:30-38 | Every reward role is a level role of the import table, and its range contains the reward level. |
| Leveling.SessionMinutes | cogs/leveling.py:202-203 | `int(session // 60)` is the number of whole minutes in the session. |
| Leveling.MessageGrantEffect | cogs/leveling.py:180-187 | A message grant gives only that user 5 to 15 more XP and one more message, and leaves credits alone. It never lowers the level, and for a profile whose level is not above its XP's worth it sets the level to what the XP is worth. It keeps the ledger valid (no negative balance, no level above its XP's worth). |
| Leveling.VoiceCreditEffect | cogs/leveling.py:205-208 | Leaving with m > 0 whole minutes adds m voice minutes and 3m XP to that user only. It never lowers the level, leaves credits alone and keeps the ledger valid. |
| Leveling.TickedValid | cogs/leveling.py:219-237 | A voice tick that credits each ticked user 3 XP and 1 minute, and leaves everybody else alone, keeps the ledger valid. |
| Leveling.TickedStep | cogs/leveling.py:224-237 | Crediting one more user leaves everybody else's profile as it was and extends the tick by that user. |
| Leveling.TickSessions | cogs/leveling.py:219-237 | The tick loop credits exactly the tracked users still connected, once each, leaves every other profile as it was, and keeps only the sessions of connected users. |
| Leveling.VoiceMinutesCountedTwice | cogs/leveling.py:200-231 | As written, a two-minute session is credited twice, once by the two minute ticks and once in full on leaving: four minutes of voice time and 12 XP in all. |
| Leveling.DailyClaimEffect | cogs/leveling.py:372-393 | A claim touches only the claimant's profile. It adds the 50 to 100 credits exactly when a day has passed since the last claim, and nothing otherwise. After a successful claim, any claim within the next 86400 s leaves the ledger unchanged. The ledger stays valid. |
| Leveling.GiveRepEffect | cogs/leveling.py:414-430 | Giving reputation adds exactly 1 to the receiver's reputation and changes nobody else's. Only the giver and the receiver are touched. The giver is then on cooldown for the next 24 hours. The ledger stays valid. |
| Leveling.GiveXpEffect | cogs/leveling.py:721-726 | An admin grant changes only that user, moving their XP by exactly the amount and re-deriving the level from the new XP, so the level is never above what the XP is worth. The ledger stays valid. |
| Leveling.GiveXpCanLower | cogs/leveling.py:722-725 | A negative grant can lower a level: 200 XP at level 1 given -100 XP becomes level 0. |
| Leveling.RefreshedValid | cogs/leveling.py:254-259 | The rank command's level refresh keeps the ledger valid. |
| Leveling.ResetOneValid | cogs/leveling.py:744-747 | Resetting a user keeps the ledger valid, and their XP is then worth level 0. |
| Leveling.ResetAll | cogs/leveling.py:768-773 | A guild reset zeroes XP and level exactly for the listed members who have a profile. It adds no profile and touches no one else. |
| Leveling.ResetAllValid | cogs/leveling.py:768-773 | A guild reset keeps the ledger valid. |
| Leveling.ResetMembers | cogs/leveling.py:768-773 | The reset loop over the guild's members gives `ResetAll`. |
| Leveling.HighestOf | cogs/leveling.py:677-683 | The import level is at least the top of the range of every level role the member holds. It is either 0 or the top of one of them. |
| Leveling.HighestImportLevel | cogs/leveling.py:677-683 | The role loop yields `HighestOf`. |
| Leveling.ImportOneEffect | cogs/leveling.py:685-699 | Importing a non-bot member with a level role sets their level to the larger of their stored level and the role's top level. It leaves their credits alone. It counts them as imported exactly when the stored level was below the role's level. Nobody else is touched, and the ledger stays valid. |
| Leveling.ImportAllCounts | cogs/leveling.py:669-699 | Every non-bot member with a level role is counted once, as imported or as skipped. |
| Leveling.ImportAllValid | cogs/leveling.py:669-702 | The whole import keeps the ledger valid. |
| Leveling.ImportMember | cogs/leveling.py:685-699 | One step of the import loop, computing the target XP with the `xp_for_level` loop, agrees with `ImportOne`. |
| Leveling.ImportMembers | cogs/leveling.py:672-699 | The import loop gives `ImportAll`. |
| Leveling.TotalPages | cogs/leveling.py:339-340 | The number of pages is `ceil(n / 10)`: 0 exactly for no users, otherwise the smallest t with `n <= 10 t`. |
| Leveling.ClampPage | cogs/leveling.py:341 | The page is clamped to at least 1 and at most the page count, and a page in range is kept. |
| Leveling.PageWindow | cogs/leveling.py:341-344 | On a non-empty board the clamped page's window starts at an existing user. |
| Leveling.Levels.constructor | cogs/leveling.py:11-15 | The cog starts on the shared ledger with no voice sessions and no message cooldowns. |
| Leveling.Levels.LevelUpCheck | cogs/leveling.py:119-160 | The stored level becomes `Raised(profile)` and the reward role is `RewardFor(old level, new level)`. |
| Leveling.Levels.OnMessage | cogs/leveling.py:164-187 | A grant happens exactly for a non-bot guild message from a user with no cooldown stamp or one at least 60 s old. Only a grant stamps the cooldown and changes the ledger, as `MessageGrant` then the level check. |
| Leveling.Levels.OnVoiceStateUpdate | cogs/leveling.py:190-216 | Joining opens a session at now. Leaving closes an open session and credits its whole minutes when there are any. Other updates change nothing. |
| Leveling.Levels.VoiceXpTick | cogs/leveling.py:219-237 | The tick credits the tracked users still connected and keeps only their sessions. |
| Leveling.Levels.Daily | cogs/leveling.py:370-393 | The claim succeeds exactly when a day has passed since the last one, and the ledger becomes `DailyClaim`. |
| Leveling.Levels.Reputation | cogs/leveling.py:406-430 | Reputation to a bot or to oneself is refused with no change. A gift within 24 h of the giver's last one is refused, and only the giver's profile is created. Otherwise the ledger becomes `GiveRep`. |
| Leveling.Levels.SetDescription | cogs/leveling.py:491-498 | A description longer than 100 characters is refused with no change. Otherwise only that user's description is set. |
| Leveling.Levels.GiveXp | cogs/leveling.py:719-726 | The reply's old level is the stored level and the new level is what the new XP is worth. The ledger becomes `GiveXpTo`. |
| Leveling.Levels.Rank | cogs/leveling.py:245-263 | The rank figures are those of the refreshed level, and the stored level is refreshed. |
| Leveling.Levels.ResetUser | cogs/leveling.py:742-747 | One user's XP and level become 0. |
| Leveling.Levels.ResetGuild | cogs/leveling.py:766-773 | The ledger becomes `ResetAll` over the guild's members. |
| Leveling.Levels.ImportRoles | cogs/leveling.py:669-702 | The ledger and counts are those of `ImportAll`. The imported and skipped counts add up to the number of eligible members. |
| Counting.MergeEffect | cogs/counting.py:105-113 | Back-filling adds exactly the missing default keys and never changes a stored value. Back-filling twice is the same as once, and an empty record becomes the defaults. |
| Counting.Backfill | cogs/counting.py:106-117 | The migration loop gives `Merge(stored, defaults)`. It reports an update exactly when some default key was missing. |
| Counting.GuildOf | cogs/counting.py:99-102 | An unseen guild reads as the defaults and a known one as its record. |
| Counting.Bump | cogs/counting.py:121-130 | The leaderboard gains the user if absent, and the user's count goes up by exactly 1. Nobody else's count changes. |
| Counting.BumpTotal | cogs/counting.py:121-130 | A bump raises the leaderboard's sum by exactly 1. |
| Counting.DefaultConsistent | cogs/counting.py:16-43 | The default game is consistent: total 0 equals the empty leaderboard's sum, and the count 0 is at most the highest count. |
| Counting.ResetGameEffect | cogs/counting.py:199-213 | A reset sets the count to 0, clears the last user and adds one to mistakes and resets. The highest count, the total and the leaderboard are kept. With `save_progress` the streak record becomes at least the lost count; without it the record is unchanged. Consistency is kept. |
| Counting.CountedEffect | cogs/counting.py:345-355 | An accepted number becomes the count and the author the last user. The total goes up by 1 and the highest count becomes the maximum. Since the leaderboard moves with the total, they stay consistent. |
| Counting.ViolateEffect | cogs/counting.py:147-193 | A violation reports the user's previous count plus one and touches nobody else's record. Reaching the threshold resets the user's count to 0, and mutes exactly when the guild mutes violators. The game and settings are untouched. |
| Counting.ParseIffCanonical | cogs/counting.py:255-293 | In strict mode a message is a number exactly when its stripped text is canonical decimal, which it then equals as `str()` prints it; strict mode never ignores. Normal mode never rejects and ignores exactly what `int()` refuses. |
| Counting.WideSpaceCounts | cogs/counting.py:257-262 | Unicode whitespace around a number is stripped as Python does: `7` followed by an ideographic space counts as 7 in strict mode, and with a line separator in front as well in normal mode. |
| Counting.StepAccepts | cogs/counting.py:248-355 | A message is accepted exactly when the game is on in its channel, the message reads as the next number, and its author did not post the last one. It then becomes the count, the violations are untouched, and consistency is kept. |
| Counting.StepMistakes | cogs/counting.py:256-343 | A wrong number resets the game and costs one violation. Non-number text in strict mode and a repeat by the same user each cost one violation and leave the game alone. Messages outside the game change nothing. |
| Counting.HandleMessage | cogs/counting.py:241-375 | The handler's in-place updates give the guild data and outcome of `Step`. |
| Counting.NameOfTable | cogs/counting.py:680-729 | The setting names the command recognises: exactly the five switches, the three locked names (`allow_same_user`, `reset_on_mistake`, `strict_mode`), and the two numeric settings. |
| Counting.ApplySettingRejects | cogs/counting.py:680-729 | Every refused input leaves the settings unchanged. |
| Counting.ApplySettingAccepts | cogs/counting.py:680-731 | The timeout is updated exactly for a digit string in [10, 3600] and the threshold exactly for one in [1, 10]. A switch is updated exactly for a known true/false token, to that value. |
| Counting.ApplySettingKeeps | cogs/counting.py:680-731 | A settings change never touches the channel, the enabled flag or the milestones. |
| Counting.ApplySettingInRange | cogs/counting.py:686-693 | The numeric settings stay within their ranges. |
| Counting.DefaultInRange | cogs/counting.py:39-42 | The default timeout and threshold are within the ranges the command enforces. |
| Counting.SumCounts | cogs/counting.py:775 | The loop's total is the sum of the users' violation counts. |
| Counting.CountingCog.constructor | cogs/counting.py:10-13 | The cog starts with no guild records. |
| Counting.CountingCog.GetGuildData | cogs/counting.py:97-119 | Returns the guild's record, created from the defaults if missing. No other guild changes. |
| Counting.CountingCog.OnMessage | cogs/counting.py:241-375 | Bot messages change nothing, not even the creation of a record. Any other message updates the guild as `Step` does. |
| Counting.CountingCog.Setup | cogs/counting.py:429-438 | The channel becomes the counting channel and the game is switched on. |
| Counting.CountingCog.Enable | cogs/counting.py:478-486 | Enabling is refused while no channel is set, and otherwise switches the game on. |
| Counting.CountingCog.Disable | cogs/counting.py:468-472 | The game is switched off. |
| Counting.CountingCog.ResetCounting | cogs/counting.py:492-500 | A reset is refused when the count is already 0. Otherwise the game is reset as a mistake would. |
| Counting.CountingCog.ChangeSetting | cogs/counting.py:675-732 | The guild's settings become those of `ApplySetting`, and its game and violations are untouched. |
| Counting.CountingCog.ClearUserViolations | cogs/counting.py:754-771 | A user with a violation record has it zeroed and the old count reported. Otherwise nothing changes. |
| Counting.CountingCog.ClearAllViolations | cogs/counting.py:773-790 | Every violation record of the guild goes, and the reported number is the sum of their counts. |
| ReactionRoles.EventKey | cogs/reactionroles.py:28-33 | An emoji object with an id is keyed by the id's decimal text, a string of digits. An emoji without an id is keyed by its name. |
| ReactionRoles.CustomEmojiNeverMatchesAsWritten | cogs/reactionroles.py:91-101 | As written, a custom emoji added as `<:name:id>` is stored under that text, which never equals the id key its reactions look up. |
| ReactionRoles.CommandKeyMatchesEvents | cogs/reactionroles.py:93 | With the corrected key, a custom emoji's binding is stored under the key its reactions use. A Unicode emoji keeps its text as key. |
| ReactionRoles.ParseCustomText | cogs/reactionroles.py:93 | The id of a custom emoji's text, `<:name:id>` or `<a:name:id>`, parses back to the id. |
| ReactionRoles.AddBindingEffect | cogs/reactionroles.py:92-102 | Adding overwrites exactly that (message, emoji) pair. Every other pair keeps its binding. |
| ReactionRoles.RemoveBindingEffect | cogs/reactionroles.py:127-136 | Removing deletes exactly that pair and drops the message once it has no bindings left. No empty message entry is kept. |
| ReactionRoles.RemoveUndoesAdd | cogs/reactionroles.py:95-136 | Removing a pair just added to a registry without it gives back the registry. |
| ReactionRoles.ClearEffect | cogs/reactionroles.py:246-251 | Clearing deletes every binding of the message and nothing else. |
| ReactionRoles.ReactionRole | cogs/reactionroles.py:273-285 | A reaction concerns a role exactly when it is not the bot's own, the (message, emoji key) pair is bound, and the binding's guild is the event's guild. It is then the bound role. |
| ReactionRoles.GuildBindings | cogs/reactionroles.py:167-180 | The listing holds exactly the bindings stored for the invoking guild, unchanged, and no empty message. |
| ReactionRoles.ReactionRoleCog.constructor | cogs/reactionroles.py:8-11 | The cog starts with no bindings. |
| ReactionRoles.ReactionRoleCog.Add | cogs/reactionroles.py:62-104 | The checks come in the source's order: message found, role below the bot's top role, reaction added. Only a full pass stores the binding, under the corrected key `CommandKey(arg)`; any refusal leaves the registry unchanged. |
| ReactionRoles.ReactionRoleCog.Remove | cogs/reactionroles.py:122-138 | The pair is looked up under the corrected key `CommandKey(arg)`. A pair without a binding is refused with no change. Otherwise the registry becomes `RemoveBinding`. |
| ReactionRoles.ReactionRoleCog.Clear | cogs/reactionroles.py:242-252 | A message without bindings is refused. Otherwise the message's entry is deleted. |
| ReactionRoles.ReactionRoleCog.OnReaction | cogs/reactionroles.py:271-297 | The role a reaction event adds or removes is `ReactionRole` of the registry. |
| Monitor.SaveKeys | cogs/monitor.py:32-36 | Saving writes each id's entry under `str(id)`, and only such keys. |
| Monitor.SavedLoadable | cogs/monitor.py:21-27 | Every key save writes can be read back by `int()`. |
| Monitor.LoadSaveKeys | cogs/monitor.py:14-38 | Reading back the keys written gives the same map. |
| Monitor.SaveLoadKeys | cogs/monitor.py:14-38 | Writing back what was read gives the same document. |
| Monitor.LoadSave | cogs/monitor.py:14-38 | `load_data(save_data(m)) == m` for the nested guild → user → scope map. |
| Monitor.RestoreSaved | cogs/monitor.py:12-30 | A restart restores exactly what was last saved. |
| Monitor.ScopeOf | cogs/monitor.py:103-107 | `server`, `guild` or `all` in any letter case mean everywhere. Anything else means the current channel. |
| Monitor.MarkEffect | cogs/monitor.py:97-110 | After `monitor_empty`, a non-bot member's messages in that guild are replaced in exactly the scope asked for, whatever the earlier scope. Nobody else's messages change. |
| Monitor.UnmarkEffect | cogs/monitor.py:136-148 | After unmonitor, the member's messages are left alone and nobody else's change. An unmarked member changes nothing. |
| Monitor.UnmarkUndoesMark | cogs/monitor.py:97-148 | Unmonitoring right after monitoring a member who was not marked gives back the marks as they were. |
| Monitor.ListAsWrittenKeepsDeparted | cogs/monitor.py:208-220 | As written, with two departed members the listing stops after deleting the first: no listing is sent and the second is still marked. |
| Monitor.Prune | cogs/monitor.py:208-220 | The corrected cleanup keeps exactly the marked members still in the guild, with their scopes. |
| Monitor.PruneIdempotent | cogs/monitor.py:208-229 | Listing again removes nobody more. When everyone is present nothing is removed. |
| Monitor.MonitorCog.constructor | cogs/monitor.py:8-30 | The cog starts with the file's marks, or none. |
| Monitor.MonitorCog.SavedState | cogs/monitor.py:32-36 | The document written reads back to the cog's marks. |
| Monitor.MonitorCog.OnMessage | cogs/monitor.py:41-60 | The decision is `Replaces`. A bot's message is never replaced. A replaced message comes from a guild that holds the author in its map, and the mark is everywhere or this channel. A non-bot message from an author marked everywhere in a monitored guild is always replaced. |
| Monitor.MonitorCog.MonitorUser | cogs/monitor.py:97-110 | The guild entry is created if absent, and the member's scope is set, overwriting any earlier one. |
| Monitor.MonitorCog.UnmonitorUser | cogs/monitor.py:136-148 | The member is removed if marked and the guild entry dropped once empty. Otherwise nothing changes. |
| Monitor.MonitorCog.ListMonitored | cogs/monitor.py:184-229 | A guild without marks gets no listing and no change. Otherwise the departed members are unmarked and the rest are listed. |
| Monitor.MonitorCog.ClearAllMonitors | cogs/monitor.py:239-244 | The guild's whole entry is deleted and its previous size reported. A guild without one reports nothing. |
| Decimal.ParseShow | cogs/counting.py:261-262 | `int(str(n)) == n` for every integer. |
| Decimal.StrictIntegerIffCanonical | cogs/counting.py:261-262 | A text passes the strict test (`int()` succeeds and `str()` gives the text back) exactly when it is canonical decimal. |
| Decimal.ShowInjective | cogs/leveling.py:55 | `str()` is injective on integers, so keys written as `str(id)` never collide. |
| StaffList.DefaultsWellFormed | cogs/stafflist.py:12-38 | The ten target roles are pairwise distinct, and each has a weight in the default hierarchy. |
| StaffList.WeightIn | cogs/stafflist.py:205 | A role's weight is its hierarchy entry, or 999 when it has none. |
| StaffList.Collect | cogs/stafflist.py:199-206 | The collected entries are exactly the target roles the guild has (with members, for the full list), with their names, members and weights. |
| StaffList.SortSorted | cogs/stafflist.py:209 | The roles come out in ascending weight. |
| StaffList.SortPermutes | cogs/stafflist.py:209 | Sorting changes only the order of the roles. |
| StaffList.SortStable | cogs/stafflist.py:209 | Roles of equal weight keep their order, as Python's `sorted` does. |
| StaffList.UniqueIds | cogs/stafflist.py:235 | The unique members of a role are its members not already listed. |
| StaffList.UniqueAll | cogs/stafflist.py:235 | The filter drops nobody exactly when no member's id was listed before. |
| StaffList.UniqueMember | cogs/stafflist.py:235 | A member is kept exactly when they are in the role's members and their id was not listed before. |
| StaffList.DedupPlacement | cogs/stafflist.py:230-242 | A member appears under role i exactly when they are in its members, not listed earlier, and in no earlier role. |
| StaffList.ListedOnce | cogs/stafflist.py:230-242 | No member appears under two roles. |
| StaffList.TotalIsUnion | cogs/stafflist.py:244 | The staff total equals the number of distinct members over all roles. |
| StaffList.CompactCountsDiffer | cogs/stafflist.py:333-337 | A compact line shows both counts exactly when the role shares a member with an earlier role. |
| StaffList.Truncate | cogs/stafflist.py:250-263 | A list longer than its limit is cut to its first entries plus the marker. A shorter list is kept whole. |
| StaffList.ViewsShowFirst | cogs/stafflist.py:250-263 | The detailed view shows the first 10 members then "... and k more". The simple view shows the first 15 then "... +k more". |
| StaffList.FieldsCount | cogs/stafflist.py:237-238 | The list has one field per role with at least one unique member: the other roles are skipped. |
| StaffList.MarkListed | cogs/stafflist.py:241-242 | The loop adds exactly the ids of the unique members to the listed set. |
| StaffList.DedupRoles | cogs/stafflist.py:230-244 | The listing loop yields the de-duplicated roles `Dedup(roles, {})` and their total. |
| StaffList.StaffCog.constructor | cogs/stafflist.py:8-38 | The cog starts with the ten target roles and the default weights. |
| StaffList.StaffCog.StaffListing | cogs/stafflist.py:188-275 | With no role found the reply is "no staff". Otherwise it gives the fields of the sorted, de-duplicated roles and the total. |
| StaffList.StaffCog.StaffListCompact | cogs/stafflist.py:286-343 | The compact description has one line per target role the guild has, in weight order. Each line comes from that role's full and de-duplicated members, and the total is the number of de-duplicated members. |
| StaffList.StaffCog.UpdateHierarchy | cogs/stafflist.py:383-406 | A weight is set exactly for an id in the target roles. Otherwise the hierarchy is unchanged. |
| Suggestions.ParseSuggest | cogs/suggestions.py:59-79 | An empty suggestion gets the help reply. A leading `-anon ` marks it anonymous and strips exactly those 6 characters. Any other text is kept whole and not anonymous. |
| Suggestions.ParseAnonymous | cogs/suggestions.py:76-79 | `-anon ` followed by t is t, anonymous. |
| Suggestions.Configure | cogs/suggestions.py:294-297 | Setup sets the channel. It sets `use_threads` exactly for mode "threads", and `use_forum` exactly for mode "forum" or a forum channel. The other settings are kept. |
| Suggestions.SetupRoute | cogs/suggestions.py:169-216 | After setup a forum channel gets forum posts. Otherwise mode "threads" gives threaded messages and any other mode, including "forum" on a text channel, plain messages. |
| Suggestions.NewRecord | cogs/suggestions.py:126-135 | A new record has the given id, author, guild and text, and status "pending". It keeps the author's display name and the timestamp. It has the message id `message` unless a forum post failed, and the created thread's id exactly when one was created. |
| Suggestions.NextIdOf | cogs/suggestions.py:39-43 | The next id is 1 with no suggestions, otherwise the largest id plus 1. |
| Suggestions.SuggestionsCog.constructor | cogs/suggestions.py:9-22 | The cog starts from the saved store, with the next id computed from its ids. |
| Suggestions.SuggestionsCog.ServerSettings | cogs/suggestions.py:45-51 | An unseen guild gets the default settings stored. A known guild's settings are returned unchanged. |
| Suggestions.SuggestionsCog.CreateSuggestion | cogs/suggestions.py:83-225 | A submission without a channel set, or with the channel gone, is refused with no id consumed. Otherwise it takes the next id, stores a fresh "pending" record under it, and advances the counter. |
| Suggestions.SuggestionsCog.Setup | cogs/suggestions.py:266-297 | A missing channel gets the help reply and a channel of another kind is refused, both with no change. Otherwise the guild's settings become `Configure`. |
| Suggestions.SuggestionsCog.SetStatus | cogs/suggestions.py:332-344 | An existing suggestion's status becomes the lower-cased text. An unknown id changes nothing. |
| Suggestions.SuggestionsCog.RemoveSuggestion | cogs/suggestions.py:401-421 | A moderator removal deletes exactly that id, whoever wrote it. |
| Suggestions.SuggestionsCog.DeleteOwnSuggestion | cogs/suggestions.py:435-475 | An unknown id is not found, and somebody else's suggestion is refused. Only the author deletes exactly that id. |
| Suggestions.TwoSubmissions | cogs/suggestions.py:121-123 | Two submissions in a row get consecutive ids, neither in use before, and both are stored. |
| Rules.DiscordDefaultCounts | cogs/rules.py:14-121 | The default Discord list has 15 sections holding 28 rules. |
| Rules.MinecraftDefaultCounts | cogs/rules.py:123-174 | The Minecraft list has 5 sections of 4 rules each. |
| Rules.EditRule | cogs/rules.py:294-298 | An edit succeeds exactly for a section and a rule number, both from 0, in range. It then changes exactly that rule. |
| Rules.AddRule | cogs/rules.py:363-366 | An add succeeds exactly for a section in range. It then appends the rule to the end of that section and changes nothing else. |
| Rules.EditAddTotals | cogs/rules.py:294-366 | An edit keeps the number of rules and an add raises it by one. |
| Rules.EditChangesOneLine | cogs/rules.py:209-210 | Editing a rule changes exactly its own bulleted line of the section text. |
| Rules.AddAppendsLine | cogs/rules.py:240-241 | Adding a rule appends a newline and one bulleted line to the section text. |
| Rules.RulesCog.constructor | cogs/rules.py:9-14 | The cog starts with the default lists and the configured channel, 0 when unset. |
| Rules.RulesCog.Edit | cogs/rules.py:294-298 | An edit in range replaces the rule in place and reports the old one. An edit out of range changes nothing. |
| Rules.RulesCog.Add | cogs/rules.py:363-391 | An add in range appends the rule and reports its position, the new length counted from 1. An add out of range changes nothing. |
| Rules.RulesCog.Info | cogs/rules.py:552-569 | The info reports, for each list as it stands after any edits, the number of sections and the total number of rules over its sections. |

## Left out

- JSON persistence (the load and save of every cog's file) is not modelled. Each cog's state is in memory, and the monitor key round trip stands for the rest.
- Dictionary keys written as `str(id)` are modelled by the ids themselves; `Decimal.ShowInjective` shows no two ids share a key.
- The two copies of the user ledger are not modelled. `gambling.py` re-reads `levels_data.json` on every call while `leveling.py` keeps a cached copy, so updates across the two cogs can be lost. The model has one shared ledger.
- A game being a different dict object per call, the 300-second view lifetime and `interaction_check` are UI concerns. Timeouts are events (`BlackjackTimeout`, `HighLowTimeout`).
- Embeds, messages, DMs, webhooks, reactions and role grants are output, left out.
  - The reaction-role handlers return the role they would add or remove.
  - The monitor's webhook replacement is reduced to the decision `Replaces`.
- The coinflip and wheel games are not modelled. The wheel uses float cumulative probabilities. The coinflip reply shows a balance with the bet subtracted twice.
- Blackjack split is not modelled: `can_split` exists in the source, but no handler splits.
- Floats:
  - `int(150 * n ** 1.5)` is modelled exactly as the integer square root of `22500 * n^3`.
  - The multipliers 1.1, 1.25, 1.5, 2.5 and 7.2 are exact fractions.
  - The progress-bar percentage of the rank card is not modelled.
- Blackjack.NaturalWin: `(5 * bet) / 2` equals the source's `int(bet * 2.5)` only for non-negative bets; every bet that reaches it is at least 10.
- The rank command's server rank and the leaderboard's sort order and rendering are not modelled. Only the page clamping and the window are.
- `scan_roles` and `xp_levels` are read-only reports, not modelled.
- `profile_bg` and `rank_bg` are never read and are not modelled.
- Non-ASCII digits in `int()`/`isdigit()` and non-ASCII case in `lower()` are not modelled: `Util` treats only ASCII digits and letters. Whitespace is the full set `str.strip()` and `int()` remove, so `7` followed by an ideographic space counts.
- Counting: `default_settings.copy()` is shallow, so in the source new guilds share one leaderboard dict and one violation dict. The model gives each guild its own maps.
- Counting: the record is typed after migration. Stored values of the wrong type are not modelled.
- Counting: the milestone message, the reactions, deleting wrong messages and the platform timeout are output. The outcome records which apply.
- Counting: `counting_stats`, `counting_leaderboard`, `show_violations`, `counting_settings` and `counting_help` are read-only reports, not modelled.
- Casino.Casino.CashOut: pays the corrected `CashOutPayout`, which keeps the 5x rate above a streak of 6. The source's `.get(streak, 1.0)` pays 1x there; that behaviour is `CashOutAsWritten`, shown in `Blackjack.AsWrittenLongStreakPaysLess`.
- ReactionRoles.ReactionRoleCog.Add: stores the binding under the corrected key `CommandKey(arg)`, the id for a custom emoji. The source stores it under the raw text `<:name:id>`, which `CommandKeyAsWritten` models and `CustomEmojiNeverMatchesAsWritten` shows never matches a reaction.
- ReactionRoles.ReactionRoleCog.Remove: looks the binding up and deletes it under the corrected key `CommandKey(arg)`. The source uses the raw text argument, as `Add` does.
- Leveling voice time: the double credit of `VoiceMinutesCountedTwice` is kept as the source has it, because the intended split between the minute tick and the credit on leaving is not evident from the code.
- Leveling.Levels.OnVoiceStateUpdate: in a guild with no text channels, `member.guild.text_channels[0]` at cogs/leveling.py:213 raises IndexError after the minutes are credited, so on_voice_state_update skips the level check and keeps the session. The model always deletes the session, because the channel lookup is platform glue.
- Reaction roles: the `create` and `panel` commands and the platform lookups (fetching the message, the role comparison, adding the reaction) are not modelled. Their outcomes are parameters of `ReactionRoleCog.Add`.
- Monitor: a file that does not read back becomes the empty map, as the source's exception handler does.
- Monitor: `Load` accepts only keys in the canonical form `str()` writes. `int()` would also accept forms such as " 7" or "+7", which `save_data` never writes.
- Monitor: the one-time `empty` command and `empty_help` are not modelled: they are message history scans and output.
- Monitor.MonitorCog.ListMonitored: models the evidently intended cleanup (`Prune`); the dict's iteration order, which decides where the source stops, is not modelled.
- Staff list: `extract_users`, its file formats and `list_target_roles` are read-only reports, not modelled. The status emoji and display names appear only as text.
- StaffList.TotalIsUnion: assumes the platform never reports a member twice in one role's member list.
- StaffList.Collect: assumes the target list has no repeated id, as the constant list has (`DefaultsWellFormed`). With a repeat the source's dict keeps one entry and the model two.
- Suggestions: `anonymous_allowed` and `auto_reactions` are stored but never consulted by the source, so the model only stores them.
- Suggestions: `suggestion_info` is a read-only report, and `_delete_suggestion_content` only talks to the platform. Neither is modelled.
- Suggestions: the confirmation text follows `use_forum` even when the post went out as a plain message. It is output, not modelled.
- Suggestions: `get_next_id` recomputes the next id at start, so after a restart an id whose suggestion was deleted as the newest can be handed out again.
- Rules: `setup_rules`, `rules_setup`, `rules_refresh` and `rules_help` post, purge and scan the rules channel, and are not modelled. Edits live in memory only, as in the source, and the Minecraft list is never edited.
- Other cogs are not part of this model. `cogs/archive.py` is left out although its header round trip is lossy: `.title()` never gives back "UNCATEGORIZED".

## Findings

| source | as written | input that shows it | evidently intended | confidence | as-written member | corrected member |
|---|---|---|---|---|---|---|
| cogs/reactionroles.py:28-33 | `add` receives the emoji as text, so a custom emoji is stored under `<:name:id>`. Reaction events are looked up by `str(emoji.id)`. | `rr add <msg> <:hype:123> @Role`, then a member reacts with that emoji: the lookup uses "123" and finds nothing | store a custom emoji under its id (as `list_reaction_roles`'s `isdigit()` check expects) | not executed | ReactionRoles.CustomEmojiNeverMatchesAsWritten | ReactionRoles.CommandKeyMatchesEvents |
| cogs/monitor.py:208-220 | `list_monitored` deletes a departed member from the dict it is iterating over. The next iteration step raises, so the command fails before saving or replying. | a guild with two marked members who both left | drop every departed member and send the listing | not executed | Monitor.ListAsWrittenKeepsDeparted | Monitor.PruneIdempotent |
| cogs/gambling.py:246 | `highlow_multipliers.get(streak, 1.0)` pays 1.0× for any streak above 6, less than the 1.1× of a 1-streak. | cash out 100 credits at a streak of 7: pays 100, a streak of 6 pays 500 | keep the top rate (5.0×) for longer streaks | not executed | Blackjack.AsWrittenLongStreakPaysLess | Blackjack.CashOutMonotone |
