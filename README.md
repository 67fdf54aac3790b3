# CoinSalary salary engine, modelled in Dafny

CoinSalary is a Bukkit server plugin. It pays players a periodic salary in
the CoinCard currency. Each permission group has a configured rate. A
player's salary is the sum of the rates of the groups the permission service
reports for them; a player without groups falls back to the "default" group.

A periodic task goes over the candidates: online players, or everyone who has
played before when offline pay is on. It gates each candidate on a per-player
cooldown ledger and computes the salary. It checks that the player and the
server have cards and looks up the player's card id. It then appends a
payment task to a queue. One consumer thread drains that queue, one transfer
at a time, with a fixed pause between transfers.

Administrators can:
- force a run that ignores the cooldown (`/salary next`);
- pay one player by hand (`/salary pay`);
- edit the rate table (`/salary group`);
- inspect a player's cooldown (`/salary check`) and the queue (`/salary queue`);
- reload everything (`/salary reload`).

The model covers the decision and disbursement core of
`src/com/foxsrv/coinsalary/CoinSalary.java`, one Dafny module per component:

| file | module | what it models |
|---|---|---|
| `decimals.dfy` | `Decimals` | BigDecimal amounts (unscaled value and scale), exact addition, sign |
| `text.dfy` | `Text` | ASCII lower-casing, `Long.toString`, digit strings |
| `players.dfy` | `Players` | player identities (UUID, name, online, played-before) |
| `coin_format.dfy` | `CoinFormat` | `formatCoin`: `DecimalFormat("0.########")`, rounding down, ".0" suffix |
| `time_format.dfy` | `TimeFormat` | `formatTime`: the four duration buckets |
| `ledger.dfy` | `Ledger` | the cooldown ledger `lastSalaryTime` and `lastTaskRun`, its gate and its file loading |
| `rate_table.dfy` | `RateTable` | the group rate table `groupSalaries` and the `/salary group` command |
| `salary.dfy` | `Salary` | group fallback and the salary sum |
| `caches.dfy` | `Caches` | the card-id cache (5 minutes) and the offline groups cache (10 minutes) |
| `payment_queue.dfy` | `PaymentQueue` | payment tasks and the queue consumer, run sequentially |
| `queue_race.dfy` | `QueueRace` | the start/stop handshake of the consumer, as interleavings |
| `scheduler.dfy` | `Scheduler` | the per-recipient chain, the periodic, forced and manual runs, reload |
| `views.dfy` | `Views` | the cooldown lines of `/salary check` and the `/salary queue` estimate |
| `completion.dfy` | `Completion` | the tab-completion prefix filter |

Modelling choices:
- Amounts are exact decimals shaped like `java.math.BigDecimal`. Configured
  rates are the values `BigDecimal.valueOf(double)` produces: 0.0 has scale 1,
  5.5E-7 is 55 at scale 8. The scale is a natural number, so a rate of
  1.0E7 or more, which `BigDecimal.valueOf` gives a negative scale (1.0E7
  is 10 at scale -6), enters with the same value at scale 0. No modelled
  result depends on that scale: the salary is compared with zero by value,
  and the rendering strips trailing zeros, so it depends only on the value.
- The clock is an explicit `now` argument. One recipient's chain reads it
  once, and so does each run.
- The outside services are arguments: the permission service's group list,
  the card service's has-card answer, the transfer outcome, and the card
  id, given twice because the source asks for it twice: once in the
  has-card check (`CoinSalary.java:398`) and once in the id lookup
  (`CoinSalary.java:368`).
- The mutable maps of the plugin are fields of classes whose methods update
  them in place and are proved against specification functions.
- `lastSalaryTime` and `lastTaskRun` live in `CooldownLedger`.
- `groupSalaries` lives in `GroupRateTable`.
- The caches live in `CardCache` and `GroupsCache`, the queue in `PaymentQueue`.

## Model

| member | source | states |
|---|---|---|
| `Decimals.AddAssociates` | src/com/foxsrv/coinsalary/CoinSalary.java:507-517 | the salary loop's additions can be regrouped freely: BigDecimal addition is associative, scales included |
| `Decimals.AddMonotone` | src/com/foxsrv/coinsalary/CoinSalary.java:507-517 | adding a non-negative rate keeps a non-negative total non-negative and a positive total positive |
| `Text.Lower` | src/com/foxsrv/coinsalary/CoinSalary.java:325 | lower-casing keeps the length and maps each character to its ASCII lower-case form |
| `CoinFormat.FormatCoinRoundTrip` | src/com/foxsrv/coinsalary/CoinSalary.java:848-857 | reading any amount's rendering back yields at most eight fraction digits, and the amount truncated toward zero to 10^-8 |
| `CoinFormat.TruncMagnitudeValue` | src/com/foxsrv/coinsalary/CoinSalary.java:141-143 | with at most eight fraction digits the magnitude is kept exactly; with more, the result scaled back up is the largest multiple of the dropped digits' power of ten not above the magnitude, so truncation is toward zero |
| `CoinFormat.FormatCoinShape` | src/com/foxsrv/coinsalary/CoinSalary.java:142-144 | every rendering has exactly one '.'; after it come one to eight digits with no trailing zero except the lone "0" of the ".0" suffix |
| `CoinFormat.FormatCoinNull` | src/com/foxsrv/coinsalary/CoinSalary.java:849-851 | a null amount renders as "0", the only rendering without a point |
| `TimeFormat.FormatTimeRoundTrip` | src/com/foxsrv/coinsalary/CoinSalary.java:859-874 | the rendering reads back as the duration truncated to the smallest unit shown: seconds below an hour, minutes below a day, hours beyond |
| `TimeFormat.FormatTimeMinorBounded` | src/com/foxsrv/coinsalary/CoinSalary.java:861-873 | below a minute there is one token; above it the second token is a proper remainder, under 60 or under 24 for hours |
| `Players.UuidsOf` | src/com/foxsrv/coinsalary/CoinSalary.java:791 | the UUIDs of a list of players, position by position |
| `Ledger.GateEffect` | src/com/foxsrv/coinsalary/CoinSalary.java:793-805 | an ineligible player leaves the ledger unchanged and an eligible one is stamped with now; nobody else changes; exactly the interval elapsed is eligible, one millisecond less is not |
| `Ledger.PeriodicStampsEffect` | src/com/foxsrv/coinsalary/CoinSalary.java:729-745 | after a periodic run each candidate holds now if it was eligible and its old stamp otherwise, even when listed twice; other players keep their stamps |
| `Ledger.ForcedStampsEffect` | src/com/foxsrv/coinsalary/CoinSalary.java:750-781 | after a forced run every candidate holds now and every other player keeps its stamp |
| `Ledger.MergeEntriesEffect` | src/com/foxsrv/coinsalary/CoinSalary.java:198-231 | loading never drops a player; a player is present iff it was before or the file has a valid entry; the last valid entry wins |
| `Ledger.CooldownLedger.CheckAndStamp` | src/com/foxsrv/coinsalary/CoinSalary.java:793-805 | answers whether the player is eligible and applies the gate to the ledger |
| `Ledger.CooldownLedger.Stamp` | src/com/foxsrv/coinsalary/CoinSalary.java:1303-1307 | records now for one player and changes nothing else |
| `Ledger.CooldownLedger.Load` | src/com/foxsrv/coinsalary/CoinSalary.java:198-231 | a parsed file merges its valid entries; no file or an unreadable one keeps the ledger; lastTaskRun becomes the file's value or 0 |
| `Ledger.CooldownLedger.RecordTaskRun` | src/com/foxsrv/coinsalary/CoinSalary.java:699-701 | records the time of the last run and nothing else |
| `RateTable.GroupRateTable.Load` | src/com/foxsrv/coinsalary/CoinSalary.java:321-328 | rebuilding the table from the configuration yields the loaded-rates table with lower-case keys |
| `RateTable.GroupRateTable.Save` | src/com/foxsrv/coinsalary/CoinSalary.java:334-338 | stores the rate under the lower-cased group name and changes no other entry |
| `RateTable.GroupRateTable.Remove` | src/com/foxsrv/coinsalary/CoinSalary.java:343-347 | drops exactly the lower-cased group name |
| `RateTable.GroupRateTable.Get` | src/com/foxsrv/coinsalary/CoinSalary.java:511 | a lookup by any spelling finds exactly the rate stored under the lower-cased name, and nothing when that name has no rate |
| `RateTable.GroupRateTable.HandleGroupCommand` | src/com/foxsrv/coinsalary/CoinSalary.java:1087-1153 | the reply and the new table are those of the group command's decision tree: usage, list, show, remove, invalid, negative, set |
| `RateTable.LoadedRatesKeys` | src/com/foxsrv/coinsalary/CoinSalary.java:321-328 | the loaded table's keys are exactly the lower-cased configured group names |
| `RateTable.LoadedRatesValues` | src/com/foxsrv/coinsalary/CoinSalary.java:321-328 | a group gets the rate of the last configured group with the same lower-cased name |
| `RateTable.SpellingsShareEntry` | src/com/foxsrv/coinsalary/CoinSalary.java:335 | any spelling of a group name reads, writes and removes the same entry |
| `RateTable.GroupCommandIgnoresCase` | src/com/foxsrv/coinsalary/CoinSalary.java:1094-1128 | the group command is insensitive to the case of the group name and of the keywords |
| `RateTable.GroupCommandTouchesOneKey` | src/com/foxsrv/coinsalary/CoinSalary.java:1110-1150 | the command changes at most the entry of the named group |
| `RateTable.RemoveKeywordRemoves` | src/com/foxsrv/coinsalary/CoinSalary.java:1127-1136 | "0" or "remove", in any case, removes the named group, or reports it missing |
| `RateTable.ZeroPointZeroSets` | src/com/foxsrv/coinsalary/CoinSalary.java:1127-1150 | "0.0" is not the remove keyword: it stores a zero rate |
| `RateTable.GroupCommandKeepsNonNegative` | src/com/foxsrv/coinsalary/CoinSalary.java:1141-1145 | the command never stores a negative rate; a negative amount is rejected and leaves the table unchanged |
| `RateTable.GroupCommandKeepsKeysLower` | src/com/foxsrv/coinsalary/CoinSalary.java:1110 | every change the command makes keeps the keys lower-case |
| `Salary.ResolveGroups` | src/com/foxsrv/coinsalary/CoinSalary.java:482-484 | reported groups are kept; an empty list becomes ["default"] iff "default" has a rate, otherwise stays empty |
| `Salary.CalculateSalary` | src/com/foxsrv/coinsalary/CoinSalary.java:503-518 | the loop, looking each group up in the rate table, totals the left fold of the rates of the groups that have one |
| `Salary.SalaryOfAppend` | src/com/foxsrv/coinsalary/CoinSalary.java:507-517 | the salary of a concatenation of group lists is the exact sum of their salaries |
| `Salary.UnknownGroupAddsNothing` | src/com/foxsrv/coinsalary/CoinSalary.java:511-514 | a group without a rate contributes nothing wherever it appears |
| `Salary.SalaryOfPermutation` | src/com/foxsrv/coinsalary/CoinSalary.java:507-517 | the order in which the permission service lists the groups does not change the salary |
| `Salary.DefaultFallback` | src/com/foxsrv/coinsalary/CoinSalary.java:482-484 | a player without groups earns exactly the "default" rate, or zero when there is none |
| `Salary.SalaryNonNegative` | src/com/foxsrv/coinsalary/CoinSalary.java:507-517 | with non-negative rates the salary is never negative |
| `Salary.VipAdminExample` | src/com/foxsrv/coinsalary/CoinSalary.java:301-318 | with the default vip and admin rates, a VIP, Admin and Member player earns 0.00100055 |
| `Caches.CardCacheExpiry` | src/com/foxsrv/coinsalary/CoinSalary.java:356-378 | a cached card id is served from its storing until just before five minutes have passed: at 299999 ms it is served, at 300000 ms not |
| `Caches.GroupsCacheScope` | src/com/foxsrv/coinsalary/CoinSalary.java:416-431 | online players never get cached groups; offline ones get them for under ten minutes |
| `Caches.CardCache.GetCardId` | src/com/foxsrv/coinsalary/CoinSalary.java:356-378 | a fresh cached id is returned untouched; otherwise the service's answer is returned and cached only when non-empty |
| `Caches.CardCache.HasCard` | src/com/foxsrv/coinsalary/CoinSalary.java:383-406 | any cached entry, whatever its age, answers yes; otherwise the service decides, and a found non-empty id is cached |
| `Caches.CardCache.Invalidate` | src/com/foxsrv/coinsalary/CoinSalary.java:901-902 | drops exactly the player's cached id and time |
| `Caches.GroupsCache.Resolve` | src/com/foxsrv/coinsalary/CoinSalary.java:416-499 | the groups are the fresh cached list or the service's answer after the fallback; only offline players' answers are cached |
| `Caches.GroupsCache.Invalidate` | src/com/foxsrv/coinsalary/CoinSalary.java:903-904 | drops exactly the player's cached groups and time |
| `Caches.OnJoin` | src/com/foxsrv/coinsalary/CoinSalary.java:897-910 | a joining player's entries leave all four cache maps and nothing else changes |
| `PaymentQueue.MakeTask` | src/com/foxsrv/coinsalary/CoinSalary.java:98-104 | a task carries the player's UUID, online flag, amount and card id, and its name or "Unknown" |
| `PaymentQueue.PauseAfter` | src/com/foxsrv/coinsalary/CoinSalary.java:595-606 | the pause after a transfer is the cooldown, or zero when the transfer threw or the cooldown is negative |
| `PaymentQueue.TransfersOfTasks` | src/com/foxsrv/coinsalary/CoinSalary.java:577-598 | draining performs exactly the given tasks, in order |
| `PaymentQueue.PaymentQueue.Enqueue` | src/com/foxsrv/coinsalary/CoinSalary.java:556-563 | appends the task and leaves the consumer running, keeping the no-loss invariant |
| `PaymentQueue.PaymentQueue.Step` | src/com/foxsrv/coinsalary/CoinSalary.java:577-598 | on an empty queue the consumer stops; otherwise it transfers the head task and logs its outcome and pause |
| `PaymentQueue.PaymentQueue.Drain` | src/com/foxsrv/coinsalary/CoinSalary.java:576-608 | running the consumer to its end transfers every waiting task in order, after which every queued task has been transferred |
| `PaymentQueue.DispatchOrder` | src/com/foxsrv/coinsalary/CoinSalary.java:81 | tasks leave in arrival order: the transferred ones are a prefix of all tasks queued and the waiting ones are the rest |
| `QueueRace.AsWrittenStrandsTask` | src/com/foxsrv/coinsalary/CoinSalary.java:568-590 | as written, one interleaving ends with a task waiting, the flag down and no consumer, and no consumer step can move it |
| `QueueRace.CorrectedStepKeepsInvariant` | src/com/foxsrv/coinsalary/CoinSalary.java:568-590 | with check and clear under the same lock as the start, every step keeps "the flag is up iff a consumer exists, and no task waits unattended" |
| `QueueRace.CorrectedNeverStrands` | src/com/foxsrv/coinsalary/CoinSalary.java:568-590 | corrected, no interleaving from a good state strands a task |
| `Scheduler.Candidates` | src/com/foxsrv/coinsalary/CoinSalary.java:732-744 | a run considers exactly the players who have played before (offline pay) or are online |
| `Scheduler.SalaryStage` | src/com/foxsrv/coinsalary/CoinSalary.java:808 | the chain's salary is the salary of the groups the groups cache yields; an offline player without fresh cached groups gets that answer and now stored, and otherwise the groups cache is unchanged |
| `Scheduler.CardStage` | src/com/foxsrv/coinsalary/CoinSalary.java:812-839 | the card checks run in the source's order: NoCard exactly when there is no cached id and the card service knows no card; then NoServerCard exactly when the server card is empty; a task is queued exactly when the card id exists and is not empty, and it pays the salary to that id, which is the fresh cached id, else the id the has-card check has just cached, else the id lookup's own answer; the card cache stores the id the has-card check got, or else the one the lookup got, exactly when it is non-empty and that call reached the service; the queue gains exactly the queued task |
| `Scheduler.LookupStage` | src/com/foxsrv/coinsalary/CoinSalary.java:827-839 | the id is the fresh cached one or else the service's answer, which is cached when non-empty; a payment of the salary to it is queued exactly when it is a non-empty id, and otherwise nothing is queued |
| `Scheduler.UncachedCardSource` | src/com/foxsrv/coinsalary/CoinSalary.java:383-406 | for a player with no cached id whom the card service knows, the payment goes to the id the has-card check got; when that was no id, the lookup asks again and pays and caches its answer; with no id from either, nothing is paid |
| `Scheduler.PayChain` | src/com/foxsrv/coinsalary/CoinSalary.java:807-842 | the outcome is the chain's decision on the caches as they were (no payment iff the salary is not positive, then the card checks of `CardStage`); the caches become the chain's updated caches; the queue gains exactly the queued task |
| `Scheduler.ProcessRecipient` | src/com/foxsrv/coinsalary/CoinSalary.java:788-843 | with the cooldown checked, exactly the ineligible players are dropped with nothing changed and the eligible ones are stamped before paying; every other outcome and the new caches are the chain's decision; the queue gains exactly the queued task |
| `Scheduler.PeriodicRun` | src/com/foxsrv/coinsalary/CoinSalary.java:697-745 | the candidates are the players the run considers; each result is the candidate's step from the state the earlier candidates left; the cooldown holds back exactly the candidates not eligible after the earlier stamps; a candidate met for the first time gets the chain's decision on the state before the run; the ledger becomes the periodic stamps of the candidates and lastTaskRun becomes now; the queue gains the queued tasks in the order of the results |
| `Scheduler.ForceRun` | src/com/foxsrv/coinsalary/CoinSalary.java:713-781 | every candidate is stamped with now and nobody is held back by the cooldown; each result is the candidate's step from the state the earlier candidates left, and a candidate met for the first time gets the chain's decision on the state before the run; lastTaskRun becomes now; the queue gains the queued tasks in the order of the results |
| `Scheduler.RunOne` | src/com/foxsrv/coinsalary/CoinSalary.java:750-781 | one candidate of a run: a forced run stamps it with now and skips the cooldown; the result and the new ledger and caches are that candidate's step; the queue gains exactly the queued task |
| `Scheduler.RunAll` | src/com/foxsrv/coinsalary/CoinSalary.java:734-743 | the candidate loop: each result is the candidate's step from the state the earlier candidates left, the final ledger and caches are those the steps fold to, and the queue gains the queued tasks in the order of the results |
| `Scheduler.DecisionLocal` | src/com/foxsrv/coinsalary/CoinSalary.java:807-842 | the chain reads only the player's own cache entries: two cache states that agree on them give the same outcome |
| `Scheduler.ViewAfterAgree` | src/com/foxsrv/coinsalary/CoinSalary.java:807-842 | two cache states that agree on the player's entries still agree on them after the chain |
| `Scheduler.ViewAfterLocal` | src/com/foxsrv/coinsalary/CoinSalary.java:807-842 | the chain writes only the player's own cache entries |
| `Scheduler.RunLedger` | src/com/foxsrv/coinsalary/CoinSalary.java:729-781 | the ledger a run leaves is the periodic stamps of its candidates, or the forced stamps for a forced run |
| `Scheduler.RunLocal` | src/com/foxsrv/coinsalary/CoinSalary.java:729-781 | a run changes no cache entry of a player it does not consider |
| `Scheduler.RunFirstVisit` | src/com/foxsrv/coinsalary/CoinSalary.java:788-843 | the first time a run reaches a player, its result is decided from the state before the run: the cooldown on the old ledger unless forced, otherwise the chain on the old caches |
| `Scheduler.RunGate` | src/com/foxsrv/coinsalary/CoinSalary.java:793-805 | in a periodic run the cooldown holds back exactly the candidates the ledger, stamped by the earlier candidates, does not let through; a forced run holds back nobody; a queued payment fits its candidate |
| `Scheduler.RunStepResult` | src/com/foxsrv/coinsalary/CoinSalary.java:788-805 | one candidate's step reports the cooldown exactly when the run is periodic and the ledger does not let the player through, and a queued payment fits the player |
| `Scheduler.RunOutcomesHold` | src/com/foxsrv/coinsalary/CoinSalary.java:729-781 | the results a run computes keep its candidate-by-candidate promises: the cooldown as in `RunGate` and first visits as in `RunFirstVisit` |
| `Scheduler.ManualPay` | src/com/foxsrv/coinsalary/CoinSalary.java:1260-1316 | the outcome and the new caches are the chain's, with no cooldown and no server-card check; the player is stamped exactly when a payment is queued; the queue gains exactly that task |
| `Scheduler.Reload` | src/com/foxsrv/coinsalary/CoinSalary.java:1055-1067 | the rate table is rebuilt from the configuration; the ledger merges the saved file without losing players; lastTaskRun becomes the file's value, or 0 when the file has none or cannot be read |
| `Scheduler.QueuedTasksAppend` | src/com/foxsrv/coinsalary/CoinSalary.java:734-743 | the tasks of a list of results are those of its parts, in the order the results are listed |
| `Scheduler.SecondRunWaits` | src/com/foxsrv/coinsalary/CoinSalary.java:799-804 | with a positive interval, a second periodic run at the same time finds nobody the first one stamped eligible |
| `Views.WholeSeconds` | src/com/foxsrv/coinsalary/CoinSalary.java:1191 | milliseconds become whole seconds truncated toward zero, as Java's long division by 1000 does, for both signs |
| `Views.ReadinessMatchesGate` | src/com/foxsrv/coinsalary/CoinSalary.java:1190-1205 | the check command prints two lines, and "Ready for payment!" exactly when the periodic gate would let the player through |
| `Views.QueueEstimateReads` | src/com/foxsrv/coinsalary/CoinSalary.java:1075-1085 | the estimate appears iff the queue is non-empty; for any cooldown, negative included, it reads back as the queue length times the cooldown in whole seconds, truncated toward zero and then to the unit its bucket shows |
| `Completion.Matching` | src/com/foxsrv/coinsalary/CoinSalary.java:1366-1372 | the kept suggestions are among the given ones and match the token, ignoring case |
| `Completion.FilterMembership` | src/com/foxsrv/coinsalary/CoinSalary.java:1366-1372 | a suggestion survives a non-empty token iff it is offered and starts with the token, ignoring case |
| `Completion.FilterAppend` | src/com/foxsrv/coinsalary/CoinSalary.java:1366-1372 | filtering keeps the order of the suggestions |
| `Completion.FilterCaseInsensitive` | src/com/foxsrv/coinsalary/CoinSalary.java:1368 | tokens that differ only in case select the same suggestions |
| `Completion.FilterIdempotent` | src/com/foxsrv/coinsalary/CoinSalary.java:1366-1372 | filtering twice with the same token is filtering once |

## Left out

- Bukkit glue is not modelled: plugin start and stop, command dispatch, permission checks, chat messages, logging, and scheduling the periodic task every interval. The runs are modelled from the moment the task fires.
- Reading and writing files is not modelled: the Gson reading of `last_salary.json` is the `LedgerFile` argument, and `saveLastSalaryData` is left out. The `lastPayments` map of `LastSalaryData` only mirrors the ledger for saving and is left out.
- Conversions of `double` are not modelled: configured rates enter as the decimals `BigDecimal.valueOf` yields. The transfer's double amount is not modelled either.
- `new BigDecimal(String)` and the `,` to `.` replacement of `/salary group` are not modelled: the parsed amount is an argument (`None` when the parser throws).
- Finding players by name (`findPlayer`), the completion lists themselves, `/salary test`, `calculateSalarySync` and `getPlayerGroupsSync` are not part of this model. `/salary check` is modelled only for its cooldown lines.
- Threads and `CompletableFuture` are modelled only through the outcome of a transfer: succeeded, failed, timed out after the 10 s reply wait, or thrown. The consumer runs sequentially in `PaymentQueue`; the start/stop handshake is modelled separately in `QueueRace`.
- Thread interrupts and executor shutdown are not modelled. In the source an interrupt ends the consumer loop with `isProcessingQueue` still up (`CoinSalary.java:600-603`). An interrupt during the reply wait re-raises itself (`CoinSalary.java:679-682`), so the next sleep throws the same way. Tasks queued after that wait with no consumer, as in the race under "## Findings"; `PaymentQueue` has no such outcome.
- `isProcessingQueue` is not volatile. Its memory-visibility effects are not modelled; `QueueRace` treats every step as atomic and visible.
- Each run and each recipient chain reads the clock once (`now`). In the source, each chain reads `System.currentTimeMillis()` separately.
- The chains of a run are modelled one after the other, in candidate order, each finishing before the next starts. In the source only the cooldown gate runs in the loop; the rest of each chain continues asynchronously (`thenAccept`, `CoinSalary.java:808-842`). Tasks therefore reach the queue in the order the chains complete, which the model does not capture. `lastTaskRun` is recorded once the loop has launched the chains (`CoinSalary.java:699-701`, `717-719`), possibly before they finish. For distinct candidates the order changes no result and no final ledger or cache: the chain reads and writes only its own player's entries (`Scheduler.DecisionLocal`, `Scheduler.ViewAfterLocal`, `Scheduler.RunLocal`), so each first-visited candidate's result is the decision on the state before the run (`Scheduler.RunFirstVisit`).
- `Scheduler.PeriodicRun`, `Scheduler.ForceRun`: for a candidate listed twice in one run, the later result is stated against the state the earlier chain left (`Scheduler.ResultAt`). With asynchronous chains it could equally see the state before the earlier chain finished; the model does not cover that.
- A null `serverCardId` is not modelled; the server card is a string, and the empty string stands for the missing card.
- Null UUIDs and null players are not modelled (the early return at line 789).
- The payment a join triggers (`CoinSalary.java:906-909`) is `Scheduler.ProcessRecipient` with the cooldown checked. Its five-second delay is scheduling and is not modelled.
- `Text.Lower` covers ASCII letters only and ignores the locale. The source's `toLowerCase()` (`CoinSalary.java:325`, `335`, `344`, `511`) uses the server's default locale and also folds other scripts. Under a Turkish locale 'I' becomes a dotless 'ı', so "VIP" and "vip" name different groups there, while the model treats them as one. The completion filter (`CoinSalary.java:1368-1370`) lowers with `Locale.ROOT`, so the Turkish case does not arise there, but it still folds letters outside ASCII (É to é) while `Completion.Filter` does not; for suggestions or tokens with such letters the model can keep a different set of suggestions.
- `Views.QueueEstimateReads`: does not model the 64-bit overflow of `size * cooldownMs`.
- The configuration writes of `/salary group` (`saveGroupConfig` and `removeGroupConfig`, `CoinSalary.java:333-346`) are not modelled: `RateTable.GroupRateTable.Save` and `Remove` change only the in-memory table. The source writes the key `Groups.<name>` with the name the command lower-cased (`CoinSalary.java:1110`), so a key spelled with capitals in the file, such as `Groups.VIP`, is neither overwritten nor removed. The next `/salary reload` then reads that key again, and a removed rate comes back. `Scheduler.Reload` takes the configured groups as an argument and does not tie them to earlier commands.
- `Views.ReadinessMatchesGate`: does not model the 64-bit overflow of `salaryIntervalSeconds * 1000`, and requires a positive interval or a clock that has not gone back. Otherwise Java's truncating division puts a few sub-second negative gaps on the other side of the line.
- `Scheduler.ManualPay` stamps the ledger after queueing the task, whereas the source stamps it just before `queuePayment` in the same callback (`CoinSalary.java:1303-1307`). The two updates touch different state, so the order is not observable in the model.
- `Salary.VipAdminExample` states the sum as a decimal; that its rendering is "0.00100055" is covered only through `CoinFormat.FormatCoinRoundTrip`.
- Negative configured rates are not excluded: loading does not validate them (`CoinSalary.java:321-328`), so `Salary.SalaryNonNegative` assumes non-negative rates instead of deriving them. Only `/salary group` rejects a negative amount.
- `Caches.CardCache.HasCard` trusts a cached card of any age, as the source does (`CoinSalary.java:388-391`). Only `GetCardId` applies the five-minute limit.
- In offline-pay mode a player must have played before to be a candidate, even if they are online (`CoinSalary.java:734-736`), so a player on their first join is not paid by the periodic run.

## Findings

| source | as written | input that shows it | evidently intended | confidence | as-written member | corrected member |
|---|---|---|---|---|---|---|
| src/com/foxsrv/coinsalary/CoinSalary.java:568-590 | `startQueueProcessing` synchronizes on the plugin object, while the consumer checks the queue and clears `isProcessingQueue` under `queueLock`, so a producer can start between the check and the clear | the consumer polls nothing and sees an empty queue; a producer offers task 2 and calls `startQueueProcessing`, which sees the flag still up and returns; the consumer then clears the flag and exits | checking for an empty queue and clearing the flag exclude a concurrent start, so a task offered meanwhile always finds a running consumer or starts one | not executed | `QueueRace.AsWrittenStrandsTask` | `QueueRace.CorrectedNeverStrands` |
