# Robbery and fist-fight game logic of a Discord economy bot

This project models the game rules of a Discord bot that sits on an external
economy service (an UnbelievaBoat-style ledger of cash per user) and proves
properties of them in Dafny.

- **Robbery commands** (`Robbery`, on `Guilds` and `Economy`). `/woozie` and
  `/plock` each run the same steps:
  - check the actor's role (Woozie or Glock);
  - choose a target, either named or drawn from the non-bot members other than
    the actor;
  - resolve exactly one scenario from the target's weapon roles:
    - `woozie`: Woozie → gunfight, then Shotgun → defense, else a plain robbery;
    - `plock`: Uzi → defense, then Shotgun → scare, then Glock → standoff, else
      a plain robbery;
  - narrate the scenario;
  - make the scenario's ledger calls in order. Each call succeeds or fails on
    its own and nothing is rolled back. A robbery credits the robber only
    after the target's debit went through.

  Random draws enter as inputs constrained to the ranges `random.randint` can
  produce. The success of each ledger call enters as a flag.
- **Ledger** (`Economy`). A class holding a map of balances. `remove_money`
  sends `-abs(amount)` and `add_money` sends `abs(amount)`. No balance is
  checked or clamped, so debits can make a balance negative. A user the
  service has never seen holds 0.
- **Fist fight** (`FistFight`, `Duel`). The `DuelEngine` class holds the two
  process-wide dictionaries: fights and bets, both keyed by the challenge
  message's id. Its methods are the handlers:
  - the `fight` command;
  - the bet button and the bet form's submit;
  - the accept button, split at its first `await` into `Accept` and `Conclude`,
    so that bets placed between the two are represented;
  - the view's timeout.

  A winning bet is paid twice its amount, and losing bets earn nothing. A
  challenge that times out unaccepted refunds every stake. The submit handler
  never re-checks the fight registry. So a bet submitted after the fight has
  ended or expired is debited and recorded under a key no handler visits again
  (`FistFight.LateBetIsStranded`).
- **The round loop** (`Duel`) is modelled twice:
  - as written, where the damage is lost (see Findings);
  - as evidently intended, where a landed move's damage is subtracted from the
    defender. This is the version the rest of the model uses.

The payout and damage rules are the code's own and no more:

- a winning bet is paid a flat 2× its amount;
- a robbery or penalty sends the drawn amount to the ledger unclamped, whatever the balance;
- there is no lucky escape;
- the five moves have fixed damage (10, 20, 25, 15, 30), each landing with a 60 % chance, with no critical hits or special moves;
- hit points are not floored and can end below zero.

## Model

| member | source | states |
|---|---|---|
| Economy.Withdrawn | DiscordBotInteractor/DiscordBotInteractor/api_client.py:22-46 | a successful removal lowers the user's balance by the absolute amount, unclamped, and leaves every other balance alone |
| Economy.Deposited | DiscordBotInteractor/DiscordBotInteractor/api_client.py:69-93 | a successful addition raises the user's balance by the absolute amount and leaves every other balance alone |
| Economy.DepositUndoesWithdrawal | DiscordBotInteractor/DiscordBotInteractor/api_client.py:41-88 | adding back an amount removed from a user restores every balance |
| Economy.Ledger.GetBalance | DiscordBotInteractor/DiscordBotInteractor/api_client.py:116-160 | returns the user's cash (0 for an unknown user) on success and nothing on failure |
| Economy.Ledger.RemoveMoney | DiscordBotInteractor/DiscordBotInteractor/api_client.py:22-67 | on success the ledger becomes `Withdrawn` of the old one and the new balance is returned; on failure nothing changes and nothing is returned |
| Economy.Ledger.AddMoney | DiscordBotInteractor/DiscordBotInteractor/api_client.py:69-114 | on success the ledger becomes `Deposited` of the old one and the new balance is returned; on failure nothing changes |
| Guilds.FirstIndex | DiscordBotInteractor/DiscordBotInteractor/bot_automation.py:41 | the role lookup finds the first role in guild order that matches, and none before it matches |
| Guilds.FirstRole | DiscordBotInteractor/DiscordBotInteractor/bot_automation.py:64-67 | a found role is in the guild and matches; nothing is found exactly when no role matches |
| Guilds.NamedRole | DiscordBotInteractor/DiscordBotInteractor/bot_automation.py:41 | `discord.utils.get` by name finds nothing exactly when no role has that exact name, and otherwise the first role in guild order with that name |
| Guilds.RoleNamedIgnoringCase | Host-main/DiscordBotInteractor/bot_automation.py:267-276 | `discord.utils.find` on the lower-cased name finds nothing exactly when no role's lower-cased name is the key, and otherwise the first such role in guild order |
| Guilds.Lower | DiscordBotInteractor/DiscordBotInteractor/bot_automation.py:65 | lower-casing keeps the length and shifts each ASCII capital by 32 code points, leaving other characters unchanged |
| Guilds.Eligible | DiscordBotInteractor/DiscordBotInteractor/bot_automation.py:48-49 | the random-target pool holds exactly the guild's members that are not bots and are not the actor |
| Guilds.SelectTarget | DiscordBotInteractor/DiscordBotInteractor/bot_automation.py:46-61 | with no named target, "no valid targets" happens exactly when every member is a bot or the actor, and otherwise the target is the pool member at the drawn index `pick`; a named target is refused as oneself before being refused as a bot |
| Guilds.ChosenTargetIsEligible | DiscordBotInteractor/DiscordBotInteractor/bot_automation.py:47-61 | whichever way it is chosen, a target is a human other than the actor |
| Robbery.RoleCheck | Host-main/DiscordBotInteractor/bot_automation.py:41-247 | the role pre-check `Authorized` (Woozie for `woozie`, Glock for `plock`) passes exactly when the guild has a role of that exact name and the actor holds the first such role in guild order |
| Robbery.Resolve | Host-main/DiscordBotInteractor/bot_automation.py:77-429 | exactly one scenario is chosen, from the command's chain and with its role condition met; Woozie wins over Shotgun for `woozie`, Uzi wins over everything for `plock` and Shotgun over Glock, and a plain robbery happens exactly when no earlier condition holds |
| Robbery.ResolveIsFirstMatch | DiscordBotInteractor/DiscordBotInteractor/bot_automation.py:79-197 | the if/elif chain picks the first scenario of the ordered table whose condition holds |
| Robbery.PlockIgnoresWoozie | Host-main/DiscordBotInteractor/bot_automation.py:272-364 | whether the target holds Woozie never changes what `plock` does |
| Robbery.EffectsOf | DiscordBotInteractor/DiscordBotInteractor/bot_automation.py:83-203 | the gunfight and standoff cost both sides, the two defenses cost only the robber, the scare costs nobody and a plain robbery moves money; each uses the drawn amounts |
| Robbery.Calls | DiscordBotInteractor/DiscordBotInteractor/bot_automation.py:127-215 | the exact ledger calls in order: a robbery debits the target and then, only if that succeeded, credits the robber the same amount, with no other call; the robber is credited only in a robbery and only after the target's debit succeeded, and the second debit of a two-sided scenario is made regardless of the first |
| Robbery.Settled | DiscordBotInteractor/DiscordBotInteractor/bot_automation.py:127-215 | each scenario's balances after its calls, call by call according to which succeeded; nobody else's balance moves |
| Robbery.TheftConserves | DiscordBotInteractor/DiscordBotInteractor/bot_automation.py:208-215 | a robbery whose two calls succeed moves money without creating or destroying any |
| Robbery.MutualLossEnrichesNobody | DiscordBotInteractor/DiscordBotInteractor/bot_automation.py:127-130 | in a gunfight or standoff no balance rises |
| Robbery.Settle | Host-main/DiscordBotInteractor/bot_automation.py:407-447 | performs exactly the scenario's calls on the ledger; a response is returned for a call exactly when it was made and succeeded |
| Robbery.Lines | DiscordBotInteractor/DiscordBotInteractor/bot_automation.py:115-120 | the story lines from one position to another, in order |
| Robbery.Recite | DiscordBotInteractor/DiscordBotInteractor/bot_automation.py:115-120 | the send loop sends every story line once, in order, except the first one when it is treated as already sent |
| Robbery.Transcript | Host-main/DiscordBotInteractor/bot_automation.py:86-465 | the exact message sequence of each scenario, from the story lines (`Lines`) and the closing messages (`Closing`): the gunfight and standoff send lines 1 to 3, then the aftermath exactly when both debits succeeded; the shotgun defense sends four lines and the Uzi defense two, each then the medical bill exactly when the debit succeeded; the scare sends four lines and the escape; a robbery sends one of robbed, robbed-but-uncredited or failed, according to which calls succeeded |
| Robbery.Outcome | DiscordBotInteractor/DiscordBotInteractor/bot_automation.py:86-233 | a scenario always opens with the first response, and a scenario without ledger calls leaves balances unchanged |
| Robbery.GunfightOutcome | DiscordBotInteractor/DiscordBotInteractor/bot_automation.py:79-141 | both penalties are 5000..15000; robber then target are debited, each debit taking effect only when it succeeds; the story sends lines 1 to 3, and the aftermath is sent only when both debits succeed |
| Robbery.ShotgunDefenseOutcome | DiscordBotInteractor/DiscordBotInteractor/bot_automation.py:144-194 | a penalty of 10000..15000 is debited from the robber only, and the target is untouched; four story lines, then the medical bill if the debit succeeded |
| Robbery.UziDefenseOutcome | Host-main/DiscordBotInteractor/bot_automation.py:282-319 | a penalty of 5000..10000 is debited from the robber only; two story lines, then the medical bill if the debit succeeded |
| Robbery.ScareOutcome | Host-main/DiscordBotInteractor/bot_automation.py:322-361 | no ledger call and no balance change; four story lines and the escape message |
| Robbery.StandoffOutcome | Host-main/DiscordBotInteractor/bot_automation.py:364-426 | both penalties are 1000..5000; robber then target are debited independently; the aftermath is sent only when both debits succeed |
| Robbery.RobberyOutcome | Host-main/DiscordBotInteractor/bot_automation.py:429-465 | the amount is 25000..50000 for `woozie` and 500..10000 for `plock`; a failed debit of the target changes nothing; after a successful debit the robber is credited the same amount if the credit succeeds; each case sends its own closing message |
| Robbery.Command | DiscordBotInteractor/DiscordBotInteractor/bot_automation.py:38-233 | a missing role yields one refusal and no ledger call; a refusal notice is sent exactly when the role check or the target selection fails, and it is then the only message; no call means no balance change |
| Robbery.CommandSettles | DiscordBotInteractor/DiscordBotInteractor/bot_automation.py:47-215 | a command that passes its checks robs someone other than the actor and plays out exactly the scenario that `Resolve` selects from the target's weapon roles (`ArmsOf`: Woozie and Glock by exact name, Shotgun and Uzi by lower-cased name), with draws in that scenario's `randint` ranges (`DrawsFit`) |
| Robbery.Stage | Host-main/DiscordBotInteractor/bot_automation.py:282-465 | narrating and then making the calls yields the scenario's outcome, messages, calls and balances alike |
| Robbery.Rob | Host-main/DiscordBotInteractor/bot_automation.py:241-469 | the handler produces the messages, calls and final ledger that `Command` specifies |
| Duel.Round | DiscordBotInteractor/DiscordBotInteractor/fist_fight.py:139-155 | the attacker is never hurt; the defender loses hit points exactly when the move lands, and then by one of the table's damages 10, 15, 20, 25 or 30 |
| Duel.OneFallsAtATime | DiscordBotInteractor/DiscordBotInteractor/fist_fight.py:136-158 | the fighters never fall in the same round, and neither ends lower than one blow below zero |
| Duel.Brawl | DiscordBotInteractor/DiscordBotInteractor/fist_fight.py:124-162 | the loop's final hit points are those of `Play`, the round-by-round reference for the `while` at line 136; the loop ends after at least one round with exactly one fighter at 0 or below; the challenger wins exactly when the target is down |
| Duel.AsWrittenKeepsHp | DiscordBotInteractor/DiscordBotInteractor/fist_fight.py:152 | with the subtraction as written, no number of rounds changes either fighter's hit points |
| Duel.AsWrittenNeverEnds | DiscordBotInteractor/DiscordBotInteractor/fist_fight.py:136-152 | as written both fighters stay at 100 hit points forever, even on a draw sequence that knocks the target out in the intended model |
| FistFight.Adjusted | DiscordBotInteractor/DiscordBotInteractor/fist_fight.py:28-33 | a positive amount is added and any other amount removed by its absolute value; either way the balance moves by exactly the signed amount |
| FistFight.UpdateMoney | DiscordBotInteractor/DiscordBotInteractor/fist_fight.py:28-33 | on success the ledger becomes `Adjusted` of the old one; a response is returned exactly on success |
| FistFight.PaidCredits | DiscordBotInteractor/DiscordBotInteractor/fist_fight.py:164-175 | the payout (`Paid`, one credit per bet on the winner) raises each bettor's balance by twice the stakes they placed on the winner, counting only the credits that succeeded |
| FistFight.LosingBetsEarnNothing | DiscordBotInteractor/DiscordBotInteractor/fist_fight.py:168-172 | a bettor with no stake on the winner gets nothing back |
| FistFight.RefundedReturns | DiscordBotInteractor/DiscordBotInteractor/fist_fight.py:225-234 | the refund (`Refunded`, one credit per bet) raises each bettor's balance by the stakes they placed, counting only the credits that succeeded |
| FistFight.PlaceBet | DiscordBotInteractor/DiscordBotInteractor/fist_fight.py:50-93 | the bet is placed exactly when the text is a number of at least 1, the balance lookup works, the balance covers it and the debit succeeds; a rejected bet changes nothing; a placed bet is appended to the message's list and the stake leaves the bettor's balance; fights are never touched |
| FistFight.BettingKeepsHoldings | DiscordBotInteractor/DiscordBotInteractor/fist_fight.py:61-85 | for every user, balance plus stake on the message is the same before and after a submission |
| FistFight.PlacingKeepsHoldings | DiscordBotInteractor/DiscordBotInteractor/fist_fight.py:50-93 | the same holds over any sequence of submissions, and the fight registry is unchanged |
| FistFight.Expiry | DiscordBotInteractor/DiscordBotInteractor/fist_fight.py:222-239 | only a registered challenge that is not accepted expires; both of its entries are removed and every bettor's balance rises by their successfully refunded stakes; otherwise nothing changes |
| FistFight.ExpiryRestoresBalances | DiscordBotInteractor/DiscordBotInteractor/fist_fight.py:222-235 | betting on a challenge that then expires with all refunds through leaves every balance as it was |
| FistFight.LateBetIsStranded | DiscordBotInteractor/DiscordBotInteractor/fist_fight.py:71-85 | a valid bet on a message with no registered fight is still debited and recorded, and the timeout handler then leaves it in place |
| FistFight.DuelEngine.constructor | DiscordBotInteractor/DiscordBotInteractor/fist_fight.py:20-22 | both registries start empty |
| FistFight.DuelEngine.Challenge | DiscordBotInteractor/DiscordBotInteractor/fist_fight.py:244-274 | a bot target is refused first, then oneself; otherwise the challenge is registered as not accepted under its message id, and the bets are untouched |
| FistFight.DuelEngine.OpenBetForm | DiscordBotInteractor/DiscordBotInteractor/fist_fight.py:190-202 | the form is shown exactly when the button has a message id and that fight is registered, accepted or not |
| FistFight.DuelEngine.SubmitBet | DiscordBotInteractor/DiscordBotInteractor/fist_fight.py:50-93 | the handler's reply, registries and ledger are those of `PlaceBet` |
| FistFight.DuelEngine.Accept | DiscordBotInteractor/DiscordBotInteractor/fist_fight.py:99-113 | the fight starts exactly when it is registered and the clicker is its target; it is then marked accepted, and nothing else changes |
| FistFight.DuelEngine.Conclude | DiscordBotInteractor/DiscordBotInteractor/fist_fight.py:117-178 | the winner is the challenger exactly when the target is down; the ledger becomes the payout of the bets recorded by then; both entries of the message are removed |
| FistFight.DuelEngine.Expire | DiscordBotInteractor/DiscordBotInteractor/fist_fight.py:222-239 | the handler's registries and ledger are those of `Expiry`, and nothing changes when the view never got its message id |

## Left out

- Discord itself is not modelled. That means message wording, embeds, ephemeral flags, button disabling, message edits and the view's 180-second timer. Messages are reduced to their kinds (`Robbery.Msg`).
- Which of a scenario's alternative stories is chosen is not modelled. Every alternative has the same number of lines, so only line positions are modelled.
- The `asyncio.sleep` delays and all concurrency are not modelled. Each handler is one atomic step, except the accept handler, which is split at its first `await` into `Accept` and `Conclude`.
- FistFight.DuelEngine.Conclude: requires the fight to still be registered and accepted. A timeout between `Accept` and `Conclude` is covered, because `Expire` leaves an accepted fight alone; a second accept click on the same fight between the two is not modelled.
- The HTTP layer is reduced to one success flag per call. That covers status codes, rate limits, network errors and the returned JSON. A call that takes effect remotely but reports failure is not modelled.
- The guild id passed to the ledger is not modelled, because the model holds a single guild's ledger.
- The generic `except Exception` handlers of the two robbery commands are not modelled. An example is formatting a missing `cash` field as `'unknown'` with `:,`.
- Python's `int()` parsing of the bet text is not modelled. The parsed value, or its absence when `int()` raises, is an input (`BetRequest.entered`).
- Guilds.Lower: folds only ASCII letters, whereas Python's `str.lower()` folds all of Unicode.
- The random number generator is not modelled. Its draws are inputs: the target index, the robbery amounts (constrained to their `randint` ranges) and the fight rounds.
- Duel.Brawl: requires a draw stream that knocks a fighter out within its length. A stream that never does has probability zero, and the loop's behaviour on an infinite stream is not modelled.
- FistFight.DuelEngine.Conclude: ignores the payout call's response, as the source does. The loop's follow-up messages and the announcement are not modelled.
- Configuration loading, logging, the keep-alive web servers and the helpers in `utils.py` are not part of this model.

## Findings

| source | as written | input that shows it | evidently intended | confidence | as-written member | corrected member |
|---|---|---|---|---|---|---|
| DiscordBotInteractor/DiscordBotInteractor/fist_fight.py:152 | `locals()[hp_to_reduce] -= damage` writes into a snapshot of the function's locals, so `challenger_hp` and `target_hp` stay at 100 and the `while` loop never ends | any accepted fight, e.g. four landed haymakers by the challenger | subtract the damage from the defender's hit points, so that the loop ends when one fighter reaches 0 | not executed | Duel.AsWrittenNeverEnds | Duel.Brawl |
