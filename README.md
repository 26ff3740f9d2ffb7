# Startup Sprint — a verified model of the game logic

Startup Sprint is a browser game built on Phaser 3. The player runs a YC
startup for twelve weeks. Each week the player talks to the four office
NPCs (Rick, Ava, Max and Liam); once the weekly limit of two is reached the
week ends, which hides the talk prompt and starts the fade to the next week
but does not refuse a further conversation while the fade runs. Each NPC asks its next
question, and the answer changes the four company stats (Funds, Product,
Morale, Hype) and the NPC's mood.

The player also spends part of the funds on an investment panel. Some weeks
bring events:

- a bug invasion after week 6's panel;
- an office cleanup when Liam's mood is low;
- a YC founder's visit with a tip in weeks 3, 6, 9 and 12.

The game ends in bankruptcy when Funds is not positive at one of the two
moments the scene checks it: when the scene is created, and when the
result of a choice is dismissed. Otherwise it ends after week 12. The end screen classifies the final stats as bankrupt,
unicorn, funded or survived.

This project models four scenes:

- the boot scene's registry defaults (`Boot`);
- the main menu's buttons and resets (`Menu`);
- the end screen's defaults and outcome decision (`Ending`);
- the office scene, which holds the whole game logic.

The office scene is modelled twice:

- `OfficeState` is a specification over one immutable value, `View`. It
  holds the registry state plus the scene's own fields. Each input the
  scene reacts to is a transition function, and `Step` dispatches an
  `Event` to the right one.
- `Office.OfficeScene` is a class with the scene's fields (the NPC moods
  are an array). Its methods update those fields in place. Each method
  proves that its new `State()` is the corresponding `OfficeState`
  transition of the old one.

`OfficeInvariant` proves that every transition preserves `ValidView`. It
also proves that whole games keep Funds non-negative and Product and Hype
in [0, 100] (Morale is not bounded, because the cleanup mini-game changes it
without clamping), never move the week
or a question cursor back, and end only for a stated reason.

Two behaviours of the scene that outlive what their code seems to intend
are modelled as written:

- Confirming a second cleanup notice while a cleanup game runs puts six
  new pieces on screen without removing the old ones. Every piece counts
  down the one shared `trashToClean`, so a leftover piece clicked after a
  win wins again (`LeftoverTrashWinsAgain`).
- The engine keeps one office scene object for the whole session and runs
  `create` on it again for the next game. `create` resets only the
  dialog fields, so flags such as `showingResult` carry over into the new
  game (`Recreated`, `LeftoverResultSkipsChoices`). A stopped Phaser scene
  loses its game objects, timers and camera effects, so those start
  empty.

Supporting modules:

- `Stats` holds the stat arithmetic of `applyEffects` and the effect
  summaries.
- `Npcs` holds the NPC question table and the founders' tips.
- `Investment` holds the panel's budget and effect formulas. It also
  proves they equal the source's division and rounding expressions,
  evaluated in exact real arithmetic.
- `Registry` is the Phaser registry as a class.

## Model

| member | source | states |
|---|---|---|
| Stats.Clamp | src/scenes/OfficeScene.js:1363 | `Phaser.Math.Clamp`: the result lies in `[lo, hi]`; it is `v` inside the range and the nearer bound outside it |
| Stats.OrDefault | src/scenes/OfficeScene.js:1367 | JavaScript `x \|\| d` on a number: a non-zero `x` is kept; 0 (or a missing key) gives `d` |
| Stats.PercentAfter | src/scenes/OfficeScene.js:1370-1386 | A missing key leaves the stat alone. Otherwise the sum is clamped to [0, 100]: exact inside the range, 0 below it, 100 above it |
| Stats.FundsAfter | src/scenes/OfficeScene.js:1364-1369 | A missing key leaves Funds alone. Otherwise the sum is floored at 0: exact when non-negative, 0 when negative |
| Stats.Applied | src/scenes/OfficeScene.js:1362-1388 | `applyEffects`: each stat without a key is unchanged. Funds with a key is non-negative, and the other three are within [0, 100]. Stats in bounds stay in bounds |
| Stats.AppliedExact | src/scenes/OfficeScene.js:1362-1388 | When no sum leaves its range, `applyEffects` is plain addition on all four stats |
| Stats.AppliedEmpty | src/scenes/OfficeScene.js:1362-1388 | An effect map with no keys changes no stat |
| Stats.EffectParts | src/scenes/OfficeScene.js:1352-1359 | Every listed part is a non-zero stat of the map with its own amount, and every non-zero stat is listed |
| Stats.EffectPartsInOrder | src/scenes/OfficeScene.js:1355-1358 | Parts appear in the order Funds, Product, Morale, Hype, and none appears twice |
| Stats.SignPrefix | src/scenes/OfficeScene.js:1354 | The prefix is "+" exactly for positive values and empty otherwise |
| Stats.NatString | src/scenes/OfficeScene.js:1356-1358 | `String(n)` of a natural number: all digits, no leading zero except for 0 itself, a single digit exactly below 10, and it reads back as `n` (`DecimalValue`) |
| Stats.IntString | src/scenes/OfficeScene.js:1356-1358 | `String(n)` of an integer: a leading '-' exactly for negative numbers, digits after it, and it reads back as `n` (`IntValue`) |
| Stats.PartText | src/scenes/OfficeScene.js:1355-1358 | The text starts with '+' exactly for a positive amount. Funds: a '$' after the sign, then the formatter's text. A percentage: after the sign, the amount's text, which reads back as the amount, then a space and the stat's name at the end |
| Stats.Join | src/scenes/OfficeScene.js:1359 | `parts.join(", ")` starts with the first part and ends with the last one. It is empty for no parts, and for non-empty parts only then |
| Stats.JoinAppend | src/scenes/OfficeScene.js:1359 | Joining one more part appends ", " and that part to the joined text |
| Stats.Texts | src/scenes/OfficeScene.js:1355-1359 | One text per part, each being that part's text, in order |
| Stats.EffectsToString | src/scenes/OfficeScene.js:1352-1360 | The summary is empty exactly when no stat of the map is non-zero |
| Stats.FormatDelta | src/scenes/OfficeScene.js:1225-1228 | Empty exactly for a missing or zero delta; "  (+N)" for a positive one and "  (N)" for a negative one |
| Npcs.Asks | src/scenes/OfficeScene.js:298-680 | One question per effect pair, each with one dialog line and those two choices, in order |
| Npcs.TableWellFormed | src/scenes/OfficeScene.js:298-680 | `buildNpcList`: four NPCs with distinct names and Liam last. Each has a mood in [0, 100] and twelve questions of at least one dialog line and exactly two choices |
| Npcs.QuestionAt | src/scenes/OfficeScene.js:1244-1282 | The question at a cursor below twelve is well formed, has exactly one dialog line, and is the table's question |
| Npcs.NamesMatchTable | src/scenes/OfficeScene.js:298-680 | The name set is exactly the table's names, and each NPC's question count is its number of questions |
| Npcs.Founders | src/scenes/OfficeScene.js:45-90 | Four founders visit |
| Npcs.FindFrom | src/scenes/OfficeScene.js:1750 | `Array.prototype.find` from a position: the index found holds the condition and no earlier one does; None means none holds |
| Npcs.FindTip | src/scenes/OfficeScene.js:1750 | `tips.find(t => t.condition(stats))`: the first tip whose condition holds; None exactly when none holds |
| Npcs.FounderTip | src/scenes/OfficeScene.js:45-90 | Every founder has a tip for every state: the first failing stat in the order Funds < 2000, Product < 40, Morale < 40, Hype < 40, else the fallback |
| Npcs.FounderFor | src/scenes/OfficeScene.js:1465-1467 | A founder visits exactly in weeks 3, 6, 9 and 12, founder `week/3 - 1` |
| Investment.Set | src/scenes/OfficeScene.js:953-974 | Writing one category of the allocation leaves the other two unchanged |
| Investment.MaxBudget | src/scenes/OfficeScene.js:894-904 | The budget never exceeds Funds. It is at least $2k when Funds is, and positive when Funds is. It is a whole $1k or all of Funds. Above $2k it is at most a quarter of Funds, and within $1k below that quarter |
| Investment.InvestmentEffects | src/scenes/OfficeScene.js:1072-1076 | The effect map has no Funds key. Hype is +2 per $1k of marketing. Product is 1.5 per $1k of tech plus 0.5 per $1k of hiring, rounded half up. Morale is +2 per $1k of hiring minus 1 per whole $4k of marketing |
| Investment.Invested | src/scenes/OfficeScene.js:1065-1077 | After a confirmed investment, Funds has dropped by the total, floored at 0. Funds never rises, Product and Hype never fall, and the bounds hold |
| Investment.FloorOfQuotient | src/scenes/OfficeScene.js:896 | Real division then `Math.floor` equals integer division |
| Investment.MaxBudgetMatchesReal | src/scenes/OfficeScene.js:894-904 | The integer budget rule equals the source's expression evaluated in exact real arithmetic, for every Funds value |
| Investment.InvestmentMatchesReal | src/scenes/OfficeScene.js:1072-1076 | For a stepped allocation, `Math.round` of the three rate expressions equals the integer gains |
| Registry.Registry.constructor | src/scenes/BootScene.js:8 | A registry before boot holds at most a player name: every number reads 0, there is no save and no last allocation |
| Ending.Init | src/scenes/EndScene.js:4-14 | A missing snapshot is `{}`. A missing stat reads 0, a missing week 1, and a missing week total 12. The ending is "final" exactly when it is missing or empty, and otherwise is the given one |
| Ending.Classify | src/scenes/EndScene.js:19-34 | Bankrupt iff Funds <= 0 or the ending is "bankrupt". Unicorn iff not bankrupt and either Funds >= $1M or Product and Hype >= 85 with Funds >= $200k. Funded iff neither and Product and Hype >= 60. Survived otherwise |
| Ending.OutcomeIgnoresMoraleAndWeeks | src/scenes/EndScene.js:14-34 | Morale, the week and the week total never change the outcome |
| Ending.NoFundsIsBankrupt | src/scenes/EndScene.js:14-23 | A snapshot whose Funds is missing or not positive ends as bankrupt |
| Ending.NoDataIsBankrupt | src/scenes/EndScene.js:4-23 | An end scene started without data ends as bankrupt |
| Boot.Preload | src/scenes/BootScene.js:5-23 | An existing player name is kept; otherwise the name is "Founder". Week 1 of 12, nobody talked to, no question progress, the interaction and NPC limits of 2, and the stats $50k/20/70/10. The save flag is untouched, and the registry invariant holds |
| Boot.ResetWeek | src/scenes/BootScene.js:8-17 | The week and limit keys are set; every other key is unchanged |
| Boot.SetStats | src/scenes/BootScene.js:20-23 | The four stats are set; every other key is unchanged |
| Menu.Buttons | src/scenes/MenuScene.js:29-66 | "Continue" is offered exactly when a save exists, and then first. "Start New Game", "Settings" and "Credits" are always offered |
| Menu.ContinueGame | src/scenes/MenuScene.js:31-34 | "Continue" returns to the office scene and writes no registry key |
| Menu.StartNew | src/scenes/MenuScene.js:49-57 | Week 1, nobody talked to, and the boot stats. Question progress and the other keys are unchanged, and the registry invariant holds |
| Menu.StartNewFromSave | src/scenes/MenuScene.js:36-46 | As `StartNew`, and the save flag is cleared |
| OfficeState.SnapshotOf | src/scenes/OfficeScene.js:1502-1511 | The snapshot holds the registry's four stats, week and week total; a zero week or total falls back to 1 or 12 |
| OfficeState.GotoEnd | src/scenes/OfficeScene.js:1502-1512 | The end scene starts with the given ending and the registry snapshot; the registry is untouched |
| OfficeState.CheckEnd | src/scenes/OfficeScene.js:1494-1500 | A bankrupt ending exactly when Funds is not positive; otherwise nothing changes |
| OfficeState.EndSceneSeesRegistry | src/scenes/EndScene.js:4-23 | The end scene reads exactly the registry's stats and weeks, and a "bankrupt" ending is classified as bankrupt |
| OfficeState.ShowPanel | src/scenes/OfficeScene.js:892-906 | The panel opens, with an empty allocation and budget `MaxBudget(Funds)`, exactly when it was closed and Funds is positive; otherwise nothing changes |
| OfficeState.Invest | src/scenes/OfficeScene.js:953-960 | +$1k in one category exactly when the total stays within the budget; otherwise nothing changes |
| OfficeState.Remove | src/scenes/OfficeScene.js:967-974 | −$1k in one category exactly when it holds at least $1k; otherwise nothing changes |
| OfficeState.ClosePanel | src/scenes/OfficeScene.js:1091-1121 | The panel closes. In week 6 one bug notice appears and the dialog stays frozen. In any other week a cleanup notice appears exactly when Liam's mood is below 30 |
| OfficeState.HidePanel | src/scenes/OfficeScene.js:1106-1108 | The panel is gone, the dialog is freed, and no notice appears |
| OfficeState.BugNotice | src/scenes/OfficeScene.js:1124-1125 | One more bug notice, and the dialog is frozen |
| OfficeState.CleanupNotice | src/scenes/OfficeScene.js:1622-1660 | One more cleanup notice; nothing else changes |
| OfficeState.Confirm | src/scenes/OfficeScene.js:1057-1089 | An empty allocation just closes the panel. Otherwise the stats become `Invested(stats, alloc)` and the allocation is remembered; the week, cursors and talked set are kept |
| OfficeState.Spend | src/scenes/OfficeScene.js:1069-1081 | The stats become `Invested(stats, alloc)` and `lastAlloc` is recorded; nothing else in the registry changes |
| OfficeState.BugNoticeOk | src/scenes/OfficeScene.js:1159-1166 | The notice goes and five bugs are due, none spawned or defeated yet, with the dialog frozen |
| OfficeState.SpawnBug | src/scenes/OfficeScene.js:1570-1602 | One more bug is on screen, with the next number |
| OfficeState.EndBugGame | src/scenes/OfficeScene.js:1560-1568 | The game stops, the bugs are cleared, and the dialog is freed |
| OfficeState.Defeat | src/scenes/OfficeScene.js:1584-1590 | The bug leaves the screen. The game ends exactly when the defeated count reaches the bug count |
| OfficeState.SquashBug | src/scenes/OfficeScene.js:1584-1590 | A click squashes a bug at no cost to the registry |
| OfficeState.BugAtDoor | src/scenes/OfficeScene.js:1541-1558 | A live bug at the door, outside the panel, costs $10k with Funds floored at 0. In any other case nothing changes |
| OfficeState.TrashBatch | src/scenes/OfficeScene.js:1666-1686 | A cleanup game spawns six pieces, numbered consecutively from the given number |
| OfficeState.CleanupNoticeOk | src/scenes/OfficeScene.js:1653-1686 | The notice goes and the game runs with six to clean. Six new pieces join those already on screen and form the current group; pieces of an earlier group stay |
| OfficeState.EndCleanup | src/scenes/OfficeScene.js:1696-1718 | Morale changes by +10 on success or −5 otherwise, unclamped. Liam's mood changes by +20 or −10, clamped to [0, 100]. Only the current group's pieces are cleared |
| OfficeState.ClickTrash | src/scenes/OfficeScene.js:1677-1683 | A click on any piece, of the current group or an earlier one, counts down the shared count; the count reaching zero wins, also after the game has ended |
| OfficeState.PickUp | src/scenes/OfficeScene.js:1678-1679 | The piece leaves the screen and its group, and one fewer is left to clean |
| OfficeState.CleanupTimeout | src/scenes/OfficeScene.js:1689-1693 | A game still running at 15 s is lost; otherwise nothing changes |
| OfficeState.TryStart | src/scenes/OfficeScene.js:1240-1292 | Refused while a dialog is active, or when the NPC was talked to this week or has no question left. Otherwise the NPC's next question starts typing in a new box at line 0 of its one line, with the result flag, the choices, the registry, the moods and the fade kept |
| OfficeState.TypingDone | src/ui/DialogBox.js:59-72 | The typewriter stops with the box still open |
| OfficeState.CloseDialog | src/scenes/OfficeScene.js:1334-1350 | With a dialog active, the box, the choices and the active NPC are cleared; otherwise nothing changes |
| OfficeState.AutoAdvance | src/scenes/OfficeScene.js:1443-1447 | A fade to week + 1 starts unless one is already running |
| OfficeState.DismissResult | src/scenes/OfficeScene.js:1401-1408 | The result flag clears and an active dialog closes. Funds not positive ends the game as bankrupt with the registry snapshot. Otherwise, at the weekly limit the fade to week + 1 starts (a running fade is kept), and below it nothing fades or ends. A fade or ending happens only in these cases |
| OfficeState.AdvanceDialog | src/scenes/OfficeScene.js:1390-1416 | No change without an active dialog or box. A typing line is completed in place. Otherwise exactly `NextLine`: the next line, the choices, or the dismissal. The registry and moods are untouched, and a fade or an ending happens only by dismissing a result |
| OfficeState.Advanced | src/scenes/OfficeScene.js:1399 | The line cursor moves on by one |
| OfficeState.NextLine | src/scenes/OfficeScene.js:1399-1415 | Before the last line, the next line types. After the last question line, the question's choices are shown. After the result, the dialog is dismissed |
| OfficeState.TypeLine | src/scenes/OfficeScene.js:1415 | The typewriter starts on the current line; nothing else changes |
| OfficeState.OfferChoices | src/scenes/OfficeScene.js:1296-1301 | The current question's two choices are shown |
| OfficeState.AdvanceOrComplete | src/scenes/OfficeScene.js:1421-1440 | No change while the choices are shown, without an active dialog or without a box. A typing line is completed and advanced in one tap (`NextLine` of the completed line). Otherwise exactly `NextLine`. The registry is untouched, and the game ends only as bankrupt with Funds not positive |
| OfficeState.Interact | src/scenes/OfficeScene.js:1817-1914 | Ignored while the panel is open or the bug game runs. Next to an NPC with no dialog, exactly `TryStart` of that NPC. With a dialog active, exactly `AdvanceOrComplete`. Otherwise no change. The registry is never changed, and the game ends only as bankrupt with Funds not positive |
| OfficeState.Choose | src/scenes/OfficeScene.js:1304-1331 | The stats become `Applied(stats, effects)`, and the mood moves by the swing, clamped. Only this NPC's cursor advances, by one, and the NPC joins the talked set. The result is shown |
| OfficeState.Answer | src/scenes/OfficeScene.js:1304-1319 | Effects, mood swing, cursor and talked set as in `Choose`; the week is kept |
| OfficeState.TakeEffects | src/scenes/OfficeScene.js:1305 | The four stats become `Applied(stats, e)`; the rest of the registry is unchanged |
| OfficeState.SwingMood | src/scenes/OfficeScene.js:1306-1309 | Only NPC `i`'s mood changes, by the swing, clamped to [0, 100] |
| OfficeState.RecordTalk | src/scenes/OfficeScene.js:1312-1319 | The NPC's cursor advances by one and it joins the talked set; the stats are unchanged |
| OfficeState.ShowResult | src/scenes/OfficeScene.js:1321-1330 | A one-line result starts typing, with the choices hidden |
| OfficeState.RaiseMoods | src/scenes/OfficeScene.js:1460-1462 | Every mood rises by 10, clamped to [0, 100] |
| OfficeState.NewWeek | src/scenes/OfficeScene.js:1454-1462 | The week is stored, the talked set is emptied, and moods rise; nothing else changes |
| OfficeState.FounderArrives | src/scenes/OfficeScene.js:1742-1750 | A visit by the week's founder is added, carrying the tip `TipRank` names for the current stats |
| OfficeState.FadeOutDone | src/scenes/OfficeScene.js:1447-1489 | Past the week total the game ends as "final" with the registry untouched. Otherwise the new week begins. The fade is over either way |
| OfficeState.BeginWeek | src/scenes/OfficeScene.js:1454-1488 | The week is stored, nobody is talked to, and moods rise; the fade and the ending are unchanged |
| OfficeState.FounderContinue | src/scenes/OfficeScene.js:1473-1478 | "Continue" removes the visit. Week 12 ends the game as "final", and any other week leaves the ending alone |
| OfficeState.Blank | src/scenes/OfficeScene.js:148-156 | `create` on a new object: the registry as given, every mood 80, the dialog closed, and no result, panel, minigame, fade, visit or ending |
| OfficeState.Launch | src/scenes/OfficeScene.js:267-294 | The end of `create`: over at once exactly when Funds is not positive; a game that goes on gets `ShowPanel` |
| OfficeState.Created | src/scenes/OfficeScene.js:11-296 | `create` on a new scene object: over at once exactly when Funds is not positive; otherwise the panel is open with budget `MaxBudget(Funds)` and the dialog frozen |
| OfficeState.Recreated | src/scenes/OfficeScene.js:148-294 | `create` again on the same object: the new registry and every mood 80, nothing on screen, no fade and no visit. The result flag, the question and the two minigames' flags and counts keep the previous game's values |
| OfficeInvariant.CreatedValid | src/scenes/OfficeScene.js:11-296 | The freshly created scene satisfies the invariant |
| OfficeInvariant.FirstCreate | src/scenes/OfficeScene.js:11-296 | On an object no game has run on, `create` again is the first `create` |
| OfficeInvariant.LeftoverResultSkipsChoices | src/scenes/OfficeScene.js:1399-1408 | After a game that ended with a result on screen, the next game's first conversation opens with the result flag still set. Passing its line closes the dialog with no choices shown, the question unanswered and the NPC not counted as talked to |
| OfficeInvariant.InvestValid | src/scenes/OfficeScene.js:953-960 | "+ Invest" keeps the allocation stepped and within budget |
| OfficeInvariant.RemoveValid | src/scenes/OfficeScene.js:967-974 | "- Remove" keeps the allocation stepped and non-negative |
| OfficeInvariant.ClosePanelValid | src/scenes/OfficeScene.js:1091-1121 | Closing the panel keeps the invariant |
| OfficeInvariant.ConfirmValid | src/scenes/OfficeScene.js:1057-1089 | Confirming keeps the invariant: Funds non-negative, Product and Hype in range |
| OfficeInvariant.BugNoticeValid | src/scenes/OfficeScene.js:1159-1166 | Starting the bug game keeps the bug counts consistent |
| OfficeInvariant.SpawnValid | src/scenes/OfficeScene.js:1570-1602 | Spawning keeps defeated + live = spawned ≤ 5 |
| OfficeInvariant.SquashValid | src/scenes/OfficeScene.js:1584-1590 | Squashing keeps the bug counts consistent |
| OfficeInvariant.BugAtDoorValid | src/scenes/OfficeScene.js:1541-1558 | A bug at the door keeps Funds non-negative and the counts consistent |
| OfficeInvariant.EndCleanupValid | src/scenes/OfficeScene.js:1696-1718 | Ending the cleanup keeps Liam's mood in range |
| OfficeInvariant.CleanupNoticeValid | src/scenes/OfficeScene.js:1663-1686 | A started game has six to clean and six pieces of its own on screen, and every piece on screen was spawned |
| OfficeInvariant.ClickTrashValid | src/scenes/OfficeScene.js:1677-1683 | After a click, a running game still has between 1 and as many pieces to clean as its group shows on screen |
| OfficeInvariant.CleaningWins | src/scenes/OfficeScene.js:1677-1708 | In a running game, as many clicks as are left to clean win it once: Morale +10, nothing left to clean, and every unclicked piece of an earlier group stays on screen |
| OfficeInvariant.SecondGameKeepsFirstGroup | src/scenes/OfficeScene.js:1663-1686 | Two notices confirmed in a row leave the first group's six pieces on screen beside the second's: twelve pieces, six to clean |
| OfficeInvariant.LeftoverTrashWinsAgain | src/scenes/OfficeScene.js:1677-1704 | After two notices confirmed in a row, six clicks outside the first group win once (Morale +10). The first group's pieces stay on screen, and a click on one wins again (Morale +10 more) |
| OfficeInvariant.StaleClickWins | src/scenes/OfficeScene.js:1679-1681 | With nothing left to clean, a click on any piece still on screen wins again: Morale +10 |
| OfficeInvariant.CleanupTimeoutValid | src/scenes/OfficeScene.js:1689-1693 | The timeout keeps the invariant |
| OfficeInvariant.TryStartValid | src/scenes/OfficeScene.js:1240-1292 | A started dialog belongs to an NPC with a question left, not talked to this week |
| OfficeInvariant.CheckEndValid | src/scenes/OfficeScene.js:1494-1500 | The bankruptcy check keeps the invariant |
| OfficeInvariant.AutoAdvanceValid | src/scenes/OfficeScene.js:1443-1447 | A started fade targets week + 1 of the same total |
| OfficeInvariant.DismissResultValid | src/scenes/OfficeScene.js:1401-1408 | Dismissing the result keeps the invariant |
| OfficeInvariant.CloseDialogValid | src/scenes/OfficeScene.js:1334-1350 | A closed dialog is consistent |
| OfficeInvariant.AdvanceDialogValid | src/scenes/OfficeScene.js:1390-1416 | Advancing the dialog keeps the invariant |
| OfficeInvariant.NextLineValid | src/scenes/OfficeScene.js:1399-1415 | Each of the three next-line cases keeps the invariant |
| OfficeInvariant.LineTypesValid | src/scenes/OfficeScene.js:1415 | Typing the next line keeps the invariant |
| OfficeInvariant.ChoicesAppearValid | src/scenes/OfficeScene.js:1296-1301 | The shown choices are the two of an open question |
| OfficeInvariant.ResultLineValid | src/scenes/OfficeScene.js:1400-1408 | Dismissing after the result line keeps the invariant |
| OfficeInvariant.LineIndexValid | src/scenes/OfficeScene.js:1399 | The line cursor takes no part in the invariant |
| OfficeInvariant.InteractValid | src/scenes/OfficeScene.js:1905-1914 | E or SPACE keeps the invariant |
| OfficeInvariant.ResultPressAdvancesWeek | src/scenes/OfficeScene.js:1401-1408 | One press on the result line, typing or not, closes the dialog. The game ends exactly when Funds is not positive. Otherwise the fade to week + 1 starts exactly when the talked count has reached the weekly limit |
| OfficeInvariant.TypingValid | src/ui/DialogBox.js:59-72 | The end of typing keeps the invariant |
| OfficeInvariant.ChooseValid | src/scenes/OfficeScene.js:1304-1331 | A choice keeps stats and moods in range and no cursor past twelve |
| OfficeInvariant.EmptyWithinBudget | src/scenes/OfficeScene.js:894-906 | The empty allocation fits any non-negative budget |
| OfficeInvariant.ShowPanelValid | src/scenes/OfficeScene.js:892-906 | Opening the panel keeps the invariant |
| OfficeInvariant.NewWeekValid | src/scenes/OfficeScene.js:1454-1462 | A new week within the total keeps the invariant |
| OfficeInvariant.GotoEndValid | src/scenes/OfficeScene.js:1502-1512 | Ending keeps the invariant |
| OfficeInvariant.AddVisitValid | src/scenes/OfficeScene.js:1742-1750 | A visit with a tip keeps the invariant |
| OfficeInvariant.FadeValid | src/scenes/OfficeScene.js:1447-1489 | The end of a fade keeps the invariant |
| OfficeInvariant.FounderVisits | src/scenes/OfficeScene.js:1464-1488 | In weeks 3, 6, 9 and 12 exactly the week's founder visits, with the tip for the stats. In other weeks no one visits and the panel opens exactly when Funds is positive |
| OfficeInvariant.BeginWeekValid | src/scenes/OfficeScene.js:1454-1488 | Beginning a week keeps the invariant |
| OfficeInvariant.ContinueValid | src/scenes/OfficeScene.js:1803-1811 | "Continue" keeps the invariant |
| OfficeInvariant.StepValid | src/scenes/OfficeScene.js:1817-1925 | Every input the engine can deliver keeps the invariant |
| OfficeInvariant.StepProgressed | src/scenes/OfficeScene.js:1443-1490 | One input moves the week by 0 or 1, keeps the total, and never moves a question cursor back |
| OfficeInvariant.ChoiceProgressed | src/scenes/OfficeScene.js:1304-1331 | A choice keeps the week and only advances cursors |
| OfficeInvariant.FadeProgressed | src/scenes/OfficeScene.js:1447-1489 | The end of a fade moves the week by at most one |
| OfficeInvariant.PanelAndBugKeepProgress | src/scenes/OfficeScene.js:892-1122 | The panel and the bug game keep the week, the total and every cursor |
| OfficeInvariant.OtherKeepProgress | src/scenes/OfficeScene.js:1622-1811 | Cleanup, talking and founder recaps keep the week, the total and every cursor |
| OfficeInvariant.Run | src/scenes/OfficeScene.js:1817-1925 | Any input sequence keeps the invariant, never moves the week back, and never moves a cursor back |
| OfficeInvariant.EndedIsFinal | src/scenes/OfficeScene.js:1502-1512 | Once the end scene has started, no input changes anything |
| OfficeInvariant.Played | src/scenes/OfficeScene.js:11-296 | In every game: Funds ≥ 0, and Product and Hype lie in [0, 100]. The week stays within the game, and no NPC is asked more questions than it has |
| OfficeInvariant.EndingsJustified | src/scenes/OfficeScene.js:1443-1512 | The game ends only as bankrupt with Funds ≤ 0, as "final" on the fade past week 12, or as "final" on leaving week 12's founder visit |
| Office.OfficeScene.constructor | src/scenes/OfficeScene.js:11-296 | A new scene object, every field undefined, then `Create`: the state is `Created(registry)` and it is valid |
| Office.OfficeScene.Create | src/scenes/OfficeScene.js:11-296 | In-place `Recreated` of the object's old state and the registry |
| Office.OfficeScene.ResetFields | src/scenes/OfficeScene.js:148-156 | The fields `create` sets are reset; the others keep their values |
| Office.OfficeScene.ResetMoods | src/scenes/OfficeScene.js:156 | Every NPC's mood is 80 |
| Office.OfficeScene.ShowInvestmentPanel | src/scenes/OfficeScene.js:892-906 | In-place `ShowPanel` |
| Office.OfficeScene.InvestButton | src/scenes/OfficeScene.js:953-960 | In-place `Invest`, keeping `Valid` |
| Office.OfficeScene.RemoveButton | src/scenes/OfficeScene.js:967-974 | In-place `Remove`, keeping `Valid` |
| Office.OfficeScene.ApplyEffects | src/scenes/OfficeScene.js:1362-1388 | The registry's stats become `Applied(stats, e)` |
| Office.OfficeScene.ConfirmButton | src/scenes/OfficeScene.js:993 | In-place `Confirm`, keeping `Valid` |
| Office.OfficeScene.ConfirmInvestment | src/scenes/OfficeScene.js:1057-1089 | In-place `Confirm` |
| Office.OfficeScene.Spend | src/scenes/OfficeScene.js:1069-1081 | In-place `Spend` |
| Office.OfficeScene.SkipButton | src/scenes/OfficeScene.js:1000-1003 | In-place `ClosePanel`, keeping `Valid` |
| Office.OfficeScene.CloseInvestmentPanel | src/scenes/OfficeScene.js:1091-1121 | In-place `ClosePanel` |
| Office.OfficeScene.ResetPanelFlags | src/scenes/OfficeScene.js:1106-1108 | In-place `HidePanel` |
| Office.OfficeScene.ShowBugNotification | src/scenes/OfficeScene.js:1124-1125 | In-place `BugNotice` |
| Office.OfficeScene.BugNoticeOk | src/scenes/OfficeScene.js:1159-1166 | In-place `BugNoticeOk`, keeping `Valid` |
| Office.OfficeScene.StartBugMiniGame | src/scenes/OfficeScene.js:1605-1617 | Five bugs are due, none spawned or defeated, and the dialog is frozen |
| Office.OfficeScene.SpawnBug | src/scenes/OfficeScene.js:1570-1602 | In-place `SpawnBug`, keeping `Valid` |
| Office.OfficeScene.DefeatBug | src/scenes/OfficeScene.js:1584-1590 | In-place `Defeat` |
| Office.OfficeScene.SquashBug | src/scenes/OfficeScene.js:1584-1590 | In-place `SquashBug`, keeping `Valid` |
| Office.OfficeScene.BugAtDoor | src/scenes/OfficeScene.js:1596-1601 | In-place `BugAtDoor`, keeping `Valid` |
| Office.OfficeScene.LoseFundsForBug | src/scenes/OfficeScene.js:1541-1558 | In-place `BugAtDoor` for a running game |
| Office.OfficeScene.EndBugMiniGame | src/scenes/OfficeScene.js:1560-1568 | In-place `EndBugGame` |
| Office.OfficeScene.ShowCleanupNotification | src/scenes/OfficeScene.js:1622-1660 | In-place `CleanupNotice` |
| Office.OfficeScene.CleanupNoticeOk | src/scenes/OfficeScene.js:1652-1666 | In-place `CleanupNoticeOk`, keeping `Valid` |
| Office.OfficeScene.ClickTrash | src/scenes/OfficeScene.js:1677-1683 | In-place `ClickTrash`, keeping `Valid` |
| Office.OfficeScene.CollectTrash | src/scenes/OfficeScene.js:1677-1683 | In-place `ClickTrash` |
| Office.OfficeScene.PickUp | src/scenes/OfficeScene.js:1678-1679 | In-place `PickUp` |
| Office.OfficeScene.CleanupTimeout | src/scenes/OfficeScene.js:1689-1693 | In-place `CleanupTimeout`, keeping `Valid` |
| Office.OfficeScene.EndCleanupMiniGame | src/scenes/OfficeScene.js:1696-1718 | In-place `EndCleanup` |
| Office.OfficeScene.TryStartDialog | src/scenes/OfficeScene.js:1240-1292 | In-place `TryStart` |
| Office.OfficeScene.TypingDone | src/ui/DialogBox.js:59-72 | In-place `TypingDone`, keeping `Valid` |
| Office.OfficeScene.CloseDialog | src/scenes/OfficeScene.js:1334-1350 | In-place `CloseDialog` |
| Office.OfficeScene.AdvanceDialog | src/scenes/OfficeScene.js:1390-1416 | In-place `AdvanceDialog`: a typing line completes, otherwise the next line, the choices or the dismissal |
| Office.OfficeScene.NextLine | src/scenes/OfficeScene.js:1399-1415 | In-place `NextLine` |
| Office.OfficeScene.AdvanceLine | src/scenes/OfficeScene.js:1399 | In-place `Advanced` |
| Office.OfficeScene.TypeLine | src/scenes/OfficeScene.js:1415 | In-place `TypeLine` |
| Office.OfficeScene.OfferChoices | src/scenes/OfficeScene.js:1296-1301 | In-place `OfferChoices` |
| Office.OfficeScene.DismissResult | src/scenes/OfficeScene.js:1401-1408 | In-place `DismissResult`: the dialog closes, then bankrupt if Funds is not positive, else the fade at the weekly limit |
| Office.OfficeScene.AdvanceOrComplete | src/scenes/OfficeScene.js:1421-1440 | In-place `AdvanceOrComplete`: nothing while the choices show, a typing line completed and advanced in one tap |
| Office.OfficeScene.PressInteract | src/scenes/OfficeScene.js:1905-1914 | In-place `Interact`, keeping `Valid`: ignored during the panel and the bug game, starts a conversation next to an NPC, otherwise advances the dialog |
| Office.OfficeScene.Choose | src/scenes/OfficeScene.js:1304-1331 | In-place `Choose`, keeping `Valid` |
| Office.OfficeScene.Answer | src/scenes/OfficeScene.js:1304-1319 | In-place `Answer` |
| Office.OfficeScene.TakeEffects | src/scenes/OfficeScene.js:1305 | In-place `TakeEffects` |
| Office.OfficeScene.SwingMood | src/scenes/OfficeScene.js:1306-1309 | In-place `SwingMood` on the moods array |
| Office.OfficeScene.RecordTalk | src/scenes/OfficeScene.js:1312-1319 | In-place `RecordTalk` |
| Office.OfficeScene.ShowResult | src/scenes/OfficeScene.js:1321-1330 | In-place `ShowResult` |
| Office.OfficeScene.CheckImmediateEnd | src/scenes/OfficeScene.js:1494-1500 | Returns true exactly when Funds is not positive, and then has started the bankrupt ending; otherwise nothing changes |
| Office.OfficeScene.GotoEnd | src/scenes/OfficeScene.js:1502-1512 | In-place `GotoEnd` |
| Office.OfficeScene.AutoAdvanceWeek | src/scenes/OfficeScene.js:1443-1447 | In-place `AutoAdvance` |
| Office.OfficeScene.FadeOutComplete | src/scenes/OfficeScene.js:1447-1489 | In-place `FadeOutDone`, keeping `Valid` |
| Office.OfficeScene.StartNextWeek | src/scenes/OfficeScene.js:1447-1489 | In-place `FadeOutDone` |
| Office.OfficeScene.BeginWeek | src/scenes/OfficeScene.js:1454-1488 | In-place `BeginWeek` |
| Office.OfficeScene.NewWeek | src/scenes/OfficeScene.js:1454-1462 | In-place `NewWeek` |
| Office.OfficeScene.RaiseMoods | src/scenes/OfficeScene.js:1460-1462 | The loop leaves the moods array equal to `RaiseMoods` of the old one |
| Office.OfficeScene.StartFounderConversation | src/scenes/OfficeScene.js:1742-1750 | In-place `FounderArrives` |
| Office.OfficeScene.ContinueButton | src/scenes/OfficeScene.js:1803-1811 | In-place `FounderContinue`, keeping `Valid` |
| Office.OfficeScene.EndFounderConversation | src/scenes/OfficeScene.js:1473-1478 | In-place `FounderContinue` |

## Left out

- Rendering, layout, tweens, camera effects, sounds, physics and player movement are not modelled. Neither are the HUD (`buildHud`, `refreshHud`, `drawHudPanel`), the rooms and `onResize`. They draw, and do not decide anything.
- Which NPC is near the player is an input (`InteractKey(near)`), because it comes from sprite distances.
- Randomness is an input. `Phaser.Math.Between(-40, 10)` is the choice's `swing`, limited to that range by `Enabled`. Bug and trash positions are not modelled. Whether a bug reaches the door is an input event (`BugAtDoorFrame`).
- Timers and the end of a camera fade are input events. The short delayed calls run at once inside the transition that schedules them: the 10 ms advance in `advanceOrComplete`, and the 250 and 350 ms panel openings and the founder start after a fade.
- Because the delayed calls run at once, the model leaves out every input that arrives while one is pending. For example, E pressed in the 350 ms between the end of a fade and `showInvestmentPanel` can open a conversation that the panel then covers. The model has no such input order, although it reaches the same state another way: the founder overlay does not set `dialogActive`, so E opens a conversation under it, and Continue then opens the panel over the open dialog box. Apart from these windows, `Enabled` allows more orders than the timers do (the cleanup timer at any moment, for example), so the properties proved hold for every schedule in which each delayed call runs before the next input.
- `formatNum` uses the browser's `toLocaleString`. It is the parameter `fmt` of `Stats.EffectsToString` and `Stats.FormatDelta`.
- Dialog lines, choice labels, result lines, tip texts and the credits text are not modelled. A question keeps only its number of dialog lines and its two choices' effect maps. A founder keeps only its tip conditions.
- The dead methods `updateInvestmentPanel`, `adjustAlloc` and `checkFounderVisit` are never called and are not modelled. Nor is the `interactionsThisWeek` key, which is written at boot and read into a scene field that nothing uses.
- The panel's arithmetic is modelled on integers. The `...MatchesReal` lemmas prove that this equals the source's expressions evaluated in exact real arithmetic; the rounding of JavaScript's floating-point numbers is not modelled.
- The number keys 1 and 2 of the choice menu call the same handler as a click on a card, so they are the same event as `ChoiceClick`. The `updateInvestmentPreview` text is not modelled.
- OfficeState.AdvanceDialog: `advanceDialog` reads `this.dialogBox.typing` without a null check. When E is pressed while the bug notice has set `dialogActive` with no box, the call throws a TypeError out of `update`. Phaser's animation-frame loop requests the next frame only after a step returns, so the real game most likely freezes at that press. The model does not capture this. It treats the press as no change and lets play go on, so it over-approximates the real game. Its lemmas about whole games (`Run`, `Played`) describe the real game only for the inputs before such a press.
- Registry values are numbers. A key the game never wrote reads as 0, which `x || d` turns into the default. Non-numeric values in the registry are not modelled.
- `Office.OfficeScene` keeps related scene fields together in small records (dialog, widgets, panel, bug game, cleanup), while the source has flat fields. The bugs, the trash and the dialog box are reduced to what the logic reads.
- A second bug notice confirmed while a bug game runs would replace the bug group and add a second spawn timer, leaving the first group's bugs and timer running. Week 6's panel opens once per game, so a game shows one bug notice, and `BugNoticeOk` only resets the counters. Ending the bug game clears its group and removes its timer, which the model has as `EndBugGame` emptying the live bugs and `Enabled` firing the timer only while the game runs.
- OfficeState.Created: the invariant and the whole-game lemmas (`Run`, `Play`, `Played`) start from `create` on a new scene object. For later games in the same session, `Recreated` models `create` on the reused object, but `ValidView` is not proved for it. The fields left over from the previous game can break it; `LeftoverResultSkipsChoices` shows one consequence.
- constructor (`Office.OfficeScene.constructor`) models the first `create` only. A later game runs `Office.OfficeScene.Create` on the same object, whose state is `Recreated` of the old one and is not proved `Valid`.
- The menu and end scenes between two games are separate models (`Menu`, `Ending`). No lemma chains a whole session of several games.
- Phaser's `cameras.main.fadeIn` and the week overlay (src/scenes/WeekOverlay.js) are display only and are not modelled. SettingsScene is not part of this model.
- The save flag is never set to true anywhere in the repository, so the menu's save branch is modelled but unreachable from a booted game.
- Menu.ContinueGame: the source starts the office scene with the registry as it is. The model states only which scene starts, because the method does not touch the registry.
