/**
 * The office scene's state as one value, what every reachable state
 * satisfies, and the effect of each input the scene reacts to: a click on
 * a panel button, a key press, a typewriter or minigame timer, the end of
 * a camera fade. The `Office` module implements the same transitions
 * imperatively on the scene object; this module is their specification.
 */
module OfficeState {
  import opened Wrappers
  import opened Stats
  import opened Investment
  import opened Npcs
  import opened Registry
  import Ending

  /** The week `autoAdvanceWeek` moves to and the week total, both read when its fade-out began. */
  datatype Fade = Fade(week: int, total: int)

  /** A founder conversation on screen, waiting for "Continue"; `tip` is the `tips.find` result. */
  datatype Visit = Visit(founder: nat, week: int, tip: Option<nat>)

  /** The week whose investment panel is followed by the bug invasion. */
  const BugWeek: int := 6
  /** `this.bugCount` of the bug minigame. */
  const BugCount: int := 5
  /** What each bug that reaches the server room costs. */
  const BugCost: int := 10000
  /** `this.trashToClean` at the start of the cleanup minigame. */
  const TrashCount: int := 6
  /** Liam's mood below which the cleanup minigame is offered. */
  const CleanupMood: int := 30
  /** Every NPC's mood rises by this much at the start of a week. */
  const WeeklyMoodGain: int := 10
  /** `Phaser.Math.Between(-40, 10)`: the range of the mood change a choice causes. */
  const MoodSwingMin: int := -40
  const MoodSwingMax: int := 10
  /** The last week; its founder visit ends the game. */
  const LastWeek: int := 12

  /**
   * The registry and the scene's own fields. The dialog box, the choice
   * menu, the bugs and the trash are reduced to what the logic reads:
   * whether the box exists and is still typing, whether choice cards are
   * shown, which bugs and trash items are still on screen.
   */
  datatype View = View(
    reg: RegState,
    /** `this.npcs[i].mood`, in table order. */
    moods: seq<int>,
    weeklyNpcLimit: int,
    dialogActive: bool,
    dialogIndex: int,
    /** `this.activeDialog.length`. */
    dialogLength: nat,
    /** Index into the NPC table of `this.activeNpc`. */
    activeNpc: Option<nat>,
    currentQuestion: Option<Question>,
    /** `this.currentChoices`; `[]` for `null`. */
    currentChoices: seq<Choice>,
    /** `this.dialogBox !== null`. */
    dialogBox: bool,
    /** `this.dialogBox.typing`. */
    typing: bool,
    /** `this.choiceMenu.cards.length > 0`. */
    choicesShown: bool,
    showingResult: bool,
    investmentActive: bool,
    alloc: Alloc,
    maxBudget: int,
    /** Bug notices on screen, waiting for "OK". */
    bugNotices: nat,
    bugActive: bool,
    bugCount: int,
    bugsDefeated: int,
    /** How often the spawn timer has fired; the bugs are numbered in spawn order. */
    bugsSpawned: nat,
    liveBugs: set<nat>,
    /** Cleanup notices on screen, waiting for "OK". */
    cleanupNotices: nat,
    cleanupActive: bool,
    trashToClean: int,
    /** Every piece of trash still on screen, from this cleanup game or an earlier one. */
    liveTrash: set<nat>,
    /** The pieces of `this.trashGroup`, the current game's group, still on screen. */
    currentTrash: set<nat>,
    /** How many pieces all cleanup games so far have put on screen; the pieces are numbered in that order. */
    trashSpawned: nat,
    /** The pending `fadeOut` callback of `autoAdvanceWeek`, if any. */
    fading: Option<Fade>,
    visits: seq<Visit>,
    /** The data `gotoEnd` started the end scene with; the office scene has then stopped. */
    ended: Option<Ending.EndData>)

  // ---------------------------------------------------------------------
  // The invariant
  // ---------------------------------------------------------------------

  /** The name of NPC `i`, the key of its question cursor and of the talked set. */
  function NameOf(i: nat): string
    requires i < NpcCount
  {
    NpcNames[i]
  }

  /** `tryStartDialog` would open a conversation with NPC `i`: not talked to this week, questions left. */
  predicate Open(talked: set<string>, progress: map<string, nat>, i: nat)
    requires i < NpcCount
  {
    NameOf(i) !in talked && ProgressOf(progress, NameOf(i)) < QuestionCount(NameOf(i))
  }

  predicate MoodsValid(moods: seq<int>) {
    |moods| == NpcCount && forall i :: 0 <= i < |moods| ==> 0 <= moods[i] <= PercentMax
  }

  predicate BugGameValid(active: bool, count: int, defeated: int, spawned: nat, live: set<nat>) {
    && (active ==>
          && count == BugCount
          && 0 <= defeated < count
          && defeated + |live| == spawned <= count
          && forall b :: b in live ==> b < spawned)
    && (!active ==> live == {})
  }

  /**
   * The pieces on screen were all spawned, the current group is among
   * them, and a running game has at least one piece left to clean and no
   * more than its own group still shows (clicks on pieces left over from
   * an earlier game also count down `trashToClean`).
   */
  predicate CleanupValid(active: bool, toClean: int, live: set<nat>, current: set<nat>, spawned: nat) {
    && current <= live
    && (forall t :: t in live ==> t < spawned)
    && (active ==> 1 <= toClean <= |current|)
    && (!active ==> current == {})
  }

  predicate DialogValid(talked: set<string>, progress: map<string, nat>, npc: Option<nat>,
                        question: Option<Question>, choices: seq<Choice>, box: bool, typing: bool,
                        shown: bool, result: bool)
  {
    && (npc.Some? ==> npc.value < NpcCount)
    && (question.Some? ==> WellFormedQuestion(question.value))
    && (typing ==> box)
    && (box ==> npc.Some? && question.Some?)
    && (shown ==> box && |choices| == 2)
    && ((shown || (box && !result)) ==> Open(talked, progress, npc.value))
  }

  predicate FadeValid(fading: Option<Fade>, week: int, weeksTotal: int) {
    fading.Some? ==> fading.value == Fade(week + 1, weeksTotal)
  }

  predicate VisitValid(x: Visit) {
    x.founder < FounderCount && x.week == 3 * (x.founder + 1) && x.tip.Some?
  }

  predicate VisitsValid(xs: seq<Visit>) {
    forall k :: 0 <= k < |xs| ==> VisitValid(xs[k])
  }

  /**
   * What holds in every state the scene can reach: the registry invariant,
   * moods within [0, 100], an allocation in whole steps within the budget,
   * a dialog whose parts are consistent and whose question or choices
   * belong to an NPC with a question left who has not been talked to this
   * week, a bug count that adds up, a trash count that the current
   * group's pieces on screen can still reach, a fade towards the next week, and founder visits that each
   * carry a tip.
   */
  predicate ValidView(v: View) {
    ValidOutsideCleanup(v) && CleanupValid(v.cleanupActive, v.trashToClean, v.liveTrash, v.currentTrash, v.trashSpawned)
  }

  /** Every part of `ValidView` but the one about the cleanup mini-game. */
  predicate ValidOutsideCleanup(v: View) {
    && ValidState(v.reg)
    && MoodsValid(v.moods)
    && WithinBudget(v.alloc, v.maxBudget)
    && DialogValid(v.reg.talked, v.reg.progress, v.activeNpc, v.currentQuestion, v.currentChoices,
                   v.dialogBox, v.typing, v.choicesShown, v.showingResult)
    && BugGameValid(v.bugActive, v.bugCount, v.bugsDefeated, v.bugsSpawned, v.liveBugs)
    && FadeValid(v.fading, v.reg.week, v.reg.weeksTotal)
    && VisitsValid(v.visits)
  }

  // ---------------------------------------------------------------------
  // Ending the game
  // ---------------------------------------------------------------------

  /** The snapshot `gotoEnd` hands to the end scene, with its `|| default` reads. */
  function SnapshotOf(r: RegState): (s: Ending.Snapshot)
    ensures s.funds == Some(r.funds) && s.product == Some(r.product)
    ensures s.morale == Some(r.morale) && s.hype == Some(r.hype)
    ensures r.week != 0 ==> s.week == Some(r.week)
    ensures r.weeksTotal != 0 ==> s.weeksTotal == Some(r.weeksTotal)
  {
    Ending.Snapshot(Some(OrDefault(r.funds, 0)), Some(OrDefault(r.product, 0)),
                    Some(OrDefault(r.morale, 0)), Some(OrDefault(r.hype, 0)),
                    Some(OrDefault(r.week, 1)), Some(OrDefault(r.weeksTotal, 12)))
  }

  function GotoEnd(v: View, kind: string): (r: View)
    ensures r.ended == Some(Ending.EndData(Some(kind), Some(SnapshotOf(v.reg))))
    ensures r.reg == v.reg && r.fading == v.fading
  {
    v.(ended := Some(Ending.EndData(Some(kind), Some(SnapshotOf(v.reg)))))
  }

  /** `checkImmediateEnd`: bankrupt as soon as Funds is not positive. */
  function CheckEnd(v: View): (r: View)
    ensures v.reg.funds <= 0 ==> r == GotoEnd(v, "bankrupt") && r.ended.Some?
    ensures v.reg.funds > 0 ==> r == v
  {
    if OrDefault(v.reg.funds, 0) <= 0 then GotoEnd(v, "bankrupt") else v
  }

  /**
   * The end scene shows exactly the registry's stats, and a bankrupt
   * ending is classified as bankrupt whatever the stats are.
   */
  lemma EndSceneSeesRegistry(r: RegState, kind: string)
    requires ValidState(r) && kind != ""
    ensures Ending.Init(Some(Ending.EndData(Some(kind), Some(SnapshotOf(r)))))
         == Ending.Final(r.funds, r.product, r.morale, r.hype, r.week, r.weeksTotal, kind)
    ensures kind == "bankrupt" ==> Ending.OutcomeOf(Some(Ending.EndData(Some(kind), Some(SnapshotOf(r))))) == Ending.Bankrupt
  {
  }

  // ---------------------------------------------------------------------
  // The investment panel
  // ---------------------------------------------------------------------

  /**
   * `showInvestmentPanel`: opens unless open already or Funds is not
   * positive, with an empty allocation and the budget `MaxBudget`.
   */
  function ShowPanel(v: View): (r: View)
    ensures r.reg == v.reg && r.moods == v.moods && r.visits == v.visits && r.fading == v.fading && r.ended == v.ended
    ensures r.investmentActive
            <==> v.investmentActive || v.reg.funds > 0
    ensures !v.investmentActive && v.reg.funds > 0 ==>
              r == v.(investmentActive := true, dialogActive := true, alloc := Zero, maxBudget := MaxBudget(v.reg.funds))
    ensures v.investmentActive || v.reg.funds <= 0 ==> r == v
  {
    if v.investmentActive then v
    else
      var funds := OrDefault(v.reg.funds, 0);
      if funds <= 0 then v
      else v.(investmentActive := true, dialogActive := true, alloc := Zero, maxBudget := MaxBudget(funds))
  }

  /** "+ Invest $1k": one step more in `c` if the total stays within the budget. */
  function Invest(v: View, c: Category): (r: View)
    ensures Total(v.alloc) + StepSize <= v.maxBudget ==>
              r == v.(alloc := Set(v.alloc, c, Get(v.alloc, c) + StepSize))
    ensures Total(v.alloc) + StepSize > v.maxBudget ==> r == v
    ensures r.reg == v.reg && r.ended == v.ended
  {
    if Total(v.alloc) + StepSize <= v.maxBudget then v.(alloc := Set(v.alloc, c, Get(v.alloc, c) + StepSize)) else v
  }

  /** "- Remove $1k": one step less in `c` if there is a step to remove. */
  function Remove(v: View, c: Category): (r: View)
    ensures Get(v.alloc, c) >= StepSize ==> r == v.(alloc := Set(v.alloc, c, Get(v.alloc, c) - StepSize))
    ensures Get(v.alloc, c) < StepSize ==> r == v
    ensures r.reg == v.reg && r.ended == v.ended
  {
    if Get(v.alloc, c) >= StepSize then v.(alloc := Set(v.alloc, c, Get(v.alloc, c) - StepSize)) else v
  }

  /**
   * `closeInvestmentPanel`: the panel closes; in week 6 the bug notice
   * appears (and freezes the dialog), in any other week the cleanup notice
   * appears when Liam's mood is below 30.
   */
  function ClosePanel(v: View): (r: View)
    requires |v.moods| == NpcCount
    ensures !r.investmentActive && r.reg == v.reg && r.moods == v.moods && r.ended == v.ended
    ensures r.dialogActive <==> v.reg.week == BugWeek
    ensures r.bugNotices == v.bugNotices + (if v.reg.week == BugWeek then 1 else 0)
    ensures r.cleanupNotices == v.cleanupNotices + (if v.reg.week != BugWeek && v.moods[LiamIndex] < CleanupMood then 1 else 0)
  {
    var closed := HidePanel(v);
    if v.reg.week == BugWeek then BugNotice(closed)
    else if v.moods[LiamIndex] < CleanupMood then CleanupNotice(closed)
    else closed
  }

  /** The panel is gone and the dialog freed. */
  function HidePanel(v: View): (r: View)
    ensures !r.investmentActive && !r.dialogActive
    ensures r.reg == v.reg && r.moods == v.moods && r.ended == v.ended
    ensures r.bugNotices == v.bugNotices && r.cleanupNotices == v.cleanupNotices
  {
    v.(investmentActive := false, dialogActive := false)
  }

  /** `showBugNotification`: one more notice, and the dialog frozen until "OK". */
  function BugNotice(v: View): (r: View)
    ensures r.dialogActive && r.bugNotices == v.bugNotices + 1
    ensures r.investmentActive == v.investmentActive && r.cleanupNotices == v.cleanupNotices
    ensures r.reg == v.reg && r.moods == v.moods && r.ended == v.ended
  {
    v.(dialogActive := true, bugNotices := v.bugNotices + 1)
  }

  /** `showCleanupNotification`: one more notice. */
  function CleanupNotice(v: View): (r: View)
    ensures r.cleanupNotices == v.cleanupNotices + 1
    ensures r.investmentActive == v.investmentActive && r.dialogActive == v.dialogActive && r.bugNotices == v.bugNotices
    ensures r.reg == v.reg && r.moods == v.moods && r.ended == v.ended
  {
    v.(cleanupNotices := v.cleanupNotices + 1)
  }

  /**
   * "Confirm": with nothing allocated the panel just closes; otherwise the
   * total is deducted from Funds, the investment effects are applied and
   * the allocation is remembered, then the panel closes.
   */
  function Confirm(v: View): (r: View)
    requires |v.moods| == NpcCount && Stepped(v.alloc)
    ensures Total(v.alloc) <= 0 ==> r == ClosePanel(v)
    ensures Total(v.alloc) > 0 ==>
              r.reg.Values() == Invested(v.reg.Values(), v.alloc) && r.reg.lastAlloc == Some(v.alloc)
    ensures r.reg.week == v.reg.week && r.reg.progress == v.reg.progress && r.reg.talked == v.reg.talked
    ensures r.ended == v.ended
  {
    if Total(v.alloc) <= 0 then ClosePanel(v) else ClosePanel(Spend(v))
  }

  /** The allocation is paid for, its effects applied, and it is remembered as the last one. */
  function Spend(v: View): (r: View)
    requires Stepped(v.alloc)
    ensures r.reg.Values() == Invested(v.reg.Values(), v.alloc) && r.reg.lastAlloc == Some(v.alloc)
    ensures r.reg.week == v.reg.week && r.reg.weeksTotal == v.reg.weeksTotal
    ensures r.reg.progress == v.reg.progress && r.reg.talked == v.reg.talked
    ensures r.moods == v.moods && r.ended == v.ended && r.alloc == v.alloc
  {
    v.(reg := v.reg.WithValues(Invested(v.reg.Values(), v.alloc)).(lastAlloc := Some(v.alloc)))
  }

  // ---------------------------------------------------------------------
  // The bug minigame
  // ---------------------------------------------------------------------

  /** "OK - Let's Go!": the notice goes, and `startBugMiniGame` freezes the dialog and starts five bugs. */
  function BugNoticeOk(v: View): (r: View)
    requires v.bugNotices > 0
    ensures r.bugActive && r.dialogActive && r.bugCount == BugCount
    ensures r.bugsDefeated == 0 && r.bugsSpawned == 0 && r.liveBugs == {}
    ensures r.bugNotices == v.bugNotices - 1 && r.reg == v.reg && r.ended == v.ended
  {
    v.(bugNotices := v.bugNotices - 1, dialogActive := true, bugCount := BugCount,
       bugsDefeated := 0, bugsSpawned := 0, liveBugs := {}, bugActive := true)
  }

  /** The spawn timer fires: one more bug on screen. */
  function SpawnBug(v: View): (r: View)
    ensures r.liveBugs == v.liveBugs + {v.bugsSpawned} && r.bugsSpawned == v.bugsSpawned + 1
    ensures r.reg == v.reg && r.bugsDefeated == v.bugsDefeated && r.bugActive == v.bugActive && r.ended == v.ended
  {
    v.(liveBugs := v.liveBugs + {v.bugsSpawned}, bugsSpawned := v.bugsSpawned + 1)
  }

  /** `endBugMiniGame`. */
  function EndBugGame(v: View): (r: View)
    ensures !r.bugActive && !r.dialogActive && r.liveBugs == {} && r.reg == v.reg && r.ended == v.ended
  {
    v.(bugActive := false, dialogActive := false, liveBugs := {})
  }

  /** Bug `b` leaves the screen and counts as defeated; the game ends at `bugCount`. */
  function Defeat(v: View, b: nat): (r: View)
    ensures r.reg == v.reg && r.ended == v.ended
    ensures r.liveBugs == if v.bugsDefeated + 1 >= v.bugCount then {} else v.liveBugs - {b}
    ensures r.bugActive <==> v.bugActive && v.bugsDefeated + 1 < v.bugCount
  {
    var gone := v.(liveBugs := v.liveBugs - {b}, bugsDefeated := v.bugsDefeated + 1);
    if gone.bugsDefeated >= gone.bugCount then EndBugGame(gone) else gone
  }

  /** A click on bug `b` squashes it at no cost. */
  function SquashBug(v: View, b: nat): (r: View)
    ensures r.reg == v.reg && r.ended == v.ended
  {
    Defeat(v, b)
  }

  /**
   * Bug `b` reaches the door (checked only while the panel is closed and
   * the game runs, and only for a bug still on screen): it costs $10k,
   * Funds floored at 0.
   */
  function BugAtDoor(v: View, b: nat): (r: View)
    ensures v.investmentActive || !v.bugActive || b !in v.liveBugs ==> r == v
    ensures !v.investmentActive && v.bugActive && b in v.liveBugs ==>
              r.reg == v.reg.(funds := FundsAfter(v.reg.funds, Some(-BugCost)))
    ensures r.reg.week == v.reg.week && r.reg.weeksTotal == v.reg.weeksTotal && r.reg.progress == v.reg.progress
    ensures r.ended == v.ended
  {
    if v.investmentActive || !v.bugActive || b !in v.liveBugs then v
    else Defeat(v.(reg := v.reg.(funds := FundsAfter(v.reg.funds, Some(-BugCost)))), b)
  }

  // ---------------------------------------------------------------------
  // The cleanup minigame
  // ---------------------------------------------------------------------

  /** The six pieces a cleanup game puts on screen, numbered from `first`. */
  function TrashBatch(first: nat): (b: set<nat>)
    ensures |b| == TrashCount
    ensures forall t :: t in b <==> first <= t < first + TrashCount
  {
    {first, first + 1, first + 2, first + 3, first + 4, first + 5}
  }

  /**
   * "OK - Let's Clean!": `startCleanupMiniGame` puts six new pieces of
   * trash on screen as a new `trashGroup` and sets six to clean. The
   * pieces of an earlier group that are still on screen stay there and
   * stay clickable: the old group is replaced, not cleared.
   */
  function CleanupNoticeOk(v: View): (r: View)
    requires v.cleanupNotices > 0
    ensures r.cleanupActive && r.trashToClean == TrashCount
    ensures r.currentTrash == TrashBatch(v.trashSpawned) && r.liveTrash == v.liveTrash + r.currentTrash
    ensures r.trashSpawned == v.trashSpawned + TrashCount
    ensures r.cleanupNotices == v.cleanupNotices - 1 && r.reg == v.reg && r.dialogActive == v.dialogActive
    ensures r.ended == v.ended
  {
    var batch := TrashBatch(v.trashSpawned);
    v.(cleanupNotices := v.cleanupNotices - 1, cleanupActive := true, trashToClean := TrashCount,
       liveTrash := v.liveTrash + batch, currentTrash := batch, trashSpawned := v.trashSpawned + TrashCount)
  }

  /**
   * `endCleanupMiniGame(success)`: the current group's pieces leave the
   * screen; Morale +10 on success and -5 otherwise, without clamping;
   * Liam's mood +20 or -10, clamped to [0, 100].
   */
  function EndCleanup(v: View, success: bool): (r: View)
    requires |v.moods| == NpcCount
    ensures !r.cleanupActive && r.currentTrash == {} && r.liveTrash == v.liveTrash - v.currentTrash
    ensures r.trashSpawned == v.trashSpawned && r.ended == v.ended
    ensures r.reg == v.reg.(morale := v.reg.morale + if success then 10 else -5)
    ensures r.moods == v.moods[LiamIndex := Clamp(v.moods[LiamIndex] + if success then 20 else -10, 0, PercentMax)]
  {
    var morale := OrDefault(v.reg.morale, 0) + if success then 10 else -5;
    var mood := Clamp(v.moods[LiamIndex] + if success then 20 else -10, 0, PercentMax);
    v.(cleanupActive := false, liveTrash := v.liveTrash - v.currentTrash, currentTrash := {},
       reg := v.reg.(morale := morale), moods := v.moods[LiamIndex := mood])
  }

  /**
   * A click on trash item `t`, of the current group or of an earlier one:
   * it counts down the shared `trashToClean`, and reaching zero wins the
   * game, again after the game has ended when the piece is a leftover.
   */
  function ClickTrash(v: View, t: nat): (r: View)
    requires |v.moods| == NpcCount
    ensures v.trashToClean - 1 <= 0 ==> r == EndCleanup(PickUp(v, t), true)
    ensures v.trashToClean - 1 > 0 ==> r == PickUp(v, t)
  {
    var cleaned := PickUp(v, t);
    if cleaned.trashToClean <= 0 then EndCleanup(cleaned, true) else cleaned
  }

  /** Piece `t` is picked up: it leaves the screen and one fewer is left to clean. */
  function PickUp(v: View, t: nat): (r: View)
    ensures r.liveTrash == v.liveTrash - {t} && r.currentTrash == v.currentTrash - {t}
    ensures r.trashToClean == v.trashToClean - 1 && r.trashSpawned == v.trashSpawned
    ensures r.cleanupActive == v.cleanupActive && r.reg == v.reg && r.moods == v.moods && r.ended == v.ended
  {
    v.(liveTrash := v.liveTrash - {t}, currentTrash := v.currentTrash - {t}, trashToClean := v.trashToClean - 1)
  }

  /** The 15-second timer: a game still running is lost. */
  function CleanupTimeout(v: View): (r: View)
    requires |v.moods| == NpcCount
    ensures v.cleanupActive ==> r == EndCleanup(v, false)
    ensures !v.cleanupActive ==> r == v
  {
    if v.cleanupActive then EndCleanup(v, false) else v
  }

  // ---------------------------------------------------------------------
  // Conversations
  // ---------------------------------------------------------------------

  /**
   * `tryStartDialog`: refused while a dialog is active, when the NPC was
   * talked to this week or has no question left; otherwise its next
   * question starts typing in a new dialog box.
   */
  function TryStart(v: View, i: nat): (r: View)
    requires i < NpcCount
    ensures v.dialogActive || !Open(v.reg.talked, v.reg.progress, i) ==> r == v
    ensures !v.dialogActive && Open(v.reg.talked, v.reg.progress, i) ==>
              && r.dialogActive && r.dialogBox && r.typing && r.activeNpc == Some(i) && r.dialogIndex == 0
              && r.currentQuestion == Some(QuestionAt(i, ProgressOf(v.reg.progress, NameOf(i))))
              && r.dialogLength == r.currentQuestion.value.dialogLines == 1
              && r.showingResult == v.showingResult && r.choicesShown == v.choicesShown
              && r.currentChoices == v.currentChoices
              && r.reg == v.reg && r.moods == v.moods && r.fading == v.fading && r.ended == v.ended
  {
    NamesMatchTable();
    var name := Table()[i].name;
    var progress := ProgressOf(v.reg.progress, name);
    if v.dialogActive || name in v.reg.talked || progress >= |Table()[i].questions| then v
    else
      var q := QuestionAt(i, progress);
      v.(dialogActive := true, dialogIndex := 0, activeNpc := Some(i), currentQuestion := Some(q),
         dialogLength := q.dialogLines, dialogBox := true, typing := true)
  }

  /** The typewriter has written the whole line. */
  function TypingDone(v: View): (r: View)
    ensures !r.typing && r.dialogBox == v.dialogBox && r.reg == v.reg && r.ended == v.ended
  {
    v.(typing := false)
  }

  /** `closeDialog`: only while a dialog is active. */
  function CloseDialog(v: View): (r: View)
    ensures !v.dialogActive ==> r == v
    ensures v.dialogActive ==> !r.dialogActive && !r.dialogBox && !r.typing && !r.choicesShown && r.activeNpc.None?
    ensures r.reg == v.reg
  {
    if !v.dialogActive then v
    else v.(dialogActive := false, dialogBox := false, typing := false, choicesShown := false,
            currentChoices := [], activeNpc := None)
  }

  /**
   * `autoAdvanceWeek`: starts the fade to the next week. `fadeOut` forces a
   * restart when a fade is already running; the registry week has not moved
   * since, so the restarted fade targets the same week, and the model keeps
   * the running fade as it is.
   */
  function AutoAdvance(v: View): (r: View)
    ensures v.fading.Some? ==> r == v
    ensures v.fading.None? ==> r == v.(fading := Some(Fade(OrDefault(v.reg.week, 1) + 1, OrDefault(v.reg.weeksTotal, 12))))
  {
    if v.fading.Some? then v
    else v.(fading := Some(Fade(OrDefault(v.reg.week, 1) + 1, OrDefault(v.reg.weeksTotal, 12))))
  }

  /**
   * The result's last line is dismissed: the dialog closes, the game ends
   * if Funds is not positive, and otherwise the week advances once the
   * number of NPCs talked to this week reaches the weekly limit.
   */
  function DismissResult(v: View): (r: View)
    ensures r.reg == v.reg && r.moods == v.moods && r.visits == v.visits
    ensures !r.showingResult
    ensures v.dialogActive ==> !r.dialogActive && !r.dialogBox && !r.typing && !r.choicesShown && r.activeNpc.None?
    ensures v.reg.funds <= 0 ==> r.ended == Some(Ending.EndData(Some("bankrupt"), Some(SnapshotOf(v.reg))))
    ensures v.reg.funds > 0 && |v.reg.talked| >= v.weeklyNpcLimit ==>
              && r.ended == v.ended
              && (v.fading.None? ==> r.fading == Some(Fade(OrDefault(v.reg.week, 1) + 1, OrDefault(v.reg.weeksTotal, 12))))
              && (v.fading.Some? ==> r.fading == v.fading)
    ensures v.reg.funds > 0 && |v.reg.talked| < v.weeklyNpcLimit ==> r.fading == v.fading && r.ended == v.ended
    ensures r.fading != v.fading ==>
              && v.fading.None? && v.reg.funds > 0 && |v.reg.talked| >= v.weeklyNpcLimit
              && r.fading == Some(Fade(OrDefault(v.reg.week, 1) + 1, OrDefault(v.reg.weeksTotal, 12)))
    ensures r.ended != v.ended ==>
              v.reg.funds <= 0 && r.ended == Some(Ending.EndData(Some("bankrupt"), Some(SnapshotOf(v.reg))))
  {
    var closed := CloseDialog(v.(showingResult := false));
    if OrDefault(closed.reg.funds, 0) <= 0 then GotoEnd(closed, "bankrupt")
    else if |closed.reg.talked| >= closed.weeklyNpcLimit then AutoAdvance(closed)
    else closed
  }

  /**
   * `advanceDialog`. With no dialog box (the bug notice sets `dialogActive`
   * without one) reading `typing` throws out of the frame; the model leaves
   * the state unchanged, where the real game loop stops. A line still
   * typing is completed. Otherwise the next line starts; after the last
   * line the choices appear, or, after the result, `DismissResult`.
   */
  function AdvanceDialog(v: View): (r: View)
    requires v.dialogBox ==> v.currentQuestion.Some?
    ensures r.reg == v.reg && r.moods == v.moods && r.visits == v.visits
    ensures !v.dialogActive || !v.dialogBox ==> r == v
    ensures v.dialogActive && v.dialogBox && v.typing ==> r == TypingDone(v)
    ensures v.dialogActive && v.dialogBox && !v.typing ==> r == NextLine(v)
    ensures r.fading != v.fading ==> r == DismissResult(Advanced(v))
    ensures r.ended != v.ended ==> r == DismissResult(Advanced(v))
  {
    if !v.dialogActive || !v.dialogBox then v
    else if v.typing then v.(typing := false)
    else NextLine(v)
  }

  /** The line cursor moves on by one. */
  function Advanced(v: View): (r: View)
    ensures r.dialogIndex == v.dialogIndex + 1
  {
    v.(dialogIndex := v.dialogIndex + 1)
  }

  /**
   * The next line of the dialog types in; after the last line the choices
   * of the question appear, or, after a result, the dialog is dismissed.
   */
  function NextLine(v: View): (r: View)
    requires v.currentQuestion.Some?
    ensures r.reg == v.reg && r.moods == v.moods && r.visits == v.visits
    ensures v.dialogIndex + 1 < v.dialogLength ==>
              r.dialogIndex == v.dialogIndex + 1 && r.typing && r.choicesShown == v.choicesShown
    ensures v.dialogIndex + 1 >= v.dialogLength && !v.showingResult ==>
              r.choicesShown && r.currentChoices == v.currentQuestion.value.choices
    ensures v.dialogIndex + 1 >= v.dialogLength && v.showingResult ==>
              r == DismissResult(Advanced(v))
    ensures r.fading != v.fading || r.ended != v.ended ==>
              v.showingResult && r == DismissResult(Advanced(v))
  {
    var next := Advanced(v);
    if next.dialogIndex < v.dialogLength then TypeLine(next)
    else if !v.showingResult then OfferChoices(next)
    else DismissResult(next)
  }

  /** The typewriter starts on the current line. */
  function TypeLine(v: View): (r: View)
    ensures r.typing && r.dialogIndex == v.dialogIndex && r.choicesShown == v.choicesShown
    ensures r.reg == v.reg && r.moods == v.moods && r.visits == v.visits && r.fading == v.fading && r.ended == v.ended
  {
    v.(typing := true)
  }

  /** `showChoices`: the two choices of the current question appear. */
  function OfferChoices(v: View): (r: View)
    requires v.currentQuestion.Some?
    ensures r.choicesShown && r.currentChoices == v.currentQuestion.value.choices
    ensures r.reg == v.reg && r.moods == v.moods && r.visits == v.visits && r.fading == v.fading && r.ended == v.ended
  {
    v.(choicesShown := true, currentChoices := v.currentQuestion.value.choices)
  }

  /**
   * `advanceOrComplete`: nothing while the choices are shown; a line still
   * typing is completed and then advanced (the 10 ms delayed call runs at
   * once); otherwise `advanceDialog`.
   */
  function AdvanceOrComplete(v: View): (r: View)
    requires v.dialogBox ==> v.currentQuestion.Some?
    ensures !v.dialogActive || v.choicesShown || !v.dialogBox ==> r == v
    ensures v.dialogActive && !v.choicesShown && v.dialogBox && v.typing ==> r == NextLine(v.(typing := false))
    ensures v.dialogActive && !v.choicesShown && v.dialogBox && !v.typing ==> r == NextLine(v)
    ensures r.reg == v.reg
    ensures r.ended != v.ended ==>
              v.reg.funds <= 0 && r.ended == Some(Ending.EndData(Some("bankrupt"), Some(SnapshotOf(v.reg))))
  {
    if !v.dialogActive || v.choicesShown then v
    else if v.dialogBox && v.typing then AdvanceDialog(v.(typing := false))
    else AdvanceDialog(v)
  }

  /**
   * E or SPACE in `update`: ignored while the panel is open or the bug
   * game runs; next to an NPC with no dialog active it starts a
   * conversation; with a dialog active it advances it.
   */
  function Interact(v: View, near: Option<nat>): (r: View)
    requires near.Some? ==> near.value < NpcCount
    requires v.dialogBox ==> v.currentQuestion.Some?
    ensures v.investmentActive || v.bugActive ==> r == v
    ensures !v.investmentActive && !v.bugActive && near.Some? && !v.dialogActive ==> r == TryStart(v, near.value)
    ensures !v.investmentActive && !v.bugActive && v.dialogActive ==> r == AdvanceOrComplete(v)
    ensures near.None? && !v.dialogActive ==> r == v
    ensures r.reg == v.reg
    ensures r.ended != v.ended ==>
              v.reg.funds <= 0 && r.ended == Some(Ending.EndData(Some("bankrupt"), Some(SnapshotOf(v.reg))))
  {
    if v.investmentActive || v.bugActive then v
    else if near.Some? && !v.dialogActive then TryStart(v, near.value)
    else if v.dialogActive then AdvanceOrComplete(v)
    else v
  }

  /**
   * `choose(currentChoices[idx])`: the choice's effects are applied, the
   * NPC's mood moves by `swing` (clamped), its question cursor advances, it
   * counts as talked to this week, and the result starts typing.
   */
  function Choose(v: View, idx: nat, swing: int): (r: View)
    requires v.activeNpc.Some? && v.activeNpc.value < NpcCount && |v.moods| == NpcCount && idx < |v.currentChoices|
    ensures r.reg.Values() == Applied(v.reg.Values(), v.currentChoices[idx].effects)
    ensures var name := NameOf(v.activeNpc.value);
            && ProgressOf(r.reg.progress, name) == ProgressOf(v.reg.progress, name) + 1
            && (forall n :: n != name ==> ProgressOf(r.reg.progress, n) == ProgressOf(v.reg.progress, n))
            && r.reg.talked == v.reg.talked + {name}
    ensures r.reg.week == v.reg.week
    ensures r.moods == v.moods[v.activeNpc.value := Clamp(v.moods[v.activeNpc.value] + swing, 0, PercentMax)]
    ensures r.showingResult && !r.choicesShown && r.typing && r.ended == v.ended
  {
    ShowResult(Answer(v, idx, swing))
  }

  /**
   * The effects of the choice apply, the NPC's mood swings, its question
   * cursor moves on and it counts as talked to this week.
   */
  function Answer(v: View, idx: nat, swing: int): (r: View)
    requires v.activeNpc.Some? && v.activeNpc.value < NpcCount && |v.moods| == NpcCount && idx < |v.currentChoices|
    ensures r.reg.Values() == Applied(v.reg.Values(), v.currentChoices[idx].effects)
    ensures var name := NameOf(v.activeNpc.value);
            && r.reg.progress == v.reg.progress[name := ProgressOf(v.reg.progress, name) + 1]
            && r.reg.talked == v.reg.talked + {name}
    ensures r.reg.week == v.reg.week && r.reg.weeksTotal == v.reg.weeksTotal
    ensures r.moods == v.moods[v.activeNpc.value := Clamp(v.moods[v.activeNpc.value] + swing, 0, PercentMax)]
    ensures r.ended == v.ended
  {
    var i := v.activeNpc.value;
    RecordTalk(SwingMood(TakeEffects(v, v.currentChoices[idx].effects), i, swing), NameOf(i))
  }

  /** `applyEffects`: the four stats change as `Applied` says, nothing else does. */
  function TakeEffects(v: View, e: Effects): (r: View)
    ensures r.reg.Values() == Applied(v.reg.Values(), e)
    ensures r.reg.week == v.reg.week && r.reg.weeksTotal == v.reg.weeksTotal
    ensures r.reg.progress == v.reg.progress && r.reg.talked == v.reg.talked
    ensures r.moods == v.moods && r.activeNpc == v.activeNpc && r.ended == v.ended
  {
    v.(reg := v.reg.WithValues(Applied(v.reg.Values(), e)))
  }

  /** The mood of NPC `i` changes by `swing`, clamped to [0, 100]. */
  function SwingMood(v: View, i: nat, swing: int): (r: View)
    requires i < |v.moods|
    ensures r.moods == v.moods[i := Clamp(v.moods[i] + swing, 0, PercentMax)]
    ensures r.reg == v.reg && r.ended == v.ended
  {
    v.(moods := v.moods[i := Clamp(v.moods[i] + swing, 0, PercentMax)])
  }

  /** NPC `name` counts as talked to and its question cursor moves on. */
  function RecordTalk(v: View, name: string): (r: View)
    ensures r.reg.progress == v.reg.progress[name := ProgressOf(v.reg.progress, name) + 1]
    ensures r.reg.talked == v.reg.talked + {name}
    ensures r.reg.Values() == v.reg.Values() && r.reg.week == v.reg.week && r.reg.weeksTotal == v.reg.weeksTotal
    ensures r.moods == v.moods && r.ended == v.ended
  {
    v.(reg := v.reg.(progress := v.reg.progress[name := ProgressOf(v.reg.progress, name) + 1],
                     talked := v.reg.talked + {name}))
  }

  /** The result of the choice types in as a one-line dialog. */
  function ShowResult(v: View): (r: View)
    ensures r.showingResult && !r.choicesShown && r.typing && r.dialogIndex == 0 && r.dialogLength == 1
    ensures r.reg == v.reg && r.moods == v.moods && r.ended == v.ended
  {
    v.(choicesShown := false, dialogIndex := 0, dialogLength := 1, typing := true, showingResult := true)
  }

  // ---------------------------------------------------------------------
  // Weeks and founders
  // ---------------------------------------------------------------------

  /** Every mood +10, clamped to [0, 100]. */
  function RaiseMoods(ms: seq<int>): (r: seq<int>)
    ensures |r| == |ms|
    ensures forall k :: 0 <= k < |ms| ==> r[k] == Clamp(ms[k] + WeeklyMoodGain, 0, PercentMax)
  {
    seq(|ms|, k requires 0 <= k < |ms| => Clamp(ms[k] + WeeklyMoodGain, 0, PercentMax))
  }

  /** The stats `startFounderConversation` reads, each `|| 0`. */
  function FounderStats(r: RegState): Stats {
    Stats(OrDefault(r.funds, 0), OrDefault(r.product, 0), OrDefault(r.morale, 0), OrDefault(r.hype, 0))
  }

  /** The new week starts: stored in the registry, nobody talked to yet, every mood +10. */
  function NewWeek(v: View, week: int): (r: View)
    ensures r.reg == v.reg.(week := week, talked := {})
    ensures r.moods == RaiseMoods(v.moods) && r.visits == v.visits && r.ended == v.ended
    ensures r.fading == v.fading && r.investmentActive == v.investmentActive
  {
    v.(reg := v.reg.(week := week, talked := {}), moods := RaiseMoods(v.moods))
  }

  /**
   * A founder arrives for the conversation of `week`; the tip is the first
   * one whose condition holds, which always exists.
   */
  function FounderArrives(v: View, founder: nat): (r: View)
    requires founder < FounderCount
    ensures r.visits == v.visits + [Visit(founder, 3 * (founder + 1), Some(TipRank(FounderStats(v.reg))))]
    ensures r.reg == v.reg && r.ended == v.ended && r.moods == v.moods && r.fading == v.fading
  {
    FounderTip(founder, FounderStats(v.reg));
    var tip := FindTip(Founders()[founder].tips, FounderStats(v.reg));
    v.(visits := v.visits + [Visit(founder, 3 * (founder + 1), tip)])
  }

  /**
   * The fade-out completes: past the last week the game ends; otherwise the
   * new week starts, then a founder visits in weeks 3, 6, 9 and 12 (the
   * 350 ms delayed start runs at once), and in any other week the
   * investment panel opens.
   */
  function FadeOutDone(v: View): (r: View)
    requires v.fading.Some? && |v.moods| == NpcCount
    ensures r.fading.None?
    ensures v.fading.value.week > v.fading.value.total ==>
              r.ended == Some(Ending.EndData(Some("final"), Some(SnapshotOf(v.reg)))) && r.reg == v.reg
    ensures v.fading.value.week <= v.fading.value.total ==> r == BeginWeek(v.(fading := None), v.fading.value.week)
  {
    var f := v.fading.value;
    var done := v.(fading := None);
    if f.week > f.total then GotoEnd(done, "final")
    else BeginWeek(done, f.week)
  }

  /**
   * Week `week` starts; a founder visits in weeks 3, 6, 9 and 12, and in
   * any other week the investment panel opens.
   */
  function BeginWeek(v: View, week: int): (r: View)
    requires |v.moods| == NpcCount
    ensures r.ended == v.ended && r.fading == v.fading
    ensures r.reg == v.reg.(week := week, talked := {}) && r.moods == RaiseMoods(v.moods)
  {
    var next := NewWeek(v, week);
    var founder := FounderFor(week);
    if founder.Some? then
      assert founder.value == week / 3 - 1;
      FounderArrives(next, founder.value)
    else ShowPanel(next)
  }

  /** "Continue" on visit `i`: week 12 ends the game, any other week opens the panel. */
  function FounderContinue(v: View, i: nat): (r: View)
    requires i < |v.visits|
    ensures v.visits[i].week == LastWeek ==> r.ended == Some(Ending.EndData(Some("final"), Some(SnapshotOf(v.reg))))
    ensures v.visits[i].week != LastWeek ==> r.ended == v.ended
    ensures r.reg == v.reg && r.visits == v.visits[..i] + v.visits[i + 1..]
  {
    var x := v.visits[i];
    var rest := v.(visits := v.visits[..i] + v.visits[i + 1..]);
    if x.week == LastWeek then GotoEnd(rest, "final") else ShowPanel(rest)
  }

  // ---------------------------------------------------------------------
  // The scene as a whole
  // ---------------------------------------------------------------------

  /**
   * The fields `create` sets, on a scene object that has never run: fresh
   * NPCs at mood 80, the weekly limit from the registry, the dialog
   * closed; every field `create` leaves alone is still undefined, which
   * the code reads as false, null or 0.
   */
  function Blank(r: RegState): (v: View)
    ensures v.reg == r && v.moods == [StartMood, StartMood, StartMood, StartMood]
    ensures !v.dialogActive && !v.dialogBox && !v.showingResult && !v.investmentActive
    ensures !v.bugActive && !v.cleanupActive && v.fading.None? && v.visits == [] && v.ended.None?
  {
    View(r, [StartMood, StartMood, StartMood, StartMood], OrDefault(r.weeklyNpcLimit, 2),
         false, 0, 0, None, None, [], false, false, false, false,
         false, Zero, 0,
         0, false, 0, 0, 0, {},
         0, false, 0, {}, {}, 0,
         None, [], None)
  }

  /** The end of `create`: bankruptcy is checked at once, and a game that goes on opens the panel. */
  function Launch(v: View): (r: View)
    ensures r.reg == v.reg && r.moods == v.moods
    ensures r.ended.Some? <==> v.ended.Some? || v.reg.funds <= 0
    ensures v.ended.None? && v.reg.funds > 0 ==> r == ShowPanel(v)
  {
    var checked := CheckEnd(v);
    if checked.ended.Some? then checked else ShowPanel(checked)
  }

  /** `create` on a scene object that has never run. */
  function Created(r: RegState): (v: View)
    ensures v.reg == r
    ensures v.ended.Some? <==> r.funds <= 0
    ensures r.funds > 0 ==> v.investmentActive && v.dialogActive && v.maxBudget == MaxBudget(r.funds)
  {
    Launch(Blank(r))
  }

  /**
   * The fields `create` does not set and the previous game left behind:
   * the result flag, the question, the panel's flag and budget, the bug
   * and cleanup games' flags and counters.
   */
  predicate Untouched(v: View) {
    && !v.showingResult && v.currentQuestion.None?
    && !v.investmentActive && v.alloc == Zero && v.maxBudget == 0
    && !v.bugActive && v.bugCount == 0 && v.bugsDefeated == 0
    && !v.cleanupActive && v.trashToClean == 0
  }

  /**
   * `create` run again on the same scene object, as the engine does when
   * a game started from the menu follows an ended one. The stopped scene
   * lost its game objects, timers, fade and founder overlays; `create`
   * rebuilds what `Blank` describes; the fields `Untouched` lists keep the
   * values the previous game left.
   */
  function Recreated(prev: View, r: RegState): (v: View)
    ensures v.reg == r && v.moods == [StartMood, StartMood, StartMood, StartMood]
    ensures v.ended.Some? <==> r.funds <= 0
    ensures v.showingResult == prev.showingResult && v.currentQuestion == prev.currentQuestion
    ensures v.bugActive == prev.bugActive && v.cleanupActive == prev.cleanupActive
    ensures v.trashToClean == prev.trashToClean
    ensures !v.dialogBox && !v.choicesShown && v.liveBugs == {} && v.liveTrash == {}
    ensures v.fading.None? && v.visits == []
  {
    Launch(Restart(prev, r))
  }

  /** `Blank`, with the fields `Untouched` lists taken from the previous game. */
  function Restart(prev: View, r: RegState): View {
    Blank(r).(showingResult := prev.showingResult, currentQuestion := prev.currentQuestion,
              investmentActive := prev.investmentActive, alloc := prev.alloc, maxBudget := prev.maxBudget,
              bugActive := prev.bugActive, bugCount := prev.bugCount, bugsDefeated := prev.bugsDefeated,
              cleanupActive := prev.cleanupActive, trashToClean := prev.trashToClean)
  }

  /** An input the running scene reacts to. */
  datatype Event =
    | InvestClick(c: Category)
    | RemoveClick(c: Category)
    | ConfirmClick
    | SkipClick
    | BugNoticeClick
    | BugTimer
    | BugClick(b: nat)
    | BugAtDoorFrame(b: nat)
    | CleanupNoticeClick
    | TrashClick(t: nat)
    | CleanupTimer
    | InteractKey(near: Option<nat>)
    | TypingTimer
    | ChoiceClick(idx: nat, swing: int)
    | FadeOutComplete
    | ContinueClick(i: nat)

  /**
   * When the engine can deliver an event: a button only while it is on
   * screen, a timer only while it runs, a choice only while the cards are
   * shown, with a mood swing in `Between(-40, 10)`.
   */
  predicate Enabled(v: View, e: Event) {
    v.ended.None? &&
    match e
    case InvestClick(_) => v.investmentActive
    case RemoveClick(_) => v.investmentActive
    case ConfirmClick => v.investmentActive
    case SkipClick => v.investmentActive
    case BugNoticeClick => v.bugNotices > 0
    case BugTimer => v.bugActive && v.bugsSpawned < v.bugCount
    case BugClick(b) => b in v.liveBugs
    case BugAtDoorFrame(_) => true
    case CleanupNoticeClick => v.cleanupNotices > 0
    case TrashClick(t) => t in v.liveTrash
    case CleanupTimer => true
    case InteractKey(near) => near.None? || near.value < NpcCount
    case TypingTimer => v.dialogBox && v.typing
    case ChoiceClick(idx, swing) => v.choicesShown && idx < 2 && MoodSwingMin <= swing <= MoodSwingMax
    case FadeOutComplete => v.fading.Some?
    case ContinueClick(i) => i < |v.visits|
  }

  function Step(v: View, e: Event): View
    requires ValidView(v) && Enabled(v, e)
  {
    match e
    case InvestClick(c) => Invest(v, c)
    case RemoveClick(c) => Remove(v, c)
    case ConfirmClick => Confirm(v)
    case SkipClick => ClosePanel(v)
    case BugNoticeClick => BugNoticeOk(v)
    case BugTimer => SpawnBug(v)
    case BugClick(b) => SquashBug(v, b)
    case BugAtDoorFrame(b) => BugAtDoor(v, b)
    case CleanupNoticeClick => CleanupNoticeOk(v)
    case TrashClick(t) => ClickTrash(v, t)
    case CleanupTimer => CleanupTimeout(v)
    case InteractKey(near) => Interact(v, near)
    case TypingTimer => TypingDone(v)
    case ChoiceClick(idx, swing) => Choose(v, idx, swing)
    case FadeOutComplete => FadeOutDone(v)
    case ContinueClick(i) => FounderContinue(v, i)
  }
}

module OfficeInvariant {
  import opened Wrappers
  import opened Stats
  import opened Investment
  import opened Npcs
  import opened Registry
  import opened OfficeState

  lemma CreatedValid(r: RegState)
    requires ValidState(r)
    ensures ValidView(Created(r))
  {
  }

  /** On a scene object that has never run a game, `create` run again is the first `create`. */
  lemma FirstCreate(prev: View, r: RegState)
    requires Untouched(prev)
    ensures Recreated(prev, r) == Created(r)
  {
    assert Restart(prev, r) == Blank(r);
  }

  /**
   * A game that ended with a choice's result on screen (week 12's founder
   * visit does not freeze the dialog, so "Continue" can end the game while
   * the result shows) leaves `showingResult` set. In the next game the
   * first conversation then never offers its choices: the press that
   * passes its only line is taken for dismissing a result, and the dialog
   * closes with the question unanswered and the NPC not counted as talked to.
   */
  lemma LeftoverResultSkipsChoices(prev: View, r: RegState, i: nat)
    requires ValidState(r) && r.funds > 0 && r.week != BugWeek
    requires prev.showingResult && !prev.investmentActive && !prev.bugActive
    requires i < NpcCount && Open(r.talked, r.progress, i)
    ensures var talking := TryStart(ClosePanel(Recreated(prev, r)), i);
            && talking.dialogBox && talking.showingResult
            && talking.currentQuestion == Some(QuestionAt(i, ProgressOf(r.progress, NameOf(i))))
            && var after := Interact(TypingDone(talking), None);
               && !after.dialogActive && !after.dialogBox && !after.choicesShown && !after.showingResult
               && after.reg.progress == r.progress && after.reg.talked == r.talked
  {
    var created := Recreated(prev, r);
    assert created == ShowPanel(created.(investmentActive := false, dialogActive := false, alloc := prev.alloc,
                                         maxBudget := prev.maxBudget));
    var closed := ClosePanel(created);
    assert !closed.dialogActive && closed.showingResult && !closed.bugActive && closed.reg == r;
    var talking := TryStart(closed, i);
    assert talking.dialogLength == 1;
    var typed := TypingDone(talking);
    assert Interact(typed, None) == DismissResult(Advanced(typed));
  }

  lemma InvestValid(v: View, c: Category)
    requires ValidView(v)
    ensures ValidView(Invest(v, c))
  {
  }

  lemma RemoveValid(v: View, c: Category)
    requires ValidView(v)
    ensures ValidView(Remove(v, c))
  {
  }

  lemma ClosePanelValid(v: View)
    requires ValidView(v)
    ensures ValidView(ClosePanel(v))
  {
  }

  lemma ConfirmValid(v: View)
    requires ValidView(v)
    ensures ValidView(Confirm(v))
  {
    if Total(v.alloc) > 0 {
      var w := Spend(v);
      assert ValidState(w.reg);
      assert ValidView(w);
      ClosePanelValid(w);
    } else {
      ClosePanelValid(v);
    }
  }

  lemma BugNoticeValid(v: View)
    requires ValidView(v) && v.bugNotices > 0
    ensures ValidView(BugNoticeOk(v))
  {
  }

  lemma SpawnValid(v: View)
    requires ValidView(v) && v.bugActive && v.bugsSpawned < v.bugCount
    ensures ValidView(SpawnBug(v))
  {
  }

  lemma SquashValid(v: View, b: nat)
    requires ValidView(v) && b in v.liveBugs
    ensures ValidView(SquashBug(v, b))
  {
  }

  lemma BugAtDoorValid(v: View, b: nat)
    requires ValidView(v)
    ensures ValidView(BugAtDoor(v, b))
  {
  }

  lemma EndCleanupValid(v: View, success: bool)
    requires ValidOutsideCleanup(v) && forall t :: t in v.liveTrash ==> t < v.trashSpawned
    ensures ValidView(EndCleanup(v, success))
  {
    var r := EndCleanup(v, success);
    assert MoodsValid(r.moods);
  }

  lemma CleanupNoticeValid(v: View)
    requires ValidView(v) && v.cleanupNotices > 0
    ensures ValidView(CleanupNoticeOk(v))
  {
    var r := CleanupNoticeOk(v);
    assert forall t :: t in r.liveTrash ==> t < r.trashSpawned;
  }

  lemma ClickTrashValid(v: View, t: nat)
    requires ValidView(v) && t in v.liveTrash
    ensures ValidView(ClickTrash(v, t))
  {
    var cleaned := PickUp(v, t);
    if cleaned.trashToClean <= 0 {
      EndCleanupValid(cleaned, true);
    } else if t in v.currentTrash {
      assert |cleaned.currentTrash| == |v.currentTrash| - 1;
    } else {
      assert cleaned.currentTrash == v.currentTrash;
    }
  }

  /** The game's clicks on the pieces `ts`, in order. */
  function ClickAll(v: View, ts: seq<nat>): (r: View)
    requires |v.moods| == NpcCount
    ensures |r.moods| == NpcCount
    decreases |ts|
  {
    if ts == [] then v else ClickAll(ClickTrash(v, ts[0]), ts[1..])
  }

  /**
   * In a running game, as many clicks as there are pieces left to clean
   * win it: Morale +10, once, and every piece of an earlier group that was
   * not clicked stays on screen.
   */
  lemma {:induction false} CleaningWins(v: View, ts: seq<nat>)
    requires |v.moods| == NpcCount && v.cleanupActive && v.trashToClean >= 1
    requires |ts| == v.trashToClean
    ensures var r := ClickAll(v, ts);
            && !r.cleanupActive && r.trashToClean == 0 && r.currentTrash == {}
            && r.reg == v.reg.(morale := v.reg.morale + 10)
            && forall t :: t in v.liveTrash && t !in v.currentTrash && t !in ts ==> t in r.liveTrash
    decreases |ts|
  {
    var w := ClickTrash(v, ts[0]);
    assert ClickAll(v, ts) == ClickAll(w, ts[1..]);
    if |ts| == 1 {
      assert ts[1..] == [];
    } else {
      CleaningWins(w, ts[1..]);
      forall t | t in v.liveTrash && t !in v.currentTrash && t !in ts
        ensures t in w.liveTrash && t !in w.currentTrash && t !in ts[1..]
      {
        assert t != ts[0];
      }
    }
  }

  /**
   * Two cleanup notices confirmed one after the other put twelve pieces on
   * screen, with six to clean: the first group is not taken off screen.
   */
  lemma SecondGameKeepsFirstGroup(v: View)
    requires v.cleanupNotices >= 2
    ensures var twice := CleanupNoticeOk(CleanupNoticeOk(v));
            && twice.cleanupActive && twice.trashToClean == TrashCount
            && twice.currentTrash == TrashBatch(v.trashSpawned + TrashCount)
            && TrashBatch(v.trashSpawned) <= twice.liveTrash
            && |twice.liveTrash| >= 2 * TrashCount
  {
    var s := v.trashSpawned;
    var twice := CleanupNoticeOk(CleanupNoticeOk(v));
    var both := TrashBatch(s) + TrashBatch(s + 6);
    assert TrashBatch(s) !! TrashBatch(s + 6);
    assert both <= twice.liveTrash;
    SubsetCard(both, twice.liveTrash);
  }

  /**
   * After two cleanup notices confirmed one after the other, six clicks on
   * pieces outside the first group (the second group's, say) win the
   * game, once: Morale +10, and the first group's six pieces stay on
   * screen. Each of them still counts down the shared `trashToClean`,
   * already at 0, so a click on one wins the game again: Morale +10 once
   * more.
   */
  lemma LeftoverTrashWinsAgain(v: View, ts: seq<nat>)
    requires |v.moods| == NpcCount && v.cleanupNotices >= 2
    requires |ts| == TrashCount && forall k :: 0 <= k < |ts| ==> ts[k] !in TrashBatch(v.trashSpawned)
    ensures var won := ClickAll(CleanupNoticeOk(CleanupNoticeOk(v)), ts);
            && !won.cleanupActive && won.trashToClean == 0 && won.reg.morale == v.reg.morale + 10
            && TrashBatch(v.trashSpawned) <= won.liveTrash
            && ClickTrash(won, v.trashSpawned).reg.morale == v.reg.morale + 20
  {
    var s := v.trashSpawned;
    var twice := CleanupNoticeOk(CleanupNoticeOk(v));
    SecondGameKeepsFirstGroup(v);
    CleaningWins(twice, ts);
    var won := ClickAll(twice, ts);
    forall t | t in TrashBatch(s)
      ensures t in won.liveTrash
    {
      assert t in twice.liveTrash && t !in twice.currentTrash && t !in ts;
    }
    StaleClickWins(won, s);
  }

  /** With nothing left to clean, a click on any piece wins the ended game again. */
  lemma StaleClickWins(v: View, t: nat)
    requires |v.moods| == NpcCount && v.trashToClean <= 0
    ensures ClickTrash(v, t).reg.morale == v.reg.morale + 10
  {
  }

  /** A subset is no larger than its superset. */
  lemma {:induction false} SubsetCard(a: set<nat>, b: set<nat>)
    requires a <= b
    ensures |a| <= |b|
  {
    if a != {} {
      var x :| x in a;
      SubsetCard(a - {x}, b - {x});
    }
  }

  lemma CleanupTimeoutValid(v: View)
    requires ValidView(v)
    ensures ValidView(CleanupTimeout(v))
  {
    if v.cleanupActive {
      EndCleanupValid(v, false);
    }
  }

  lemma TryStartValid(v: View, i: nat)
    requires ValidView(v) && i < NpcCount
    ensures ValidView(TryStart(v, i))
  {
    NamesMatchTable();
    var r := TryStart(v, i);
    if r != v {
      assert Table()[i].name == NameOf(i);
      assert Open(r.reg.talked, r.reg.progress, i);
      assert DialogValid(r.reg.talked, r.reg.progress, r.activeNpc, r.currentQuestion, r.currentChoices,
                         r.dialogBox, r.typing, r.choicesShown, r.showingResult);
    }
  }

  lemma CheckEndValid(v: View)
    requires ValidView(v)
    ensures ValidView(CheckEnd(v))
  {
  }

  lemma AutoAdvanceValid(v: View)
    requires ValidView(v)
    ensures ValidView(AutoAdvance(v))
  {
  }

  lemma DismissResultValid(v: View)
    requires ValidView(v) && v.dialogActive
    ensures ValidView(DismissResult(v))
  {
    var closed := CloseDialog(v.(showingResult := false));
    CloseDialogValid(v);
    GotoEndValid(closed, "bankrupt");
    AutoAdvanceValid(closed);
  }

  /** A closed dialog, with no result showing, is always consistent. */
  lemma CloseDialogValid(v: View)
    requires ValidView(v) && v.dialogActive
    ensures ValidView(CloseDialog(v.(showingResult := false)))
  {
    var closed := CloseDialog(v.(showingResult := false));
    assert DialogValid(closed.reg.talked, closed.reg.progress, closed.activeNpc, closed.currentQuestion,
                       closed.currentChoices, closed.dialogBox, closed.typing, closed.choicesShown,
                       closed.showingResult);
  }

  lemma AdvanceDialogValid(v: View)
    requires ValidView(v)
    ensures ValidView(AdvanceDialog(v))
  {
    if v.dialogActive && v.dialogBox && !v.typing {
      NextLineValid(v);
    }
  }

  lemma NextLineValid(v: View)
    requires ValidView(v) && v.dialogActive && v.dialogBox && !v.typing
    ensures ValidView(NextLine(v))
  {
    if v.dialogIndex + 1 < v.dialogLength {
      LineTypesValid(v);
    } else if !v.showingResult {
      ChoicesAppearValid(v);
    } else {
      ResultLineValid(v);
    }
  }

  lemma LineTypesValid(v: View)
    requires ValidView(v) && v.dialogBox && v.dialogIndex + 1 < v.dialogLength
    ensures ValidView(NextLine(v))
  {
    LineIndexValid(v);
    var r := TypeLine(Advanced(v));
    assert DialogValid(r.reg.talked, r.reg.progress, r.activeNpc, r.currentQuestion, r.currentChoices,
                       r.dialogBox, r.typing, r.choicesShown, r.showingResult);
  }

  lemma ChoicesAppearValid(v: View)
    requires ValidView(v) && v.dialogBox && v.dialogIndex + 1 >= v.dialogLength && !v.showingResult
    ensures ValidView(NextLine(v))
  {
    LineIndexValid(v);
    var r := OfferChoices(Advanced(v));
    assert |r.currentChoices| == 2;
    assert DialogValid(r.reg.talked, r.reg.progress, r.activeNpc, r.currentQuestion, r.currentChoices,
                       r.dialogBox, r.typing, r.choicesShown, r.showingResult);
  }

  lemma ResultLineValid(v: View)
    requires ValidView(v) && v.dialogActive
    ensures ValidView(DismissResult(Advanced(v)))
  {
    LineIndexValid(v);
    DismissResultValid(Advanced(v));
  }

  /** The line cursor takes no part in the invariant. */
  lemma LineIndexValid(v: View)
    requires ValidView(v)
    ensures ValidView(Advanced(v))
  {
  }

  lemma InteractValid(v: View, near: Option<nat>)
    requires ValidView(v)
    requires near.Some? ==> near.value < NpcCount
    ensures ValidView(Interact(v, near))
  {
    if v.investmentActive || v.bugActive {
    } else if near.Some? && !v.dialogActive {
      TryStartValid(v, near.value);
    } else if v.dialogActive && !v.choicesShown {
      if v.dialogBox && v.typing {
        AdvanceDialogValid(v.(typing := false));
      } else {
        AdvanceDialogValid(v);
      }
    }
  }

  /**
   * One press of E or SPACE on the result line, whether it is still typing
   * or not, closes the dialog; the game then ends if Funds is not positive,
   * and otherwise the fade to the next week starts exactly when the number
   * of NPCs talked to this week has reached the weekly limit.
   */
  lemma ResultPressAdvancesWeek(v: View, near: Option<nat>)
    requires ValidView(v) && Enabled(v, InteractKey(near))
    requires !v.investmentActive && !v.bugActive && v.fading.None?
    requires v.dialogActive && v.dialogBox && v.showingResult && !v.choicesShown && v.dialogIndex + 1 >= v.dialogLength
    ensures var r := Step(v, InteractKey(near));
            && !r.dialogActive && !r.dialogBox && !r.showingResult && r.reg == v.reg
            && (r.ended.Some? <==> v.reg.funds <= 0)
            && (r.fading.Some? <==> v.reg.funds > 0 && |v.reg.talked| >= v.weeklyNpcLimit)
            && (r.fading.Some? ==> r.fading.value == Fade(OrDefault(v.reg.week, 1) + 1, OrDefault(v.reg.weeksTotal, 12)))
  {
  }

  lemma TypingValid(v: View)
    requires ValidView(v)
    ensures ValidView(TypingDone(v))
  {
  }

  lemma ChooseValid(v: View, idx: nat, swing: int)
    requires ValidView(v) && v.choicesShown && idx < 2
    ensures ValidView(Choose(v, idx, swing))
  {
  }

  lemma EmptyWithinBudget(b: int)
    requires b >= 0
    ensures WithinBudget(Zero, b)
  {
    forall c: Category ensures Get(Zero, c) >= 0 && Get(Zero, c) % StepSize == 0 {
    }
  }

  lemma ShowPanelValid(v: View)
    requires ValidView(v)
    ensures ValidView(ShowPanel(v))
  {
    if !v.investmentActive && v.reg.funds > 0 {
      var b := MaxBudget(v.reg.funds);
      EmptyWithinBudget(b);
      var r := v.(investmentActive := true, dialogActive := true, alloc := Zero, maxBudget := b);
      assert ValidView(r);
    }
  }

  /** The state right after the week changes, before a founder visits or the panel opens. */
  lemma NewWeekValid(v: View, week: int)
    requires ValidView(v) && v.fading.None? && v.reg.week < week <= v.reg.weeksTotal
    ensures ValidView(NewWeek(v, week))
  {
    var next := NewWeek(v, week);
    assert ValidState(next.reg);
    assert MoodsValid(next.moods);
    if v.activeNpc.Some? && (v.choicesShown || (v.dialogBox && !v.showingResult)) {
      assert Open(next.reg.talked, next.reg.progress, v.activeNpc.value);
    }
    assert DialogValid(next.reg.talked, next.reg.progress, next.activeNpc, next.currentQuestion,
                       next.currentChoices, next.dialogBox, next.typing, next.choicesShown,
                       next.showingResult);
  }

  lemma GotoEndValid(v: View, kind: string)
    requires ValidView(v)
    ensures ValidView(GotoEnd(v, kind))
  {
  }

  lemma AddVisitValid(v: View, x: Visit)
    requires ValidView(v) && VisitValid(x)
    ensures ValidView(v.(visits := v.visits + [x]))
  {
    assert VisitsValid(v.visits + [x]);
  }

  lemma FadeValid(v: View)
    requires ValidView(v) && v.fading.Some?
    ensures ValidView(FadeOutDone(v))
  {
    var f := v.fading.value;
    var done := v.(fading := None);
    if f.week > f.total {
      GotoEndValid(done, "final");
    } else {
      BeginWeekValid(done, f.week);
    }
  }

  /**
   * In weeks 3, 6, 9 and 12 the founder of the week visits, with the tip
   * that fits the stats of the new week; in any other week no one visits
   * and the investment panel opens when there are funds to invest.
   */
  lemma FounderVisits(v: View, week: int)
    requires |v.moods| == NpcCount
    ensures week in {3, 6, 9, 12} ==>
              BeginWeek(v, week).visits
              == v.visits + [Visit(week / 3 - 1, week, Some(TipRank(FounderStats(BeginWeek(v, week).reg))))]
    ensures week !in {3, 6, 9, 12} ==>
              && BeginWeek(v, week).visits == v.visits
              && (BeginWeek(v, week).investmentActive <==> v.investmentActive || v.reg.funds > 0)
  {
    var next := NewWeek(v, week);
    var founder := FounderFor(week);
    if founder.Some? {
      assert BeginWeek(v, week) == FounderArrives(next, founder.value);
    } else {
      assert BeginWeek(v, week) == ShowPanel(next);
    }
  }

  lemma BeginWeekValid(v: View, week: int)
    requires ValidView(v) && v.fading.None? && v.reg.week < week <= v.reg.weeksTotal
    ensures ValidView(BeginWeek(v, week))
  {
    NewWeekValid(v, week);
    var next := NewWeek(v, week);
    var founder := FounderFor(week);
    if founder.Some? {
      AddVisitValid(next, Visit(founder.value, week, Some(TipRank(FounderStats(next.reg)))));
    } else {
      ShowPanelValid(next);
    }
  }

  lemma ContinueValid(v: View, i: nat)
    requires ValidView(v) && i < |v.visits|
    ensures ValidView(FounderContinue(v, i))
  {
  }

  lemma StepValid(v: View, e: Event)
    requires ValidView(v) && Enabled(v, e)
    ensures ValidView(Step(v, e))
  {
    match e
    case InvestClick(c) => InvestValid(v, c);
    case RemoveClick(c) => RemoveValid(v, c);
    case ConfirmClick => ConfirmValid(v);
    case SkipClick => ClosePanelValid(v);
    case BugNoticeClick => BugNoticeValid(v);
    case BugTimer => SpawnValid(v);
    case BugClick(b) => SquashValid(v, b);
    case BugAtDoorFrame(b) => BugAtDoorValid(v, b);
    case CleanupNoticeClick => CleanupNoticeValid(v);
    case TrashClick(t) => ClickTrashValid(v, t);
    case CleanupTimer => CleanupTimeoutValid(v);
    case InteractKey(near) => InteractValid(v, near);
    case TypingTimer => TypingValid(v);
    case ChoiceClick(idx, swing) => ChooseValid(v, idx, swing);
    case FadeOutComplete => FadeValid(v);
    case ContinueClick(i) => ContinueValid(v, i);
  }

  /**
   * What the game never undoes: the week only moves forward, the week
   * total stays, and no NPC's question cursor moves back.
   */
  ghost predicate Progressed(v: View, r: View) {
    && v.reg.week <= r.reg.week
    && r.reg.weeksTotal == v.reg.weeksTotal
    && forall n :: ProgressOf(v.reg.progress, n) <= ProgressOf(r.reg.progress, n)
  }

  /**
   * One input changes the week only by moving it on by one, and the
   * question cursors only by the one step of a choice.
   */
  lemma StepProgressed(v: View, e: Event)
    requires ValidView(v) && Enabled(v, e)
    ensures Progressed(v, Step(v, e))
    ensures Step(v, e).reg.week == v.reg.week || Step(v, e).reg.week == v.reg.week + 1
  {
    if e.ChoiceClick? {
      ChoiceProgressed(v, e);
    } else if e.FadeOutComplete? {
      FadeProgressed(v, e);
    } else if e.InvestClick? || e.RemoveClick? || e.ConfirmClick? || e.SkipClick? || e.BugNoticeClick? || e.BugTimer? || e.BugClick? || e.BugAtDoorFrame? {
      PanelAndBugKeepProgress(v, e);
    } else {
      OtherKeepProgress(v, e);
    }
  }

  /** A choice moves only the cursor of the NPC being talked to, and never the week. */
  lemma ChoiceProgressed(v: View, e: Event)
    requires ValidView(v) && Enabled(v, e) && e.ChoiceClick?
    ensures Progressed(v, Step(v, e)) && Step(v, e).reg.week == v.reg.week
  {
    var r := Choose(v, e.idx, e.swing);
    assert Progressed(v, r);
  }

  /** The end of a fade moves the week on by one at most and never touches a cursor. */
  lemma FadeProgressed(v: View, e: Event)
    requires ValidView(v) && Enabled(v, e) && e.FadeOutComplete?
    ensures Progressed(v, Step(v, e))
    ensures Step(v, e).reg.week == v.reg.week || Step(v, e).reg.week == v.reg.week + 1
  {
    var f := v.fading.value;
    assert f == Fade(v.reg.week + 1, v.reg.weeksTotal);
    var r := Step(v, e);
    assert r == FadeOutDone(v);
    if f.week > f.total {
      assert r.reg == v.reg;
    } else {
      assert r.reg == v.reg.(week := f.week, talked := {});
    }
  }

  /** The investment panel and the bug mini-game leave the week and the question cursors alone. */
  lemma PanelAndBugKeepProgress(v: View, e: Event)
    requires ValidView(v) && Enabled(v, e)
    requires e.InvestClick? || e.RemoveClick? || e.ConfirmClick? || e.SkipClick? || e.BugNoticeClick? || e.BugTimer? || e.BugClick? || e.BugAtDoorFrame?
    ensures Step(v, e).reg.week == v.reg.week && Step(v, e).reg.weeksTotal == v.reg.weeksTotal
    ensures Step(v, e).reg.progress == v.reg.progress
    ensures Progressed(v, Step(v, e))
  {
  }

  /** The cleanup mini-game, talking and the founder recaps leave the week and the question cursors alone. */
  lemma OtherKeepProgress(v: View, e: Event)
    requires ValidView(v) && Enabled(v, e)
    requires e.CleanupNoticeClick? || e.TrashClick? || e.CleanupTimer? || e.InteractKey? || e.TypingTimer? || e.ContinueClick?
    ensures Step(v, e).reg.week == v.reg.week && Step(v, e).reg.weeksTotal == v.reg.weeksTotal
    ensures Step(v, e).reg.progress == v.reg.progress
    ensures Progressed(v, Step(v, e))
  {
    if e.InteractKey? {
      assert Step(v, e).reg == Interact(v, e.near).reg == v.reg;
    }
  }

  /**
   * The scene after a sequence of inputs; an input the engine cannot
   * deliver in the current state (a click on a button that is not on
   * screen, anything after the game has ended) is dropped.
   */
  function Run(v: View, es: seq<Event>): (r: View)
    requires ValidView(v)
    ensures ValidView(r)
    ensures Progressed(v, r)
    decreases |es|
  {
    if es == [] then v
    else if !Enabled(v, es[0]) then Run(v, es[1..])
    else
      StepValid(v, es[0]);
      StepProgressed(v, es[0]);
      Run(Step(v, es[0]), es[1..])
  }

  /** Once the end scene has started, no input changes anything. */
  lemma {:induction false} EndedIsFinal(v: View, es: seq<Event>)
    requires ValidView(v) && v.ended.Some?
    ensures Run(v, es) == v
    decreases |es|
  {
    if es != [] {
      EndedIsFinal(v, es[1..]);
    }
  }

  /** A game as played: the office scene created on a booted registry, then any sequence of inputs. */
  function Play(r: RegState, es: seq<Event>): View
    requires ValidState(r)
  {
    CreatedValid(r);
    Run(Created(r), es)
  }

  /**
   * Whatever the inputs, the invariant holds: Funds is not negative,
   * Product and Hype are percentages, the week stays within the game, no
   * NPC is asked more questions than it has, and the week and the
   * question cursors never move back.
   */
  lemma Played(r: RegState, es: seq<Event>)
    requires ValidState(r)
    ensures ValidView(Play(r, es))
    ensures var v := Play(r, es);
            && v.reg.funds >= 0 && 0 <= v.reg.product <= PercentMax && 0 <= v.reg.hype <= PercentMax
            && r.week <= v.reg.week <= v.reg.weeksTotal == r.weeksTotal
            && (forall n :: ProgressOf(r.progress, n) <= ProgressOf(v.reg.progress, n) <= QuestionCount(n))
  {
    CreatedValid(r);
    var v := Play(r, es);
    forall n ensures ProgressOf(v.reg.progress, n) <= QuestionCount(n) {
    }
  }

  /**
   * The game ends only for a reason: bankrupt when Funds is not positive,
   * "final" when the fade passes the last week or on leaving week 12's
   * founder visit.
   */
  lemma EndingsJustified(v: View, e: Event)
    requires ValidView(v) && Enabled(v, e)
    ensures var r := Step(v, e);
            r.ended.Some? ==>
              || (r.ended.value.ending == Some("bankrupt") && v.reg.funds <= 0)
              || (r.ended.value.ending == Some("final") && e.FadeOutComplete? && v.reg.week == v.reg.weeksTotal)
              || (r.ended.value.ending == Some("final") && e.ContinueClick? && v.visits[e.i].week == LastWeek)
  {
    var r := Step(v, e);
    match e
    case InteractKey(near) =>
    case FadeOutComplete =>
      assert r == FadeOutDone(v);
    case ContinueClick(i) =>
      assert r == FounderContinue(v, i);
    case _ =>
  }
}
