/**
 * The office scene as the object the engine drives: its fields, the
 * registry it shares with the other scenes, the NPCs' moods, and one
 * method per handler. Each handler is proved to change the scene exactly
 * as the matching transition of `OfficeState` says, and to keep the
 * invariant `OfficeState.ValidView`.
 */
module Office {
  import opened Wrappers
  import opened Stats
  import opened Investment
  import opened Npcs
  import opened Registry
  import opened OfficeState
  import OfficeInvariant
  import Ending

  /** The conversation under way: `dialogActive`, the line index, the lines, the NPC, its question. */
  datatype Conversation = Conversation(active: bool, index: int, length: nat, npc: Option<nat>,
                                       question: Option<Question>, showingResult: bool)

  /** The dialog box and the choice menu: whether each is on screen, the typewriter, the choices. */
  datatype Widgets = Widgets(dialogBox: bool, typing: bool, choicesShown: bool, choices: seq<Choice>)

  /** The investment panel: open or not, the allocation, the budget. */
  datatype Panel = Panel(active: bool, alloc: Alloc, maxBudget: int)

  /** The bug minigame: notices waiting for "OK", then the bugs. */
  datatype BugGame = BugGame(notices: nat, active: bool, count: int, defeated: int, spawned: nat, live: set<nat>)

  /**
   * The cleanup minigame: notices waiting for "OK", then the trash: every
   * piece on screen, the pieces of the current `trashGroup`, and how many
   * pieces have been spawned.
   */
  datatype Cleanup = Cleanup(notices: nat, active: bool, toClean: int, live: set<nat>, current: set<nat>, spawned: nat)

  /**
   * The scene's fields, grouped by the feature that reads and writes them;
   * a handler assigns each group it changes once.
   */
  class OfficeScene {
    /** `this.registry`, shared with the boot and menu scenes. */
    const reg: Registry
    /** `this.npcs[i].mood`, in table order. */
    const moods: array<int>
    var weeklyNpcLimit: int
    /** `dialogActive`, `dialogIndex`, `activeDialog.length`, `activeNpc`, `currentQuestion`, `showingResult`. */
    var talk: Conversation
    /** `dialogBox`, `dialogBox.typing`, `choiceMenu.cards`, `currentChoices`. */
    var widgets: Widgets
    /** `investmentActive`, `alloc`, `maxBudget`. */
    var panel: Panel
    /** `bugActive`, `bugCount`, `bugsDefeated`, the spawned bugs and the notices. */
    var bugGame: BugGame
    /** `cleanupActive`, `trashToClean`, the trash on screen and the notices. */
    var cleanup: Cleanup
    /** The pending `fadeOut` callback of `autoAdvanceWeek`, if any. */
    var fading: Option<Fade>
    /** Founder conversations on screen, waiting for "Continue". */
    var visits: seq<Visit>
    /** What `scene.start("EndScene", ...)` was given; the scene has then stopped. */
    var ended: Option<Ending.EndData>

    /** The scene and the registry as one value. */
    function State(): View
      reads this, reg, moods
    {
      View(reg.State(), moods[..], weeklyNpcLimit, talk.active, talk.index, talk.length,
           talk.npc, talk.question, widgets.choices, widgets.dialogBox, widgets.typing, widgets.choicesShown,
           talk.showingResult, panel.active, panel.alloc, panel.maxBudget,
           bugGame.notices, bugGame.active, bugGame.count, bugGame.defeated, bugGame.spawned, bugGame.live,
           cleanup.notices, cleanup.active, cleanup.toClean, cleanup.live, cleanup.current, cleanup.spawned,
           fading, visits, ended)
    }

    predicate Valid()
      reads this, reg, moods
    {
      moods.Length == NpcCount && ValidView(State())
    }

    /**
     * The engine builds the scene object once, with every field undefined,
     * and runs `create` on it.
     */
    constructor (registry: Registry)
      requires registry.Valid()
      ensures reg == registry && fresh(moods)
      ensures State() == OfficeState.Created(registry.State())
      ensures Valid()
    {
      reg := registry;
      moods := new int[NpcCount](_ => StartMood);
      weeklyNpcLimit := 0;
      talk := Conversation(false, 0, 0, None, None, false);
      widgets := Widgets(false, false, false, []);
      panel := Panel(false, Zero, 0);
      bugGame := BugGame(0, false, 0, 0, 0, {});
      cleanup := Cleanup(0, false, 0, {}, {}, 0);
      fading, visits, ended := None, [], None;
      new;
      OfficeInvariant.FirstCreate(State(), registry.State());
      Create();
      OfficeInvariant.CreatedValid(registry.State());
    }

    /**
     * `create`, on a new scene object or again on the same one when a new
     * game starts after an ended one: the limit is read from the registry,
     * every NPC starts at mood 80, the dialog is closed, and what the
     * stopped scene had on screen is gone; the fields `create` does not set
     * keep their values. Then bankruptcy is checked, and a game that goes
     * on opens the investment panel (the 250 ms delayed call).
     */
    method Create()
      requires moods.Length == NpcCount
      modifies this, moods
      ensures State() == OfficeState.Recreated(old(State()), old(reg.State()))
    {
      ResetFields();
      var over := CheckImmediateEnd();
      if !over {
        ShowInvestmentPanel();
      }
    }

    /** What `create` sets, and what the stopped scene lost. */
    method ResetFields()
      requires moods.Length == NpcCount
      modifies this, moods
      ensures State() == OfficeState.Restart(old(State()), old(reg.State()))
    {
      ghost var prev := State();
      weeklyNpcLimit := OrDefault(reg.weeklyNpcLimit, 2);
      talk := Conversation(false, 0, 0, None, talk.question, talk.showingResult);
      widgets := Widgets(false, false, false, []);
      bugGame := BugGame(0, bugGame.active, bugGame.count, bugGame.defeated, 0, {});
      cleanup := Cleanup(0, cleanup.active, cleanup.toClean, {}, {}, 0);
      fading, visits, ended := None, [], None;
      ResetMoods();
    }

    /** `buildNpcList`: every NPC starts at mood 80. */
    method ResetMoods()
      requires moods.Length == NpcCount
      modifies moods
      ensures moods[..] == [StartMood, StartMood, StartMood, StartMood]
    {
      forall k | 0 <= k < moods.Length {
        moods[k] := StartMood;
      }
    }

    // -------------------------------------------------------------------
    // The investment panel
    // -------------------------------------------------------------------

    /** `showInvestmentPanel`. */
    method ShowInvestmentPanel()
      modifies this
      ensures State() == OfficeState.ShowPanel(old(State()))
    {
      if panel.active {
        return;
      }
      var funds := OrDefault(reg.funds, 0);
      if funds <= 0 {
        return;
      }
      panel := Panel(true, Zero, MaxBudget(funds));
      talk := talk.(active := true);
    }

    /** "+ Invest $1k" under category `c`. */
    method InvestButton(c: Category)
      requires Valid() && ended.None? && panel.active
      modifies this
      ensures State() == OfficeState.Invest(old(State()), c) && Valid()
    {
      ghost var v := State();
      var sum := Total(panel.alloc);
      if sum + StepSize <= panel.maxBudget {
        panel := panel.(alloc := Set(panel.alloc, c, Get(panel.alloc, c) + StepSize));
      }
      OfficeInvariant.InvestValid(v, c);
    }

    /** "- Remove $1k" under category `c`. */
    method RemoveButton(c: Category)
      requires Valid() && ended.None? && panel.active
      modifies this
      ensures State() == OfficeState.Remove(old(State()), c) && Valid()
    {
      ghost var v := State();
      if Get(panel.alloc, c) >= StepSize {
        panel := panel.(alloc := Set(panel.alloc, c, Get(panel.alloc, c) - StepSize));
      }
      OfficeInvariant.RemoveValid(v, c);
    }

    /** `applyEffects`: each present key is added, Funds floored at 0, the percentages clamped. */
    method ApplyEffects(e: Effects)
      modifies reg
      ensures reg.State() == old(reg.State()).WithValues(Applied(old(reg.Values()), e))
    {
      if e.funds.Some? {
        var funds := OrDefault(reg.funds, 0) + e.funds.value;
        reg.funds := if funds < 0 then 0 else funds;
      }
      if e.product.Some? {
        reg.product := Clamp(OrDefault(reg.product, 0) + e.product.value, 0, PercentMax);
      }
      if e.morale.Some? {
        reg.morale := Clamp(OrDefault(reg.morale, 0) + e.morale.value, 0, PercentMax);
      }
      if e.hype.Some? {
        reg.hype := Clamp(OrDefault(reg.hype, 0) + e.hype.value, 0, PercentMax);
      }
    }

    /** "Confirm". */
    method ConfirmButton()
      requires Valid() && ended.None? && panel.active
      modifies this, reg
      ensures State() == OfficeState.Confirm(old(State())) && Valid()
    {
      ghost var v := State();
      ConfirmInvestment();
      OfficeInvariant.ConfirmValid(v);
    }

    /** `confirmInvestment`. */
    method ConfirmInvestment()
      requires moods.Length == NpcCount && Stepped(panel.alloc)
      modifies this, reg
      ensures State() == OfficeState.Confirm(old(State()))
    {
      var sum := Total(panel.alloc);
      if sum <= 0 {
        CloseInvestmentPanel();
        return;
      }
      Spend();
      CloseInvestmentPanel();
    }

    /** Funds pays for the allocation, whose effects then apply. */
    method Spend()
      requires Stepped(panel.alloc)
      modifies reg
      ensures State() == OfficeState.Spend(old(State()))
    {
      var funds := OrDefault(reg.funds, 0) - Total(panel.alloc);
      reg.funds := if funds < 0 then 0 else funds;
      ApplyEffects(InvestmentEffects(panel.alloc));
      reg.lastAlloc := Some(panel.alloc);
    }

    /** "Skip": the panel closes without spending. */
    method SkipButton()
      requires Valid() && ended.None? && panel.active
      modifies this
      ensures State() == OfficeState.ClosePanel(old(State())) && Valid()
    {
      ghost var v := State();
      CloseInvestmentPanel();
      OfficeInvariant.ClosePanelValid(v);
    }

    /** `closeInvestmentPanel`: week 6 brings the bugs; otherwise a gloomy Liam brings the trash. */
    method CloseInvestmentPanel()
      requires moods.Length == NpcCount
      modifies this
      ensures State() == OfficeState.ClosePanel(old(State()))
    {
      ResetPanelFlags();
      if reg.week == BugWeek {
        ShowBugNotification();
      } else if moods[LiamIndex] < CleanupMood {
        ShowCleanupNotification();
      }
    }

    /** The panel is gone and the dialog freed. */
    method ResetPanelFlags()
      modifies this
      ensures State() == OfficeState.HidePanel(old(State()))
    {
      panel := panel.(active := false);
      talk := talk.(active := false);
    }

    // -------------------------------------------------------------------
    // The bug minigame
    // -------------------------------------------------------------------

    /** `showBugNotification`: the notice freezes the dialog until "OK". */
    method ShowBugNotification()
      modifies this
      ensures State() == OfficeState.BugNotice(old(State()))
    {
      talk := talk.(active := true);
      bugGame := bugGame.(notices := bugGame.notices + 1);
    }

    /** "OK - Let's Go!" on a bug notice. */
    method BugNoticeOk()
      requires Valid() && ended.None? && bugGame.notices > 0
      modifies this
      ensures State() == OfficeState.BugNoticeOk(old(State())) && Valid()
    {
      ghost var v := State();
      bugGame := bugGame.(notices := bugGame.notices - 1);
      talk := talk.(active := false);
      StartBugMiniGame();
      OfficeInvariant.BugNoticeValid(v);
    }

    /** `startBugMiniGame`: five bugs to come, the dialog frozen. */
    method StartBugMiniGame()
      modifies this
      ensures State() == old(State()).(dialogActive := true, bugCount := BugCount, bugsDefeated := 0,
                                       bugsSpawned := 0, liveBugs := {}, bugActive := true)
    {
      bugGame := bugGame.(count := BugCount, defeated := 0, spawned := 0, live := {}, active := true);
      talk := talk.(active := true);
    }

    /** The one-second spawn timer fires: `spawnBug`. */
    method SpawnBug()
      requires Valid() && ended.None? && bugGame.active && bugGame.spawned < bugGame.count
      modifies this
      ensures State() == OfficeState.SpawnBug(old(State())) && Valid()
    {
      ghost var v := State();
      bugGame := bugGame.(live := bugGame.live + {bugGame.spawned}, spawned := bugGame.spawned + 1);
      OfficeInvariant.SpawnValid(v);
    }

    /** A bug leaves the screen and counts as defeated. */
    method DefeatBug(b: nat)
      modifies this
      ensures State() == OfficeState.Defeat(old(State()), b)
    {
      bugGame := bugGame.(live := bugGame.live - {b}, defeated := bugGame.defeated + 1);
      if bugGame.defeated >= bugGame.count {
        EndBugMiniGame();
      }
    }

    /** A click on bug `b`. */
    method SquashBug(b: nat)
      requires Valid() && ended.None? && b in bugGame.live
      modifies this
      ensures State() == OfficeState.SquashBug(old(State()), b) && Valid()
    {
      ghost var v := State();
      DefeatBug(b);
      OfficeInvariant.SquashValid(v, b);
    }

    /**
     * A frame of `update` in which bug `b` is at the door: with the panel
     * closed and the game running, `loseFundsForBug` charges $10k for a bug
     * still on screen.
     */
    method BugAtDoor(b: nat)
      requires Valid() && ended.None?
      modifies this, reg
      ensures State() == OfficeState.BugAtDoor(old(State()), b) && Valid()
    {
      ghost var v := State();
      if !panel.active && bugGame.active {
        LoseFundsForBug(b);
      }
      OfficeInvariant.BugAtDoorValid(v, b);
    }

    /** `loseFundsForBug`: a bug still on screen costs $10k, Funds floored at 0. */
    method LoseFundsForBug(b: nat)
      requires !panel.active && bugGame.active
      modifies this, reg
      ensures State() == OfficeState.BugAtDoor(old(State()), b)
    {
      if b !in bugGame.live {
        return;
      }
      var funds := OrDefault(reg.funds, 0) - BugCost;
      reg.funds := if funds < 0 then 0 else funds;
      DefeatBug(b);
    }

    /** `endBugMiniGame`. */
    method EndBugMiniGame()
      modifies this
      ensures State() == OfficeState.EndBugGame(old(State()))
    {
      bugGame := bugGame.(active := false, live := {});
      talk := talk.(active := false);
    }

    // -------------------------------------------------------------------
    // The cleanup minigame
    // -------------------------------------------------------------------

    /** `showCleanupNotification`. */
    method ShowCleanupNotification()
      modifies this
      ensures State() == OfficeState.CleanupNotice(old(State()))
    {
      cleanup := cleanup.(notices := cleanup.notices + 1);
    }

    /** "OK - Let's Clean!": `startCleanupMiniGame`. */
    method CleanupNoticeOk()
      requires Valid() && ended.None? && cleanup.notices > 0
      modifies this
      ensures State() == OfficeState.CleanupNoticeOk(old(State())) && Valid()
    {
      ghost var v := State();
      var batch := TrashBatch(cleanup.spawned);
      cleanup := Cleanup(cleanup.notices - 1, true, TrashCount, cleanup.live + batch, batch, cleanup.spawned + TrashCount);
      OfficeInvariant.CleanupNoticeValid(v);
    }

    /** A click on trash item `t`, of the current group or left over from an earlier one. */
    method ClickTrash(t: nat)
      requires Valid() && ended.None? && t in cleanup.live
      modifies this, reg, moods
      ensures State() == OfficeState.ClickTrash(old(State()), t) && Valid()
    {
      ghost var v := State();
      CollectTrash(t);
      OfficeInvariant.ClickTrashValid(v, t);
    }

    /** The click handler of trash item `t`: the last one wins the game. */
    method CollectTrash(t: nat)
      requires moods.Length == NpcCount
      modifies this, reg, moods
      ensures State() == OfficeState.ClickTrash(old(State()), t)
    {
      PickUp(t);
      if cleanup.toClean <= 0 {
        EndCleanupMiniGame(true);
      }
    }

    /** Piece `t` disappears and is counted. */
    method PickUp(t: nat)
      modifies this
      ensures State() == OfficeState.PickUp(old(State()), t)
    {
      cleanup := cleanup.(live := cleanup.live - {t}, current := cleanup.current - {t}, toClean := cleanup.toClean - 1);
    }

    /** The 15-second cleanup timer. */
    method CleanupTimeout()
      requires Valid() && ended.None?
      modifies this, reg, moods
      ensures State() == OfficeState.CleanupTimeout(old(State())) && Valid()
    {
      ghost var v := State();
      if cleanup.active {
        EndCleanupMiniGame(false);
      }
      OfficeInvariant.CleanupTimeoutValid(v);
    }

    /** `endCleanupMiniGame(success)`. */
    method EndCleanupMiniGame(success: bool)
      requires moods.Length == NpcCount
      modifies this, reg, moods
      ensures State() == OfficeState.EndCleanup(old(State()), success)
    {
      cleanup := cleanup.(active := false, live := cleanup.live - cleanup.current, current := {});
      if success {
        reg.morale := OrDefault(reg.morale, 0) + 10;
        moods[LiamIndex] := Clamp(moods[LiamIndex] + 20, 0, PercentMax);
      } else {
        reg.morale := OrDefault(reg.morale, 0) - 5;
        moods[LiamIndex] := Clamp(moods[LiamIndex] - 10, 0, PercentMax);
      }
    }

    // -------------------------------------------------------------------
    // Conversations
    // -------------------------------------------------------------------

    /** `tryStartDialog` with NPC `i`. */
    method TryStartDialog(i: nat)
      requires i < NpcCount
      modifies this
      ensures State() == OfficeState.TryStart(old(State()), i)
    {
      NamesMatchTable();
      if talk.active {
        return;
      }
      var name := Table()[i].name;
      if name in reg.talked {
        return;
      }
      var progress := ProgressOf(reg.progress, name);
      if progress >= |Table()[i].questions| {
        return;
      }
      var q := QuestionAt(i, progress);
      talk := talk.(active := true, index := 0, npc := Some(i), question := Some(q), length := q.dialogLines);
      widgets := widgets.(dialogBox := true, typing := true);
    }

    /** The typewriter has written the whole line. */
    method TypingDone()
      requires Valid() && ended.None? && widgets.dialogBox && widgets.typing
      modifies this
      ensures State() == OfficeState.TypingDone(old(State())) && Valid()
    {
      ghost var v := State();
      widgets := widgets.(typing := false);
      OfficeInvariant.TypingValid(v);
    }

    /** `closeDialog`. */
    method CloseDialog()
      modifies this
      ensures State() == OfficeState.CloseDialog(old(State()))
    {
      if !talk.active {
        return;
      }
      talk := talk.(active := false, npc := None);
      widgets := Widgets(false, false, false, []);
    }

    /** `advanceDialog`. */
    method AdvanceDialog()
      requires widgets.dialogBox ==> talk.question.Some?
      modifies this
      ensures State() == OfficeState.AdvanceDialog(old(State()))
    {
      if !talk.active || !widgets.dialogBox {
        return;
      }
      if widgets.typing {
        widgets := widgets.(typing := false);
        return;
      }
      NextLine();
    }

    /** The next line, the choices, or the end of a result. */
    method NextLine()
      requires talk.question.Some?
      modifies this
      ensures State() == OfficeState.NextLine(old(State()))
    {
      AdvanceLine();
      if talk.index < talk.length {
        TypeLine();
      } else if talk.showingResult {
        DismissResult();
      } else {
        OfferChoices();
      }
    }

    /** The line cursor moves on. */
    method AdvanceLine()
      modifies this
      ensures State() == OfficeState.Advanced(old(State()))
    {
      talk := talk.(index := talk.index + 1);
    }

    /** The typewriter starts. */
    method TypeLine()
      modifies this
      ensures State() == OfficeState.TypeLine(old(State()))
    {
      widgets := widgets.(typing := true);
    }

    /** `showChoices`. */
    method OfferChoices()
      requires talk.question.Some?
      modifies this
      ensures State() == OfficeState.OfferChoices(old(State()))
    {
      widgets := widgets.(choicesShown := true, choices := talk.question.value.choices);
    }

    /**
     * The last line of a result is passed: the dialog closes, a bankrupt
     * game ends, and the week advances once the weekly limit of NPCs is met.
     */
    method DismissResult()
      modifies this
      ensures State() == OfficeState.DismissResult(old(State()))
    {
      talk := talk.(showingResult := false);
      CloseDialog();
      var over := CheckImmediateEnd();
      if over {
        return;
      }
      if |reg.talked| >= weeklyNpcLimit {
        AutoAdvanceWeek();
      }
    }

    /** `advanceOrComplete`; the 10 ms delayed `advanceDialog` runs at once. */
    method AdvanceOrComplete()
      requires widgets.dialogBox ==> talk.question.Some?
      modifies this
      ensures State() == OfficeState.AdvanceOrComplete(old(State()))
    {
      if !talk.active || widgets.choicesShown {
        return;
      }
      if widgets.dialogBox && widgets.typing {
        widgets := widgets.(typing := false);
      }
      AdvanceDialog();
    }

    /**
     * E or SPACE in a frame of `update`; `near` is the NPC whose zone the
     * player overlaps, if any.
     */
    method PressInteract(near: Option<nat>)
      requires Valid() && ended.None? && (near.Some? ==> near.value < NpcCount)
      modifies this
      ensures State() == OfficeState.Interact(old(State()), near) && Valid()
    {
      ghost var v := State();
      if panel.active || bugGame.active {
        OfficeInvariant.InteractValid(v, near);
        return;
      }
      if near.Some? && !talk.active {
        TryStartDialog(near.value);
      } else if talk.active {
        AdvanceOrComplete();
      }
      OfficeInvariant.InteractValid(v, near);
    }

    /** Choice card `idx` is picked; `swing` is the `Between(-40, 10)` draw. */
    method Choose(idx: nat, swing: int)
      requires Valid() && ended.None? && widgets.choicesShown && idx < 2 && MoodSwingMin <= swing <= MoodSwingMax
      modifies this, reg, moods
      ensures State() == OfficeState.Choose(old(State()), idx, swing) && Valid()
    {
      ghost var v := State();
      Answer(idx, swing);
      ShowResult();
      OfficeInvariant.ChooseValid(v, idx, swing);
    }

    /** The choice takes effect on the registry and on the NPC's mood. */
    method Answer(idx: nat, swing: int)
      requires talk.npc.Some? && talk.npc.value < NpcCount && moods.Length == NpcCount && idx < |widgets.choices|
      modifies reg, moods
      ensures State() == OfficeState.Answer(old(State()), idx, swing)
    {
      var i := talk.npc.value;
      TakeEffects(widgets.choices[idx].effects);
      SwingMood(i, swing);
      RecordTalk(NameOf(i));
    }

    /** `applyEffects`, seen from the scene. */
    method TakeEffects(e: Effects)
      modifies reg
      ensures State() == OfficeState.TakeEffects(old(State()), e)
    {
      ApplyEffects(e);
    }

    /** The mood of NPC `i` swings. */
    method SwingMood(i: nat, swing: int)
      requires i < moods.Length
      modifies moods
      ensures State() == OfficeState.SwingMood(old(State()), i, swing)
    {
      moods[i] := Clamp(moods[i] + swing, 0, PercentMax);
    }

    /** `npcTalkedThisWeek[name] = true` and `npcQuestionProgress[name]++`. */
    method RecordTalk(name: string)
      modifies reg
      ensures State() == OfficeState.RecordTalk(old(State()), name)
    {
      reg.progress := reg.progress[name := ProgressOf(reg.progress, name) + 1];
      reg.talked := reg.talked + {name};
    }

    /** The result line starts typing. */
    method ShowResult()
      modifies this
      ensures State() == OfficeState.ShowResult(old(State()))
    {
      widgets := widgets.(choicesShown := false, typing := true);
      talk := talk.(length := 1, index := 0, showingResult := true);
    }

    // -------------------------------------------------------------------
    // Weeks, founders and the end
    // -------------------------------------------------------------------

    /** `checkImmediateEnd`. */
    method CheckImmediateEnd() returns (over: bool)
      modifies this
      ensures over <==> old(reg.funds) <= 0
      ensures over ==> State() == OfficeState.GotoEnd(old(State()), "bankrupt")
      ensures !over ==> State() == old(State())
    {
      if OrDefault(reg.funds, 0) <= 0 {
        GotoEnd("bankrupt");
        return true;
      }
      return false;
    }

    /** `gotoEnd(kind)`: the end scene starts with a snapshot of the registry. */
    method GotoEnd(kind: string)
      modifies this
      ensures State() == OfficeState.GotoEnd(old(State()), kind)
    {
      ended := Some(Ending.EndData(Some(kind), Some(SnapshotOf(reg.State()))));
    }

    /** `autoAdvanceWeek`: the fade-out starts; a forced restart of a running fade targets the same week, so it is kept. */
    method AutoAdvanceWeek()
      modifies this
      ensures State() == OfficeState.AutoAdvance(old(State()))
    {
      if fading.Some? {
        return;
      }
      var total := OrDefault(reg.weeksTotal, 12);
      var week := OrDefault(reg.week, 1) + 1;
      fading := Some(Fade(week, total));
    }

    /** The fade-out completes: the callback of `autoAdvanceWeek`. */
    method FadeOutComplete()
      requires Valid() && ended.None? && fading.Some?
      modifies this, reg, moods
      ensures State() == OfficeState.FadeOutDone(old(State())) && Valid()
    {
      ghost var v := State();
      StartNextWeek();
      OfficeInvariant.FadeValid(v);
    }

    /**
     * The `fadeOut` callback of `autoAdvanceWeek` at progress 1: past the
     * last week the game ends; otherwise the week starts, and a founder
     * arrives or the panel opens (the 350 ms delayed calls run at once).
     */
    method StartNextWeek()
      requires fading.Some? && moods.Length == NpcCount
      modifies this, reg, moods
      ensures State() == OfficeState.FadeOutDone(old(State()))
    {
      var week := fading.value.week;
      var total := fading.value.total;
      fading := None;
      if week > total {
        GotoEnd("final");
        return;
      }
      BeginWeek(week);
    }

    /** Week `week` starts, then the founder of that week arrives or the panel opens. */
    method BeginWeek(week: int)
      requires moods.Length == NpcCount
      modifies this, reg, moods
      ensures State() == OfficeState.BeginWeek(old(State()), week)
    {
      NewWeek(week);
      var founder := FounderFor(week);
      if founder.Some? {
        StartFounderConversation(founder.value);
      } else {
        ShowInvestmentPanel();
      }
    }

    /** The week is stored, nobody has been talked to yet, every mood rises. */
    method NewWeek(week: int)
      requires moods.Length == NpcCount
      modifies reg, moods
      ensures State() == OfficeState.NewWeek(old(State()), week)
    {
      reg.week := week;
      reg.talked := {};
      RaiseMoods();
    }

    /** Every NPC's mood +10, clamped to [0, 100]. */
    method RaiseMoods()
      modifies moods
      ensures moods[..] == OfficeState.RaiseMoods(old(moods[..]))
    {
      var k := 0;
      while k < moods.Length
        invariant 0 <= k <= moods.Length
        invariant forall j :: 0 <= j < k ==> moods[j] == Clamp(old(moods[j]) + WeeklyMoodGain, 0, PercentMax)
        invariant forall j :: k <= j < moods.Length ==> moods[j] == old(moods[j])
      {
        moods[k] := Clamp(moods[k] + WeeklyMoodGain, 0, PercentMax);
        k := k + 1;
      }
    }

    /** `startFounderConversation`: the first tip whose condition holds. */
    method StartFounderConversation(founder: nat)
      requires founder < FounderCount
      modifies this
      ensures State() == OfficeState.FounderArrives(old(State()), founder)
    {
      var stats := Stats(OrDefault(reg.funds, 0), OrDefault(reg.product, 0),
                         OrDefault(reg.morale, 0), OrDefault(reg.hype, 0));
      var tip := FindTip(Founders()[founder].tips, stats);
      visits := visits + [Visit(founder, 3 * (founder + 1), tip)];
    }

    /** "Continue" on founder visit `i`: week 12 ends the game, any other week opens the panel. */
    method ContinueButton(i: nat)
      requires Valid() && ended.None? && i < |visits|
      modifies this
      ensures State() == OfficeState.FounderContinue(old(State()), i) && Valid()
    {
      ghost var v := State();
      EndFounderConversation(i);
      OfficeInvariant.ContinueValid(v, i);
    }

    /** The "Continue" handler and `onComplete` of founder visit `i`. */
    method EndFounderConversation(i: nat)
      requires i < |visits|
      modifies this
      ensures State() == OfficeState.FounderContinue(old(State()), i)
    {
      var x := visits[i];
      visits := visits[..i] + visits[i + 1..];
      if x.week == LastWeek {
        GotoEnd("final");
      } else {
        ShowInvestmentPanel();
      }
    }
  }
}
