/**
 * The main menu: which buttons it offers, and what its "Start New Game"
 * and "Continue" handlers do to the registry.
 */
module Menu {
  import opened Wrappers
  import opened Stats
  import opened Registry
  import Boot

  datatype Button = Continue | StartNewGame | Settings | Credits

  /** The scene a button starts. */
  datatype Scene = OfficeScene | SettingsScene

  /**
   * `create`: "Continue" is offered exactly when a save flag is set;
   * "Start New Game", "Settings" and "Credits" always are.
   */
  method Buttons(reg: Registry) returns (bs: seq<Button>)
    ensures Continue in bs <==> reg.hasSave
    ensures StartNewGame in bs && Settings in bs && Credits in bs
    ensures |bs| == if reg.hasSave then 4 else 3
    ensures reg.hasSave ==> bs[0] == Continue
  {
    if reg.hasSave {
      bs := [Continue, StartNewGame];
    } else {
      bs := [StartNewGame];
    }
    bs := bs + [Settings, Credits];
  }

  /**
   * "Continue": return to the office; the registry is left exactly as it
   * was (no registry key is written).
   */
  method ContinueGame() returns (next: Scene)
    ensures next == OfficeScene
  {
    next := OfficeScene;
  }

  /**
   * "Start New Game" when there is no save: week 1, nobody talked to, the
   * initial stats, which are those of the boot scene. The question
   * cursors, the player name, the week total and the weekly limit are not
   * reset.
   */
  method StartNew(reg: Registry) returns (next: Scene)
    requires reg.Valid()
    modifies reg
    ensures reg.State() == old(reg.State()).(week := 1, talked := {}, funds := 50000, product := 20, morale := 70, hype := 10)
    ensures reg.Values() == Boot.InitialStats && InBounds(reg.Values()) && reg.funds > 0
    ensures reg.Valid()
    ensures next == OfficeScene
  {
    reg.week := 1;
    reg.talked := {};
    reg.funds := 50000;
    reg.product := 20;
    reg.morale := 70;
    reg.hype := 10;
    next := OfficeScene;
  }

  /**
   * "Start New Game" when a save exists: the save flag is cleared, then the
   * same reset as `StartNew`.
   */
  method StartNewFromSave(reg: Registry) returns (next: Scene)
    requires reg.Valid()
    modifies reg
    ensures reg.State() == old(reg.State()).(hasSave := false, week := 1, talked := {},
                                              funds := 50000, product := 20, morale := 70, hype := 10)
    ensures reg.Values() == Boot.InitialStats && InBounds(reg.Values()) && reg.funds > 0
    ensures reg.Valid()
    ensures next == OfficeScene
  {
    reg.hasSave := false;
    reg.week := 1;
    reg.talked := {};
    reg.funds := 50000;
    reg.product := 20;
    reg.morale := 70;
    reg.hype := 10;
    next := OfficeScene;
  }
}
