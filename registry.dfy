/**
 * The game-wide data registry that every scene reads and writes with
 * `registry.get` / `registry.set`. Only the keys the game logic uses are
 * kept; each is a field that `set` overwrites in place.
 */
module Registry {
  import opened Wrappers
  import opened Stats
  import opened Npcs
  import opened Investment

  /** All registry values at one moment. */
  datatype RegState = RegState(
    playerName: Option<string>,
    week: int,
    weeksTotal: int,
    talked: set<string>,
    progress: map<string, nat>,
    interactionsThisWeek: int,
    maxInteractionsPerWeek: int,
    weeklyNpcLimit: int,
    funds: int,
    product: int,
    morale: int,
    hype: int,
    hasSave: bool,
    lastAlloc: Option<Alloc>)
  {
    /** Funds, Product, Morale and Hype. */
    function Values(): Stats {
      Stats(funds, product, morale, hype)
    }

    /** `registry.set` of the four stats, every other key kept. */
    function WithValues(s: Stats): (r: RegState)
      ensures r.Values() == s
      ensures r.(funds := funds, product := product, morale := morale, hype := hype) == this
    {
      this.(funds := s.funds, product := s.product, morale := s.morale, hype := s.hype)
    }
  }

  /** `npcQuestionProgress[name] || 0`. */
  function ProgressOf(progress: map<string, nat>, name: string): nat {
    if name in progress then progress[name] else 0
  }

  /**
   * What every scene may rely on once the boot scene has run: Funds is not
   * negative, Product and Hype are percentages (Morale is not: the cleanup
   * minigame moves it without clamping), the week lies within the game,
   * and the talked set and the question cursors only name NPCs, each
   * cursor at most that NPC's number of questions.
   */
  predicate ValidState(s: RegState) {
    && s.funds >= 0
    && 0 <= s.product <= PercentMax
    && 0 <= s.hype <= PercentMax
    && 1 <= s.week <= s.weeksTotal
    && s.talked <= Names()
    && (forall n :: n in s.progress ==> n in Names() && s.progress[n] <= QuestionCount(n))
  }

  class Registry {
    /** `npcTalkedThisWeek`: a map from name to `true`; only its keys matter. */
    var talked: set<string>
    /** `npcQuestionProgress`: for each NPC name, the index of its next question. */
    var progress: map<string, nat>
    var playerName: Option<string>
    var week: int
    var weeksTotal: int
    var interactionsThisWeek: int
    var maxInteractionsPerWeek: int
    var weeklyNpcLimit: int
    var funds: int
    var product: int
    var morale: int
    var hype: int
    var hasSave: bool
    var lastAlloc: Option<Alloc>

    /**
     * A registry before the boot scene has run: every key unset, except
     * perhaps the player name. Unset numbers read as 0 here.
     */
    constructor (name: Option<string>)
      ensures State() == RegState(name, 0, 0, {}, map[], 0, 0, 0, 0, 0, 0, 0, false, None)
    {
      playerName := name;
      week, weeksTotal := 0, 0;
      talked, progress := {}, map[];
      interactionsThisWeek, maxInteractionsPerWeek, weeklyNpcLimit := 0, 0, 0;
      funds, product, morale, hype := 0, 0, 0, 0;
      hasSave, lastAlloc := false, None;
    }

    function State(): RegState
      reads this
    {
      RegState(playerName, week, weeksTotal, talked, progress, interactionsThisWeek,
               maxInteractionsPerWeek, weeklyNpcLimit, funds, product, morale, hype, hasSave, lastAlloc)
    }

    function Values(): Stats
      reads this
    {
      State().Values()
    }

    predicate Valid()
      reads this
    {
      ValidState(State())
    }
  }
}
