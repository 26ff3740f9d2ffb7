/** The boot scene's registry initialisation (its texture and sprite loading is not modelled). */
module Boot {
  import opened Wrappers
  import opened Stats
  import opened Registry

  const DefaultPlayerName: string := "Founder"
  const WeeksTotal: int := 12
  const WeeklyNpcLimit: int := 2
  const MaxInteractionsPerWeek: int := 2
  /** Funds $50k, Product 20, Morale 70, Hype 10. */
  const InitialStats: Stats := Stats(50000, 20, 70, 10)

  /**
   * `preload`: week 1 of 12, nobody talked to, no question asked yet, at
   * most two NPCs a week, the initial stats; the player name is set to
   * "Founder" only when no name is present.
   */
  method Preload(reg: Registry)
    modifies reg
    ensures reg.playerName == if old(reg.playerName).Some? then old(reg.playerName) else Some(DefaultPlayerName)
    ensures reg.week == 1 && reg.weeksTotal == WeeksTotal
    ensures reg.talked == {} && reg.progress == map[]
    ensures reg.interactionsThisWeek == 0 && reg.maxInteractionsPerWeek == MaxInteractionsPerWeek
    ensures reg.weeklyNpcLimit == WeeklyNpcLimit
    ensures reg.Values() == InitialStats
    ensures reg.hasSave == old(reg.hasSave) && reg.lastAlloc == old(reg.lastAlloc)
    ensures reg.Valid() && reg.funds > 0 && InBounds(reg.Values())
  {
    if reg.playerName.None? {
      reg.playerName := Some(DefaultPlayerName);
    }
    ResetWeek(reg);
    SetStats(reg, InitialStats);
  }

  /** Week 1 of 12, no NPC talked to, no question asked, the weekly limits. */
  method ResetWeek(reg: Registry)
    modifies reg
    ensures reg.State() == old(reg.State()).(week := 1, weeksTotal := WeeksTotal, talked := {}, progress := map[],
                                            interactionsThisWeek := 0,
                                            maxInteractionsPerWeek := MaxInteractionsPerWeek,
                                            weeklyNpcLimit := WeeklyNpcLimit)
  {
    reg.week, reg.weeksTotal := 1, WeeksTotal;
    reg.talked, reg.progress := {}, map[];
    reg.interactionsThisWeek, reg.maxInteractionsPerWeek, reg.weeklyNpcLimit := 0, MaxInteractionsPerWeek, WeeklyNpcLimit;
  }

  /** The four stats are set to `s`. */
  method SetStats(reg: Registry, s: Stats)
    modifies reg
    ensures reg.State() == old(reg.State()).WithValues(s)
  {
    reg.funds, reg.product, reg.morale, reg.hype := s.funds, s.product, s.morale, s.hype;
  }
}
