/**
 * The static content of the office: the four NPCs with their ordered
 * questions (each a dialog and two choices with fixed effect maps), and the
 * four YC founders with their prioritised tips. Dialog text, labels and
 * result lines are omitted; what is kept is what the game logic reads:
 * names, starting moods, the number of dialog lines, the choices and their
 * effects, and the tip conditions.
 */
module Npcs {
  import opened Wrappers
  import opened Stats

  datatype Choice = Choice(effects: Effects)

  /** A question: `dialog` (only its number of lines is kept) and its `choices`. */
  datatype Question = Question(dialogLines: nat, choices: seq<Choice>)

  datatype Npc = Npc(name: string, mood: int, questions: seq<Question>)

  /** A question with one dialog line and the two given choices, as every table entry has. */
  function Ask(a: Effects, b: Effects): Question {
    Question(1, [Choice(a), Choice(b)])
  }

  /** A list of questions, each given by the effect maps of its two choices. */
  function Asks(ps: seq<(Effects, Effects)>): (qs: seq<Question>)
    ensures |qs| == |ps|
    ensures forall i :: 0 <= i < |ps| ==> qs[i] == Ask(ps[i].0, ps[i].1)
  {
    if ps == [] then [] else [Ask(ps[0].0, ps[0].1)] + Asks(ps[1..])
  }

  const N: Option<int> := None

  function S(v: int): Option<int> {
    Some(v)
  }

  /** The mood every NPC starts with when the office scene is built. */
  const StartMood: int := 80

  /** `buildNpcList`: Rick, Ava, Max and Liam, in this order. */
  function Table(): seq<Npc> {
    [ Npc("Rick", StartMood, RickQuestions()),
      Npc("Ava", StartMood, AvaQuestions()),
      Npc("Max", StartMood, MaxQuestions()),
      Npc("Liam", StartMood, LiamQuestions()) ]
  }

  const NpcCount: nat := 4
  /** `this.npcs.find(n => n.name === "Liam")`. */
  const LiamIndex: nat := 3

  /** Rick's twelve questions (src/scenes/OfficeScene.js from line 307). */
  function RickQuestions(): seq<Question> {
    Asks([
      // line 309
      (Effects(S(0), S(-5), S(-5), S(15)),
           Effects(S(-4000), S(12), S(2), S(-5))),
      // line 316
      (Effects(S(-1000), S(0), S(3), S(10)),
           Effects(S(-5000), S(15), S(1), S(-3))),
      // line 323
      (Effects(S(-5000), S(0), S(-2), S(12)),
           Effects(S(-1000), N, S(2), S(6))),
      // line 330
      (Effects(S(3000), N, S(-8), N),
           Effects(S(2000), S(-4), S(0), N)),
      // line 337
      (Effects(S(10000), N, S(-3), S(8)),
           Effects(N, S(5), S(4), S(-2))),
      // line 344
      (Effects(S(-4000), S(10), S(-3), N),
           Effects(S(0), N, S(1), S(-4))),
      // line 351
      (Effects(N, N, S(2), S(8)),
           Effects(N, N, S(4), S(4))),
      // line 358
      (Effects(S(-5000), S(3), N, S(10)),
           Effects(N, S(6), S(2), N)),
      // line 365
      (Effects(S(-8000), S(4), S(-2), N),
           Effects(S(2000), S(-2), S(6), N)),
      // line 372
      (Effects(S(-7000), S(8), N, S(5)),
           Effects(N, S(4), S(2), N)),
      // line 379
      (Effects(N, S(-2), S(2), S(8)),
           Effects(N, S(-4), S(4), S(4))),
      // line 386
      (Effects(S(8000), S(-6), N, S(12)),
           Effects(N, S(8), S(3), S(-4)))
    ])
  }

  /** Ava's twelve questions (src/scenes/OfficeScene.js from line 402). */
  function AvaQuestions(): seq<Question> {
    Asks([
      // line 404
      (Effects(S(-6000), S(8), S(-6), S(6)),
           Effects(S(0), S(-4), S(14), S(-3))),
      // line 411
      (Effects(S(-5000), S(6), S(4), N),
           Effects(S(0), N, S(-2), N)),
      // line 418
      (Effects(S(-4500), S(5), N, N),
           Effects(N, S(-2), S(-1), N)),
      // line 425
      (Effects(N, S(6), S(2), N),
           Effects(N, S(3), S(-2), N)),
      // line 432
      (Effects(N, S(4), S(1), S(-2)),
           Effects(S(-5000), S(-4), N, S(10))),
      // line 439
      (Effects(S(8000), S(-3), N, N),
           Effects(S(0), S(2), N, N)),
      // line 446
      (Effects(S(-7500), N, N, S(8)),
           Effects(N, S(4), S(1), N)),
      // line 453
      (Effects(S(-4000), S(8), S(1), N),
           Effects(N, S(5), S(-1), N)),
      // line 460
      (Effects(S(-5000), S(2), S(5), N),
           Effects(S(-4000), S(3), N, N)),
      // line 467
      (Effects(S(7000), N, N, S(5)),
           Effects(N, S(3), N, N)),
      // line 474
      (Effects(S(-4000), S(2), S(6), N),
           Effects(N, S(1), N, N)),
      // line 481
      (Effects(S(-3500), S(-2), N, S(6)),
           Effects(N, S(4), N, N))
    ])
  }

  /** Max's twelve questions (src/scenes/OfficeScene.js from line 496). */
  function MaxQuestions(): seq<Question> {
    Asks([
      // line 498
      (Effects(S(0), S(6), S(-7), S(4)),
           Effects(S(-3000), S(12), S(3), S(0))),
      // line 505
      (Effects(S(-2000), S(8), S(2), N),
           Effects(N, S(2), S(0), N)),
      // line 512
      (Effects(S(-3000), S(5), S(2), N),
           Effects(N, S(3), S(0), N)),
      // line 519
      (Effects(N, S(3), S(-2), N),
           Effects(S(-1000), S(6), S(1), N)),
      // line 526
      (Effects(S(-4000), S(4), S(6), N),
           Effects(S(0), N, N, N)),
      // line 533
      (Effects(S(-1000), S(5), S(2), N),
           Effects(S(-2000), S(3), N, N)),
      // line 540
      (Effects(S(-2500), S(7), S(2), N),
           Effects(N, S(1), N, N)),
      // line 547
      (Effects(S(-1000), S(2), S(5), N),
           Effects(N, S(1), S(-2), N)),
      // line 554
      (Effects(S(-3000), S(8), S(2), N),
           Effects(N, S(2), N, N)),
      // line 561
      (Effects(S(-4000), S(6), N, S(4)),
           Effects(N, S(1), N, N)),
      // line 568
      (Effects(S(-2000), S(7), S(2), N),
           Effects(N, S(3), S(-1), N)),
      // line 575
      (Effects(N, S(4), S(3), N),
           Effects(N, N, S(2), N))
    ])
  }

  /** Liam's twelve questions (src/scenes/OfficeScene.js from line 591). */
  function LiamQuestions(): seq<Question> {
    Asks([
      // line 593
      (Effects(S(0), S(2), S(3), S(10)),
           Effects(S(-500), S(7), S(8), S(0))),
      // line 600
      (Effects(N, S(5), S(1), N),
           Effects(N, N, S(5), S(2))),
      // line 607
      (Effects(N, S(4), S(-1), N),
           Effects(N, S(6), S(2), N)),
      // line 614
      (Effects(N, S(3), S(2), N),
           Effects(N, S(5), S(0), N)),
      // line 621
      (Effects(N, S(4), S(2), N),
           Effects(N, S(1), N, N)),
      // line 628
      (Effects(N, S(1), S(3), N),
           Effects(N, S(3), N, N)),
      // line 635
      (Effects(S(-500), S(4), S(4), N),
           Effects(N, S(3), N, N)),
      // line 642
      (Effects(N, S(2), S(1), N),
           Effects(N, S(0), N, N)),
      // line 649
      (Effects(N, S(1), S(4), N),
           Effects(N, S(3), N, N)),
      // line 656
      (Effects(N, S(5), S(2), N),
           Effects(N, S(0), N, N)),
      // line 663
      (Effects(N, S(4), S(3), N),
           Effects(N, S(0), N, N)),
      // line 670
      (Effects(S(-2000), S(6), N, S(4)),
           Effects(N, S(3), N, N))
    ])
  }

  // ---------------------------------------------------------------------
  // Well-formedness of the table
  // ---------------------------------------------------------------------

  /**
   * The choice menu builds its two cards from `choices[0]` and `choices[1]`
   * and binds keys 1 and 2 to them, and the dialog starts with
   * `dialog[0]`: a question needs a dialog line and exactly two choices.
   */
  predicate WellFormedQuestion(q: Question) {
    q.dialogLines >= 1 && |q.choices| == 2
  }

  predicate WellFormedNpc(n: Npc) {
    0 <= n.mood <= PercentMax && forall i :: 0 <= i < |n.questions| ==> WellFormedQuestion(n.questions[i])
  }

  /** Progress and the talked set are keyed by name, so names must be distinct. */
  predicate DistinctNames(t: seq<Npc>) {
    forall i, j :: 0 <= i < j < |t| ==> t[i].name != t[j].name
  }

  predicate WellFormedTable(t: seq<Npc>) {
    DistinctNames(t) && forall i :: 0 <= i < |t| ==> WellFormedNpc(t[i])
  }

  /**
   * The table is well formed: four NPCs with distinct names, the last one
   * Liam, each with twelve questions of one dialog line and two choices.
   */
  lemma TableWellFormed()
    ensures |Table()| == NpcCount && Table()[LiamIndex].name == "Liam"
    ensures WellFormedTable(Table())
    ensures forall i :: 0 <= i < |Table()| ==> |Table()[i].questions| == 12
  {
  }

  /** The NPC names in table order. */
  const NpcNames: seq<string> := ["Rick", "Ava", "Max", "Liam"]

  /** The names of the NPCs: the keys of the progress map and the talked set. */
  function Names(): set<string> {
    {"Rick", "Ava", "Max", "Liam"}
  }

  const QuestionsPerNpc: nat := 12

  /** `npc.questions.length` of the NPC with that name, 0 for any other name. */
  function QuestionCount(name: string): nat {
    if name in Names() then QuestionsPerNpc else 0
  }

  /** `npc.questions[progress]` of NPC `i`: always a well-formed question. */
  function QuestionAt(i: nat, p: nat): (q: Question)
    requires i < NpcCount && p < QuestionsPerNpc
    ensures WellFormedQuestion(q) && q.dialogLines == 1
    ensures q.choices == Table()[i].questions[p].choices
  {
    TableWellFormed();
    Table()[i].questions[p]
  }

  /**
   * `Names` and `QuestionCount` agree with the table: the names are exactly
   * the table's names, and each count is that NPC's number of questions.
   */
  lemma NamesMatchTable()
    ensures |Table()| == |NpcNames| && forall i :: 0 <= i < |Table()| ==> Table()[i].name == NpcNames[i]
    ensures forall i :: 0 <= i < |Table()| ==> Table()[i].name in Names()
    ensures forall n :: n in Names() ==> exists i :: 0 <= i < |Table()| && Table()[i].name == n
    ensures forall i :: 0 <= i < |Table()| ==> QuestionCount(Table()[i].name) == |Table()[i].questions|
    ensures forall n :: n !in Names() ==> QuestionCount(n) == 0
  {
    TableWellFormed();
    assert Table()[0].name == "Rick" && Table()[1].name == "Ava";
    assert Table()[2].name == "Max" && Table()[3].name == "Liam";
  }

  // ---------------------------------------------------------------------
  // Founders and their tips
  // ---------------------------------------------------------------------

  /** A tip's `condition` on the stats `{ Funds, Product, Morale, Hype }`. */
  datatype Condition = FundsBelow(limit: int) | ProductBelow(limit: int) | MoraleBelow(limit: int)
                     | HypeBelow(limit: int) | Always

  datatype Founder = Founder(name: string, tips: seq<Condition>)

  const LowFunds: int := 2000
  const LowScore: int := 40

  predicate Holds(c: Condition, s: Stats) {
    match c
    case FundsBelow(n) => s.funds < n
    case ProductBelow(n) => s.product < n
    case MoraleBelow(n) => s.morale < n
    case HypeBelow(n) => s.hype < n
    case Always => true
  }

  /** Every founder checks, in order: cash, product, morale, hype, then a fallback. */
  function TipConditions(): seq<Condition> {
    [FundsBelow(LowFunds), ProductBelow(LowScore), MoraleBelow(LowScore), HypeBelow(LowScore), Always]
  }

  /** How many founders visit. */
  const FounderCount: nat := 4

  /** `this.founders`, in visiting order (tip texts omitted). */
  function Founders(): (fs: seq<Founder>)
    ensures |fs| == FounderCount
  {
    [ Founder("Jared Friedman", TipConditions()),
      Founder("Garry Tan", TipConditions()),
      Founder("Michael Seibel", TipConditions()),
      Founder("Paul Graham", TipConditions()) ]
  }

  /** `tips.find(...)` from position `from` on: the first index whose condition holds. */
  function FindFrom(tips: seq<Condition>, s: Stats, from: nat): (r: Option<nat>)
    requires from <= |tips|
    ensures r.Some? ==> from <= r.value < |tips| && Holds(tips[r.value], s)
    ensures r.Some? ==> forall j :: from <= j < r.value ==> !Holds(tips[j], s)
    ensures r.None? ==> forall j :: from <= j < |tips| ==> !Holds(tips[j], s)
    decreases |tips| - from
  {
    if from == |tips| then None
    else if Holds(tips[from], s) then Some(from)
    else FindFrom(tips, s, from + 1)
  }

  /** `founder.tips.find(t => t.condition(stats))`, as an index. */
  function FindTip(tips: seq<Condition>, s: Stats): (r: Option<nat>)
    ensures r.Some? ==> r.value < |tips| && Holds(tips[r.value], s)
    ensures r.Some? ==> forall j :: 0 <= j < r.value ==> !Holds(tips[j], s)
    ensures r.None? <==> forall j :: 0 <= j < |tips| ==> !Holds(tips[j], s)
  {
    FindFrom(tips, s, 0)
  }

  /** Which of the five tips applies: the first failing stat in the order Funds, Product, Morale, Hype. */
  function TipRank(s: Stats): nat {
    if s.funds < LowFunds then 0
    else if s.product < LowScore then 1
    else if s.morale < LowScore then 2
    else if s.hype < LowScore then 3
    else 4
  }

  /**
   * Every founder has a tip for every state (the last condition always
   * holds), and it is the one `TipRank` names.
   */
  lemma {:induction false} FounderTip(i: nat, s: Stats)
    requires i < FounderCount
    ensures FindTip(Founders()[i].tips, s) == Some(TipRank(s))
  {
    var tips := Founders()[i].tips;
    assert tips == TipConditions();
    var r := FindTip(tips, s);
    assert Holds(tips[TipRank(s)], s);
    assert r.Some?;
  }

  /**
   * `week % 3 === 0 && week <= 12` and `this.founders[week / 3 - 1]`
   * exists: weeks 3, 6, 9 and 12 bring founders 0, 1, 2 and 3.
   */
  function FounderFor(week: int): (r: Option<nat>)
    ensures r.Some? <==> week in {3, 6, 9, 12}
    ensures r.Some? ==> r.value < FounderCount && 3 * (r.value + 1) == week
  {
    if week % 3 == 0 && week <= 12 && 0 <= week / 3 - 1 < FounderCount then Some(week / 3 - 1) else None
  }
}
