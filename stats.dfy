/**
 * The four player stats of the office scene and the effect reducer that
 * every dialog choice and every investment goes through (`applyEffects`),
 * together with the text helpers that describe an effect map
 * (`effectsToString`, `formatDelta`).
 */
module Stats {
  import opened Wrappers

  /** Registry keys Funds, Product, Morale and Hype. */
  datatype Stats = Stats(funds: int, product: int, morale: int, hype: int)

  /**
   * An effect map such as `{ Product: +12, Hype: -5, Funds: -4000 }`.
   * A key that is not a number in the map is `None`.
   */
  datatype Effects = Effects(funds: Option<int>, product: Option<int>, morale: Option<int>, hype: Option<int>)

  datatype StatName = Funds | Product | Morale | Hype

  /** Upper bound of the percentage stats Product, Morale and Hype. */
  const PercentMax: int := 100

  /** `Phaser.Math.Clamp(v, lo, hi)`. */
  function Clamp(v: int, lo: int, hi: int): (r: int)
    requires lo <= hi
    ensures lo <= r <= hi
    ensures lo <= v <= hi ==> r == v
    ensures v < lo ==> r == lo
    ensures hi < v ==> r == hi
  {
    if v < lo then lo else if v > hi then hi else v
  }

  /** JavaScript's `x || d` on a number: 0 is falsy, so it is replaced by `d`. */
  function OrDefault(x: int, d: int): (r: int)
    ensures x != 0 ==> r == x
    ensures x == 0 ==> r == d
  {
    if x == 0 then d else x
  }

  /** Funds never negative, the three percentages within [0, 100]. */
  predicate InBounds(s: Stats) {
    s.funds >= 0 && 0 <= s.product <= PercentMax && 0 <= s.morale <= PercentMax && 0 <= s.hype <= PercentMax
  }

  /** The new value of a percentage stat under an optional delta. */
  function PercentAfter(v: int, d: Option<int>): (r: int)
    ensures d.None? ==> r == v
    ensures d.Some? ==> 0 <= r <= PercentMax
    ensures d.Some? && 0 <= v + d.value <= PercentMax ==> r == v + d.value
    ensures d.Some? && v + d.value < 0 ==> r == 0
    ensures d.Some? && PercentMax < v + d.value ==> r == PercentMax
  {
    match d
    case None => v
    case Some(x) => Clamp(OrDefault(v, 0) + x, 0, PercentMax)
  }

  /** The new Funds under an optional delta: floored at 0, no upper bound. */
  function FundsAfter(v: int, d: Option<int>): (r: int)
    ensures d.None? ==> r == v
    ensures d.Some? ==> r >= 0
    ensures d.Some? && v + d.value >= 0 ==> r == v + d.value
    ensures d.Some? && v + d.value < 0 ==> r == 0
  {
    match d
    case None => v
    case Some(x) => if OrDefault(v, 0) + x < 0 then 0 else OrDefault(v, 0) + x
  }

  /**
   * The stats after `applyEffects(e)`: every present key is added, Funds is
   * floored at 0 and the three percentages are clamped to [0, 100]; a stat
   * whose key is absent keeps its value.
   */
  function Applied(s: Stats, e: Effects): (r: Stats)
    ensures e.funds.None? ==> r.funds == s.funds
    ensures e.product.None? ==> r.product == s.product
    ensures e.morale.None? ==> r.morale == s.morale
    ensures e.hype.None? ==> r.hype == s.hype
    ensures e.funds.Some? ==> r.funds >= 0
    ensures e.product.Some? ==> 0 <= r.product <= PercentMax
    ensures e.morale.Some? ==> 0 <= r.morale <= PercentMax
    ensures e.hype.Some? ==> 0 <= r.hype <= PercentMax
    ensures InBounds(s) ==> InBounds(r)
  {
    Stats(FundsAfter(s.funds, e.funds), PercentAfter(s.product, e.product),
          PercentAfter(s.morale, e.morale), PercentAfter(s.hype, e.hype))
  }

  /** A delta that stays inside the bounds is applied exactly. */
  lemma AppliedExact(s: Stats, e: Effects)
    requires e.funds.Some? && e.product.Some? && e.morale.Some? && e.hype.Some?
    requires InBounds(Stats(s.funds + e.funds.value, s.product + e.product.value,
                            s.morale + e.morale.value, s.hype + e.hype.value))
    ensures Applied(s, e) == Stats(s.funds + e.funds.value, s.product + e.product.value,
                                   s.morale + e.morale.value, s.hype + e.hype.value)
  {
  }

  /** Applying an effect map whose keys are all absent changes nothing. */
  lemma AppliedEmpty(s: Stats)
    ensures Applied(s, Effects(None, None, None, None)) == s
  {
  }

  // ---------------------------------------------------------------------
  // effectsToString / formatDelta
  // ---------------------------------------------------------------------

  /** The value of one key of an effect map. */
  function Lookup(e: Effects, k: StatName): Option<int> {
    match k
    case Funds => e.funds
    case Product => e.product
    case Morale => e.morale
    case Hype => e.hype
  }

  /** Position of a key in the order in which `effectsToString` lists it. */
  function Rank(k: StatName): nat {
    match k
    case Funds => 0
    case Product => 1
    case Morale => 2
    case Hype => 3
  }

  /** A key is shown when it is truthy: present and non-zero (`if (eff.Funds)`). */
  predicate Shown(e: Effects, k: StatName) {
    Lookup(e, k).Some? && Lookup(e, k).value != 0
  }

  /** One listed item of `effectsToString`: a key and its non-zero amount. */
  datatype Part = Part(stat: StatName, amount: int)

  function PartIf(e: Effects, k: StatName): seq<Part> {
    if Shown(e, k) then [Part(k, Lookup(e, k).value)] else []
  }

  /**
   * The items `effectsToString` lists, in the order Funds, Product, Morale,
   * Hype: exactly the truthy keys, each with its own amount.
   */
  function EffectParts(e: Effects): (ps: seq<Part>)
    ensures forall i :: 0 <= i < |ps| ==> Shown(e, ps[i].stat) && Lookup(e, ps[i].stat) == Some(ps[i].amount)
    ensures forall k :: Shown(e, k) ==> Part(k, Lookup(e, k).value) in ps
  {
    PartIf(e, Funds) + PartIf(e, Product) + PartIf(e, Morale) + PartIf(e, Hype)
  }

  /** The items come in the order Funds, Product, Morale, Hype. */
  lemma EffectPartsInOrder(e: Effects)
    ensures var ps := EffectParts(e);
            forall i, j :: 0 <= i < j < |ps| ==> Rank(ps[i].stat) < Rank(ps[j].stat)
  {
    var a, b, c, d := PartIf(e, Funds), PartIf(e, Product), PartIf(e, Morale), PartIf(e, Hype);
    assert EffectParts(e) == a + b + c + d;
  }

  /** `sign(v)`: a "+" before positive amounts; a negative amount carries its own "-". */
  function SignPrefix(v: int): (s: string)
    ensures s == "+" <==> v > 0
    ensures s == "" <==> v <= 0
  {
    if v > 0 then "+" else ""
  }

  /** The character of decimal digit `d`. */
  function Digit(d: nat): (c: char)
    requires d < 10
    ensures '0' <= c <= '9' && c as int - '0' as int == d
  {
    ('0' as int + d) as char
  }

  predicate AllDigits(s: string) {
    forall i :: 0 <= i < |s| ==> '0' <= s[i] <= '9'
  }

  /** The number a string of decimal digits denotes, the most significant digit first. */
  function DecimalValue(s: string): nat
    requires AllDigits(s)
  {
    if s == [] then 0 else 10 * DecimalValue(s[..|s| - 1]) + (s[|s| - 1] as int - '0' as int)
  }

  /** What `String(n)` of an integer looks like: digits, after a "-" for a negative number. */
  predicate IsIntText(s: string) {
    && |s| >= 1
    && (s[0] == '-' ==> |s| >= 2 && AllDigits(s[1..]))
    && (s[0] != '-' ==> AllDigits(s))
  }

  /** The integer such a text denotes. */
  function IntValue(s: string): int
    requires IsIntText(s)
  {
    if s[0] == '-' then -(DecimalValue(s[1..]) as int) else DecimalValue(s)
  }

  /**
   * Decimal digits of a natural number, as `String(n)` writes them: no
   * leading zero except for 0 itself, and they read back as `n`.
   */
  function NatString(n: nat): (s: string)
    ensures 1 <= |s| && AllDigits(s)
    ensures s[0] == '0' <==> n == 0
    ensures n < 10 <==> |s| == 1
    ensures DecimalValue(s) == n
  {
    if n < 10 then [Digit(n)]
    else
      var high := NatString(n / 10);
      var s := high + [Digit(n % 10)];
      assert s[..|s| - 1] == high;
      s
  }

  /** `String(n)` for an integer: a leading "-" exactly when negative, and it reads back as `n`. */
  function IntString(n: int): (s: string)
    ensures IsIntText(s)
    ensures s[0] == '-' <==> n < 0
    ensures IntValue(s) == n
  {
    if n < 0 then
      var s := "-" + NatString(-n);
      assert s[1..] == NatString(-n);
      s
    else NatString(n)
  }

  /** The word written after a percentage amount. */
  function Label(k: StatName): string {
    match k
    case Funds => "Funds"
    case Product => "Product"
    case Morale => "Morale"
    case Hype => "Hype"
  }

  /**
   * The text of one item: a "+" exactly before a positive amount; for
   * Funds a "$" and the locale formatter `fmt` (`formatNum`, i.e.
   * `toLocaleString`); for a percentage the amount in plain `String(n)`,
   * which reads back as the amount, then a space and the key's name.
   */
  function PartText(p: Part, fmt: int -> string): (s: string)
    ensures |s| >= 1
    ensures s[0] == '+' <==> p.amount > 0
    ensures p.stat == Funds ==>
              var k := |SignPrefix(p.amount)|;
              |s| > k && s[k] == '$' && s[k + 1..] == fmt(p.amount)
    ensures p.stat != Funds ==>
              var k := |SignPrefix(p.amount)|;
              var m := |s| - |Label(p.stat)| - 1;
              && k < m && s[m..] == " " + Label(p.stat)
              && IsIntText(s[k..m]) && IntValue(s[k..m]) == p.amount
  {
    var sign := SignPrefix(p.amount);
    if p.stat == Funds then
      var s := sign + "$" + fmt(p.amount);
      assert s[|sign| + 1..] == fmt(p.amount);
      s
    else
      var num := IntString(p.amount);
      var tail := " " + Label(p.stat);
      var s := sign + num + tail;
      assert s[|sign|..|sign| + |num|] == num;
      assert s[|sign| + |num|..] == tail;
      s
  }

  /**
   * `parts.join(", ")`: it starts with the first part and ends with the
   * last one, and it is empty exactly when there are no parts, if no part
   * is empty.
   */
  function Join(parts: seq<string>): (s: string)
    ensures parts == [] ==> s == ""
    ensures parts != [] ==> |parts[0]| <= |s| && s[..|parts[0]|] == parts[0]
    ensures parts != [] ==> var last := parts[|parts| - 1]; |last| <= |s| && s[|s| - |last|..] == last
    ensures (forall i :: 0 <= i < |parts| ==> parts[i] != "") ==> (s == "" <==> parts == [])
  {
    if parts == [] then ""
    else if |parts| == 1 then parts[0]
    else
      var rest := Join(parts[1..]);
      var s := parts[0] + ", " + rest;
      assert s[..|parts[0]|] == parts[0];
      assert s[|s| - |rest|..] == rest;
      s
  }

  /** Joining is appending: one more part adds ", " and the part at the end. */
  lemma {:induction false} JoinAppend(parts: seq<string>, x: string)
    requires parts != []
    ensures Join(parts + [x]) == Join(parts) + ", " + x
    decreases |parts|
  {
    var all := parts + [x];
    assert all[1..] == parts[1..] + [x];
    if |parts| == 1 {
      assert all[1..] == [x];
    } else {
      JoinAppend(parts[1..], x);
    }
  }

  function Texts(ps: seq<Part>, fmt: int -> string): (ts: seq<string>)
    ensures |ts| == |ps|
    ensures forall i :: 0 <= i < |ps| ==> ts[i] == PartText(ps[i], fmt)
  {
    if ps == [] then [] else [PartText(ps[0], fmt)] + Texts(ps[1..], fmt)
  }

  /**
   * `effectsToString(eff)`: the shown keys' texts joined by ", ".
   * It is empty exactly when no key is shown.
   */
  function EffectsToString(e: Effects, fmt: int -> string): (s: string)
    ensures s == "" <==> forall k :: !Shown(e, k)
  {
    var ps := EffectParts(e);
    var ts := Texts(ps, fmt);
    assert forall i :: 0 <= i < |ts| ==> ts[i] != "";
    assert (forall k :: !Shown(e, k)) <==> ps == [] by {
      if ps != [] {
        assert Shown(e, ps[0].stat);
      }
    }
    Join(ts)
  }

  /**
   * `formatDelta(val)`: nothing for an absent or zero delta, otherwise
   * "  (+N)" for a gain and "  (N)" for a loss, N written by `fmt`.
   */
  function FormatDelta(v: Option<int>, fmt: int -> string): (s: string)
    ensures s == "" <==> v.None? || v.value == 0
    ensures v.Some? && v.value > 0 ==> s == "  (+" + fmt(v.value) + ")"
    ensures v.Some? && v.value < 0 ==> s == "  (" + fmt(v.value) + ")"
  {
    match v
    case None => ""
    case Some(x) =>
      if x == 0 then ""
      else if x > 0 then "  (+" + fmt(x) + ")"
      else "  (" + fmt(x) + ")"
  }
}
