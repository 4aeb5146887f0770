/** The value axis shared by column and line charts: the "nice" axis maximum,
    the value-to-pixel map, the six axis ticks and their labels. */
module Scale {
  import opened Canvas

  // ---------------------------------------------------------------------
  // Powers of ten and the decimal exponent of a positive number
  // ---------------------------------------------------------------------

  /** 10^n for a natural exponent. */
  function Pow10Nat(n: nat): (p: nat)
    ensures p >= 1
  {
    if n == 0 then 1 else 10 * Pow10Nat(n - 1)
  }

  /** 10^k for any integer exponent, as an exact real. */
  function Pow10(k: int): (p: real)
    ensures p > 0.0
  {
    if k >= 0 then Pow10Nat(k) as real else 1.0 / (Pow10Nat(-k) as real)
  }

  /** Scaling by a positive factor preserves order. */
  lemma MulMono(a: real, b: real, p: real)
    requires p > 0.0
    ensures a <= b <==> a * p <= b * p
    ensures a < b <==> a * p < b * p
  {
  }

  lemma DivLe(v: real, p: real, c: real)
    requires p > 0.0 && v <= c * p
    ensures v / p <= c
  {
    assert (v / p) * p == v;
    MulMono(v / p, c, p);
  }

  lemma Pow10Succ(k: int)
    ensures Pow10(k + 1) == 10.0 * Pow10(k)
  {
    if k < -1 {
      var p := Pow10Nat(-k - 1) as real;
      assert Pow10Nat(-k) as real == 10.0 * p;
      assert Pow10(k + 1) == 1.0 / p;
      assert Pow10(k) == 1.0 / (10.0 * p);
    }
  }

  /** Powers of ten grow strictly with the exponent. */
  lemma {:induction false} Pow10Less(i: int, j: int)
    requires i < j
    ensures 10.0 * Pow10(i) <= Pow10(j)
    decreases j - i
  {
    Pow10Succ(i);
    if i + 1 < j {
      Pow10Less(i + 1, j);
      Pow10Succ(i + 1);
    }
  }

  /** floor(log10(v)): the integer k with 10^k <= v < 10^(k+1). There is
      exactly one such k. */
  function Exponent(v: real): (k: int)
    requires v > 0.0
    ensures Pow10(k) <= v < Pow10(k + 1)
  {
    BracketExists(v);
    BracketUnique(v);
    var k :| Pow10(k) <= v < Pow10(k + 1);
    k
  }

  /** Some exponent brackets v: the one the searches from 10^0 find. */
  lemma BracketExists(v: real)
    requires v > 0.0
    ensures exists k :: Pow10(k) <= v < Pow10(k + 1)
  {
    var e := if v >= 1.0 then ExponentFrom(v, 0) else ExponentBelow(v, -1);
    assert Pow10(e) <= v < Pow10(e + 1);
  }

  /** At most one exponent brackets v. */
  lemma BracketUnique(v: real)
    requires v > 0.0
    ensures forall a, b :: Pow10(a) <= v < Pow10(a + 1) && Pow10(b) <= v < Pow10(b + 1) ==> a == b
  {
    forall a, b | Pow10(a) <= v < Pow10(a + 1) && Pow10(b) <= v < Pow10(b + 1)
      ensures a == b
    {
      if a < b {
        Pow10Less(a, b);
        Pow10Succ(a);
        if a + 1 < b { Pow10Less(a + 1, b); }
      } else if b < a {
        Pow10Less(b, a);
        Pow10Succ(b);
        if b + 1 < a { Pow10Less(b + 1, a); }
      }
    }
  }

  /** The search upwards from exponent k: the first e >= k with v < 10^(e+1). */
  function ExponentFrom(v: real, k: nat): (e: int)
    requires Pow10(k) <= v
    ensures k <= e && Pow10(e) <= v < Pow10(e + 1)
    decreases v.Floor - Pow10Nat(k)
  {
    if v < Pow10(k + 1) then k else ExponentFrom(v, k + 1)
  }

  /** The search downwards from exponent k < 0: the first e <= k with 10^e <= v. */
  function ExponentBelow(v: real, k: int): (e: int)
    requires k < 0 && 0.0 < v < Pow10(k + 1)
    ensures e <= k && Pow10(e) <= v < Pow10(e + 1)
    decreases (1.0 / v).Floor - Pow10Nat(-k - 1)
  {
    if Pow10(k) <= v then k
    else
      ReciprocalBound(v, Pow10Nat(-k) as real);
      ExponentBelow(v, k - 1)
  }

  lemma ReciprocalBound(v: real, n: real)
    requires 0.0 < v && n > 0.0 && v < 1.0 / n
    ensures n < 1.0 / v
  {
    ReciprocalMono(v, 1.0 / n);
    assert 1.0 / (1.0 / n) == n;
  }

  /** Taking reciprocals of positive numbers reverses order. */
  lemma ReciprocalMono(a: real, b: real)
    requires 0.0 < a <= b
    ensures 1.0 / b <= 1.0 / a
    ensures a < b ==> 1.0 / b < 1.0 / a
  {
    MulMono(1.0 / b, 1.0 / a, a * b);
    assert (1.0 / b) * (a * b) == a;
    assert (1.0 / a) * (a * b) == b;
  }

  // ---------------------------------------------------------------------
  // The nice axis maximum
  // ---------------------------------------------------------------------

  /** The candidate multipliers, in the order they are tried. */
  const NiceSteps: seq<real> := [1.0, 2.0, 5.0, 10.0]

  /** The first candidate that is at least the normalized value. */
  function NiceStep(normalized: real): (nice: real)
    ensures nice in NiceSteps
    ensures normalized <= 10.0 ==> normalized <= nice
    ensures forall i :: 0 <= i < |NiceSteps| && NiceSteps[i] < nice ==> NiceSteps[i] < normalized
  {
    if normalized <= 1.0 then 1.0
    else if normalized <= 2.0 then 2.0
    else if normalized <= 5.0 then 5.0
    else 10.0
  }

  /** The axis maximum: 10 for a non-positive data maximum, otherwise the
      data maximum rounded up to 1, 2, 5 or 10 times its power of ten. */
  function NiceMax(v: real): (r: real)
    ensures r > 0.0
    ensures v <= 0.0 ==> r == 10.0
    ensures v > 0.0 ==> v <= r
  {
    if v <= 0.0 then 10.0
    else
      var magnitude := Pow10(Exponent(v));
      Pow10Succ(Exponent(v));
      RoundUpCovers(v, magnitude);
      NiceStep(v / magnitude) * magnitude
  }

  /** Rounding the normalized value up and scaling back covers v. */
  lemma RoundUpCovers(v: real, p: real)
    requires 0.0 < p <= v < 10.0 * p
    ensures v <= NiceStep(v / p) * p
  {
    DivRange(v, p);
    MulMono(v / p, NiceStep(v / p), p);
  }

  /** Dividing v by 10^floor(log10 v) leaves a number in [1, 10). */
  lemma NormalizedRange(v: real, k: int)
    requires v > 0.0
    requires Pow10(k) <= v < Pow10(k + 1)
    ensures 1.0 <= v / Pow10(k) < 10.0
    ensures (v / Pow10(k)) * Pow10(k) == v
  {
    Pow10Succ(k);
    DivRange(v, Pow10(k));
  }

  lemma DivRange(v: real, p: real)
    requires 0.0 < p <= v < 10.0 * p
    ensures 1.0 <= v / p < 10.0
    ensures (v / p) * p == v
  {
    MulMono(1.0, v / p, p);
    MulMono(v / p, 10.0, p);
  }

  /** A "round" number: 1, 2 or 5 times a power of ten. */
  predicate RoundNumber(q: real, c: real, j: int)
  {
    (c == 1.0 || c == 2.0 || c == 5.0) && q == c * Pow10(j)
  }

  /** Unfolds NiceMax for a positive argument. */
  lemma NiceMaxOfPositive(v: real)
    requires v > 0.0
    ensures var p := Pow10(Exponent(v));
            NiceMax(v) == NiceStep(v / p) * p && p <= v < 10.0 * p
  {
    Pow10Succ(Exponent(v));
  }

  lemma MulDivCancel(x: real, p: real)
    requires p > 0.0
    ensures (x * p) / p == x
  {
  }

  /** For positive v, NiceMax(v) is m times 10^k, where 10^k <= v < 10^(k+1)
      and m is the first of 1, 2, 5, 10 that is at least v / 10^k. */
  lemma NiceMaxDecomposition(v: real)
    requires v > 0.0
    ensures var k := Exponent(v);
            var m := NiceMax(v) / Pow10(k);
            Pow10(k) <= v < Pow10(k + 1) &&
            m in NiceSteps && v / Pow10(k) <= m &&
            (forall i :: 0 <= i < |NiceSteps| && NiceSteps[i] < m ==> NiceSteps[i] < v / Pow10(k))
  {
    var p := Pow10(Exponent(v));
    NiceMaxOfPositive(v);
    DivRange(v, p);
    MulDivCancel(NiceStep(v / p), p);
  }

  /** NiceMax(v) is itself a round number. */
  lemma NiceMaxIsRound(v: real)
    ensures exists c, j :: RoundNumber(NiceMax(v), c, j)
  {
    var c, j := NiceMaxRoundWitness(v);
  }

  /** The multiplier and exponent that make NiceMax(v) round. */
  lemma NiceMaxRoundWitness(v: real) returns (c: real, j: int)
    ensures RoundNumber(NiceMax(v), c, j)
  {
    if v <= 0.0 {
      c, j := 1.0, 1;
      Pow10One();
    } else {
      var k := Exponent(v);
      var p := Pow10(k);
      NiceMaxOfPositive(v);
      var nice := NiceStep(v / p);
      c, j := StepTimesPowerIsRound(nice, k, NiceMax(v));
    }
  }

  lemma Pow10One()
    ensures Pow10(1) == 10.0
  {
    assert Pow10Nat(1) == 10;
  }

  /** A candidate multiplier times a power of ten is a round number. */
  lemma StepTimesPowerIsRound(nice: real, k: int, q: real) returns (c: real, j: int)
    requires nice in NiceSteps && q == nice * Pow10(k)
    ensures RoundNumber(q, c, j)
  {
    if nice == 10.0 {
      Pow10Succ(k);
      c, j := 1.0, k + 1;
    } else {
      c, j := nice, k;
    }
  }

  /** With 10^k <= v, the first step covering v / 10^k is at most any
      candidate c whose multiple c * 10^k covers v. */
  lemma StepAtMost(v: real, p: real, c: real)
    requires 0.0 < p <= v
    requires c == 1.0 || c == 2.0 || c == 5.0
    requires v <= c * p
    ensures NiceStep(v / p) * p <= c * p
  {
    DivLe(v, p, c);
    assert NiceStep(v / p) <= c;
    MulMono(NiceStep(v / p), c, p);
  }

  /** NiceMax(v) is the least round number that is at least v. */
  lemma NiceMaxIsLeast(v: real, q: real, c: real, j: int)
    requires v > 0.0
    requires RoundNumber(q, c, j)
    requires v <= q
    ensures NiceMax(v) <= q
  {
    var k := Exponent(v);
    if j < k {
      Pow10Less(j, k);
      RoundBelowMagnitude(c, Pow10(j), Pow10(k), v);
    } else if j == k {
      LeastSameExponent(v, c);
    } else {
      LeastLargerExponent(v, c, j);
    }
  }

  lemma LeastSameExponent(v: real, c: real)
    requires v > 0.0
    requires c == 1.0 || c == 2.0 || c == 5.0
    requires v <= c * Pow10(Exponent(v))
    ensures NiceMax(v) <= c * Pow10(Exponent(v))
  {
    NiceMaxOfPositive(v);
    StepAtMost(v, Pow10(Exponent(v)), c);
  }

  lemma LeastLargerExponent(v: real, c: real, j: int)
    requires v > 0.0
    requires c == 1.0 || c == 2.0 || c == 5.0
    requires j > Exponent(v)
    ensures NiceMax(v) <= c * Pow10(j)
  {
    var k := Exponent(v);
    NiceMaxOfPositive(v);
    Pow10Less(k, j);
    RoundAboveMagnitude(NiceStep(v / Pow10(k)), Pow10(k), c, Pow10(j));
  }

  /** A round number with a smaller exponent than v lies below v. */
  lemma RoundBelowMagnitude(c: real, pj: real, p: real, v: real)
    requires c == 1.0 || c == 2.0 || c == 5.0
    requires 0.0 < pj && 10.0 * pj <= p <= v
    ensures c * pj < v
  {
    MulMono(c, 5.0, pj);
  }

  /** A round number with a larger exponent than v lies above NiceMax(v). */
  lemma RoundAboveMagnitude(s: real, p: real, c: real, pj: real)
    requires s <= 10.0 && 0.0 < p && 10.0 * p <= pj && 1.0 <= c
    ensures s * p <= c * pj
  {
    MulMono(s, 10.0, p);
    MulMono(1.0, c, pj);
  }

  /** Rounding an already nice maximum changes nothing. */
  lemma NiceMaxIdempotent(v: real)
    ensures NiceMax(NiceMax(v)) == NiceMax(v)
  {
    var r := NiceMax(v);
    NiceMaxIsRound(v);
    var c, j :| RoundNumber(r, c, j);
    NiceMaxIsLeast(r, r, c, j);
  }

  /** A larger data maximum never gets a smaller axis maximum. */
  lemma NiceMaxMonotone(v: real, w: real)
    requires 0.0 < v <= w
    ensures NiceMax(v) <= NiceMax(w)
  {
    NiceMaxIsRound(w);
    var c, j :| RoundNumber(NiceMax(w), c, j);
    NiceMaxIsLeast(v, NiceMax(w), c, j);
  }

  /** The axis never wastes more than 60% of its height: NiceMax(v) < 2.5 v. */
  lemma NiceMaxTight(v: real)
    requires v > 0.0
    ensures NiceMax(v) < 2.5 * v
  {
    NiceMaxOfPositive(v);
    StepTight(v, Pow10(Exponent(v)));
  }

  lemma StepTight(v: real, p: real)
    requires 0.0 < p <= v < 10.0 * p
    ensures NiceStep(v / p) * p < 2.5 * v
  {
    DivRange(v, p);
    var n := v / p;
    assert NiceStep(n) < 2.5 * n;
    ScaleBelow(NiceStep(n), n, p, v);
  }

  lemma ScaleBelow(s: real, n: real, p: real, v: real)
    requires p > 0.0 && s < 2.5 * n && n * p == v
    ensures s * p < 2.5 * v
  {
    MulMono(s, 2.5 * n, p);
  }

  // ---------------------------------------------------------------------
  // Value-to-pixel map, labels and ticks
  // ---------------------------------------------------------------------

  /** The pixel height of a value on an axis whose top is nicedMax. */
  function BarHeight(value: real, nicedMax: real, innerHeight: real): real
    requires nicedMax > 0.0
  {
    (value / nicedMax) * innerHeight
  }

  /** The value-to-pixel map sends 0 to no height and nicedMax to the full
      inner height; values up to nicedMax stay within it and non-negative
      values do not go below the baseline. */
  lemma BarHeightBounds(value: real, nicedMax: real, innerHeight: real)
    requires nicedMax > 0.0
    ensures value == 0.0 ==> BarHeight(value, nicedMax, innerHeight) == 0.0
    ensures value == nicedMax ==> BarHeight(value, nicedMax, innerHeight) == innerHeight
    ensures innerHeight >= 0.0 && value <= nicedMax ==> BarHeight(value, nicedMax, innerHeight) <= innerHeight
    ensures innerHeight >= 0.0 && value >= 0.0 ==> BarHeight(value, nicedMax, innerHeight) >= 0.0
  {
    var f := value / nicedMax;
    assert f * nicedMax == value;
    if value <= nicedMax {
      MulMono(f, 1.0, nicedMax);
    }
    if value >= 0.0 {
      MulMono(0.0, f, nicedMax);
    }
  }

  /** The pixel row of a value: the baseline minus its bar height. */
  function ValueToY(value: real, nicedMax: real, innerHeight: real): real
    requires nicedMax > 0.0
  {
    PaddingTop + innerHeight - BarHeight(value, nicedMax, innerHeight)
  }

  /** Which text form an axis label takes, with the number it shows. */
  datatype Label =
    | Millions(scaled: real)    // one decimal and an "M" suffix
    | Thousands(scaled: real)   // one decimal and a "K" suffix
    | Plain(v: real)            // no suffix

  predicate IsIntegral(v: real)
  {
    v == v.Floor as real
  }

  /** A plain label is written as an integer when its number has no
      fraction, and with one decimal otherwise; suffixed labels always
      carry one decimal. */
  predicate WrittenWhole(l: Label)
  {
    l.Plain? && IsIntegral(l.v)
  }

  /** The axis-label format: "M" from a million up, "K" from a thousand up,
      otherwise the bare number. */
  function FormatValue(v: real): Label
  {
    if v >= 1000000.0 then Millions(v / 1000000.0)
    else if v >= 1000.0 then Thousands(v / 1000.0)
    else Plain(v)
  }

  /** Each value gets exactly one label form, chosen by its size, and the
      label shows the value scaled down by the suffix it carries; it is
      written as a whole number exactly when it is below a thousand and has
      no fraction. */
  lemma FormatValueCases(v: real)
    ensures var l := FormatValue(v);
            && (l.Millions? <==> v >= 1000000.0)
            && (l.Thousands? <==> 1000.0 <= v < 1000000.0)
            && (l.Plain? <==> v < 1000.0)
            && (l.Millions? ==> l.scaled * 1000000.0 == v)
            && (l.Thousands? ==> l.scaled * 1000.0 == v)
            && (l.Plain? ==> l.v == v)
            && (WrittenWhole(l) <==> v < 1000.0 && IsIntegral(v))
  {
  }

  /** One axis tick: its value, pixel row and label. */
  datatype Tick = Tick(value: real, y: real, caption: Label)

  /** The number of intervals between ticks (so there are TickCount + 1 ticks). */
  const TickCount: nat := 5

  /** Tick i of the loop: value nicedMax/5 * i at its pixel row. */
  function TickAt(nicedMax: real, innerHeight: real, i: nat): Tick
    requires nicedMax > 0.0
  {
    var value := (nicedMax / TickCount as real) * i as real;
    Tick(value, ValueToY(value, nicedMax, innerHeight), FormatValue(value))
  }

  /** The six ticks from 0 to nicedMax. */
  function Ticks(nicedMax: real, innerHeight: real): (ticks: seq<Tick>)
    requires nicedMax > 0.0
    ensures |ticks| == TickCount + 1
  {
    seq(TickCount + 1, i requires 0 <= i <= TickCount => TickAt(nicedMax, innerHeight, i))
  }

  /** The tick loop shared by the column and line charts. */
  method BuildTicks(nicedMax: real, innerHeight: real) returns (ticks: seq<Tick>)
    requires nicedMax > 0.0
    ensures ticks == Ticks(nicedMax, innerHeight)
  {
    ticks := [];
    for i := 0 to TickCount + 1
      invariant ticks == Ticks(nicedMax, innerHeight)[..i]
    {
      var tick := TickAt(nicedMax, innerHeight, i);
      ticks := ticks + [tick];
    }
  }

  /** Where tick i lies: value nicedMax*i/5, i fifths of the height above the baseline. */
  lemma TickPosition(nicedMax: real, innerHeight: real, i: nat)
    requires nicedMax > 0.0
    ensures TickAt(nicedMax, innerHeight, i).value == nicedMax * (i as real) / 5.0
    ensures TickAt(nicedMax, innerHeight, i).y == PaddingTop + innerHeight * (5.0 - i as real) / 5.0
  {
    TickArith(nicedMax, innerHeight, i as real);
  }

  lemma TickArith(n: real, h: real, r: real)
    requires n > 0.0
    ensures (n / 5.0) * r == n * r / 5.0
    ensures (((n / 5.0) * r) / n) * h == h - h * (5.0 - r) / 5.0
  {
    assert ((n / 5.0) * r) / n == r / 5.0;
  }

  /** Tick i has value nicedMax*i/5 and sits i fifths of the inner height above
      the baseline: tick 0 is 0 on the baseline, tick 5 is nicedMax at the top. */
  lemma TicksEvenlySpaced(nicedMax: real, innerHeight: real)
    requires nicedMax > 0.0
    ensures var t := Ticks(nicedMax, innerHeight);
            forall i :: 0 <= i < |t| ==>
              t[i].value == nicedMax * (i as real) / 5.0 &&
              t[i].y == PaddingTop + innerHeight * (5.0 - i as real) / 5.0 &&
              t[i].caption == FormatValue(t[i].value)
    ensures var t := Ticks(nicedMax, innerHeight);
            t[0].value == 0.0 && t[0].y == PaddingTop + innerHeight &&
            t[5].value == nicedMax && t[5].y == PaddingTop
  {
    var t := Ticks(nicedMax, innerHeight);
    forall i | 0 <= i < |t|
      ensures t[i].value == nicedMax * (i as real) / 5.0
      ensures t[i].y == PaddingTop + innerHeight * (5.0 - i as real) / 5.0
    {
      TickPosition(nicedMax, innerHeight, i);
    }
    TickPosition(nicedMax, innerHeight, 5);
  }

  /** On a plot of positive height the ticks climb strictly: a larger value
      gets a larger tick and a smaller pixel row. */
  lemma TicksStrictlyOrdered(nicedMax: real, innerHeight: real, i: nat, j: nat)
    requires nicedMax > 0.0 && innerHeight > 0.0
    requires i < j <= TickCount
    ensures var t := Ticks(nicedMax, innerHeight);
            t[i].value < t[j].value && t[i].y > t[j].y
  {
    var t := Ticks(nicedMax, innerHeight);
    var ti, tj := t[i], t[j];
    TickPosition(nicedMax, innerHeight, i);
    TickPosition(nicedMax, innerHeight, j);
    OrderedPositions(ti.value, tj.value, ti.y, tj.y, nicedMax, innerHeight, i as real, j as real);
  }

  lemma OrderedPositions(vi: real, vj: real, yi: real, yj: real, n: real, h: real, a: real, b: real)
    requires n > 0.0 && h > 0.0 && a < b
    requires vi == n * a / 5.0 && vj == n * b / 5.0
    requires yi == PaddingTop + h * (5.0 - a) / 5.0 && yj == PaddingTop + h * (5.0 - b) / 5.0
    ensures vi < vj && yi > yj
  {
    MulMono(a, b, n);
    MulMono(5.0 - b, 5.0 - a, h);
  }
}
