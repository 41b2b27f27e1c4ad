/**
 * The BMI calculator section: the form and its submit handler, the colours
 * and gradients of the result, the health tips, the result bar and the
 * ideal-weight range.
 */
module BmiCalculator {
  import opened Optional
  import opened State
  import opened Reducer
  import opened Provider

  /** A number input: empty, or holding a number. */
  datatype Field = Blank | Entered(value: real)

  predicate IsWhole(x: real) {
    x.Floor as real == x
  }

  /**
   * The browser's constraint validation of the form, which must pass before
   * the submit handler runs: both inputs required, height 100 to 250 in whole
   * centimetres, weight 30 to 300 in steps of 0.1 kg.
   */
  predicate FormAccepts(height: Field, weight: Field) {
    && height.Entered? && 100.0 <= height.value <= 250.0 && IsWhole(height.value - 100.0)
    && weight.Entered? && 30.0 <= weight.value <= 300.0 && IsWhole((weight.value - 30.0) * 10.0)
  }

  /** handleCalculate's guard `height && weight`: both inputs non-empty. */
  function CalculateAction(height: Field, weight: Field): (r: Option<Action>)
    ensures r.Some? <==> height.Entered? && weight.Entered?
    ensures r.Some? ==> r.value.UpdateBmi? && r.value.height == height.value && r.value.weight == weight.value
  {
    if height.Entered? && weight.Entered? then Some(UpdateBmi(height.value, weight.value)) else None
  }

  /** Every form the browser lets through reaches the reducer with a non-zero height. */
  lemma AcceptedFormIsAdmissible(height: Field, weight: Field)
    requires FormAccepts(height, weight)
    ensures CalculateAction(height, weight).Some? && Admissible(CalculateAction(height, weight).value)
  {
  }

  /** The guard alone would let a zero height through; the inputs' minimum is what keeps it out. */
  lemma GuardAloneAdmitsZeroHeight()
    ensures CalculateAction(Entered(0.0), Entered(70.0)).Some?
    ensures !Admissible(CalculateAction(Entered(0.0), Entered(70.0)).value)
    ensures !FormAccepts(Entered(0.0), Entered(70.0))
  {
  }

  /** `useState(state.bmi.height || '')`: a stored zero shows as an empty input. */
  function InitialField(v: real): (f: Field)
    ensures f.Blank? <==> v == 0.0
    ensures f.Entered? ==> f.value == v
  {
    if v == 0.0 then Blank else Entered(v)
  }

  /** After a calculation the form reopens with the numbers that were submitted. */
  lemma MeasurementReopens(s: AppState, height: Field, weight: Field, now: nat)
    requires FormAccepts(height, weight)
    ensures var b := Apply(s, CalculateAction(height, weight).value, now).bmi;
      InitialField(b.height) == height && InitialField(b.weight) == weight
  {
  }

  datatype Color = White | Blue | Green | Yellow | Red

  /** getBMIColor: a missing or zero value is white, otherwise the colour of its band. */
  function BmiColor(bmi: Option<real>): Color {
    if bmi.None? || bmi.value == 0.0 then White
    else if bmi.value < 18.5 then Blue
    else if bmi.value < 25.0 then Green
    else if bmi.value < 30.0 then Yellow
    else Red
  }

  /** The colour that goes with each category. */
  function CategoryColor(c: BmiCategory): Color {
    match c
    case Underweight => Blue
    case Normal => Green
    case Overweight => Yellow
    case Obese => Red
  }

  /** On one and the same non-zero value, the colour is the colour of the value's category. */
  lemma ColorFollowsCategory(v: real)
    requires v != 0.0
    ensures BmiColor(Some(v)) == CategoryColor(Classify(v))
  {
  }

  /** The colour of the result line as written: getBMIColor on the rounded, stored result. */
  function DisplayedColor(b: Bmi): Color {
    BmiColor(b.result)
  }

  /**
   * 200 cm and 99.9 kg (a form the browser accepts): the BMI is 24.975,
   * Normal, but the stored result rounds to 25.0, so "Normal" is shown in the
   * Overweight colour.
   */
  lemma DisplayedColorDisagrees(s: AppState, now: nat)
    ensures FormAccepts(Entered(200.0), Entered(99.9))
    ensures var b := Apply(s, UpdateBmi(200.0, 99.9), now).bmi;
      && b.result == Some(25.0) && b.category == Some(Normal)
      && DisplayedColor(b) == Yellow && CategoryColor(b.category.value) == Green
  {
    assert BmiValue(200.0, 99.9) == 24.975;
    assert (24.975 * 10.0 + 0.5).Floor == 250;
  }

  /** The colour as intended: taken from the category that is displayed. */
  function ResultColor(b: Bmi): (c: Color)
    ensures b.category.None? ==> c == White
  {
    if b.category.Some? then CategoryColor(b.category.value) else White
  }

  /**
   * Every measurement shows its category in that category's colour, which is
   * getBMIColor of the unrounded value.
   */
  lemma ResultColorMatchesCategory(s: AppState, h: real, w: real, now: nat)
    requires h != 0.0
    ensures var b := Apply(s, UpdateBmi(h, w), now).bmi;
      && b.category.Some? && ResultColor(b) == CategoryColor(b.category.value)
      && (BmiValue(h, w) != 0.0 ==> ResultColor(b) == BmiColor(Some(BmiValue(h, w))))
  {
  }

  /** Away from the tenth below each boundary, the displayed colour already agrees with the category. */
  lemma DisplayedColorAgreesAwayFromBoundaries(s: AppState, h: real, w: real, now: nat)
    requires h != 0.0
    requires var v := BmiValue(h, w);
      v >= 0.05 && !(18.45 <= v < 18.5) && !(24.95 <= v < 25.0) && !(29.95 <= v < 30.0)
    ensures var b := Apply(s, UpdateBmi(h, w), now).bmi;
      DisplayedColor(b) == ResultColor(b)
  {
    var v := BmiValue(h, w);
    var r := RoundTenth(v);
    assert r == ((v * 10.0 + 0.5).Floor as real) / 10.0;
    if v < 18.45 {
      assert (v * 10.0 + 0.5).Floor <= 184;
    } else if 18.5 <= v < 24.95 {
      assert 185 <= (v * 10.0 + 0.5).Floor <= 249;
    } else if 25.0 <= v < 29.95 {
      assert 250 <= (v * 10.0 + 0.5).Floor <= 299;
    } else if 30.0 <= v {
      assert 300 <= (v * 10.0 + 0.5).Floor;
    }
  }

  datatype Gradient = BlueCyan | GreenEmerald | YellowOrange | RedPink | Gray

  /** getBMIGradient: one gradient per category, grey without one. */
  function GradientFor(c: Option<BmiCategory>): Gradient {
    match c
    case Some(Underweight) => BlueCyan
    case Some(Normal) => GreenEmerald
    case Some(Overweight) => YellowOrange
    case Some(Obese) => RedPink
    case None => Gray
  }

  /** Different categories never share a gradient. */
  lemma GradientsDistinct(c: Option<BmiCategory>, d: Option<BmiCategory>)
    ensures GradientFor(c) == GradientFor(d) <==> c == d
  {
  }

  datatype TipSet = TipSet(category: BmiCategory, tips: seq<string>)

  const HealthTips: seq<TipSet> := [
    TipSet(Underweight, ["Eat more frequent, smaller meals", "Add healthy fats to your diet",
                         "Include protein-rich foods", "Consult a nutritionist"]),
    TipSet(Normal, ["Maintain your current lifestyle", "Stay active with regular exercise",
                    "Eat a balanced diet", "Monitor your weight regularly"]),
    TipSet(Overweight, ["Increase physical activity", "Reduce portion sizes",
                        "Choose whole foods", "Stay hydrated"]),
    TipSet(Obese, ["Consult a healthcare provider", "Start with light exercise",
                   "Focus on nutrition", "Set realistic goals"])
  ]

  /** `table.find(tip => tip.category === category)?.tips || []` */
  function FindTips(table: seq<TipSet>, c: Option<BmiCategory>): (r: seq<string>)
    ensures c.None? ==> r == []
    ensures r != [] ==> exists k :: 0 <= k < |table| && table[k].category == c.value && table[k].tips == r
  {
    if table == [] || c.None? then []
    else if table[0].category == c.value then table[0].tips
    else FindTips(table[1..], c)
  }

  function CurrentTips(c: Option<BmiCategory>): seq<string> {
    FindTips(HealthTips, c)
  }

  /** The table lists each category once, in order, so every category shows its own four tips. */
  lemma TipsPerCategory(c: BmiCategory)
    ensures var k := match c case Underweight => 0 case Normal => 1 case Overweight => 2 case Obese => 3;
      CurrentTips(Some(c)) == HealthTips[k].tips && HealthTips[k].category == c
    ensures |CurrentTips(Some(c))| == 4
    ensures CurrentTips(None) == []
  {
  }

  /** The result bar's width in percent: BMI 35 and above fill it. */
  function BarWidth(result: real): (r: real)
    ensures r <= 100.0
    ensures r == 100.0 <==> result >= 35.0
  {
    var x := result / 35.0 * 100.0;
    if x < 100.0 then x else 100.0
  }

  /** A larger BMI never gives a shorter bar. */
  lemma BarWidthMonotone(a: real, b: real)
    requires a <= b
    ensures BarWidth(a) <= BarWidth(b)
  {
  }

  /** `Math.round` on exact reals: the nearest integer, halves rounded up. */
  function JsRound(x: real): (r: int)
    ensures x - 0.5 < r as real <= x + 0.5
  {
    (x + 0.5).Floor
  }

  /** The ideal-weight range for a height: the rounded weights at BMI 18.5 and 24.9; none for an empty input. */
  function IdealRange(height: Field): Option<(int, int)> {
    if height.Blank? then None
    else
      var m := height.value / 100.0;
      Some((JsRound(18.5 * (m * m)), JsRound(24.9 * (m * m))))
  }

  /** The lighter end of the range never exceeds the heavier one. */
  lemma IdealRangeOrdered(h: real)
    ensures var r := IdealRange(Entered(h)).value; r.0 <= r.1
  {
    var m := h / 100.0;
    assert m * m >= 0.0;
    assert 18.5 * (m * m) <= 24.9 * (m * m);
  }

  /** 170 cm: 53.465 kg to 71.961 kg, shown as 53 - 72 kg; an empty input shows no range. */
  lemma IdealRangeExample()
    ensures IdealRange(Entered(170.0)) == Some((53, 72))
    ensures IdealRange(Blank) == None
  {
    assert 18.5 * (1.7 * 1.7) + 0.5 == 53.965;
    assert 24.9 * (1.7 * 1.7) + 0.5 == 72.461;
  }

  /** The calculator section with its form fields. */
  class Calculator {
    const store: Store
    var height: Field
    var weight: Field
    var showResult: bool

    constructor (store: Store)
      ensures this.store == store && !showResult
      ensures height == InitialField(store.state.bmi.height) && weight == InitialField(store.state.bmi.weight)
    {
      this.store := store;
      height := InitialField(store.state.bmi.height);
      weight := InitialField(store.state.bmi.weight);
      showResult := false;
    }

    method SetHeight(f: Field)
      modifies this`height
      ensures height == f
    {
      height := f;
    }

    method SetWeight(f: Field)
      modifies this`weight
      ensures weight == f
    {
      weight := f;
    }

    /** handleCalculate, reached only through a form the browser accepted. */
    method Calculate(now: nat)
      requires store.Synced() && FormAccepts(height, weight)
      modifies this`showResult, store
      ensures store.state == Apply(old(store.state), UpdateBmi(height.value, weight.value), now)
      ensures showResult
      ensures store.Synced()
      ensures store.state.bmi.result.Some? && store.state.bmi.category.Some?
      ensures ResultVisible() <==> store.state.bmi.result.value != 0.0
    {
      var a := CalculateAction(height, weight);
      if a.Some? {
        store.Dispatch(a.value, now);
        showResult := true;
      }
    }

    /** The "calculate again" button. */
    method CloseResult()
      modifies this`showResult
      ensures !showResult && !ResultVisible()
    {
      showResult := false;
    }

    /** The result card shows while asked for and while the result and category are present and truthy. */
    predicate ResultVisible()
      reads this, store
    {
      showResult && store.state.bmi.result.Some? && store.state.bmi.result.value != 0.0
      && store.state.bmi.category.Some?
    }
  }
}
