/**
 * The swap settings dialog: slippage mode and tolerance, transaction
 * deadline, gas preset, expert mode and the multihop switch. The dialog
 * edits a draft of the settings, resets it to the caller's values whenever
 * it is open, and on Confirm hands the draft back together with the
 * tolerance it resolves to.
 *
 * Percentages are counted in hundredths of a percent (1% is 100), so a
 * tolerance in percent with two decimals is an integer and its basis points
 * are the same integer. `None` stands for `NaN`, which the slippage field
 * can hold after text that is no number.
 */
module SettingsModal {
  import opened Common
  import opened JsNumber
  import opened SwapTax

  datatype GasPreset = DefaultGas | Standard | Fast | Instant

  datatype Settings = Settings(slippageMode: SlipMode, slippage: Option<int>, deadlineMin: int,
                               expertMode: bool, disableMultihops: bool, gasPreset: GasPreset)

  /** What `onApply` receives. */
  datatype Applied = Applied(settings: Settings, resolvedSlippagePct: Option<int>, resolvedSlippageBps: Option<int>)

  /** The callbacks Confirm makes, in order. */
  datatype Call = Apply(value: Applied) | Close

  /** The floor of the auto tolerance, 0.1%. */
  const AUTO_FLOOR: int := 10
  /** The auto tolerance when no preview is given, 1%. */
  const AUTO_DEFAULT: int := 100

  /** `clampPct`: into 0%..50%; `NaN` stays `NaN`. */
  function ClampPct(v: Option<int>): (r: Option<int>)
    ensures r.None? <==> v.None?
    ensures r.Some? ==> 0 <= r.value <= MaxPct
    ensures v.Some? && 0 <= v.value <= MaxPct ==> r == v
    ensures v.Some? && v.value < 0 ==> r == Some(0)
    ensures v.Some? && v.value > MaxPct ==> r == Some(MaxPct)
  {
    if v.None? then None else Some(Clamp(v.value, 0, MaxPct))
  }

  /** `resolvedPct`: auto takes the preview, at least 0.1% and 1% when absent; fixed and custom take the field. */
  function ResolvedPct(mode: SlipMode, slip: Option<int>, autoPreview: Option<int>): (r: Option<int>)
    ensures r.Some? ==> 0 <= r.value <= MaxPct
    ensures mode == Auto ==> r.Some? && AUTO_FLOOR <= r.value
    ensures mode == Auto && autoPreview.None? ==> r == Some(AUTO_DEFAULT)
    ensures mode == Auto && autoPreview.Some? && AUTO_FLOOR <= autoPreview.value <= MaxPct ==> r == autoPreview
    ensures mode != Auto ==> r == ClampPct(slip)
  {
    if mode == Auto then ClampPct(Some(Max(AUTO_FLOOR, OptionOr(autoPreview, AUTO_DEFAULT))))
    else ClampPct(slip)
  }

  /**
   * The slippage field's `onChange`: empty text reads as `"0"`, the first
   * comma becomes a decimal point, and the number is clamped to 0..50 and
   * rounded to two decimals. Clamping at 50 before rounding and capping the
   * rounded value at 50.00 agree, since 50 has two decimals.
   */
  function SlippageInput(text: string): (r: Option<int>)
    ensures r.Some? ==> 0 <= r.value <= MaxPct
  {
    var s := if text == "" then "0" else text;
    PctOfNumber(Number(ReplaceFirst(s, ',', '.')))
  }

  /** A parsed tolerance rounded to hundredths, with negatives at 0 and the cap at 50%. */
  function PctOfNumber(n: Option<Decimal>): (r: Option<int>)
    ensures r.None? <==> n.None?
    ensures r.Some? ==> 0 <= r.value <= MaxPct
    ensures n.Some? && !n.value.neg && Hundredths(n.value) <= MaxPct ==> r == Some(Hundredths(n.value))
  {
    match n
    case None => None
    case Some(d) => Some(if d.neg then 0 else Min(MaxPct, Hundredths(d)))
  }

  /** The deadline field's `onChange`: `Math.max(1, Math.floor(Number(v) || 0))`. */
  function DeadlineInput(text: string): (r: int)
    ensures r >= 1
    ensures Number(text).None? || Number(text).value.neg ==> r == 1
  {
    var n := Number(text);
    Max(1, if n.None? then 0 else Floor(n.value))
  }

  class Dialog {
    var mode: SlipMode
    var slip: Option<int>
    var ddl: int
    var exp: bool
    var noHop: bool
    var preset: GasPreset

    function Draft(): Settings
      reads this
    {
      Settings(mode, slip, ddl, exp, noHop, preset)
    }

    /** The draft starts from the caller's values. */
    constructor(initial: Settings)
      ensures Draft() == initial
    {
      mode := initial.slippageMode;
      slip := initial.slippage;
      ddl := initial.deadlineMin;
      exp := initial.expertMode;
      noHop := initial.disableMultihops;
      preset := initial.gasPreset;
    }

    /** The effect on `open` and `initial`: while open, every field is reset to `initial`. */
    method Sync(open: bool, initial: Settings)
      modifies this
      ensures open ==> Draft() == initial
      ensures !open ==> Draft() == old(Draft())
    {
      if !open {
        return;
      }
      mode := initial.slippageMode;
      slip := initial.slippage;
      ddl := initial.deadlineMin;
      exp := initial.expertMode;
      noHop := initial.disableMultihops;
      preset := initial.gasPreset;
    }

    method ChooseMode(m: SlipMode)
      modifies this
      ensures Draft() == old(Draft()).(slippageMode := m)
    {
      mode := m;
    }

    method EditSlippage(text: string)
      modifies this
      ensures Draft() == old(Draft()).(slippage := SlippageInput(text))
      ensures slip.Some? ==> 0 <= slip.value <= MaxPct
    {
      slip := SlippageInput(text);
    }

    method EditDeadline(text: string)
      modifies this
      ensures Draft() == old(Draft()).(deadlineMin := DeadlineInput(text))
      ensures ddl >= 1
    {
      ddl := DeadlineInput(text);
    }

    method ChoosePreset(p: GasPreset)
      modifies this
      ensures Draft() == old(Draft()).(gasPreset := p)
    {
      preset := p;
    }

    method ToggleExpert(on: bool)
      modifies this
      ensures Draft() == old(Draft()).(expertMode := on)
    {
      exp := on;
    }

    /**
     * Confirm: `onApply` with the draft (the tolerance rounded to two
     * decimals, which it already is) and the resolved tolerance in percent
     * and in basis points, then `onClose`.
     */
    method Confirm(autoPreview: Option<int>) returns (calls: seq<Call>)
      ensures |calls| == 2 && calls[0].Apply? && calls[1] == Close
      ensures calls[0].value.settings == Draft()
      ensures calls[0].value.resolvedSlippagePct == ResolvedPct(mode, slip, autoPreview)
      ensures calls[0].value.resolvedSlippageBps == calls[0].value.resolvedSlippagePct
    {
      var pct := ResolvedPct(mode, slip, autoPreview);
      calls := [Apply(Applied(Draft(), pct, pct)), Close];
    }
  }

  // ---------------------------------------------------------------------
  // Properties.

  /**
   * The dialog's auto tolerance never drops below 0.1%, while the swap form,
   * for auto without a detected tax, settles on 0.
   */
  lemma AutoFloorDiffersFromSwap(slip: Option<int>, swapSlippage: int, prev: int)
    ensures ResolvedPct(Auto, slip, Some(0)) == Some(AUTO_FLOOR)
    ensures EffectPct(Auto, swapSlippage, Blind, prev) == 0
  {
  }

  /** Typing back a tolerance shown with two decimals gives that tolerance. */
  lemma SlippageInputOfFixed2(h: nat)
    requires h <= MaxPct
    ensures SlippageInput(Fixed2(h)) == Some(h)
  {
    var s := Fixed2(h);
    assert ',' !in NatToString(h / 100);
    assert ',' !in s;
    NumberOfFixed2(h);
  }

  /** A decimal comma reads like a decimal point. */
  lemma SlippageInputComma(a: string, b: string)
    requires ',' !in a && ',' !in b
    ensures SlippageInput(a + [','] + b) == SlippageInput(a + ['.'] + b)
  {
    var t, u := a + [','] + b, a + ['.'] + b;
    SplitAtFirst(a, ',', b);
    assert ReplaceFirst(t, ',', '.') == u;
    assert ',' !in u;
    assert ReplaceFirst(u, ',', '.') == u;
    assert t != "" && u != "";
  }

  /** Empty text is 0%. */
  lemma SlippageInputEmpty()
    ensures SlippageInput("") == Some(0)
  {
    var z := NatToString(0);
    assert z == "0";
    assert ReplaceFirst(z, ',', '.') == z;
    NumberOfNatToString(0);
    var d := Decimal(false, 0, "");
    assert Number(z) == Some(d);
    assert Hundredths(d) == 0 by { assert DigitAt("", 0) == 0 && DigitAt("", 1) == 0; }
    SlippageInputOfNumber("0", d);
  }

  /** Text without a comma reads as its `Number`, rounded to hundredths and capped. */
  lemma SlippageInputOfNumber(text: string, d: Decimal)
    requires text != "" && ',' !in text && Number(text) == Some(d)
    ensures SlippageInput(text) == Some(if d.neg then 0 else Min(MaxPct, Hundredths(d)))
  {
    assert ReplaceFirst(text, ',', '.') == text;
  }

  /** A whole number above 50 is 50%. */
  lemma SlippageInputAboveCap(w: nat)
    requires w > 50
    ensures SlippageInput(NatToString(w)) == Some(MaxPct)
  {
    NumberOfNatToString(w);
    assert ',' !in NatToString(w);
  }

  /** A whole number of minutes is kept, and zero or less becomes 1. */
  lemma DeadlineInputOfNatToString(n: nat)
    ensures DeadlineInput(NatToString(n)) == Max(1, n)
  {
    NumberOfNatToString(n);
  }
}
