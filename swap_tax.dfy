/**
 * Token-tax detection and slippage resolution on the Swap page
 * (`asPctGuess`, `useTokenTax`, `resolveAutoSlippage`, the slippage
 * resolution effect and `slippageErrorText`).
 *
 * Percentages are integers in hundredths of a percent (1% == 100, 50% ==
 * 5000), so a basis-point value and a hundredths value coincide. The
 * token contract reads are oracles: `None` for a call that reverted,
 * `Some(v)` for the value it returned.
 */
module SwapTax {
  import opened Common
  import opened Keyed
  import opened JsNumber

  /** 50% in hundredths: the ceiling of every detected tax and of every slippage. */
  const MaxPct: nat := 5000

  // ---------------------------------------------------------------------
  // `asPctGuess`: one raw contract value to a percentage.

  /**
   * With a positive denominator the value is the fraction `raw / denom`
   * (rounded up to a hundredth); without one the magnitude decides the
   * unit: up to 50 it is whole percent, up to 5000 hundredths, up to 10000
   * basis points; anything larger is no guess at all.
   */
  function AsPctGuess(raw: nat, denom: Option<nat>): (r: nat)
    ensures denom.Some? && denom.value > 0 ==>
      r * denom.value >= 10000 * raw && (r - 1) * denom.value < 10000 * raw
    ensures (denom.None? || denom.value == 0) && 0 < raw <= 50 ==> r == 100 * raw
    ensures (denom.None? || denom.value == 0) && 50 < raw <= 10000 ==> r == raw
    ensures (denom.None? || denom.value == 0) && (raw == 0 || raw > 10000) ==> r == 0
  {
    if denom.Some? && denom.value > 0 then CeilDiv(10000 * raw, denom.value)
    else if 0 < raw <= 50 then 100 * raw
    else if 50 < raw <= 5000 then raw
    else if 5000 < raw <= 10000 then raw
    else 0
  }

  function CeilDiv(a: nat, d: nat): (r: nat)
    requires d > 0
    ensures r * d >= a && (r - 1) * d < a
  {
    var q := (a + d - 1) / d;
    assert q * d <= a + d - 1 < q * d + d;
    q
  }

  /** A guess is positive exactly when the value is positive and some rule recognises it. */
  lemma AsPctGuessPositive(raw: nat, denom: Option<nat>)
    ensures AsPctGuess(raw, denom) > 0 <==> raw > 0 && ((denom.Some? && denom.value > 0) || raw <= 10000)
  {
  }

  /** The basis-point band reads as more than 50% before the detector clamps it. */
  lemma BasisPointBandExceedsCap(raw: nat)
    requires 5000 < raw <= 10000
    ensures AsPctGuess(raw, None) > MaxPct
  {
  }

  // ---------------------------------------------------------------------
  // `useTokenTax`: the denominator, the candidates and the verdict.

  /** The first read that answered a positive number, as the denominator loop's `break` leaves it. */
  function FirstPositive(vals: seq<Option<nat>>): (r: Option<nat>)
    ensures r.None? <==> forall i :: 0 <= i < |vals| ==> vals[i].None? || vals[i].value == 0
    ensures r.Some? ==> r.value > 0 && exists i :: 0 <= i < |vals| && vals[i] == r &&
                                              (forall j :: 0 <= j < i ==> vals[j].None? || vals[j].value == 0)
  {
    if |vals| == 0 then None
    else if vals[0].Some? && vals[0].value > 0 then
      assert vals[0] == Some(vals[0].value);
      vals[0]
    else
      var rest := FirstPositive(vals[1..]);
      FirstPositiveShift(vals, rest);
      rest
  }

  lemma FirstPositiveShift(vals: seq<Option<nat>>, rest: Option<nat>)
    requires |vals| > 0 && (vals[0].None? || vals[0].value == 0)
    requires rest.Some? ==> exists i :: 0 <= i < |vals[1..]| && vals[1..][i] == rest &&
                                         (forall j :: 0 <= j < i ==> vals[1..][j].None? || vals[1..][j].value == 0)
    ensures rest.Some? ==> exists i :: 0 <= i < |vals| && vals[i] == rest &&
                                        (forall j :: 0 <= j < i ==> vals[j].None? || vals[j].value == 0)
  {
    if rest.Some? {
      var k :| 0 <= k < |vals[1..]| && vals[1..][k] == rest &&
        forall j :: 0 <= j < k ==> vals[1..][j].None? || vals[1..][j].value == 0;
      assert vals[k + 1] == rest;
      assert forall j :: 1 <= j < k + 1 ==> vals[j] == vals[1..][j - 1];
    }
  }

  method FindDenominator(vals: seq<Option<nat>>) returns (denom: Option<nat>)
    ensures denom == FirstPositive(vals)
  {
    denom := None;
    var i := 0;
    while i < |vals|
      invariant 0 <= i <= |vals|
      invariant forall j :: 0 <= j < i ==> vals[j].None? || vals[j].value == 0
      invariant FirstPositive(vals) == FirstPositive(vals[i..])
    {
      assert vals[i..][1..] == vals[i + 1..];
      if vals[i].Some? && vals[i].value > 0 {
        denom := vals[i];
        return;
      }
      i := i + 1;
    }
  }

  /** The values read, in the order the hook reads them: the single reads, then every tuple member. */
  function Answers(singles: seq<Option<nat>>, tuples: seq<Option<seq<nat>>>): seq<nat>
  {
    Present(singles) + ConcatSome(tuples)
  }

  function Present(vals: seq<Option<nat>>): (r: seq<nat>)
    ensures |r| <= |vals|
  {
    if |vals| == 0 then []
    else Present(vals[..|vals| - 1]) + (if vals[|vals| - 1].Some? then [vals[|vals| - 1].value] else [])
  }

  /** The positive guesses, in order: the `candidates` array. */
  function Guesses(raws: seq<nat>, denom: Option<nat>): (r: seq<nat>)
    ensures |r| <= |raws|
    ensures forall i :: 0 <= i < |r| ==> r[i] > 0
  {
    if |raws| == 0 then []
    else
      var g := AsPctGuess(raws[|raws| - 1], denom);
      Guesses(raws[..|raws| - 1], denom) + (if g > 0 then [g] else [])
  }

  /** Every positive guess of a value read is a candidate, and every candidate is one. */
  lemma {:induction false} GuessesExactly(raws: seq<nat>, denom: Option<nat>)
    ensures forall i :: 0 <= i < |raws| && AsPctGuess(raws[i], denom) > 0 ==> AsPctGuess(raws[i], denom) in Guesses(raws, denom)
    ensures forall g :: g in Guesses(raws, denom) ==> exists i :: 0 <= i < |raws| && g == AsPctGuess(raws[i], denom)
  {
    if |raws| > 0 {
      var init := raws[..|raws| - 1];
      GuessesExactly(init, denom);
      forall i | 0 <= i < |init| ensures init[i] == raws[i] { }
    }
  }

  lemma GuessesSnoc(raws: seq<nat>, x: nat, denom: Option<nat>)
    ensures var g := AsPctGuess(x, denom);
      Guesses(raws + [x], denom) == Guesses(raws, denom) + (if g > 0 then [g] else [])
  {
    assert (raws + [x])[..|raws|] == raws;
  }

  lemma GuessesStep(seen: seq<nat>, arr: seq<nat>, j: nat, denom: Option<nat>)
    requires j < |arr|
    ensures var g := AsPctGuess(arr[j], denom);
      Guesses(seen + arr[..j + 1], denom) == Guesses(seen + arr[..j], denom) + (if g > 0 then [g] else [])
  {
    GuessesSnoc(seen + arr[..j], arr[j], denom);
    assert seen + arr[..j + 1] == seen + arr[..j] + [arr[j]];
  }

  /** The inner loop over one tuple's members. */
  method PushGuesses(cands: seq<nat>, ghost seen: seq<nat>, arr: seq<nat>, denom: Option<nat>) returns (r: seq<nat>)
    requires cands == Guesses(seen, denom)
    ensures r == Guesses(seen + arr, denom)
  {
    r := cands;
    assert seen + arr[..0] == seen;
    for j := 0 to |arr|
      invariant r == Guesses(seen + arr[..j], denom)
    {
      GuessesStep(seen, arr, j, denom);
      var n := AsPctGuess(arr[j], denom);
      if n > 0 { r := r + [n]; }
    }
    assert arr[..|arr|] == arr;
  }

  lemma PresentSnoc(vals: seq<Option<nat>>, i: nat)
    requires i < |vals|
    ensures Present(vals[..i + 1]) == Present(vals[..i]) + (if vals[i].Some? then [vals[i].value] else [])
  {
    assert vals[..i + 1][..i] == vals[..i];
  }

  method CollectSingles(singles: seq<Option<nat>>, denom: Option<nat>) returns (cands: seq<nat>)
    ensures cands == Guesses(Present(singles), denom)
  {
    cands := [];
    assert Present(singles[..0]) == [];
    for i := 0 to |singles|
      invariant cands == Guesses(Present(singles[..i]), denom)
    {
      PresentSnoc(singles, i);
      if singles[i].Some? {
        GuessesSnoc(Present(singles[..i]), singles[i].value, denom);
        var n := AsPctGuess(singles[i].value, denom);
        if n > 0 { cands := cands + [n]; }
      } else {
        assert Present(singles[..i + 1]) == Present(singles[..i]);
      }
    }
    assert singles[..|singles|] == singles;
  }

  method CollectCandidates(singles: seq<Option<nat>>, tuples: seq<Option<seq<nat>>>, denom: Option<nat>)
    returns (cands: seq<nat>)
    ensures cands == Guesses(Answers(singles, tuples), denom)
  {
    cands := CollectSingles(singles, denom);
    ghost var head := Present(singles);
    assert head + ConcatSome(tuples[..0]) == head;
    for i := 0 to |tuples|
      invariant cands == Guesses(head + ConcatSome(tuples[..i]), denom)
    {
      ConcatSomeSnoc(tuples, i);
      if tuples[i].Some? {
        cands := PushGuesses(cands, head + ConcatSome(tuples[..i]), tuples[i].value, denom);
        assert head + ConcatSome(tuples[..i + 1]) == head + ConcatSome(tuples[..i]) + tuples[i].value;
      } else {
        assert head + ConcatSome(tuples[..i + 1]) == head + ConcatSome(tuples[..i]);
      }
    }
    assert tuples[..|tuples|] == tuples;
  }

  function MaxOf(s: seq<nat>): (r: nat)
    ensures forall i :: 0 <= i < |s| ==> s[i] <= r
    ensures |s| > 0 ==> r in s
    ensures |s| == 0 ==> r == 0
  {
    if |s| == 0 then 0
    else
      var m := MaxOf(s[..|s| - 1]);
      assert forall i :: 0 <= i < |s| - 1 ==> s[..|s| - 1][i] == s[i];
      if s[|s| - 1] > m then s[|s| - 1] else
        assert |s| > 1 ==> m in s[..|s| - 1];
        m
  }

  /** `candidates.length ? clamp(max(0, ...candidates)) : null` */
  function Verdict(cands: seq<nat>): Option<nat>
  {
    if |cands| == 0 then None else Some(Min(MaxPct, MaxOf(cands)))
  }

  /**
   * The tax the hook settles on for one token: nothing for a missing client,
   * a missing token or the zero address, else the verdict over the vals.
   */
  function TokenTax(
    hasClient: bool, token: Option<string>, denomReads: seq<Option<nat>>,
    singles: seq<Option<nat>>, tuples: seq<Option<seq<nat>>>): Option<nat>
  {
    if !hasClient || token.None? || token.value == "" || token.value == ZeroAddress then None
    else Verdict(Guesses(Answers(singles, tuples), FirstPositive(denomReads)))
  }

  method DetectTax(
    hasClient: bool, token: Option<string>, denomReads: seq<Option<nat>>,
    singles: seq<Option<nat>>, tuples: seq<Option<seq<nat>>>) returns (pct: Option<nat>)
    ensures pct == TokenTax(hasClient, token, denomReads, singles, tuples)
  {
    if !hasClient || token.None? || token.value == "" || token.value == ZeroAddress {
      return None;
    }
    var denom := FindDenominator(denomReads);
    var cands := CollectCandidates(singles, tuples, denom);
    if |cands| == 0 {
      return None;
    }
    pct := Some(Min(MaxPct, MaxOf(cands)));
  }

  /**
   * A detected tax is reported exactly when some value read gives a
   * positive guess; it is then positive, at most 50%, at least every guess
   * (cut at 50%), and equal to one of them unless the cut applied.
   */
  lemma TokenTaxMeaning(
    token: string, denomReads: seq<Option<nat>>,
    singles: seq<Option<nat>>, tuples: seq<Option<seq<nat>>>)
    requires token != "" && token != ZeroAddress
    ensures var raws := Answers(singles, tuples);
      var d := FirstPositive(denomReads);
      var t := TokenTax(true, Some(token), denomReads, singles, tuples);
      && (t.Some? <==> exists i :: 0 <= i < |raws| && AsPctGuess(raws[i], d) > 0)
      && (t.Some? ==> 0 < t.value <= MaxPct)
      && (t.Some? ==> forall i :: 0 <= i < |raws| ==> Min(MaxPct, AsPctGuess(raws[i], d)) <= t.value)
      && (t.Some? && t.value < MaxPct ==> exists i :: 0 <= i < |raws| && AsPctGuess(raws[i], d) == t.value)
  {
    VerdictMeaning(Answers(singles, tuples), FirstPositive(denomReads));
  }

  /** The verdict over the guesses of the value reads `raws`, as `TokenTaxMeaning` states it. */
  lemma VerdictMeaning(raws: seq<nat>, d: Option<nat>)
    ensures var t := Verdict(Guesses(raws, d));
      && (t.Some? <==> exists i :: 0 <= i < |raws| && AsPctGuess(raws[i], d) > 0)
      && (t.Some? ==> 0 < t.value <= MaxPct)
      && (t.Some? ==> forall i :: 0 <= i < |raws| ==> Min(MaxPct, AsPctGuess(raws[i], d)) <= t.value)
      && (t.Some? && t.value < MaxPct ==> exists i :: 0 <= i < |raws| && AsPctGuess(raws[i], d) == t.value)
  {
    var g := Guesses(raws, d);
    GuessesExactly(raws, d);
    if |g| > 0 {
      assert g[0] in g;
      var m := MaxOf(g);
      assert m in g;
      forall i | 0 <= i < |raws| ensures Min(MaxPct, AsPctGuess(raws[i], d)) <= Min(MaxPct, m) {
        if AsPctGuess(raws[i], d) > 0 {
          var k :| 0 <= k < |g| && g[k] == AsPctGuess(raws[i], d);
        }
      }
    }
  }

  /** No token, the zero address or no client: no tax. */
  lemma TokenTaxGuards(
    hasClient: bool, token: Option<string>, denomReads: seq<Option<nat>>,
    singles: seq<Option<nat>>, tuples: seq<Option<seq<nat>>>)
    requires !hasClient || token.None? || token == Some("") || token == Some(ZeroAddress)
    ensures TokenTax(hasClient, token, denomReads, singles, tuples).None?
  {
  }

  /** `detectedTaxPct`: the larger of the two sides, a missing side counting as 0. */
  function DetectedTax(inTax: Option<nat>, outTax: Option<nat>): (r: nat)
    ensures r >= OptionOr(inTax, 0) && r >= OptionOr(outTax, 0)
    ensures r == OptionOr(inTax, 0) || r == OptionOr(outTax, 0)
  {
    Max(OptionOr(inTax, 0), OptionOr(outTax, 0))
  }

  // ---------------------------------------------------------------------
  // Auto slippage.

  datatype AutoSlip = Safe(pct: int) | Blind

  /** `resolveAutoSlippage`: a positive tax gives a safe tolerance equal to it (cut at 50%), otherwise blind. */
  function ResolveAutoSlippage(detected: int): (r: AutoSlip)
    ensures r.Safe? <==> detected > 0
    ensures r.Safe? ==> 0 < r.pct <= MaxPct && r.pct == Min(detected, MaxPct)
  {
    if detected > 0 then Safe(Clamp(detected, 0, MaxPct)) else Blind
  }

  predicate AutoSlipInRange(a: AutoSlip) { a.Safe? ==> 0 <= a.pct <= MaxPct }

  datatype SlipMode = Auto | Fixed | Custom

  /**
   * The tolerance the resolution effect computes: auto takes the safe
   * value or 0, fixed the clamped setting, and custom re-clamps whatever
   * was resolved before (the custom value is not read here).
   */
  function EffectPct(mode: SlipMode, slippage: int, auto: AutoSlip, prev: int): (r: int)
  {
    match mode
    case Auto => if auto.Safe? then auto.pct else 0
    case Fixed => Clamp(slippage, 0, MaxPct)
    case Custom => Clamp(prev, 0, MaxPct)
  }

  lemma EffectPctInRange(mode: SlipMode, slippage: int, auto: AutoSlip, prev: int)
    requires AutoSlipInRange(auto)
    ensures 0 <= EffectPct(mode, slippage, auto, prev) <= MaxPct
    ensures mode == Auto && auto.Blind? ==> EffectPct(mode, slippage, auto, prev) == 0
    ensures mode == Custom && 0 <= prev <= MaxPct ==> EffectPct(mode, slippage, auto, prev) == prev
  {
  }

  /** The resolved tolerance and its basis points, as the Swap page keeps them. */
  class SlippageState {
    var resolvedPct: int
    var resolvedBps: int

    ghost predicate Valid()
      reads this
    {
      0 <= resolvedPct <= MaxPct && resolvedBps == resolvedPct
    }

    /** 1% and 100 bps before the effect first runs. */
    constructor()
      ensures Valid() && resolvedPct == 100 && resolvedBps == 100
    {
      resolvedPct := 100;
      resolvedBps := 100;
    }

    /** One run of the resolution effect; `bps = round(pct * 100)` is the hundredths value itself. */
    method Resolve(mode: SlipMode, slippage: int, auto: AutoSlip)
      requires AutoSlipInRange(auto)
      modifies this
      ensures resolvedPct == EffectPct(mode, slippage, auto, old(resolvedPct))
      ensures resolvedBps == resolvedPct
      ensures Valid()
    {
      var pct := resolvedPct;
      if mode == Auto {
        pct := if auto.Safe? then auto.pct else 0;
      } else if mode == Fixed {
        pct := Clamp(slippage, 0, MaxPct);
      } else {
        pct := Clamp(resolvedPct, 0, MaxPct);
      }
      var bps := pct;
      if pct != resolvedPct { resolvedPct := pct; }
      if bps != resolvedBps { resolvedBps := bps; }
      EffectPctInRange(mode, slippage, auto, old(resolvedPct));
    }
  }

  /** Running the effect again with the same inputs changes nothing. */
  lemma EffectPctSettles(mode: SlipMode, slippage: int, auto: AutoSlip, prev: int)
    requires AutoSlipInRange(auto)
    ensures var p := EffectPct(mode, slippage, auto, prev);
      EffectPct(mode, slippage, auto, p) == p
  {
    EffectPctInRange(mode, slippage, auto, prev);
  }

  // ---------------------------------------------------------------------
  // `slippageErrorText`.

  const SLIPPAGE_OUT_OF_BOUNDS := "Slippage out of bounds (0%–50%)."

  function TaxTooHighText(needed: nat): string
  {
    "Slippage too small for token tax " + Fixed2(needed) + "%."
  }

  /**
   * No message for a wrap or unwrap and for blind auto; otherwise an
   * out-of-range tolerance, or (outside auto) one below the larger detected
   * tax, is reported.
   */
  function SlippageErrorText(isWrapCase: bool, mode: SlipMode, auto: AutoSlip, pct: int, inTax: Option<nat>, outTax: Option<nat>): (r: Option<string>)
    ensures r.None? <==> (isWrapCase || (mode == Auto && auto.Blind?) ||
                          (0 <= pct <= MaxPct && (mode == Auto || pct >= DetectedTax(inTax, outTax))))
    ensures r.Some? && !(0 <= pct <= MaxPct) ==> r.value == SLIPPAGE_OUT_OF_BOUNDS
    ensures r.Some? && 0 <= pct <= MaxPct ==> mode != Auto && r.value == TaxTooHighText(DetectedTax(inTax, outTax))
  {
    if isWrapCase then None
    else if mode == Auto && auto.Blind? then None
    else if !(0 <= pct <= MaxPct) then Some(SLIPPAGE_OUT_OF_BOUNDS)
    else if mode != Auto && pct < DetectedTax(inTax, outTax) then Some(TaxTooHighText(DetectedTax(inTax, outTax)))
    else None
  }

  /** In auto mode the resolved tolerance never trips the tax message, and after `Resolve` it is never out of range. */
  lemma AutoNeverTooSmall(auto: AutoSlip, slippage: int, prev: int, inTax: Option<nat>, outTax: Option<nat>)
    requires AutoSlipInRange(auto)
    ensures SlippageErrorText(false, Auto, auto, EffectPct(Auto, slippage, auto, prev), inTax, outTax).None?
  {
  }

  /** The auto tolerance on a detected tax covers that tax whenever it is within 50%. */
  lemma AutoCoversTax(inTax: Option<nat>, outTax: Option<nat>, slippage: int, prev: int)
    requires DetectedTax(inTax, outTax) <= MaxPct
    ensures var auto := ResolveAutoSlippage(DetectedTax(inTax, outTax));
      EffectPct(Auto, slippage, auto, prev) == DetectedTax(inTax, outTax)
  {
  }
}
