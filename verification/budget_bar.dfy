/**
 The progress meters of the client: a capped percentage shared by the
 budget bar and the goal card, and the budget bar's colour tiers, amount
 colour, remaining amount and category label
 (`src/components/BudgetProgressBar.tsx`).
 */
module Meter {

  /** `Math.min(part / whole * 100, 100)`: the share of `whole` that `part` is, in
      percent, never above 100. */
  function ClampedPercent(part: int, whole: int): (p: real)
    requires whole > 0
    ensures p <= 100.0
    ensures p == 100.0 <==> part >= whole
    ensures part < whole ==> p * whole as real == part as real * 100.0
    ensures part >= 0 ==> p >= 0.0
  {
    var raw := (part as real / whole as real) * 100.0;
    RawPercent(part, whole);
    if raw < 100.0 then raw else 100.0
  }

  lemma RawPercent(part: int, whole: int)
    requires whole > 0
    ensures (part as real / whole as real) * 100.0 * whole as real == part as real * 100.0
    ensures (part as real / whole as real) * 100.0 < 100.0 <==> part < whole
    ensures part >= 0 ==> (part as real / whole as real) * 100.0 >= 0.0
  {
    var q := part as real / whole as real;
    assert q * whole as real == part as real;
    if part < whole {
      assert q * whole as real < 1.0 * whole as real;
    } else {
      assert q * whole as real >= 1.0 * whole as real;
    }
  }

  /** Comparing the capped percentage with a threshold below 100 is comparing
      `100 * part` with `threshold * whole`, in whole numbers. */
  lemma {:induction false} AboveThreshold(part: int, whole: int, threshold: int)
    requires whole > 0
    requires 0 <= threshold < 100
    ensures ClampedPercent(part, whole) > threshold as real <==> 100 * part > threshold * whole
  {
    var p := ClampedPercent(part, whole);
    if part < whole {
      assert p * whole as real == part as real * 100.0;
      if p > threshold as real {
        assert p * whole as real > threshold as real * whole as real;
      } else {
        assert p * whole as real <= threshold as real * whole as real;
      }
    } else {
      assert 100 * part >= 100 * whole;
    }
  }
}

module BudgetBar {
  import opened Models
  import opened Meter
  import opened Text

  datatype Tier = Primary | Accent | Destructive

  /** How alarming a tier is; a larger number is more severe. */
  function Severity(t: Tier): nat
  {
    match t
    case Primary => 0
    case Accent => 1
    case Destructive => 2
  }

  /** The `percentUsed` of a bar. */
  function PercentUsed(spent: int, limit: int): real
    requires limit > 0
  {
    ClampedPercent(spent, limit)
  }

  /** `getProgressColor`: over 90 percent is destructive, over 75 accent, else primary. */
  function ProgressColor(spent: int, limit: int): Tier
    requires limit > 0
  {
    var p := PercentUsed(spent, limit);
    if p > 90.0 then Destructive
    else if p > 75.0 then Accent
    else Primary
  }

  /** The CSS class each tier paints the bar with. */
  function TierClass(t: Tier): string
  {
    match t
    case Destructive => "bg-destructive"
    case Accent => "bg-accent"
    case Primary => "bg-primary"
  }

  /** The tiers in whole numbers: destructive above nine tenths of the limit,
      accent above three quarters up to nine tenths, primary up to three quarters. */
  lemma {:induction false} TierBands(spent: int, limit: int)
    requires limit > 0
    ensures ProgressColor(spent, limit) == Destructive <==> 10 * spent > 9 * limit
    ensures ProgressColor(spent, limit) == Accent <==> 4 * spent > 3 * limit && 10 * spent <= 9 * limit
    ensures ProgressColor(spent, limit) == Primary <==> 4 * spent <= 3 * limit
  {
    AboveThreshold(spent, limit, 90);
    AboveThreshold(spent, limit, 75);
  }

  /** With the limit fixed, spending more never makes the bar less alarming. */
  lemma {:induction false} TierMonotone(spent: int, more: int, limit: int)
    requires limit > 0
    requires spent <= more
    ensures Severity(ProgressColor(spent, limit)) <= Severity(ProgressColor(more, limit))
  {
    TierBands(spent, limit);
    TierBands(more, limit);
  }

  /** The colour of the "spent / limit" text. */
  function AmountTone(spent: int, limit: int): string
    requires limit > 0
  {
    if PercentUsed(spent, limit) > 90.0 then "text-destructive" else "text-muted-foreground"
  }

  /** The amount text turns destructive exactly when the bar does. */
  lemma AmountToneMatchesBar(spent: int, limit: int)
    requires limit > 0
    ensures AmountTone(spent, limit) == "text-destructive" <==> TierClass(ProgressColor(spent, limit)) == "bg-destructive"
    ensures AmountTone(spent, limit) == "text-muted-foreground" <==> TierClass(ProgressColor(spent, limit)) != "bg-destructive"
  {
  }

  /** The amount shown as remaining; it is not capped at zero. */
  function Remaining(spent: int, limit: int): (r: int)
    ensures r < 0 <==> spent > limit
    ensures r == 0 <==> spent == limit
  {
    limit - spent
  }

  /** An overspent budget shows a full bar and a negative remaining amount. */
  lemma OverspentBar(spent: int, limit: int)
    requires limit > 0
    requires spent > limit
    ensures PercentUsed(spent, limit) == 100.0
    ensures ProgressColor(spent, limit) == Destructive
    ensures Remaining(spent, limit) < 0
  {
  }

  /** The label under the icon: the category with its first underscore made a space. */
  function Label(category: Category): (s: string)
    ensures |s| == |category|
    ensures '_' !in category ==> s == category
  {
    ReplaceFirst(category, '_', ' ')
  }
}
