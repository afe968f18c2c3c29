/**
 * RecipeDetailView: the "partner mode" walkthrough generated from a recipe
 * (a preparation step, one step per instruction, a serving step) and the
 * plain-text version of it that the share button hands to the platform.
 */
module RecipeDetailView {
  import opened Wrappers
  import opened Text
  import opened Arith
  import opened Types

  const PrepTitle := "\U{1F52A} Prep Your Ingredients"
  const FinalTitle := "\U{2728} Plate & Serve"
  const FinalDescription := "Plate your dish beautifully and serve immediately for best results."
  const PrepTips: seq<string> := ["Read through ALL steps before starting",
                                  "Measure everything out (mise en place)",
                                  "Set out all your tools"]
  const FinalTips: seq<string> := ["Taste and adjust seasoning if needed",
                                   "Garnish if desired",
                                   "Enjoy your creation!"]

  /** How many ingredients the preparation step names. */
  const PreviewLength := 5

  /** The first five ingredients, comma separated, with "..." when some were left out. */
  function IngredientPreview(ingredients: seq<string>): (p: string)
    ensures |ingredients| <= PreviewLength ==> p == Join(ingredients, ", ")
    ensures |ingredients| > PreviewLength ==> p == Join(ingredients[..PreviewLength], ", ") + "..."
  {
    var k := if |ingredients| < PreviewLength then |ingredients| else PreviewLength;
    assert |ingredients| <= PreviewLength ==> ingredients[..k] == ingredients;
    Join(ingredients[..k], ", ") + (if |ingredients| > PreviewLength then "..." else "")
  }

  function PrepStep(recipe: Recipe): PartnerModeStep {
    PartnerModeStep("prep", 1, PrepTitle,
                    "Gather all ingredients: " + IngredientPreview(recipe.ingredients),
                    Some(5), PrepTips)
  }

  /** The step for instruction `idx`; every instruction gets an equal share of the cooking time, rounded up. */
  function InstructionStep(recipe: Recipe, idx: nat): PartnerModeStep
    requires idx < |recipe.instructions|
  {
    PartnerModeStep("step-" + NatToString(idx), idx + 2, "Step " + NatToString(idx + 2),
                    recipe.instructions[idx],
                    Some(CeilDiv(recipe.cookTime, |recipe.instructions|)), [])
  }

  function FinalStep(stepNumber: int): PartnerModeStep {
    PartnerModeStep("final", stepNumber, FinalTitle, FinalDescription, None, FinalTips)
  }

  /**
   * generatePartnerModeSteps: pushes the preparation step, then one step per
   * instruction, then the serving step numbered after all the others.
   */
  method GenerateSteps(recipe: Recipe) returns (steps: seq<PartnerModeStep>)
    ensures |steps| == |recipe.instructions| + 2
    ensures steps[0] == PrepStep(recipe)
    ensures forall i :: 0 <= i < |recipe.instructions| ==> steps[i + 1] == InstructionStep(recipe, i)
    ensures steps[|steps| - 1] == FinalStep(|steps|)
    ensures forall i :: 0 <= i < |steps| ==> steps[i].stepNumber == i + 1
  {
    var n := |recipe.instructions|;
    steps := [PrepStep(recipe)];
    var idx := 0;
    while idx < n
      invariant 0 <= idx <= n
      invariant |steps| == idx + 1
      invariant steps[0] == PrepStep(recipe)
      invariant forall i :: 0 <= i < idx ==> steps[i + 1] == InstructionStep(recipe, i)
      invariant forall i :: 0 <= i < |steps| ==> steps[i].stepNumber == i + 1
    {
      steps := steps + [InstructionStep(recipe, idx)];
      idx := idx + 1;
    }
    steps := steps + [FinalStep(|steps| + 1)];
  }

  /** Each piece of a joined list occurs in the joined text. */
  lemma {:induction false} JoinContainsPart(parts: seq<string>, sep: string, i: nat)
    requires i < |parts|
    ensures Contains(Join(parts, sep), parts[i])
  {
    var r := Join(parts, sep);
    if |parts| == 1 {
      assert StartsWith(r[0..], parts[0]);
    } else if i == 0 {
      assert r == parts[0] + (sep + Join(parts[1..], sep));
      assert StartsWith(r[0..], parts[0]);
    } else {
      var tail := Join(parts[1..], sep);
      JoinContainsPart(parts[1..], sep, i - 1);
      var j :| 0 <= j <= |tail| && StartsWith(tail[j..], parts[i]);
      var off := |parts[0] + sep|;
      assert r == (parts[0] + sep) + tail;
      assert r[off + j..] == tail[j..];
      assert StartsWith(r[off + j..], parts[i]);
    }
  }

  /** The preview names every one of the first five ingredients. */
  lemma PreviewNamesIngredients(ingredients: seq<string>, i: nat)
    requires i < |ingredients| && i < PreviewLength
    ensures Contains(IngredientPreview(ingredients), ingredients[i])
  {
    var k := if |ingredients| < PreviewLength then |ingredients| else PreviewLength;
    var joined := Join(ingredients[..k], ", ");
    JoinContainsPart(ingredients[..k], ", ", i);
    var j :| 0 <= j <= |joined| && StartsWith(joined[j..], ingredients[i]);
    var all := joined + (if |ingredients| > PreviewLength then "..." else "");
    assert all[j..][..|ingredients[i]|] == joined[j..][..|ingredients[i]|];
    assert StartsWith(all[j..], ingredients[i]);
  }

  /**
   * Only the first five ingredients matter: two lists that both run past five
   * and agree on their first five give the same preview.
   */
  lemma PreviewCutAfterFive(xs: seq<string>, ys: seq<string>)
    requires |xs| > PreviewLength && |ys| > PreviewLength && xs[..PreviewLength] == ys[..PreviewLength]
    ensures IngredientPreview(xs) == IngredientPreview(ys)
  {
  }

  /**
   * The instruction steps' durations cover the whole cooking time, and
   * rounding adds less than one minute per step.
   */
  lemma DurationsCoverCookTime(recipe: Recipe)
    requires |recipe.instructions| > 0
    ensures var n := |recipe.instructions|;
      var d := InstructionStep(recipe, 0).duration.value;
      recipe.cookTime <= n * d < recipe.cookTime + n
  {
    var n := |recipe.instructions|;
    var d := CeilDiv(recipe.cookTime, n);
    assert (d - 1) * n == d * n - n;
  }

  /* ---------------------------------------------------------------------
   * The share text.
   * ------------------------------------------------------------------- */

  const TipMarker := "\n\U{1F4A1} "

  /** The line giving a step's duration, "⏱️ ~<minutes> min". */
  function DurationLine(minutes: int): string {
    "\n\U{23F1}\U{FE0F} ~" + IntToString(minutes) + " min"
  }

  /** The step's heading: "<number>. <title>", a line break, the description. */
  function StepHead(step: PartnerModeStep): string {
    IntToString(step.stepNumber) + ". " + step.title + "\n" + step.description
  }

  /** The step's tips, each on its own line after the tip marker. */
  function TipLines(tips: seq<string>): string {
    TipMarker + Join(tips, TipMarker)
  }

  /**
   * One step as text: the heading, then the tip lines when there are tips,
   * then the duration line when the duration is set and non-zero; tips come
   * straight after the heading and the duration closes the text.
   */
  function RenderStep(step: PartnerModeStep): (r: string)
    ensures StartsWith(r, StepHead(step))
    ensures step.tips != [] ==> StartsWith(r[|StepHead(step)|..], TipLines(step.tips))
    ensures step.tips != [] ==> forall k :: 0 <= k < |step.tips| ==> Contains(r, step.tips[k])
    ensures step.duration.Some? && step.duration.value != 0 ==>
      |DurationLine(step.duration.value)| <= |r| &&
      r[|r| - |DurationLine(step.duration.value)|..] == DurationLine(step.duration.value)
    ensures step.tips == [] && (step.duration.None? || step.duration.value == 0) ==> r == StepHead(step)
    ensures step.tips != [] && (step.duration.None? || step.duration.value == 0) ==>
      r == StepHead(step) + TipLines(step.tips)
    ensures step.tips == [] && step.duration.Some? && step.duration.value != 0 ==>
      r == StepHead(step) + DurationLine(step.duration.value)
    ensures step.tips != [] && step.duration.Some? && step.duration.value != 0 ==>
      r == StepHead(step) + TipLines(step.tips) + DurationLine(step.duration.value)
  {
    var head := StepHead(step);
    var tips := if |step.tips| > 0 then TipLines(step.tips) else "";
    var time := if step.duration.Some? && step.duration.value != 0 then DurationLine(step.duration.value) else "";
    ThreeParts(head, tips, time);
    if step.tips != [] then TipsShown(head, step.tips, time); head + tips + time
    else head + tips + time
  }

  /** Where each of three concatenated pieces sits in the result. */
  lemma ThreeParts(head: string, tips: string, time: string)
    ensures StartsWith(head + tips + time, head)
    ensures StartsWith((head + tips + time)[|head|..], tips)
    ensures (head + tips + time)[|head + tips + time| - |time|..] == time
  {
    var r := head + tips + time;
    assert r[..|head|] == head;
    assert r[|head|..][..|tips|] == tips;
  }

  /** Every tip appears in a text holding the tip lines. */
  lemma TipsShown(head: string, tips: seq<string>, time: string)
    requires tips != []
    ensures forall k :: 0 <= k < |tips| ==> Contains(head + TipLines(tips) + time, tips[k])
  {
    forall k | 0 <= k < |tips|
      ensures Contains(head + TipLines(tips) + time, tips[k])
    {
      JoinContainsPart(tips, TipMarker, k);
      ContainsShifts(Join(tips, TipMarker), head + TipMarker, time, tips[k]);
      assert head + TipMarker + Join(tips, TipMarker) + time == head + TipLines(tips) + time;
    }
  }

  /** The text handleShare shares: the recipe name, a blank line, the steps separated by blank lines. */
  function ShareText(name: string, steps: seq<PartnerModeStep>): (r: string)
    ensures StartsWith(r, name + "\n\n")
    ensures |steps| == 1 ==> r == name + "\n\n" + RenderStep(steps[0])
  {
    var r := name + "\n\n" + Join(RenderAll(steps), "\n\n");
    assert r[..|name + "\n\n"|] == name + "\n\n";
    r
  }

  function RenderAll(steps: seq<PartnerModeStep>): (r: seq<string>)
    ensures |r| == |steps| && forall i :: 0 <= i < |steps| ==> r[i] == RenderStep(steps[i])
  {
    seq(|steps|, i requires 0 <= i < |steps| => RenderStep(steps[i]))
  }

  lemma RenderAllSnoc(steps: seq<PartnerModeStep>, s: PartnerModeStep)
    ensures RenderAll(steps + [s]) == RenderAll(steps) + [RenderStep(s)]
  {
    var r := RenderAll(steps + [s]);
    assert forall i :: 0 <= i < |steps| ==> (steps + [s])[i] == steps[i];
    assert r[|steps|] == RenderStep(s);
  }

  /**
   * The steps are shared in order, separated by blank lines: one more step
   * appends a blank line and that step's text.
   */
  lemma ShareTextSnoc(name: string, steps: seq<PartnerModeStep>, s: PartnerModeStep)
    requires steps != []
    ensures ShareText(name, steps + [s]) == ShareText(name, steps) + "\n\n" + RenderStep(s)
  {
    RenderAllSnoc(steps, s);
    PrefixJoinSnoc(name + "\n\n", RenderAll(steps), RenderStep(s));
  }

  /** The share text's string step: one more part appends a blank line and the part. */
  lemma PrefixJoinSnoc(prefix: string, parts: seq<string>, p: string)
    requires parts != []
    ensures prefix + Join(parts + [p], "\n\n") == (prefix + Join(parts, "\n\n")) + "\n\n" + p
  {
    JoinSnoc(parts, "\n\n", p);
  }

  /** Every rendered step appears in the share text. */
  lemma ShareTextHasEveryStep(name: string, steps: seq<PartnerModeStep>, i: nat)
    requires i < |steps|
    ensures Contains(ShareText(name, steps), RenderStep(steps[i]))
  {
    var rendered := RenderAll(steps);
    var joined := Join(rendered, "\n\n");
    JoinContainsPart(rendered, "\n\n", i);
    var j :| 0 <= j <= |joined| && StartsWith(joined[j..], rendered[i]);
    var r := ShareText(name, steps);
    var off := |name + "\n\n"|;
    assert r == (name + "\n\n") + joined;
    assert r[off + j..] == joined[j..];
    assert StartsWith(r[off + j..], RenderStep(steps[i]));
  }
}
