/**
 * The four-step contract wizard of src/shared/pages/contracts/ContractCreatePage.tsx:
 * the `step` state, the `canAdvance` rule, the clamped Back/Next buttons and
 * the progress bar.
 */
module ContractCreate {

  /** `type Step = 1 | 2 | 3 | 4` */
  type Step = s: int | 1 <= s <= 4 witness 1

  const LastStep: Step := 4

  /** The watched form values, as the inputs hold them (an unset field reads as ""). */
  datatype FormValues = FormValues(propertyId: string, tenantId: string, startDate: string, endDate: string,
                                   monthlyRent: string, depositAmount: string)

  /**
   * `canAdvance`: step 1 needs a property, step 2 a tenant, step 3 both dates,
   * the rent and the deposit; the confirmation step never advances.
   */
  function CanAdvance(step: Step, v: FormValues): (r: bool)
    ensures step == 1 ==> (r <==> v.propertyId != "")
    ensures step == 2 ==> (r <==> v.tenantId != "")
    ensures step == 3 ==> (r <==> v.startDate != "" && v.endDate != "" && v.monthlyRent != "" && v.depositAmount != "")
    ensures r ==> step < LastStep
  {
    if step == 1 && v.propertyId != "" then true
    else if step == 2 && v.tenantId != "" then true
    else if step == 3 && v.startDate != "" && v.endDate != "" && v.monthlyRent != "" && v.depositAmount != "" then true
    else false
  }

  /** Back is disabled on the first step. */
  predicate BackEnabled(step: Step)
  {
    step != 1
  }

  /** Next is shown before the last step (submit replaces it there) and enabled when `canAdvance`. */
  predicate NextEnabled(step: Step, v: FormValues)
  {
    step < LastStep && CanAdvance(step, v)
  }

  function Max(a: int, b: int): int { if a >= b then a else b }

  function Min(a: int, b: int): int { if a <= b then a else b }

  /** A click on one of the two navigation buttons. */
  datatype Click = Back | Next(values: FormValues)

  /**
   * The step after a click: `max(1, step - 1)` and `min(4, step + 1)`; a click
   * on a disabled (or absent) button does nothing.
   */
  function AfterClick(step: Step, c: Click): Step
  {
    match c
    case Back => if BackEnabled(step) then Max(1, step - 1) else step
    case Next(v) => if NextEnabled(step, v) then Min(4, step + 1) else step
  }

  /** The step after a sequence of clicks. */
  function AfterClicks(step: Step, cs: seq<Click>): Step
    decreases |cs|
  {
    if cs == [] then step else AfterClicks(AfterClick(step, cs[0]), cs[1..])
  }

  /** Each click moves at most one step, and forward only when the current step's fields are filled. */
  lemma ClickMovesOneStep(step: Step, c: Click)
    ensures var s := AfterClick(step, c);
            && (s == step || s == step - 1 || s == step + 1)
            && (s == step + 1 ==> c.Next? && CanAdvance(step, c.values))
  {
  }

  /**
   * As long as no property is chosen, no sequence of clicks leaves the first
   * step: the later steps are reachable only through step 1's rule.
   */
  lemma {:induction false} NoPropertyStaysOnFirstStep(cs: seq<Click>)
    requires forall i :: 0 <= i < |cs| && cs[i].Next? ==> cs[i].values.propertyId == ""
    ensures AfterClicks(1, cs) == 1
    decreases |cs|
  {
    if cs != [] {
      assert AfterClick(1, cs[0]) == 1;
      NoPropertyStaysOnFirstStep(cs[1..]);
    }
  }

  /** The step can only reach the last one after passing through every earlier step. */
  lemma {:induction false} ReachingStepPassesEarlier(step: Step, cs: seq<Click>, target: Step)
    requires step <= target <= AfterClicks(step, cs)
    ensures exists k :: 0 <= k <= |cs| && AfterClicks(step, cs[..k]) == target
    decreases |cs|
  {
    if step == target {
      assert cs[..0] == [];
    } else {
      var next := AfterClick(step, cs[0]);
      ClickMovesOneStep(step, cs[0]);
      ReachingStepPassesEarlier(next, cs[1..], target);
      var k :| 0 <= k <= |cs[1..]| && AfterClicks(next, cs[1..][..k]) == target;
      assert cs[..k + 1] == [cs[0]] + cs[1..][..k];
    }
  }

  /** The progress bar: circle `s` is lit when `step >= s`, the connector after it when `step > s`. */
  datatype Progress = Progress(circles: seq<bool>, connectors: seq<bool>)

  function ProgressBar(step: Step): (p: Progress)
    ensures |p.circles| == 4 && |p.connectors| == 3
    ensures forall i :: 0 <= i < 4 ==> (p.circles[i] <==> i < step)
    ensures forall i :: 0 <= i < 3 ==> (p.connectors[i] <==> p.circles[i] && p.circles[i + 1])
  {
    Progress(seq(4, i => step >= i + 1), seq(3, i => step > i + 1))
  }

  class ContractWizard {
    var step: Step

    /** `useState<Step>(1)` */
    constructor ()
      ensures step == 1
    {
      step := 1;
    }

    /** The Back button. */
    method ClickBack()
      modifies this
      ensures step == AfterClick(old(step), Back)
    {
      if step != 1 {
        step := Max(1, step - 1);
      }
    }

    /** The Next button, with the form values watched at the time of the click. */
    method ClickNext(v: FormValues)
      modifies this
      ensures step == AfterClick(old(step), Next(v))
    {
      if step < 4 && CanAdvance(step, v) {
        step := Min(4, step + 1);
      }
    }
  }
}
