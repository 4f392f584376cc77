/** The seam between the deep loop and whatever carries out a step, and the
    tool-call budget of a run (`step_executor.rs`). */
module StepExecutor {
  import opened Wrappers
  import opened Planning
  import opened CanonicalJson

  const PER_STEP_TOOL_CAP: nat := 6
  const TOOL_CALLS_PER_ITERATION: nat := 3

  datatype ExecuteStepRequest = ExecuteStepRequest(
    goal: string, step: PlanStep, context: Option<string>, priorOutputs: seq<Json>, maxToolCalls: nat)

  datatype StepExecution = StepExecution(body: Json, toolCallsUsed: nat)

  datatype StepExecutionError = Backend(message: string) | Internal(message: string)

  datatype ToolBudget = ToolBudget(total: nat, used: nat) {
    static function ForIterations(maxIterations: nat): ToolBudget {
      ToolBudget(SaturatingMul(maxIterations, TOOL_CALLS_PER_ITERATION), 0)
    }

    function Remaining(): nat {
      SaturatingSub(total, used)
    }

    function Grant(): nat {
      if PER_STEP_TOOL_CAP <= Remaining() then PER_STEP_TOOL_CAP else Remaining()
    }

    function Charge(granted: nat, reported: nat): ToolBudget {
      this.(used := SaturatingAdd(used, if reported <= granted then reported else granted))
    }

    // Never overdrawn, and the total fits the counter.
    ghost predicate Sound() {
      used <= total <= USIZE_MAX
    }
  }

  /** A sound budget grants six calls or whatever is left, and charged what it granted
      stays sound; an honest report is charged in full, so no saturation ever loses a call. */
  lemma ChargeWithinGrant(b: ToolBudget, reported: nat)
    requires b.Sound()
    ensures b.Charge(b.Grant(), reported).Sound()
    ensures b.Grant() == if b.total - b.used >= 6 then 6 else b.total - b.used
    ensures b.Charge(b.Grant(), reported).used == b.used + if reported <= b.Grant() then reported else b.Grant()
    ensures b.Charge(b.Grant(), reported).total == b.total
  {
  }

  /** A fresh budget is unused and holds three calls per iteration, or all the counter
      can hold if that is less. */
  lemma FreshBudget(maxIterations: nat)
    ensures var b := ToolBudget.ForIterations(maxIterations);
      && b.Sound() && b.used == 0
      && b.total == if 3 * maxIterations <= USIZE_MAX then 3 * maxIterations else USIZE_MAX
  {
  }
}
