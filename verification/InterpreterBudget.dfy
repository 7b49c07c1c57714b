/**
 The budget decides only whether a run is cut short: with a larger one the same run goes on, and it is cut short
 exactly when it would need more steps than the smaller one has.
 */
module InterpreterBudget {
  import opened Domain
  import opened Interpreter
  import Semantics
  import SemanticsTheorem

  /** The same machine with at least the same budget. */
  ghost predicate Larger(k: Machine, more: Machine) { more == k.(maxSteps := more.maxSteps) && k.maxSteps <= more.maxSteps }

  /** What a run does with a larger budget. */
  ghost predicate Extends<T>(k: Machine, r: Run<T>, longer: Run<T>) {
    if r.result == Err(StepLimit) then longer.memory.steps > k.maxSteps else longer == r
  }

  /** A larger budget: the run is the same unless this one is too small, and then it takes more steps. */
  lemma ExecExtends(k: Machine, more: Machine, stmts: seq<Stmt>, m: Memory)
    requires Larger(k, more) && !Spent(k, m)
    ensures Extends(k, Exec(k, stmts, m), Exec(more, stmts, m))
  {
    var r, longer := Exec(k, stmts, m), Exec(more, stmts, m);
    assert Fair(more, m, longer);
    hide Exec, Within, Semantics.Means;
    SemanticsTheorem.MeaningIsRun(k, stmts, m, r);
    SemanticsTheorem.MeaningIsRun(more, stmts, m, r);
    SemanticsTheorem.MeaningIsRun(more, stmts, m, longer);
    SemanticsTheorem.MeaningIsRun(k, stmts, m, longer);
  }

  /**
   The budget is exact. Of a run that ends within some larger budget, this one is cut short if and only if that run
   takes more steps than this budget has; otherwise the two are the same, to the last effect.
   */
  lemma BudgetIsExact(k: Machine, more: Machine, program: seq<Stmt>, m: Memory)
    requires Larger(k, more) && !Spent(k, m) && RunOutcome(more, program, m) != Stopped(StepLimit)
    ensures RunOutcome(k, program, m) == Stopped(StepLimit) <==> Exec(more, program, m).memory.steps > k.maxSteps
    ensures RunOutcome(k, program, m) != Stopped(StepLimit) ==> Exec(k, program, m) == Exec(more, program, m)
  {
    ExecExtends(k, more, program, m);
    hide Exec;
  }

  /** A run from a fresh memory ends with the limit error exactly when it spent its budget, and did nothing beyond it. */
  lemma NothingBeyondTheBudget(k: Machine, program: seq<Stmt>, environment: map<string, Value>)
    ensures var r := Exec(k, program, Memory(environment, [], 0));
            && (RunOutcome(k, program, Memory(environment, [], 0)) == Stopped(StepLimit) <==> r.memory.steps > k.maxSteps)
            && forall i :: 0 <= i < |r.memory.log| ==> r.memory.log[i].at <= k.maxSteps
  {
    hide Exec;
    assert Within(k, Memory(environment, [], 0));
    assert Fair(k, Memory(environment, [], 0), Exec(k, program, Memory(environment, [], 0)));
  }
}
