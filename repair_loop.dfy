/** `validateTerraform`: the bounded validate-and-repair loop over the two
    Terraform documents of one application. Each iteration runs `terraform
    init`, then `terraform validate`; a failing check sends one repair prompt
    to the generator, whose answer overwrites one or both documents. The two
    checks and the generator are oracles indexed by the iteration number. */
module RepairLoop {
  import opened Wrappers
  import opened GoStrings

  const MaxIterations := 10

  /** The markers the init-repair prompt asks the generator to put before each document. */
  const MainMarker := "### MAIN.TF ###"
  const VariablesMarker := "### VARIABLES.TF ###"

  /** The contents of main.tf and variables.tf in the scratch directory. */
  datatype Documents = Documents(mainTf: string, variablesTf: string)

  /** The outcome of one external check: success, or failure with its combined output. */
  datatype Check = Passed | Failed(output: string)

  /** What the generation client returns for one prompt. */
  datatype Reply = Reply(text: string) | CallFailed(error: string)

  /** The two repair prompts, by what they embed: the init repair shows both
      documents and the init output, the validation repair only main.tf and
      the validation output. */
  datatype RepairPrompt =
    | FixInit(mainTf: string, variablesTf: string, initOutput: string)
    | FixValidation(mainTf: string, validateOutput: string)

  /** The external world of the loop: `terraform init` and `terraform validate`
      on the documents of iteration i, and the generator's answer to the
      repair prompt of iteration i. */
  datatype Oracle = Oracle(
    init: (nat, Documents) -> Check,
    validate: (nat, Documents) -> Check,
    repair: (nat, RepairPrompt) -> Reply)

  datatype ValidateError =
    | RepairCallFailed(error: string)
    | MalformedInitRepair
    | MaxIterationsExceeded

  /** Reading an init-repair answer: it must hold exactly one variables marker;
      main.tf is the text before it without a leading main marker, variables.tf
      the text after it (neither is trimmed). */
  function ApplyInitRepair(text: string): Option<Documents>
  {
    var parts := Split(text, VariablesMarker);
    if |parts| != 2 then None
    else Some(Documents(TrimPrefix(parts[0], MainMarker), parts[1]))
  }

  /** What `ApplyInitRepair` accepts and what it yields: the answer is accepted
      exactly when it holds the variables marker once, and is then the main
      document (optionally after the main marker), the marker, and the
      variables document. */
  lemma InitRepairFormat(text: string)
    ensures ApplyInitRepair(text).Some? <==>
      Index(text, VariablesMarker) >= 0 && !Contains(text[Index(text, VariablesMarker) + |VariablesMarker|..], VariablesMarker)
    ensures var r := ApplyInitRepair(text); r.Some? ==>
      || text == r.value.mainTf + VariablesMarker + r.value.variablesTf
      || text == MainMarker + r.value.mainTf + VariablesMarker + r.value.variablesTf
    ensures var r := ApplyInitRepair(text); r.Some? ==> !Contains(r.value.variablesTf, VariablesMarker)
  {
    var parts := Split(text, VariablesMarker);
    SplitInTwo(text, VariablesMarker);
    if |parts| == 2 {
      var main := TrimPrefix(parts[0], MainMarker);
      assert HasPrefix(parts[0], MainMarker) ==> text == MainMarker + main + VariablesMarker + parts[1];
    }
  }

  /** What one iteration does: stop with the result, or continue with new documents. */
  datatype Step = Next(docs: Documents) | Stop(result: Result<string, ValidateError>)

  /** One iteration of the loop on documents `d`. */
  function Iteration(o: Oracle, i: nat, d: Documents): (s: Step)
    ensures s == Stop(Success(d.mainTf)) <==> o.init(i, d) == Passed && o.validate(i, d) == Passed
    ensures s.Stop? && s.result.Success? ==> s.result.value == d.mainTf
    ensures s.Next? && o.init(i, d).Failed? ==>
      var reply := o.repair(i, FixInit(d.mainTf, d.variablesTf, o.init(i, d).output));
      reply.Reply? && ApplyInitRepair(reply.text) == Some(s.docs)
    ensures s.Next? && o.init(i, d) == Passed ==>
      var reply := o.repair(i, FixValidation(d.mainTf, o.validate(i, d).output));
      reply.Reply? && s.docs == Documents(reply.text, d.variablesTf)
    ensures o.init(i, d).Failed? ==>
      var reply := o.repair(i, FixInit(d.mainTf, d.variablesTf, o.init(i, d).output));
      && (reply.CallFailed? ==> s == Stop(Failure(RepairCallFailed(reply.error))))
      && (reply.Reply? && ApplyInitRepair(reply.text).None? ==> s == Stop(Failure(MalformedInitRepair)))
      && (reply.Reply? && ApplyInitRepair(reply.text).Some? ==> s == Next(ApplyInitRepair(reply.text).value))
    ensures o.init(i, d) == Passed && o.validate(i, d).Failed? ==>
      var reply := o.repair(i, FixValidation(d.mainTf, o.validate(i, d).output));
      && (reply.CallFailed? ==> s == Stop(Failure(RepairCallFailed(reply.error))))
      && (reply.Reply? ==> s == Next(Documents(reply.text, d.variablesTf)))
    ensures s.Stop? && s.result.Failure? ==>
      || s.result.error.RepairCallFailed?
      || (s.result.error == MalformedInitRepair && o.init(i, d).Failed?)
  {
    match o.init(i, d)
    case Failed(initOutput) =>
      (match o.repair(i, FixInit(d.mainTf, d.variablesTf, initOutput))
       case CallFailed(e) => Stop(Failure(RepairCallFailed(e)))
       case Reply(text) =>
         match ApplyInitRepair(text)
         case None => Stop(Failure(MalformedInitRepair))
         case Some(repaired) => Next(repaired))
    case Passed =>
      match o.validate(i, d)
      case Passed => Stop(Success(d.mainTf))
      case Failed(validateOutput) =>
        match o.repair(i, FixValidation(d.mainTf, validateOutput))
        case CallFailed(e) => Stop(Failure(RepairCallFailed(e)))
        case Reply(text) => Next(Documents(text, d.variablesTf))
  }

  /** The result of the loop, how many iterations ran, how many repair prompts
      were sent, and the documents of the last iteration. */
  datatype Outcome = Outcome(
    result: Result<string, ValidateError>,
    iterations: nat,
    repairCalls: nat,
    last: Documents)

  /** The loop from iteration `i` on documents `d`, `calls` repair prompts sent so far. */
  function Run(o: Oracle, i: nat, d: Documents, calls: nat): Outcome
    requires i <= MaxIterations
    decreases MaxIterations - i
  {
    if i == MaxIterations then Outcome(Failure(MaxIterationsExceeded), i, calls, d)
    else
      match Iteration(o, i, d)
      case Stop(res) => Outcome(res, i + 1, if res.Success? then calls else calls + 1, d)
      case Next(repaired) => Run(o, i + 1, repaired, calls + 1)
  }

  /** `validateTerraform`, with the ghost accounting of iterations and repair prompts. */
  method ValidateTerraform(originalMain: string, originalVariables: string, o: Oracle)
    returns (result: Result<string, ValidateError>, ghost iterations: nat, ghost repairCalls: nat)
    ensures result == Run(o, 0, Documents(originalMain, originalVariables), 0).result
    ensures var r := Run(o, 0, Documents(originalMain, originalVariables), 0);
      iterations == r.iterations && repairCalls == r.repairCalls
  {
    ghost var start := Documents(originalMain, originalVariables);
    var mainTf, variablesTf := originalMain, originalVariables;
    var i := 0;
    ghost var calls := 0;
    while i < MaxIterations
      invariant 0 <= i <= MaxIterations
      invariant Run(o, 0, start, 0) == Run(o, i, Documents(mainTf, variablesTf), calls)
    {
      var initCheck := o.init(i, Documents(mainTf, variablesTf));
      if initCheck.Failed? {
        var reply := o.repair(i, FixInit(mainTf, variablesTf, initCheck.output));
        calls := calls + 1;
        if reply.CallFailed? {
          return Failure(RepairCallFailed(reply.error)), i + 1, calls;
        }
        var parts := Split(reply.text, VariablesMarker);
        if |parts| != 2 {
          return Failure(MalformedInitRepair), i + 1, calls;
        }
        mainTf := TrimPrefix(parts[0], MainMarker);
        variablesTf := parts[1];
        i := i + 1;
        continue;
      }
      var validateCheck := o.validate(i, Documents(mainTf, variablesTf));
      if validateCheck.Failed? {
        var reply := o.repair(i, FixValidation(mainTf, validateCheck.output));
        calls := calls + 1;
        if reply.CallFailed? {
          return Failure(RepairCallFailed(reply.error)), i + 1, calls;
        }
        mainTf := reply.text;
      } else {
        return Success(mainTf), i + 1, calls;
      }
      i := i + 1;
    }
    return Failure(MaxIterationsExceeded), i, calls;
  }

  /** At most `MaxIterations` iterations; every iteration sends exactly one repair
      prompt except a successful last one; running out of iterations is the only
      way to get `MaxIterationsExceeded`, and then all ten iterations ran. */
  lemma {:induction false} RunAccounting(o: Oracle, i: nat, d: Documents, calls: nat)
    requires i <= MaxIterations
    ensures var r := Run(o, i, d, calls);
      && i <= r.iterations <= MaxIterations
      && r.repairCalls == calls + (r.iterations - i) - (if r.result.Success? then 1 else 0)
      && (r.result == Failure(MaxIterationsExceeded) ==> r.iterations == MaxIterations)
    decreases MaxIterations - i
  {
    if i < MaxIterations {
      match Iteration(o, i, d)
      case Stop(res) =>
      case Next(repaired) => RunAccounting(o, i + 1, repaired, calls + 1);
    }
  }

  /** Only main.tf is returned: a success returns the main document of the last
      iteration, on which both checks passed. */
  lemma {:induction false} RunReturnsValidatedMain(o: Oracle, i: nat, d: Documents, calls: nat)
    requires i <= MaxIterations
    requires Run(o, i, d, calls).result.Success?
    ensures var r := Run(o, i, d, calls);
      && r.iterations >= 1
      && r.result.value == r.last.mainTf
      && o.init(r.iterations - 1, r.last) == Passed
      && o.validate(r.iterations - 1, r.last) == Passed
    decreases MaxIterations - i
  {
    assert i < MaxIterations;
    var s := Iteration(o, i, d);
    RunStep(o, i, d, calls);
    if s.Next? {
      RunReturnsValidatedMain(o, i + 1, s.docs, calls + 1);
    } else {
      assert s.result.Success?;
      assert s == Stop(Success(d.mainTf));
    }
  }

  /** One unfolding of `Run` at an iteration below the cap. */
  lemma RunStep(o: Oracle, i: nat, d: Documents, calls: nat)
    requires i < MaxIterations
    ensures var s := Iteration(o, i, d);
      && (s.Next? ==> Run(o, i, d, calls) == Run(o, i + 1, s.docs, calls + 1))
      && (s.Stop? ==> Run(o, i, d, calls) == Outcome(s.result, i + 1, if s.result.Success? then calls else calls + 1, d))
  {
  }

  /** Validation repairs leave variables.tf alone: when init never fails, the
      last documents carry the original variables.tf. */
  lemma {:induction false} VariablesKeptWithoutInitFailures(o: Oracle, i: nat, d: Documents, calls: nat)
    requires i <= MaxIterations
    requires forall j: nat, e: Documents :: o.init(j, e) == Passed
    ensures Run(o, i, d, calls).last.variablesTf == d.variablesTf
    decreases MaxIterations - i
  {
    if i < MaxIterations {
      match Iteration(o, i, d)
      case Stop(res) =>
      case Next(repaired) =>
        assert o.init(i, d) == Passed;
        VariablesKeptWithoutInitFailures(o, i + 1, repaired, calls + 1);
    }
  }

  /** With init passing and validation failing twice and then passing, exactly two
      repair prompts are sent and the answer to the second is returned. */
  lemma FailFailPass(o: Oracle, start: Documents)
    requires forall j: nat, e: Documents :: o.init(j, e) == Passed
    requires forall e: Documents :: o.validate(0, e).Failed? && o.validate(1, e).Failed? && o.validate(2, e) == Passed
    requires forall j: nat, p: RepairPrompt :: o.repair(j, p).Reply?
    ensures
      var d1 := Documents(o.repair(0, FixValidation(start.mainTf, o.validate(0, start).output)).text, start.variablesTf);
      var d2 := Documents(o.repair(1, FixValidation(d1.mainTf, o.validate(1, d1).output)).text, start.variablesTf);
      Run(o, 0, start, 0) == Outcome(Success(d2.mainTf), 3, 2, d2)
  {
    var d1 := Documents(o.repair(0, FixValidation(start.mainTf, o.validate(0, start).output)).text, start.variablesTf);
    var d2 := Documents(o.repair(1, FixValidation(d1.mainTf, o.validate(1, d1).output)).text, start.variablesTf);
    assert o.init(0, start) == Passed && o.init(1, d1) == Passed && o.init(2, d2) == Passed;
    assert Iteration(o, 0, start) == Next(d1);
    assert Iteration(o, 1, d1) == Next(d2);
    assert Iteration(o, 2, d2) == Stop(Success(d2.mainTf));
  }

  /** With init passing and validation always failing, all ten iterations run,
      each sends one repair prompt, and the loop fails. */
  lemma {:induction false} AlwaysInvalid(o: Oracle, i: nat, d: Documents, calls: nat)
    requires i <= MaxIterations
    requires forall j: nat, e: Documents :: o.init(j, e) == Passed
    requires forall j: nat, e: Documents :: o.validate(j, e).Failed?
    requires forall j: nat, p: RepairPrompt :: o.repair(j, p).Reply?
    ensures var r := Run(o, i, d, calls);
      r.result == Failure(MaxIterationsExceeded) && r.iterations == MaxIterations &&
      r.repairCalls == calls + (MaxIterations - i)
    decreases MaxIterations - i
  {
    if i < MaxIterations {
      assert o.init(i, d) == Passed && o.validate(i, d).Failed?;
      assert o.repair(i, FixValidation(d.mainTf, o.validate(i, d).output)).Reply?;
      match Iteration(o, i, d)
      case Stop(res) => assert false;
      case Next(repaired) => AlwaysInvalid(o, i + 1, repaired, calls + 1);
    }
  }
}
