/** The orchestration of a migration run: one Dockerfile per application, in
    order, then one Terraform configuration per distinct application name,
    generated in parallel and collected in completion order. The goroutines
    become a sequential loop whose order is an arbitrary choice among the
    applications not yet collected, so every property holds for every order. */
module MigrationAssets {
  import opened Wrappers
  import opened Sources
  import opened Migration
  import RepairLoop
  import Qovery

  /** The outside world of a run. Prompt wording, the JSON encoding of the
      configurations and the reference corpus (examples and provider
      documentation) are folded into the two prompt builders; `generate` is the
      Bedrock client's answer to a prompt; `workspace` is the
      `terraform init`/`validate` environment of an application's temporary
      directory, with the repair answers sent from it. */
  datatype Services = Services(
    dockerfilePrompt: map<string, Value> -> string,
    terraformPrompt: Value -> string,
    generate: string -> RepairLoop.Reply,
    workspace: string -> RepairLoop.Oracle)

  datatype AppFailure =
    | GenerationFailed(error: string)
    | ParseFailed(parseError: ParseError)
    | ValidationFailed(validateError: RepairLoop.ValidateError)

  /** The error of one application's goroutine, naming the application. */
  datatype AppError = AppError(appName: string, failure: AppFailure)

  /** What one goroutine sends on the result channel. */
  datatype AppResult = AppResult(terraform: GeneratedTerraform, err: Option<AppError>)

  datatype FanInError =
    | CorpusLoadFailed(message: string)
    | ParallelFailed(first: AppError)

  datatype Dockerfile = Dockerfile(appName: string, content: string)

  datatype Assets = Assets(
    readme: string,
    terraformFiles: seq<GeneratedTerraform>,
    dockerfiles: seq<Dockerfile>,
    costReport: string)

  datatype AssetsError =
    | DockerfileFailed(appName: string, error: string)
    | TerraformFailed(appName: string, cause: Option<FanInError>)
    | CostEstimationFailed(reason: FanInError)

  /** The validation loop's outcome for the documents parsed from a generated answer. */
  function Validation(s: Services, appName: string, parsed: TerraformPair): RepairLoop.Outcome
  {
    RepairLoop.Run(s.workspace(appName), 0, RepairLoop.Documents(parsed.mainTf, parsed.variablesTf), 0)
  }

  /** One goroutine of `generateTerraformFiles`: generate, parse, validate. A
      failure at any stage yields a record with the name and the prompt but no
      documents; a success records the validated main.tf next to the
      variables.tf as first parsed. */
  function AppTerraform(s: Services, appName: string, config: Value): (r: AppResult)
    ensures r.terraform.appName == appName && r.terraform.prompt == s.terraformPrompt(config)
    ensures r.err.Some? ==> r.err.value.appName == appName
    ensures r.err.Some? ==> r.terraform.mainTf == "" && r.terraform.variablesTf == ""
  {
    var prompt := s.terraformPrompt(config);
    var failed := GeneratedTerraform(appName, "", "", prompt);
    var reply := s.generate(prompt);
    if reply.CallFailed? then AppResult(failed, Some(AppError(appName, GenerationFailed(reply.error))))
    else
      match ParseTerraformResponse(reply.text)
      case Failure(e) => AppResult(failed, Some(AppError(appName, ParseFailed(e))))
      case Success(parsed) =>
        match Validation(s, appName, parsed).result
        case Failure(e) => AppResult(failed, Some(AppError(appName, ValidationFailed(e))))
        case Success(finalMain) =>
          AppResult(GeneratedTerraform(appName, finalMain, parsed.variablesTf, prompt), None)
  }

  /** A goroutine succeeds exactly when the generator answers, the answer parses
      and the validation loop ends in success. */
  lemma AppTerraformSucceedsIff(s: Services, appName: string, config: Value)
    ensures var reply := s.generate(s.terraformPrompt(config));
      AppTerraform(s, appName, config).err.None? <==>
        && reply.Reply?
        && ParseTerraformResponse(reply.text).Success?
        && Validation(s, appName, ParseTerraformResponse(reply.text).value).result.Success?
  {
  }

  /** A successful validation ends on documents that passed both checks, and
      returns their main.tf. */
  lemma ValidationPassed(s: Services, appName: string, parsed: TerraformPair)
    requires Validation(s, appName, parsed).result.Success?
    ensures var v := Validation(s, appName, parsed);
      && v.result.value == v.last.mainTf
      && v.iterations >= 1
      && s.workspace(appName).init(v.iterations - 1, v.last) == RepairLoop.Passed
      && s.workspace(appName).validate(v.iterations - 1, v.last) == RepairLoop.Passed
  {
    RepairLoop.RunReturnsValidatedMain(s.workspace(appName), 0,
      RepairLoop.Documents(parsed.mainTf, parsed.variablesTf), 0);
  }

  /** A successful record holds the main.tf of the validation loop's last
      documents, on which both checks passed (`ValidationPassed`), next to the
      variables.tf parsed from the generated answer, not necessarily the one
      the checks ran against. */
  lemma AppTerraformValidated(s: Services, appName: string, config: Value, answer: string, parsed: TerraformPair)
    requires s.generate(s.terraformPrompt(config)) == RepairLoop.Reply(answer)
    requires ParseTerraformResponse(answer) == Success(parsed)
    requires AppTerraform(s, appName, config).err.None?
    ensures var t := AppTerraform(s, appName, config).terraform;
      && t.variablesTf == parsed.variablesTf
      && t.mainTf == Validation(s, appName, parsed).last.mainTf
      && Validation(s, appName, parsed).result.Success?
  {
    var v := Validation(s, appName, parsed);
    var prompt := s.terraformPrompt(config);
    assert s.generate(prompt).text == answer;
    assert v.result.Success?;
    assert AppTerraform(s, appName, config).terraform ==
      GeneratedTerraform(appName, v.result.value, parsed.variablesTf, prompt);
    ValidationPassed(s, appName, parsed);
  }

  /** When `terraform init` never fails in the application's directory, the
      recorded pair of documents is exactly the pair that passed both checks. */
  lemma RecordedPairValidated(s: Services, appName: string, config: Value, answer: string, parsed: TerraformPair)
    requires s.generate(s.terraformPrompt(config)) == RepairLoop.Reply(answer)
    requires ParseTerraformResponse(answer) == Success(parsed)
    requires AppTerraform(s, appName, config).err.None?
    requires forall j: nat, e: RepairLoop.Documents :: s.workspace(appName).init(j, e) == RepairLoop.Passed
    ensures var t := AppTerraform(s, appName, config).terraform;
      RepairLoop.Documents(t.mainTf, t.variablesTf) == Validation(s, appName, parsed).last
  {
    AppTerraformValidated(s, appName, config, answer, parsed);
    RepairLoop.VariablesKeptWithoutInitFailures(s.workspace(appName), 0,
      RepairLoop.Documents(parsed.mainTf, parsed.variablesTf), 0);
  }

  /** The body of one goroutine, over the imperative validation loop. The
      collection loop below runs its specification `AppTerraform` per key. */
  method GenerateAppTerraform(s: Services, appName: string, config: Value) returns (r: AppResult)
    ensures r == AppTerraform(s, appName, config)
  {
    var prompt := s.terraformPrompt(config);
    var failed := GeneratedTerraform(appName, "", "", prompt);
    var response := s.generate(prompt);
    if response.CallFailed? {
      return AppResult(failed, Some(AppError(appName, GenerationFailed(response.error))));
    }
    var parsed := ParseTerraformResponse(response.text);
    if parsed.Failure? {
      return AppResult(failed, Some(AppError(appName, ParseFailed(parsed.error))));
    }
    var finalMain, iterations, repairCalls :=
      RepairLoop.ValidateTerraform(parsed.value.mainTf, parsed.value.variablesTf, s.workspace(appName));
    if finalMain.Failure? {
      return AppResult(failed, Some(AppError(appName, ValidationFailed(finalMain.error))));
    }
    return AppResult(GeneratedTerraform(appName, finalMain.value, parsed.value.variablesTf, prompt), None);
  }

  /** The application names of a list of records. */
  function Names(files: seq<GeneratedTerraform>): set<string>
  {
    set i | 0 <= i < |files| :: files[i].appName
  }

  lemma NamesAppend(files: seq<GeneratedTerraform>, f: GeneratedTerraform)
    ensures Names(files + [f]) == Names(files) + {f.appName}
  {
    var all := files + [f];
    assert forall i :: 0 <= i < |files| ==> all[i] == files[i];
    assert all[|files|] == f;
  }

  predicate DistinctNames(files: seq<GeneratedTerraform>)
  {
    forall i, j :: 0 <= i < j < |files| ==> files[i].appName != files[j].appName
  }

  /** Records with distinct names are as many as their names. */
  lemma {:induction false} DistinctNamesCount(files: seq<GeneratedTerraform>)
    requires DistinctNames(files)
    ensures |Names(files)| == |files|
  {
    if files != [] {
      var init := files[..|files| - 1];
      var last := files[|files| - 1];
      assert DistinctNames(init);
      DistinctNamesCount(init);
      assert Names(files) == Names(init) + {last.appName};
      assert last.appName !in Names(init);
    }
  }

  /** The errors of the collected results, in collection order (the `errors` slice). */
  function Errors(results: seq<AppResult>): (r: seq<AppError>)
    ensures r == [] <==> forall i :: 0 <= i < |results| ==> results[i].err.None?
    ensures r != [] ==>
      (exists i :: 0 <= i < |results| && results[i].err == Some(r[0]) &&
        (forall j :: 0 <= j < i ==> results[j].err.None?))
    decreases |results|
  {
    if results == [] then []
    else
      var init := results[..|results| - 1];
      var last := results[|results| - 1];
      var before := Errors(init);
      assert forall i :: 0 <= i < |init| ==> init[i] == results[i];
      before + (if last.err.Some? then [last.err.value] else [])
  }

  /** Collecting one more result appends its error, if any. */
  lemma ErrorsAppend(results: seq<AppResult>, r: AppResult)
    ensures r.err.Some? ==> Errors(results + [r]) == Errors(results) + [r.err.value]
    ensures r.err.None? ==> Errors(results + [r]) == Errors(results)
  {
    assert (results + [r])[..|results|] == results;
  }

  /** The state of the collection loop: `order` lists the keys collected so
      far, each once, and `remaining` the others; `results[i]` is the goroutine
      result for `order[i]` and `files[i]` its record. */
  ghost predicate Collecting(configs: map<string, Value>, work: (string, Value) -> AppResult,
                             remaining: set<string>, order: seq<string>, results: seq<AppResult>,
                             files: seq<GeneratedTerraform>)
  {
    && remaining <= configs.Keys
    && |order| == |results| == |files|
    && (forall name :: name in configs <==> name in order || name in remaining)
    && (forall name :: name in remaining ==> name !in order)
    && (forall i, j :: 0 <= i < j < |order| ==> order[i] != order[j])
    && (forall i :: 0 <= i < |order| ==> order[i] in configs)
    && (forall i :: 0 <= i < |order| ==> results[i] == work(order[i], configs[order[i]]))
    && (forall i :: 0 <= i < |order| ==> files[i] == results[i].terraform)
  }

  /** Collecting the result for one more remaining key keeps the loop state. */
  lemma CollectStep(configs: map<string, Value>, work: (string, Value) -> AppResult,
                    remaining: set<string>, order: seq<string>, results: seq<AppResult>,
                    files: seq<GeneratedTerraform>, appName: string)
    requires Collecting(configs, work, remaining, order, results, files)
    requires appName in remaining
    ensures var r := work(appName, configs[appName]);
      Collecting(configs, work, remaining - {appName}, order + [appName], results + [r], files + [r.terraform])
  {
    var r := work(appName, configs[appName]);
    var order', results', files' := order + [appName], results + [r], files + [r.terraform];
    assert forall i :: 0 <= i < |order| ==>
      order'[i] == order[i] && files'[i] == files[i] && results'[i] == results[i];
    assert order'[|order|] == appName && results'[|order|] == r && files'[|order|] == r.terraform;
  }

  /** The collection loop of `generateTerraformFiles`, for any goroutine body
      `work`: one goroutine per key, its result appended in completion order
      (an arbitrary key not yet collected), its error appended to `errors`. */
  method Collect(configs: map<string, Value>, work: (string, Value) -> AppResult)
    returns (files: seq<GeneratedTerraform>, err: Option<FanInError>,
             ghost order: seq<string>, ghost results: seq<AppResult>)
    ensures |order| == |results| == |files|
    ensures forall name :: name in configs <==> name in order
    ensures forall i, j :: 0 <= i < j < |order| ==> order[i] != order[j]
    ensures forall i :: 0 <= i < |order| ==>
      order[i] in configs && results[i] == work(order[i], configs[order[i]]) && files[i] == results[i].terraform
    ensures err.None? <==> forall i :: 0 <= i < |results| ==> results[i].err.None?
    ensures err.Some? ==>
      (exists i :: 0 <= i < |results| && results[i].err.Some? &&
        err == Some(ParallelFailed(results[i].err.value)) &&
        (forall j :: 0 <= j < i ==> results[j].err.None?))
  {
    var remaining := configs.Keys;
    var errors: seq<AppError> := [];
    files, order, results := [], [], [];
    while remaining != {}
      invariant Collecting(configs, work, remaining, order, results, files)
      invariant errors == Errors(results)
      decreases |remaining|
    {
      var appName :| appName in remaining;
      var r := work(appName, configs[appName]);
      CollectStep(configs, work, remaining, order, results, files, appName);
      ErrorsAppend(results, r);
      if r.err.Some? {
        errors := errors + [r.err.value];
      }
      files, order, results := files + [r.terraform], order + [appName], results + [r];
      remaining := remaining - {appName};
    }
    if |errors| > 0 {
      return files, Some(ParallelFailed(errors[0])), order, results;
    }
    return files, None, order, results;
  }

  /** `generateTerraformFiles`. A failure to load or encode the reference corpus
      returns no records. Otherwise there is exactly one record per key of
      `configs`, each the result of that key's goroutine, in an arbitrary
      (completion) order; the error is that of the first failed record in that
      order, and there is one exactly when some record failed. */
  method GenerateTerraformFiles(configs: map<string, Value>, s: Services, corpusError: Option<string>)
    returns (files: seq<GeneratedTerraform>, err: Option<FanInError>, ghost results: seq<AppResult>)
    ensures corpusError.Some? ==> files == [] && err == Some(CorpusLoadFailed(corpusError.value))
    ensures corpusError.None? ==>
      && Names(files) == configs.Keys
      && DistinctNames(files)
      && |results| == |files|
      && (forall i :: 0 <= i < |files| ==>
            files[i].appName in configs &&
            results[i] == AppTerraform(s, files[i].appName, configs[files[i].appName]) &&
            files[i] == results[i].terraform)
      && (err.None? <==> forall i :: 0 <= i < |results| ==> results[i].err.None?)
      && (err.Some? ==>
            (exists i :: 0 <= i < |results| && results[i].err.Some? &&
              err == Some(ParallelFailed(results[i].err.value)) &&
              (forall j :: 0 <= j < i ==> results[j].err.None?)))
  {
    if corpusError.Some? {
      return [], Some(CorpusLoadFailed(corpusError.value)), [];
    }
    ghost var order;
    files, err, order, results := Collect(configs, (appName, config) => AppTerraform(s, appName, config));
    forall i | 0 <= i < |files|
      ensures files[i].appName == order[i]
      ensures results[i] == AppTerraform(s, files[i].appName, configs[files[i].appName])
    {
      assert results[i] == AppTerraform(s, order[i], configs[order[i]]);
    }
    NamesInOrder(configs, files, order);
  }

  /** Records named after the keys in `order`, which lists every key once, carry
      every key once. */
  lemma NamesInOrder(configs: map<string, Value>, files: seq<GeneratedTerraform>, order: seq<string>)
    requires |files| == |order|
    requires forall i :: 0 <= i < |files| ==> files[i].appName == order[i]
    requires forall name :: name in configs <==> name in order
    requires forall i, j :: 0 <= i < j < |order| ==> order[i] != order[j]
    ensures Names(files) == configs.Keys && DistinctNames(files)
  {
    forall name | name in configs ensures name in Names(files) {
      var i :| 0 <= i < |order| && order[i] == name;
    }
  }

  /** The Dockerfile answer for an application: its raw record goes into the prompt. */
  function DockerfileReply(s: Services, app: AppConfig): RepairLoop.Reply
  {
    s.generate(s.dockerfilePrompt(app.app))
  }

  /** The index of the first application whose Dockerfile generation fails, or
      the number of applications when none does. */
  function FirstDockerfileFailure(s: Services, configs: seq<AppConfig>): (k: nat)
    ensures k <= |configs|
    ensures k < |configs| ==> DockerfileReply(s, configs[k]).CallFailed?
    ensures forall i :: 0 <= i < k ==> DockerfileReply(s, configs[i]).Reply?
    decreases |configs|
  {
    if configs == [] then 0
    else if DockerfileReply(s, configs[0]).CallFailed? then 0
    else 1 + FirstDockerfileFailure(s, configs[1..])
  }

  /** The first failure is where the successes stop. */
  lemma FirstDockerfileFailureAt(s: Services, configs: seq<AppConfig>, i: nat)
    requires i <= |configs|
    requires forall j :: 0 <= j < i ==> DockerfileReply(s, configs[j]).Reply?
    requires i < |configs| ==> DockerfileReply(s, configs[i]).CallFailed?
    ensures FirstDockerfileFailure(s, configs) == i
  {
  }

  /** The Dockerfiles, one per application in input order, when every
      generation succeeds. */
  function Dockerfiles(s: Services, configs: seq<AppConfig>): (r: seq<Dockerfile>)
    requires forall i :: 0 <= i < |configs| ==> DockerfileReply(s, configs[i]).Reply?
    ensures |r| == |configs|
    ensures forall i :: 0 <= i < |configs| ==>
      r[i] == Dockerfile(configs[i].name, DockerfileReply(s, configs[i]).text)
    decreases |configs|
  {
    if configs == [] then []
    else
      var init := configs[..|configs| - 1];
      var last := configs[|configs| - 1];
      assert forall i :: 0 <= i < |init| ==> init[i] == configs[i];
      Dockerfiles(s, init) + [Dockerfile(last.name, DockerfileReply(s, last).text)]
  }

  /** The `qoveryConfigs` map after the applications in `configs`: each name
      maps to its translated configuration, a later application overwriting an
      earlier one with the same name. */
  function QoveryConfigs(provider: Qovery.QoveryProvider, configs: seq<AppConfig>, destination: string)
    : map<string, Value>
    decreases |configs|
  {
    if configs == [] then map[]
    else
      var last := configs[|configs| - 1];
      QoveryConfigs(provider, configs[..|configs| - 1], destination)[last.name :=
        Obj(Qovery.TranslateConfig(provider, last.name, last.attributes, destination))]
  }

  /** The map's keys are exactly the application names. */
  lemma {:induction false} QoveryConfigsKeys(provider: Qovery.QoveryProvider, configs: seq<AppConfig>, destination: string)
    ensures forall name :: name in QoveryConfigs(provider, configs, destination) <==>
      exists i :: 0 <= i < |configs| && configs[i].name == name
    decreases |configs|
  {
    if configs != [] {
      var init := configs[..|configs| - 1];
      var last := configs[|configs| - 1];
      QoveryConfigsKeys(provider, init, destination);
      forall name
        ensures name in QoveryConfigs(provider, configs, destination) <==>
          exists i :: 0 <= i < |configs| && configs[i].name == name
      {
        if name != last.name {
          if exists i :: 0 <= i < |configs| && configs[i].name == name {
            var i :| 0 <= i < |configs| && configs[i].name == name;
            assert init[i].name == name;
          }
          if name in QoveryConfigs(provider, init, destination) {
            var i :| 0 <= i < |init| && init[i].name == name;
            assert configs[i].name == name;
          }
        }
      }
    }
  }

  /** A name holds the translation of the last application carrying it: the
      last write wins. */
  lemma {:induction false} QoveryConfigsLastWins(provider: Qovery.QoveryProvider, configs: seq<AppConfig>,
                                                 destination: string, i: nat)
    requires i < |configs|
    requires forall j :: i < j < |configs| ==> configs[j].name != configs[i].name
    ensures configs[i].name in QoveryConfigs(provider, configs, destination)
    ensures QoveryConfigs(provider, configs, destination)[configs[i].name] ==
      Obj(Qovery.TranslateConfig(provider, configs[i].name, configs[i].attributes, destination))
    decreases |configs|
  {
    if i < |configs| - 1 {
      var init := configs[..|configs| - 1];
      assert init[i] == configs[i];
      assert configs[|configs| - 1].name != configs[i].name;
      QoveryConfigsLastWins(provider, init, destination, i);
    }
  }

  /** Applications sharing a name collapse into one entry: there are never more
      entries than applications, and strictly fewer when two share a name. */
  lemma {:induction false} QoveryConfigsCollapse(provider: Qovery.QoveryProvider, configs: seq<AppConfig>, destination: string)
    ensures |QoveryConfigs(provider, configs, destination)| <= |configs|
    ensures (exists i, j :: 0 <= i < j < |configs| && configs[i].name == configs[j].name) ==>
      |QoveryConfigs(provider, configs, destination)| < |configs|
    decreases |configs|
  {
    if configs != [] {
      var init := configs[..|configs| - 1];
      var last := configs[|configs| - 1];
      QoveryConfigsCollapse(provider, init, destination);
      if exists i, j :: 0 <= i < j < |configs| && configs[i].name == configs[j].name {
        var i, j :| 0 <= i < j < |configs| && configs[i].name == configs[j].name;
        if j == |configs| - 1 {
          QoveryConfigsKeys(provider, init, destination);
          assert init[i].name == last.name;
          assert last.name in QoveryConfigs(provider, init, destination);
        } else {
          assert init[i].name == init[j].name;
        }
      }
    }
  }

  /** The progress reported after application `i` of `total`. */
  function AppProgress(i: nat, total: nat): real
    requires i < total
  {
    0.3 + ((i + 1) as real / total as real) * 0.4
  }

  /** Per-application progress rises strictly from above 0.3 to exactly 0.7. */
  lemma AppProgressBounds(i: nat, total: nat)
    requires i < total
    ensures 0.3 < AppProgress(i, total) <= 0.7
    ensures i + 1 == total ==> AppProgress(i, total) == 0.7
    ensures i > 0 ==> AppProgress(i - 1, total) < AppProgress(i, total)
  {
    var t := total as real;
    assert (i + 1) as real / t <= 1.0;
    assert 0.0 < (i + 1) as real / t;
    if i > 0 {
      assert i as real / t < (i + 1) as real / t;
    }
  }

  predicate Ascending(p: seq<real>)
  {
    forall a, b :: 0 <= a < b < |p| ==> p[a] <= p[b]
  }

  /** The values sent on the progress channel once `i` of the `total`
      applications are processed: 0.3, then one value per application. */
  function AppReports(i: nat, total: nat): seq<real>
    requires i <= total
  {
    if i == 0 then [0.3] else AppReports(i - 1, total) + [AppProgress(i - 1, total)]
  }

  /** The reports of the per-application loop rise from 0.3 and stay within
      `[0.3, 0.7]`; after the last application they reach 0.7. */
  lemma {:induction false} AppReportsAscending(i: nat, total: nat)
    requires i <= total
    ensures |AppReports(i, total)| == i + 1 && AppReports(i, total)[0] == 0.3
    ensures Ascending(AppReports(i, total))
    ensures forall j :: 0 <= j < |AppReports(i, total)| ==> 0.3 <= AppReports(i, total)[j] <= 0.7
    ensures i == total && total > 0 ==> AppReports(i, total)[i] == 0.7
  {
    if i > 0 {
      AppReportsAscending(i - 1, total);
      AppProgressBounds(i - 1, total);
      var p := AppReports(i - 1, total);
      assert p[|p| - 1] <= AppProgress(i - 1, total) by {
        if i - 1 > 0 {
          AppProgressBounds(i - 2, total);
        }
      }
      AscendingAppend(p, AppProgress(i - 1, total));
    }
  }

  /** The milestones after the loop: 0.7 before the Terraform fan-in, 0.9 after
      its check, 1.0 when the assets are assembled. */
  const Milestones: seq<real> := [0.7, 0.9, 1.0]

  /** Every prefix of the full run of reports rises from 0.3 to at most 1.0, and
      the full run ends at 1.0. */
  lemma RunReportsAscending(total: nat, stage: nat)
    requires stage <= 3
    ensures var p := AppReports(total, total) + Milestones[..stage];
      && p[0] == 0.3 && Ascending(p)
      && (forall j :: 0 <= j < |p| ==> 0.3 <= p[j] <= 1.0)
      && (stage == 3 ==> |p| == total + 4 && p[|p| - 1] == 1.0)
  {
    AppReportsAscending(total, total);
    var a := AppReports(total, total);
    var p := a + Milestones[..stage];
    forall x, y | 0 <= x < y < |p|
      ensures p[x] <= p[y]
    {
      if y >= |a| && x < |a| {
        assert p[x] <= 0.7;
      }
    }
  }

  lemma QoveryConfigsStep(provider: Qovery.QoveryProvider, configs: seq<AppConfig>, destination: string, i: nat)
    requires i < |configs|
    ensures QoveryConfigs(provider, configs[..i + 1], destination) ==
      QoveryConfigs(provider, configs[..i], destination)[configs[i].name :=
        Obj(Qovery.TranslateConfig(provider, configs[i].name, configs[i].attributes, destination))]
  {
    assert configs[..i + 1][..i] == configs[..i];
  }

  lemma DockerfilesStep(s: Services, configs: seq<AppConfig>, i: nat)
    requires i < |configs|
    requires forall j :: 0 <= j <= i ==> DockerfileReply(s, configs[j]).Reply?
    ensures Dockerfiles(s, configs[..i + 1]) ==
      Dockerfiles(s, configs[..i]) + [Dockerfile(configs[i].name, DockerfileReply(s, configs[i]).text)]
  {
    assert configs[..i + 1][..i] == configs[..i];
  }

  /** Reporting a value no smaller than the last keeps the reports ascending. */
  lemma AscendingAppend(progress: seq<real>, x: real)
    requires Ascending(progress) && |progress| > 0 && progress[|progress| - 1] <= x
    ensures Ascending(progress + [x])
  {
  }

  /** The per-application loop of `GenerateMigrationAssets`: after reporting
      0.3, translate each application into `qoveryConfigs`, generate its
      Dockerfile (the first failure ends the loop with that error) and report
      its progress. */
  method ProcessConfigs(configs: seq<AppConfig>, provider: Qovery.QoveryProvider, destination: string, s: Services)
    returns (qoveryConfigs: map<string, Value>, dockerfiles: seq<Dockerfile>, failure: Option<AssetsError>,
             ghost progress: seq<real>)
    ensures var k := FirstDockerfileFailure(s, configs);
      && progress == AppReports(k, |configs|)
      && (k < |configs| ==> failure == Some(DockerfileFailed(configs[k].name, DockerfileReply(s, configs[k]).error)))
    ensures FirstDockerfileFailure(s, configs) == |configs| ==>
      && failure.None?
      && qoveryConfigs == QoveryConfigs(provider, configs, destination)
      && dockerfiles == Dockerfiles(s, configs)
  {
    progress := [0.3];
    qoveryConfigs, dockerfiles := map[], [];
    var i := 0;
    while i < |configs|
      invariant 0 <= i <= |configs|
      invariant forall j :: 0 <= j < i ==> DockerfileReply(s, configs[j]).Reply?
      invariant qoveryConfigs == QoveryConfigs(provider, configs[..i], destination)
      invariant dockerfiles == Dockerfiles(s, configs[..i])
      invariant progress == AppReports(i, |configs|)
    {
      var app := configs[i];
      QoveryConfigsStep(provider, configs, destination, i);
      qoveryConfigs := qoveryConfigs[app.name := Obj(Qovery.TranslateConfig(provider, app.name, app.attributes, destination))];
      var reply := s.generate(s.dockerfilePrompt(app.app));
      if reply.CallFailed? {
        FirstDockerfileFailureAt(s, configs, i);
        return qoveryConfigs, dockerfiles, Some(DockerfileFailed(app.name, reply.error)), progress;
      }
      DockerfilesStep(s, configs, i);
      dockerfiles := dockerfiles + [Dockerfile(app.name, reply.text)];
      progress := progress + [AppProgress(i, |configs|)];
      i := i + 1;
    }
    assert configs[..i] == configs;
    FirstDockerfileFailureAt(s, configs, i);
    return qoveryConfigs, dockerfiles, None, progress;
  }

  /** How many of the milestones a run that got past the per-application loop
      reports: 0.7 always, 0.9 once no record lacks a main.tf, 1.0 on success. */
  function MilestonesReached(r: Result<Assets, AssetsError>): (n: nat)
    ensures n <= 3
  {
    match r
    case Success(_) => 3
    case Failure(CostEstimationFailed(_)) => 2
    case Failure(_) => 1
  }

  /** The check after the fan-in: the index of the first record without a
      main.tf, or the number of records when all have one. */
  method FirstWithoutMain(files: seq<GeneratedTerraform>) returns (k: nat)
    ensures k <= |files|
    ensures forall m :: 0 <= m < k ==> files[m].mainTf != ""
    ensures k < |files| ==> files[k].mainTf == ""
  {
    k := 0;
    while k < |files|
      invariant k <= |files|
      invariant forall m :: 0 <= m < k ==> files[m].mainTf != ""
    {
      if files[k].mainTf == "" {
        return k;
      }
      k := k + 1;
    }
  }

  /** `GenerateMigrationAssets` once the Bedrock client is built. The
      per-application loop comes first (a Dockerfile failure aborts the run).
      Then the Terraform records are generated; the first record without a
      main.tf fails the run, and otherwise the fan-in error, if any, is
      reported as a cost estimation error. `progress` lists the values sent on
      the progress channel. */
  method GenerateMigrationAssets(configs: seq<AppConfig>, qoveryApiKey: string, destination: string,
                                 readme: string, s: Services, corpusError: Option<string>)
    returns (r: Result<Assets, AssetsError>, ghost progress: seq<real>)
    ensures var k := FirstDockerfileFailure(s, configs);
      k < |configs| ==> r == Failure(DockerfileFailed(configs[k].name, DockerfileReply(s, configs[k]).error))
    ensures FirstDockerfileFailure(s, configs) == |configs| && corpusError.Some? ==>
      r == Failure(CostEstimationFailed(CorpusLoadFailed(corpusError.value)))
    ensures var qc := QoveryConfigs(Qovery.NewQoveryProvider(qoveryApiKey), configs, destination);
      FirstDockerfileFailure(s, configs) == |configs| && corpusError.None? ==>
        && (r.Success? <==> forall name :: name in qc ==> AppTerraform(s, name, qc[name]).terraform.mainTf != "")
        && (r.Failure? ==>
              && r.error.TerraformFailed?
              && r.error.appName in qc
              && AppTerraform(s, r.error.appName, qc[r.error.appName]).terraform.mainTf == ""
              && (r.error.cause.None? <==> forall name :: name in qc ==> AppTerraform(s, name, qc[name]).err.None?)
              && (r.error.cause.Some? ==>
                    exists name :: name in qc && AppTerraform(s, name, qc[name]).err.Some? &&
                      r.error.cause == Some(ParallelFailed(AppTerraform(s, name, qc[name]).err.value))))
        && (r.Success? ==>
              && r.value.readme == readme
              && r.value.costReport == ""
              && r.value.dockerfiles == Dockerfiles(s, configs)
              && Names(r.value.terraformFiles) == qc.Keys
              && DistinctNames(r.value.terraformFiles)
              && forall f :: f in r.value.terraformFiles ==>
                   f.appName in qc && f == AppTerraform(s, f.appName, qc[f.appName]).terraform)
    ensures r.Failure? && r.error.CostEstimationFailed? ==> corpusError.Some?
    ensures var k := FirstDockerfileFailure(s, configs);
      k < |configs| ==> progress == AppReports(k, |configs|)
    ensures FirstDockerfileFailure(s, configs) == |configs| ==>
      progress == AppReports(|configs|, |configs|) + Milestones[..MilestonesReached(r)]
  {
    var provider := Qovery.NewQoveryProvider(qoveryApiKey);
    var qoveryConfigs, dockerfiles, failure;
    qoveryConfigs, dockerfiles, failure, progress := ProcessConfigs(configs, provider, destination, s);
    if failure.Some? {
      return Failure(failure.value), progress;
    }
    assert Milestones[..1] == [0.7] && Milestones[..2] == [0.7, 0.9];
    progress := progress + [0.7];
    var files, err, results := GenerateTerraformFiles(qoveryConfigs, s, corpusError);
    var k := FirstWithoutMain(files);
    if k < |files| {
      return Failure(TerraformFailed(files[k].appName, err)), progress;
    }
    progress := progress + [0.9];
    if err.Some? {
      return Failure(CostEstimationFailed(err.value)), progress;
    }
    progress := progress + [1.0];
    return Success(Assets(readme, files, dockerfiles, "")), progress;
  }
}
