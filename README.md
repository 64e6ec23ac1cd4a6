# Migration agent core, modelled in Dafny

This project models the core of Qovery's migration agent. The agent turns the
applications of a source platform (Heroku, Clever Cloud) into Qovery
assets. For each application it produces a Dockerfile. For the translated
configurations it produces Terraform documents (`main.tf` and
`variables.tf`), generated by a large language model and repaired in a
bounded loop until `terraform init` and `terraform validate` accept them.

The modelled parts:

- **The generation clients.** `pkg/bedrock/bedrock.go` and
  `pkg/claude/claude.go` hold:
  - a token-bucket rate limiter;
  - for Bedrock, a semaphore that bounds the number of parallel calls;
  - a retry loop with exponential back-off, jitter and a clamped sleep,
    computed in Go's 64-bit `time.Duration` arithmetic.
- **The response parser** `parseTerraformResponse`. It takes the text between
  the first `(` and the last `)`, splits it at the first `|||` and trims the
  two halves.
- **The repair loop** `validateTerraform`, with at most 10 iterations.
- **The parallel fan-in** `generateTerraformFiles`: one goroutine per
  application, results collected in completion order.
- **The orchestration** `GenerateMigrationAssets`: Dockerfiles in order, the
  progress values, and the error order.
- **The two Qovery providers' `TranslateConfig`.**

How the model is built:

- Go's `strings` functions are modelled as functions over strings of code
  points, in module `GoStrings`.
- The outside world is a set of oracle parameters, indexed by the attempt or
  iteration number:
  - the model service;
  - the HTTP exchange;
  - `rand.Int63n`;
  - `terraform init` and `terraform validate`.
- Each imperative loop is a `method` proved equal to a specification
  function (`Attempts`, `Run`, `ContentText`, `QoveryConfigs`,
  `Dockerfiles`, `AppReports`). The properties are lemmas about those
  functions.
- The rate limiter and the Bedrock client are classes whose methods update
  their fields.
- The goroutines of the fan-in are a loop that picks any application not yet
  collected. Every property of `GenerateTerraformFiles` therefore holds for
  every completion order.

## Behaviour of the code worth noting

- **Repair replies are not trimmed.** The text returned by a repair prompt
  overwrites the documents as is (`migration.go:616-622`, `:671`).
- **Dockerfile replies are not checked.** A Dockerfile reply is used verbatim
  and may be empty (`migration.go:99-108`).
- **A corpus failure is reported as a cost-estimation error.** If
  `generateTerraformFiles` fails to load or encode the reference corpus, it
  returns no records and an error. `GenerateMigrationAssets` then finds no
  record without a `main.tf` and reports that error as
  "error estimating workload costs" (`migration.go:117-133`).
- **The cost-estimation error only reports a corpus failure.** Every
  goroutine that fails sends a record without a `main.tf`
  (`migration.go:232-236`, `:296-328`), so a fan-in error among records that
  all have a `main.tf` cannot happen. The error check at `migration.go:131`
  therefore fails only when there are no records, on a corpus failure.
- **Bedrock's "max retries reached" error needs `MaxRetries <= 0`.** The last
  allowed attempt always returns its own outcome, even when that outcome is a
  retryable error (`bedrock.go:213`, `:230`, `:249`).

## Model

| member | source | states |
|---|---|---|
| Backoff.Wrap64 | pkg/bedrock/bedrock.go:225 | the int64 result of a Go computation lies in the int64 range and equals the mathematical value whenever that value fits |
| Backoff.Wrap64Congruent | pkg/bedrock/bedrock.go:225 | a wrapped value differs from the mathematical one by a multiple of 2^64, and wrapping ignores added multiples of 2^64 |
| Backoff.Half | pkg/bedrock/bedrock.go:214 | `int64(d) / 2` truncates toward zero for both signs, and the `rand.Int63n` bound is positive exactly when the delay is at least 2 ns |
| Backoff.DelayAt | pkg/bedrock/bedrock.go:192-225 | the retry delay after any number of wrapping doublings is still an int64 |
| Backoff.SleepTime | pkg/bedrock/bedrock.go:214-219 | a sleep never exceeds `MaxRetryDelay`, and without overflow it is `min(delay + jitter, MaxRetryDelay)` |
| Backoff.DoubledIsProduct | pkg/bedrock/bedrock.go:225 | doubling k times multiplies by 2^k and never shrinks a non-negative delay |
| Backoff.DelayAtExact | pkg/bedrock/bedrock.go:192-225 | while nothing overflows, the wrapped delay before retry k equals the exact `initial * 2^k` |
| Backoff.SleepBounds | pkg/bedrock/bedrock.go:214-219 | with a jitter drawn from `[0, delay/2)` a sleep is at least the clamped delay and less than 1.5 delays |
| Backoff.DoubledMonotone | pkg/bedrock/bedrock.go:225 | a non-negative delay doubled more often is never smaller |
| Backoff.ScheduleSleep | pkg/bedrock/bedrock.go:192-225 | when `n` doublings cannot overflow, the sleep after any attempt `k <= n` is `min(initial * 2^k + jitter, MaxRetryDelay)` |
| Backoff.CappedSleep | pkg/bedrock/bedrock.go:214-225 | once the delay doubled `m` times reaches `MaxRetryDelay`, every sleep after a later attempt without overflow is exactly `MaxRetryDelay` |
| Backoff.RetrySleep | pkg/bedrock/bedrock.go:192-225 | the sleep before retry k is `min(initial * 2^k + jitter, MaxRetryDelay)` while nothing overflows |
| RateLimit.Apply | pkg/bedrock/bedrock.go:60-72 | a wait blocks exactly on an empty bucket and otherwise takes one token; a release adds a token exactly when the bucket is not full and otherwise changes nothing; a refill tick fills the bucket; the count stays in `[0, capacity]` |
| RateLimit.Replay | pkg/bedrock/bedrock.go:28-72 | the bucket count after a run of waits, releases and refills, or nothing once a wait would block; characterised by `ReplayAppend`, `ReplayInRange`, `TakesBounded` and `PairsRestore` |
| RateLimit.Pairs | pkg/bedrock/bedrock.go:195-239 | n attempts are 2n bucket events and contain no refill |
| RateLimit.ReplayAppend | pkg/bedrock/bedrock.go:60-72 | replaying one more event applies it to the count reached so far |
| RateLimit.ReplayInRange | pkg/bedrock/bedrock.go:28-72 | whatever waits, releases and refills happen, the count never leaves `[0, capacity]` |
| RateLimit.TakesBounded | pkg/bedrock/bedrock.go:60-72 | between refills, the requests admitted are at most the starting tokens plus the releases, minus what is left |
| RateLimit.PairsRestore | pkg/bedrock/bedrock.go:195-239 | paired waits and releases leave a non-empty bucket as they found it |
| RateLimit.RateLimiter.constructor | pkg/bedrock/bedrock.go:28-37 | a new limiter starts with a full bucket of `maxRequests` tokens |
| RateLimit.RateLimiter.Wait | pkg/bedrock/bedrock.go:60-62 | a wait takes one token from a non-empty bucket |
| RateLimit.RateLimiter.Release | pkg/bedrock/bedrock.go:64-72 | a release puts a token back unless the bucket is full, and keeps the count in range |
| RateLimit.RateLimiter.Refill | pkg/bedrock/bedrock.go:40-55 | one refill tick tops the bucket up to exactly its capacity |
| Bedrock.ChosenConfig | pkg/bedrock/bedrock.go:131-134 | the first configuration given is used, else the default |
| Bedrock.CheckConfig | pkg/bedrock/bedrock.go:136-142 | the client is refused exactly when the inference profile is empty or fewer than one parallel request is allowed, the missing profile being reported first |
| Bedrock.DefaultNeedsProfile | pkg/bedrock/bedrock.go:94-104 | the default configuration is refused for its missing profile, and passes once a profile is set |
| Bedrock.DefaultConfig | pkg/bedrock/bedrock.go:94-104 | 50 requests per minute, 20 attempts, 1 s to 3 min back-off, region us-east-1, no profile, 5 parallel calls; characterised by `DefaultNeedsProfile` and `DefaultSchedule` |
| Bedrock.DefaultSchedule | pkg/bedrock/bedrock.go:94-104 | under the default configuration the sleep after attempt k (k < 19) is `min(2^k s + jitter, 3 min)`, and exactly 3 minutes from k = 8 on |
| Bedrock.Settle | pkg/bedrock/bedrock.go:230-246 | an attempt that is not retried answers the first content block's text; an AWS or other invocation error is returned with its cause; an undecodable body is the decoding error and a body without content blocks the empty-response error; it never panics and is never the max-retries error |
| Bedrock.Attempts | pkg/bedrock/bedrock.go:191-249 | the retry loop's answer and sleeps for given service outcomes and jitters; characterised by `AttemptsShape`, `AttemptsOutcome` and `AttemptsRetry` |
| Bedrock.AttemptsShape | pkg/bedrock/bedrock.go:192-249 | at most `MaxRetries` attempts are made, with one sleep between consecutive attempts computed from the k-th delay and jitter; "max retries reached" happens exactly when no attempt is allowed |
| Bedrock.AttemptsOutcome | pkg/bedrock/bedrock.go:194-246 | every attempt before the last failed with a retryable AWS code; the last attempt decides the answer; an invocation error is returned only if it is not retryable or no attempt is left; a panic only comes from a non-positive jitter bound |
| Bedrock.AttemptsRetry | pkg/bedrock/bedrock.go:211-226 | a retried attempt continues the loop with the next attempt and one more sleep |
| Bedrock.BedrockClient.constructor | pkg/bedrock/bedrock.go:156-161 | a checked configuration gives a client with a full bucket and an empty semaphore |
| Bedrock.BedrockClient.Messages | pkg/bedrock/bedrock.go:165-250 | the answer and sleeps are those of `Attempts`; the semaphore slot is given back; the bucket ends where it started, with one wait and one release per attempt |
| Bedrock.BedrockClient.Retry | pkg/bedrock/bedrock.go:191-249 | the retry loop computes exactly the `Attempts` trace and releases every token it takes |
| Bedrock.BedrockClient.Attempt | pkg/bedrock/bedrock.go:195-239 | one attempt returns the service's outcome and releases the token it took, on every path |
| Claude.ChosenConfig | pkg/claude/claude.go:97-101 | the first configuration given is used, else the default |
| Claude.DefaultConfig | pkg/claude/claude.go:87-94 | 50 requests per minute, 10 attempts, 1 s to 60 s back-off; characterised by `DefaultSchedule` |
| Claude.DefaultSchedule | pkg/claude/claude.go:87-94 | under the default configuration the sleep after attempt k (k < 9) is `min(2^k s + jitter, 60 s)`, and exactly 60 s from k = 6 on |
| Claude.TextOf | pkg/claude/claude.go:169-170 | the text of one content block, or nothing where a type assertion would panic; characterised by `ContentTextDefined` |
| Claude.ContentText | pkg/claude/claude.go:168-171 | the concatenated text of the content blocks; characterised by `ContentTextDefined`, `ContentTextAppend`, `ContentTextPrefixNone` and `JoinContent` |
| Claude.ContentTextDefined | pkg/claude/claude.go:168-171 | the text is defined exactly when every content block is an object with a string `text` |
| Claude.ContentTextAppend | pkg/claude/claude.go:168-171 | the text of two runs of blocks is the concatenation of their texts |
| Claude.ContentTextPrefixNone | pkg/claude/claude.go:168-171 | one bad block anywhere makes the whole text undefined |
| Claude.JoinContent | pkg/claude/claude.go:168-171 | the concatenation loop yields the blocks' texts in order, or nothing where a type assertion would panic |
| Claude.Settle | pkg/claude/claude.go:134-200 | a request, transport or decoding failure is that error; any status but 200 is the status error with the body; a 200 without `content` is the missing-content error; a 200 with `content` answers exactly when `content` is an array whose blocks all carry a string `text`, answering their concatenation, and panics otherwise; a non-retried response is never a max-retries error |
| Claude.Attempts | pkg/claude/claude.go:127-204 | the retry loop's answer and sleeps for given exchange outcomes and jitters; characterised by `AttemptsShape`, `AttemptsOutcome` and `AttemptsRetry` |
| Claude.AttemptsShape | pkg/claude/claude.go:127-204 | at most `MaxRetries` attempts with one sleep between consecutive attempts, each computed from the k-th delay and jitter; "without successful response" happens exactly when no attempt is allowed |
| Claude.AttemptsOutcome | pkg/claude/claude.go:130-204 | all attempts but the last got 429, 503 or 500; "max retries reached" carries the last body exactly when the last allowed attempt was retryable; a success is the in-order text of a 200's content |
| Claude.AttemptsRetry | pkg/claude/claude.go:174-193 | a retried status continues the loop with the next attempt and one more sleep |
| Claude.ClaudeClient.constructor | pkg/claude/claude.go:97-109 | the client keeps the key and the chosen configuration, and starts with a full bucket |
| Claude.ClaudeClient.Messages | pkg/claude/claude.go:112-205 | the answer and sleeps are those of `Attempts`; the bucket ends where it started, with one wait and one release per attempt |
| Claude.ClaudeClient.Attempt | pkg/claude/claude.go:132-157 | one attempt returns the exchange's outcome and releases its token on every path |
| Claude.Respond | pkg/claude/claude.go:160-200 | the status switch on a non-retried response gives the answer `Settle` specifies |
| GoStrings.TrimLeft | pkg/migration/migration.go:514 | the result is the suffix left after dropping the longest prefix of cut characters |
| GoStrings.TrimRight | pkg/migration/migration.go:514 | the result is the prefix left after dropping the longest suffix of cut characters |
| GoStrings.Trim | pkg/migration/migration.go:538-539 | `strings.Trim` with a cut set; characterised by `TrimIsClean`, `TrimKeepsAbsence` and `TrimUnchanged` |
| GoStrings.TrimSpace | pkg/migration/migration.go:514 | `strings.TrimSpace`, `Trim` with the white-space cut set; characterised by `TrimIsClean` and `TrimUnchanged` |
| GoStrings.TrimIsClean | pkg/migration/migration.go:534-539 | neither end of a trimmed string is a cut character |
| GoStrings.TrimKeepsAbsence | pkg/migration/migration.go:534-539 | trimming does not create an occurrence of a separator |
| GoStrings.TrimUnchanged | pkg/migration/migration.go:534-539 | trimming a string whose ends are not cut changes nothing |
| GoStrings.IndexChar | pkg/migration/migration.go:517 | the first position of the character, or -1 exactly when it is absent |
| GoStrings.LastIndexChar | pkg/migration/migration.go:518 | the last position of the character, or -1 exactly when it is absent |
| GoStrings.Index | pkg/migration/migration.go:528 | the first occurrence of the separator, negative exactly when there is none |
| GoStrings.SplitN2 | pkg/migration/migration.go:528 | one piece exactly when the separator is absent; otherwise the string is the first piece, the separator and the rest, and the first piece holds no separator |
| GoStrings.Split | pkg/migration/migration.go:616 | `strings.Split` at every occurrence of a non-empty separator; characterised by `SplitInTwo` and `JoinSplit` |
| GoStrings.JoinSplit | pkg/migration/migration.go:616 | joining the pieces of a split with the same separator gives back the string |
| GoStrings.SplitInTwo | pkg/migration/migration.go:616-617 | a split gives two pieces exactly when the separator occurs once; then the pieces surround it and hold no separator |
| GoStrings.TrimPrefix | pkg/migration/migration.go:621 | the prefix is dropped exactly once when present, and nothing changes otherwise |
| Migration.GeneratedTerraform.SanitizeAppName | pkg/migration/migration.go:172-176 | the length is kept; spaces, dashes and underscores become underscores and nothing else does; other characters are lower-cased |
| Migration.SanitizeAppNameIdempotent | pkg/migration/migration.go:172-176 | sanitising a sanitised name changes nothing |
| Migration.FirstOpenBeforeLastClose | pkg/migration/migration.go:517-520 | if some `(` precedes some `)`, the first `(` precedes the last `)` |
| Migration.BracketedIff | pkg/migration/migration.go:517-525 | the text between the parentheses exists exactly when some `(` precedes some `)`, and is then the text between the first `(` and the last `)` |
| Migration.ParseTerraformResponse | pkg/migration/migration.go:513-542 | the parser of the generator's answer; characterised by `ParenFailureIff`, `DelimiterFailureIff`, `ParseRoundTrip`, `ParseMainWithoutDelimiter` and `ParseResultUnquoted` |
| Migration.ParenFailureIff | pkg/migration/migration.go:514-522 | the parentheses error is returned exactly when no `(` precedes a `)` in the trimmed answer |
| Migration.DelimiterFailureIff | pkg/migration/migration.go:525-531 | the delimiter error is returned exactly when the parentheses are fine and their contents hold no delimiter |
| Migration.ParseMainWithoutDelimiter | pkg/migration/migration.go:528-541 | a parsed `main.tf` never contains the delimiter |
| Migration.ParseResultUnquoted | pkg/migration/migration.go:534-539 | neither parsed document starts or ends with a double quote |
| Migration.UnquoteEnds | pkg/migration/migration.go:534-539 | a half trimmed of spaces and then of quotes neither starts nor ends with a quote |
| Migration.UnquoteKeepsAbsence | pkg/migration/migration.go:534-539 | trimming a half does not create the delimiter |
| Migration.UnquoteClean | pkg/migration/migration.go:534-539 | trimming leaves a document without white space or quotes at its ends unchanged |
| Migration.FirstDelimiterAfter | pkg/migration/migration.go:528 | in main, delimiter, variables the first delimiter is the one after main, when main holds none and does not end in a pipe character |
| Migration.SplitRoundTrip | pkg/migration/migration.go:528 | splitting main, delimiter, variables at the first delimiter gives back the two documents |
| Migration.SplitAtFirst | pkg/migration/migration.go:528 | when the separator occurs, the two pieces are the text before and after its first occurrence |
| Migration.Parenthesised | pkg/migration/migration.go:514-525 | in a parenthesised text the first `(` and the last `)` are the outer ones, and trimming changes nothing |
| Migration.BracketedParenthesised | pkg/migration/migration.go:514-525 | the inside of a parenthesised answer is exactly what was wrapped |
| Migration.ParseOfBracketed | pkg/migration/migration.go:528-541 | once the inside is found, parsing splits it at the first delimiter and trims both halves |
| Migration.ParseRoundTrip | pkg/migration/migration.go:513-542 | the format the prompt asks for (main, delimiter, variables, in parentheses) parses back to the two clean documents |
| RepairLoop.ApplyInitRepair | pkg/migration/migration.go:616-622 | the documents of an init-repair answer, or nothing when it is malformed; characterised by `InitRepairFormat` |
| RepairLoop.InitRepairFormat | pkg/migration/migration.go:616-622 | an init-repair answer is accepted exactly when the variables marker occurs once; it is then the main document, optionally after the main marker, then the marker, then the variables document |
| RepairLoop.Iteration | pkg/migration/migration.go:568-684 | an iteration succeeds exactly when init and validate both pass, returning `main.tf`; a failed init sends the init repair: a failed call stops with its error, a malformed answer stops with the malformed-repair error, and a well-formed one continues with both documents of the answer; a failed validate sends the validation repair: a failed call stops with its error, and a reply continues with the reply as `main.tf` and `variables.tf` kept |
| RepairLoop.ValidateTerraform | pkg/migration/migration.go:545-688 | the loop's result, iteration count and repair-prompt count are those of `Run` |
| RepairLoop.Run | pkg/migration/migration.go:564-687 | the repair loop's result, iteration count and repair-prompt count for given check and repair outcomes; characterised by `RunAccounting`, `RunReturnsValidatedMain`, `RunStep`, `VariablesKeptWithoutInitFailures`, `FailFailPass` and `AlwaysInvalid` |
| RepairLoop.RunAccounting | pkg/migration/migration.go:564-687 | at most 10 iterations run; every iteration but a successful last one sends exactly one repair prompt; the iteration-limit error comes only after all 10 iterations |
| RepairLoop.RunReturnsValidatedMain | pkg/migration/migration.go:677-684 | a success returns the `main.tf` of the last documents, on which init and validate both passed |
| RepairLoop.RunStep | pkg/migration/migration.go:565-634 | below the iteration cap, the loop either continues with the repaired documents or stops with the iteration's result |
| RepairLoop.VariablesKeptWithoutInitFailures | pkg/migration/migration.go:641-676 | when init never fails, `variables.tf` is never rewritten |
| RepairLoop.FailFailPass | pkg/migration/migration.go:641-684 | two validation failures and then a pass send exactly two repair prompts and return the second answer |
| RepairLoop.AlwaysInvalid | pkg/migration/migration.go:564-687 | when validation always fails, all 10 iterations run, each sends one repair prompt, and the loop fails with the iteration-limit error |
| Qovery.NewQoveryProvider | pkg/qovery/qovery.go:10-12 | the provider keeps the API key verbatim |
| Qovery.TranslateConfig | pkg/qovery/qovery.go:15-21 | the translation has exactly the keys `app_name`, `destination` and `stack`, holding the name, the destination and the whole attribute map |
| Qovery.TranslateConfigInjective | pkg/qovery/qovery.go:15-21 | nothing is lost: equal translations come from equal names, attribute maps and destinations |
| CliQovery.NewQoveryProvider | cli/pkg/qovery/qovery.go:9-11 | the provider keeps the API key verbatim |
| CliQovery.Lookup | cli/pkg/qovery/qovery.go:18-20 | indexing a Go map gives the stored value, or nil for a missing key |
| CliQovery.TranslateConfig | cli/pkg/qovery/qovery.go:14-23 | the translation has exactly the keys `app_name`, `destination` and `stack`; name and stack come from the record (nil when missing) |
| CliQovery.TranslateConfigReadsNameAndStack | cli/pkg/qovery/qovery.go:14-23 | only the record's `name` and `stack` matter; every other attribute is dropped |
| CliQovery.TranslateConfigExample | pkg/qovery/qovery_test.go:12-21 | the record `{name: test-app, stack: heroku-20}` with destination `aws` translates to `test-app`, `aws`, `heroku-20` |
| MigrationAssets.AppTerraform | pkg/migration/migration.go:227-340 | a goroutine's record carries its application's name and prompt, and any error names that application; a failed record has no documents |
| MigrationAssets.AppTerraformSucceedsIff | pkg/migration/migration.go:294-339 | a goroutine succeeds exactly when generation answers, the answer parses and validation succeeds |
| MigrationAssets.ValidationPassed | pkg/migration/migration.go:319-329 | a successful validation returns the `main.tf` on which init and validate passed |
| MigrationAssets.AppTerraformValidated | pkg/migration/migration.go:319-339 | a successful record holds the validated `main.tf` next to the `variables.tf` first parsed, not necessarily the one the checks ran against |
| MigrationAssets.RecordedPairValidated | pkg/migration/migration.go:319-339 | when init never fails, the recorded pair is exactly the pair that passed both checks |
| MigrationAssets.GenerateAppTerraform | pkg/migration/migration.go:241-339 | the goroutine body over the imperative repair loop gives the record `AppTerraform` specifies |
| MigrationAssets.NamesAppend | pkg/migration/migration.go:357 | appending a record adds its name to the names collected |
| MigrationAssets.DistinctNamesCount | pkg/migration/migration.go:350-358 | records with distinct names are as many as their names |
| MigrationAssets.Errors | pkg/migration/migration.go:353-356 | the error list is empty exactly when no result failed, and starts with the first failure in collection order |
| MigrationAssets.ErrorsAppend | pkg/migration/migration.go:354-356 | collecting a result appends its error, if it has one |
| MigrationAssets.CollectStep | pkg/migration/migration.go:353-358 | collecting one more pending application keeps one record per collected key, each its goroutine's result |
| MigrationAssets.Collect | pkg/migration/migration.go:225-365 | every key is collected exactly once, each record is its goroutine's result, and the error is the first failure in completion order, present exactly when some goroutine failed |
| MigrationAssets.GenerateTerraformFiles | pkg/migration/migration.go:179-366 | a corpus failure returns no records; otherwise there is exactly one record per application, each its goroutine's result, and the error is the first failure in completion order |
| MigrationAssets.NamesInOrder | pkg/migration/migration.go:225-358 | records collected once per key carry every key exactly once |
| MigrationAssets.FirstDockerfileFailure | pkg/migration/migration.go:93-103 | the index of the first application whose Dockerfile generation fails, all earlier ones succeeding |
| MigrationAssets.FirstDockerfileFailureAt | pkg/migration/migration.go:99-103 | the first failure is where the run of successes stops |
| MigrationAssets.Dockerfiles | pkg/migration/migration.go:105-108 | one Dockerfile per application, in input order, named after it and holding its generated text |
| MigrationAssets.QoveryConfigs | pkg/migration/migration.go:93-96 | the configuration map the loop builds; characterised by `QoveryConfigsKeys`, `QoveryConfigsLastWins` and `QoveryConfigsCollapse` |
| MigrationAssets.QoveryConfigsKeys | pkg/migration/migration.go:93-96 | the configuration map's keys are exactly the application names |
| MigrationAssets.QoveryConfigsLastWins | pkg/migration/migration.go:95-96 | a name holds the translation of the last application carrying it |
| MigrationAssets.QoveryConfigsCollapse | pkg/migration/migration.go:95-96 | the map never has more entries than applications, and strictly fewer when two share a name |
| MigrationAssets.QoveryConfigsStep | pkg/migration/migration.go:95-96 | one more application writes its translation over the map so far |
| MigrationAssets.DockerfilesStep | pkg/migration/migration.go:105-108 | one more successful application appends its Dockerfile |
| MigrationAssets.AppProgressBounds | pkg/migration/migration.go:110 | per-application progress lies in `(0.3, 0.7]`, rises strictly and reaches 0.7 at the last application |
| MigrationAssets.AscendingAppend | pkg/migration/migration.go:110-111 | reporting a value no smaller than the last keeps the progress ascending |
| MigrationAssets.AppReports | pkg/migration/migration.go:85-111 | the progress values sent before and during the application loop; characterised by `AppReportsAscending` and `RunReportsAscending` |
| MigrationAssets.AppReportsAscending | pkg/migration/migration.go:85-111 | the loop's progress values start at 0.3, never decrease, stay in `[0.3, 0.7]` and reach 0.7 after the last application |
| MigrationAssets.RunReportsAscending | pkg/migration/migration.go:85-142 | every prefix of a run's progress starts at 0.3, never decreases and stays in `[0.3, 1.0]`; a completed run ends at 1.0 |
| MigrationAssets.ProcessConfigs | pkg/migration/migration.go:85-112 | the first Dockerfile failure aborts the loop with that application's error; otherwise the map and the Dockerfiles are complete; the progress sent matches the applications processed |
| MigrationAssets.MilestonesReached | pkg/migration/migration.go:114-142 | a run past the loop reports one, two or three of the later milestones |
| MigrationAssets.FirstWithoutMain | pkg/migration/migration.go:119-123 | the index of the first record without a `main.tf`, all earlier ones having one |
| MigrationAssets.GenerateMigrationAssets | pkg/migration/migration.go:71-145 | a Dockerfile failure, then a corpus failure, then a record without `main.tf` fail the run in that order; the last failure carries the fan-in error, absent exactly when every goroutine succeeded and otherwise some goroutine's error; the cost-estimation error arises only from a corpus failure; otherwise the assets hold the README, every application's validated record and the Dockerfiles in order; the progress values match the stage reached |

## Left out

- I/O is left out. The temporary directory, file writes and reads, their
  errors, `terraform` processes, `log.Printf`/`fmt.Printf` and
  `time.Sleep` are not modelled. The checks and the generator's replies are
  oracles, and sleeps are recorded as ghost values.
- The AWS SDK and HTTP details are left out: request bodies, headers, model
  identifiers and `LoadDefaultConfig`. A failure to load the AWS
  configuration (`bedrock.go:145-151`) is not modelled.
- JSON marshalling of payloads and configurations cannot fail on the model's
  values, so the marshal error paths are not modelled
  (`bedrock.go:186-189`, `claude.go:122-125`, `migration.go:149-152`,
  `:230-239`).
- Prompt wording and the reference corpus (the Terraform examples and the
  provider documentation, fetched from GitHub) are folded into opaque prompt
  builders. Any failure to load or encode them is one `corpusError`
  parameter.
- The call to `NewBedrockClient` at `migration.go:73-79` is left out. It does
  not match the client's two-result signature, and it sets no inference
  profile. The model takes an already-built client (`Services.generate`).
- `GenerateHerokuMigrationAssets` and `GenerateCleverCloudMigrationAssets`
  only report progress 0.1, fetch the applications and call
  `GenerateMigrationAssets`. They and
  the source-platform collectors are not part of this model.
- `NewGitHubClient`, `loadTerraformExamples` and `loadMarkdownFiles` fetch
  the reference corpus over the network. They are left out, and their
  failures are the `corpusError` parameter.
- `EstimateWorkloadCosts` is not called (its call is commented out at
  `migration.go:127-129`), so it is left out.
- `WriteAssets` and `writeToFile` only write files, so they are left out.
- `currentCost` is summed but never used (`migration.go:90-97`), so it is
  not modelled.
- The progress channel's stage labels are not modelled.
- MigrationAssets.GenerateMigrationAssets: the progress values are modelled
  as exact reals. Go's `float64` rounding of `0.3 + (i+1)/n * 0.4` is not
  modelled.
- RateLimit.RateLimiter.constructor: `make(chan struct{}, n)` panics for a
  negative `n` (`bedrock.go:30`, `claude.go:24`). The model requires a
  non-negative capacity instead of modelling that panic. It also requires a
  positive interval, for which `time.NewTicker` (`bedrock.go:41`) would
  panic; both clients pass one minute.
- Bedrock.BedrockClient.constructor: `NewBedrockClient` does not check
  `MaxRequestsPerMinute` (`bedrock.go:158`), so a negative value panics in
  the limiter; the model requires a non-negative value instead.
- Claude.ClaudeClient.constructor: `NewClaudeClient` does not check
  `MaxRequestsPerMinute` (`claude.go:106`), so a negative value panics in
  the limiter; the model requires a non-negative value instead.
- Goroutines, the `sync.WaitGroup`, the mutexes and the semaphore are
  modelled sequentially:
  - the fan-in's completion order is an arbitrary choice, and every property
    holds for every choice;
  - a full semaphore or an empty bucket would block; both are preconditions.
- The rate limiter's ticker goroutine is left out. One tick is the method
  `Refill`, and the caller decides when it runs.
- MigrationAssets.Collect: it is proved for any goroutine body. The fan-in
  runs it on the specification `AppTerraform`. The goroutine body over the
  imperative repair loop is `GenerateAppTerraform`, proved equal to
  `AppTerraform`.
- GoStrings.ToLower: only ASCII letters are lower-cased. Go's
  `strings.ToLower` also maps the other Unicode upper-case letters.
  Strings are sequences of code points; UTF-8 bytes are not modelled.
- Claude.ClaudeClient.Messages: the `X-API-Key` header and the response
  status are folded into the exchange oracle.
- Bedrock.BedrockClient.Messages: the semaphore is acquired and released
  around the whole call. Go's deferred release is modelled as the last
  statement.
- The test file `pkg/qovery/qovery_test.go` calls `TranslateConfig` with
  the command-line provider's signature, so it is modelled against the
  command-line provider (`CliQovery.TranslateConfigExample`).
