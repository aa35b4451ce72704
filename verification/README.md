# arc-git `annotate`, modelled in Dafny

`arc-git annotate` walks a range of git commits. For each commit it asks an
AI service for a short technical annotation and stores it as a git note
under the `ai` notes ref. This project models the logic of that command
(internal/cmd/annotate.go and internal/prompt/annotate.go) as pure Dafny
functions, methods and lemmas. It covers:

- the `git log` argument list and the parser for its
  four-lines-per-commit output (`getCommits`);
- the per-commit decision chain, the three tallies and the results
  (`runAnnotate`'s loop);
- the run as a whole: a failing `git log`, an empty list, an invalid
  configuration, client creation;
- the flag overrides of the AI configuration (`RunE`);
- the request sent to the AI service (`generateAnnotation`,
  `prompt.AnnotateCommit`).

Every effect on the outside world is an input.

- `Annotate.CommitOracle` holds, for one commit:
  - whether a note exists;
  - what `git show` returns;
  - what the AI service replies;
  - whether writing the note succeeds.
- `Annotate.Env` holds, for the run:
  - the output of `git log` for each argument list;
  - the outcome of `ai.ValidateConfig`;
  - the outcome of `ai.NewClient`.

The model also returns the effects the run would invoke, as a sequence of
`Annotate.Call`s. This makes "a dry run never writes a note" or "with
`--force` no note is looked up" statements about the model's output.

Modules, one file each:

- `results.dfy`, module `Results`: `Option`, `Result` and `Outcome`, which
  stand for Go's `(value, error)` pairs.
- `text.dfy`, module `Text`: the parts of Go's standard library the command
  relies on. These are `strings.TrimSpace` with Go's `unicode.IsSpace`,
  `strings.Split(s, "\n")` and the `%d` verb. It also has `JoinLines`,
  which builds the newline-separated text `git log` prints
  (`GitLog.LogText`); the command itself never joins lines.
- `prompt.dfy`, module `Prompt`: the prompt template and the fixed model
  name, plus a reader that recovers the template's fields.
- `gitlog.dfy`, module `GitLog`: `Commit`, the argument list, and two
  versions of the parser, the loop as written and the corrected loop. It
  also has the text `git log` prints for a list of commits, so that the
  parser can be stated as an inverse.
- `config.dfy`, module `Config`: the flag overrides.
- `annotate.dfy`, module `Annotate`: the decision chain (`Step`), the loop
  (`AnnotateCommits`) and the run (`RunAnnotate`).

A dry-run preview falls through to `annotated++`
(internal/cmd/annotate.go:236), so `annotated` counts successes plus
previews.

## Model

| member | source | states |
|---|---|---|
| Text.TrimSpace | internal/cmd/annotate.go:303 | The trimmed log output is an infix of the output with only white space cut before and after it, and it neither starts nor ends with white space. |
| Text.TrimSpaceFixedPoint | internal/cmd/annotate.go:303 | Trimming leaves a string unchanged exactly when it is empty or neither end is white space. |
| Text.TrimSpaceIdempotent | internal/cmd/annotate.go:372 | Trimming the AI reply a second time changes nothing. |
| Text.TrimSpaceTrailingSpace | internal/cmd/annotate.go:303 | White space appended to any text is removed by trimming and nothing else changes. |
| Text.TrimSpaceTrailingNewlines | internal/cmd/annotate.go:303 | Two trailing newlines after text with no white space at either end are exactly what trimming removes. |
| Text.SplitLines | internal/cmd/annotate.go:303 | Splitting on newlines gives at least one piece, and no piece contains a newline. |
| Text.JoinSplitLines | internal/cmd/annotate.go:303 | Joining the pieces of a split with newlines gives back the original text. |
| Text.SplitJoinLines | internal/cmd/annotate.go:303 | Splitting the newline-join of newline-free lines gives back the lines. |
| Text.SplitLinesCons | internal/cmd/annotate.go:303 | A newline-free line followed by a newline splits off as the first piece. |
| Text.JoinLinesSnoc | internal/cmd/annotate.go:303 | Joining one more line appends a newline and that line. |
| Text.JoinLinesEnds | internal/cmd/annotate.go:303 | The joined text starts with the first line and ends with the last. |
| Text.NatToDecimal | internal/cmd/annotate.go:293 | The `%d` text of a natural number is a non-empty string of digits without a leading zero. |
| Text.IntToDecimal | internal/cmd/annotate.go:293 | The `%d` text of an integer is non-empty and starts with a minus sign exactly when the integer is negative. |
| Text.NatDecimalRoundTrip | internal/cmd/annotate.go:293 | Reading back the digits of a natural number gives the number. |
| Text.ReadUnsigned | internal/cmd/annotate.go:293 | A non-empty string of digits reads back as its value. |
| Text.ReadNegative | internal/cmd/annotate.go:293 | A minus sign before a non-empty string of digits reads back as the negated value. |
| Text.NonNegativeDecimalRoundTrip | internal/cmd/annotate.go:293 | A non-negative count is formatted without a sign and reads back as itself. |
| Text.NegativeDecimalRoundTrip | internal/cmd/annotate.go:293 | A negative count is formatted as a minus sign before its magnitude's digits and reads back as itself. |
| Text.DecimalRoundTrip | internal/cmd/annotate.go:293 | The `-n<since>` count, read back as a signed integer, is `since` for every integer. |
| Prompt.AnnotateCommit | internal/prompt/annotate.go:10-37 | The system instruction is the same constant for every input. The user instruction is the template's fixed length plus the lengths of the five fields, so nothing is truncated or escaped. |
| Prompt.TakeFieldReads | internal/prompt/annotate.go:24-34 | A newline-free field followed by a newline-led separator is read back, together with the rest of the text. |
| Prompt.UserPromptRoundTrip | internal/prompt/annotate.go:24-34 | The user instruction lists hash, author, date, message and diff in that order, though the parameters come as hash, message, author, date. All five are read back, the diff verbatim, when the first four are single lines. |
| Prompt.UserPromptInjective | internal/prompt/annotate.go:24-34 | Different single-line fields or different diffs never produce the same user instruction. |
| GitLog.LogArgs | internal/cmd/annotate.go:288-294 | The argument list is always `log`, the four-line format and `--no-merges`, followed by exactly one selection argument. |
| GitLog.RangeIgnoresSince | internal/cmd/annotate.go:290-291 | With `from` set, the selection is `from..to` and the count plays no part. |
| GitLog.CountIgnoresTo | internal/cmd/annotate.go:292-293 | Without `from`, `to` plays no part, and the selection is `-n` followed by a decimal that reads back as `since`. |
| GitLog.ParseFrom | internal/cmd/annotate.go:304-314 | Parsing from line `i` yields nothing or starts with the record at `i`: hash, author, date and message from four consecutive lines. |
| GitLog.ParseFromAt | internal/cmd/annotate.go:304-314 | The `j`th commit parsed from line `i` is the full record at line `i+4j`, and that record's hash line is non-empty. |
| GitLog.ParseFromStops | internal/cmd/annotate.go:304-307 | Parsing stops only where the next record lacks a line or has an empty hash line. |
| GitLog.ParseLog | internal/cmd/annotate.go:303-314 | The corrected loop reads only full four-line records, commit `j` from lines `4j..4j+3` with a non-empty hash, and it stops exactly at the first missing or hashless record. |
| GitLog.ParseFromAsWrittenAgrees | internal/cmd/annotate.go:304-314 | From any line, the loop as written indexes out of range exactly when it reaches a three-line tail. Otherwise it returns what the corrected loop returns. |
| GitLog.ShortTailStep | internal/cmd/annotate.go:304 | Passing over one complete record with a hash does not change whether a three-line tail is reached. |
| GitLog.ParseLogAsWrittenAgrees | internal/cmd/annotate.go:304-314 | The loop as written panics, at index `len(lines)`, exactly on the inputs that reach a three-line tail. On every other input it returns the corrected loop's commits. |
| GitLog.ParseLogFullRecords | internal/cmd/annotate.go:304-314 | Given `4k` lines with a hash at every record start, the parser returns `k` commits, each field taken from its line. |
| GitLog.ParseLogStopsAtEmptyHash | internal/cmd/annotate.go:305-307 | Nothing from an empty hash line onwards is returned. |
| GitLog.ParseFromIgnoresFragment | internal/cmd/annotate.go:304 | A trailing fragment of one or two lines after whole records adds no commit. |
| GitLog.ParseLogIgnoresFragment | internal/cmd/annotate.go:304 | A trailing fragment of one or two lines after whole records adds no commit. |
| GitLog.EmptyLogHasNoCommits | internal/cmd/annotate.go:303-307 | Empty or all-white-space output trims to `""` and lists no commits in either version of the loop. |
| GitLog.GetCommits | internal/cmd/annotate.go:296-316 | A failing `git log` gives an error wrapped as `git log failed: ...`, and only then is there an error. |
| GitLog.GetCommitsAsWritten | internal/cmd/annotate.go:296-316 | Wherever the loop as written does not panic, `getCommits` returns the commits that loop returns. |
| GitLog.ParseFromAsWritten | internal/cmd/annotate.go:304-314 | The loop as written, from line `i`, can only panic on index `len(lines)`, after `len(lines) - i` lines of the form `4k+3`. Any commits it returns start with the record at line `i` and lie within the lines. |
| GitLog.ParseLogAsWritten | internal/cmd/annotate.go:304-314 | From the first line, a panic is always at index `len(lines)` on a line count of the form `4k+3`, and the returned commits fit four lines each into the lines. |
| GitLog.CommitsFromLog | internal/cmd/annotate.go:303-314 | Every commit read from the trimmed, split output has single-line fields and a non-empty hash. |
| GitLog.CommitsFromLogAsWritten | internal/cmd/annotate.go:303-314 | With the loop as written, the output either gives the corrected loop's commits or, exactly when its lines reach a three-line tail, an index-out-of-range panic. |
| GitLog.RecordLines | internal/cmd/annotate.go:288 | The format prints four lines per commit. |
| GitLog.RecordLinesAt | internal/cmd/annotate.go:288 | Record `j` prints hash, author, date and subject on lines `4j` to `4j+3`. |
| GitLog.RecordLinesEnds | internal/cmd/annotate.go:288 | The printed lines start with the first commit's hash and end with the last commit's date and subject. |
| GitLog.RecordLinesSingle | internal/cmd/annotate.go:288 | Commits with single-line fields print only newline-free lines. |
| GitLog.LogTextRoundTrip | internal/cmd/annotate.go:288-314 | Parsing the log `git log` prints for a list of commits gives the list back, in both versions of the loop. This holds when the fields are single lines, every hash is set, and trimming cannot eat into the first hash or the last subject. |
| GitLog.FullRecordLines | internal/cmd/annotate.go:303 | The printed lines of such a list are newline-free, the first does not start with white space, and the last does not end with it. |
| GitLog.TrimmedJoinKeepsLines | internal/cmd/annotate.go:303 | Trimming and splitting newline-terminated lines gives the lines back when neither end of the text is white space. |
| GitLog.ParseRecordLines | internal/cmd/annotate.go:304-314 | Both versions of the loop read printed records back in full. |
| GitLog.ParseLogExact | internal/cmd/annotate.go:304-314 | Records with hashes that fill the lines up to a tail of fewer than four lines are exactly what the corrected loop returns. |
| GitLog.JoinedTextTrimmed | internal/cmd/annotate.go:303 | Joined lines whose text neither starts nor ends with white space survive trimming unchanged. |
| GitLog.EmptyLastSubjectPanics | internal/cmd/annotate.go:303-314 | If the oldest listed commit has an empty subject, the loop as written indexes past the end at line `4n-1`. The corrected loop returns every commit but that one. |
| GitLog.TrimmedLogLosesEmptySubject | internal/cmd/annotate.go:303 | If the oldest listed commit has an empty subject, trimming removes its subject line, leaving all printed lines but the last. |
| GitLog.EmptySubjectLines | internal/cmd/annotate.go:303 | With an empty last subject, the printed lines are the lines before it plus an empty line. The lines before it neither start nor end with white space. |
| GitLog.ShortLogReachesShortTail | internal/cmd/annotate.go:304 | Printed records without their final line reach a three-line tail. |
| GitLog.ShortLogDropsLastRecord | internal/cmd/annotate.go:304-314 | The corrected loop reads all but the last commit from printed records that lack their final line. |
| Config.Override | internal/cmd/annotate.go:79-87 | A flag replaces its setting exactly when it is non-empty. |
| Config.ApplyFlags | internal/cmd/annotate.go:78-87 | Provider, API key and default model each take their flag when it is non-empty and keep the loaded value otherwise. Every other field is copied. |
| Config.NoFlagsKeepConfig | internal/cmd/annotate.go:78-87 | Without flags the loaded configuration is used unchanged. |
| Config.ApplyFlagsIdempotent | internal/cmd/annotate.go:78-87 | Applying the same flags again changes nothing. |
| Config.ApplyFlagsCompose | internal/cmd/annotate.go:78-87 | Two rounds of flags act as one round in which each field takes the later non-empty flag. |
| Annotate.RequestPrompts | internal/cmd/annotate.go:360 | Every request's system instruction is the fixed constant. |
| Annotate.GetCommitDiff | internal/cmd/annotate.go:320-327 | The diff is `git show`'s output when it succeeds. Otherwise the error is wrapped as `git show failed: ...`. |
| Annotate.AnnotationRequest | internal/cmd/annotate.go:360-367 | The request names the fixed annotation model whatever the configuration says. |
| Annotate.AnnotationRequestText | internal/cmd/annotate.go:360-367 | The request's user instruction carries the 7-character short hash, the author, the date, the subject and the diff, and all of them can be read back. |
| Annotate.GenerateAnnotation | internal/cmd/annotate.go:368-372 | A reply gives its text with surrounding white space removed, and the result needs no further trimming. An error gives `AI request failed: ...`. |
| Annotate.StepCallsMade | internal/cmd/annotate.go:159-234 | How far a commit got fixes its calls. The note check comes first, and only without `--force`. The diff is fetched once the gate is passed, the AI is asked once the diff is non-empty, and a note is written only at the write stage. |
| Annotate.Step | internal/cmd/annotate.go:156-237 | Each commit gets one result with its short hash and one counter bump matching its status. A dry run never succeeds or writes, and only a dry run previews. Any request names the fixed model. |
| Annotate.StepGate | internal/cmd/annotate.go:159-169 | A commit is skipped as already annotated exactly when `--force` is off and it has a note. The note check is the first call, and the diff is fetched exactly when the gate lets the commit through. |
| Annotate.StepDiffError | internal/cmd/annotate.go:171-182 | Past the gate, a failing `git show` fails the commit with `failed to get diff: git show failed: ...`, and the AI is not asked. |
| Annotate.StepEmptyDiff | internal/cmd/annotate.go:184-193 | Past the gate, an empty diff skips the commit as `no diff (merge commit?)`, with or without `--force`, and the AI is not asked. |
| Annotate.StepGenerationError | internal/cmd/annotate.go:195-207 | A failed AI request fails the commit with `failed to generate annotation: AI request failed: ...`, and no note is written. |
| Annotate.StepGenerated | internal/cmd/annotate.go:209-236 | A dry run previews the trimmed reply, counts it as annotated and writes no note. Otherwise the trimmed reply is written. A successful write gives a success carrying the annotation, counted as annotated. A failed write gives a failure with `failed to add note: ...` and no annotation, counted as failed. |
| Annotate.CounterFor | internal/cmd/annotate.go:162-236 | Successes and previews bump `annotated`, skips bump `skipped`, and failures bump `failed`, each exactly for those statuses. |
| Annotate.StepCallsNameCommit | internal/cmd/annotate.go:159-234 | Without `--force` the first call is the note check. Every note check, `git show` and note write names the commit's hash, and the notes calls use the `ai` ref. |
| Annotate.Outcomes | internal/cmd/annotate.go:156 | The loop has one outcome per commit. |
| Annotate.ResultsOf | internal/cmd/annotate.go:154-237 | There is one result per pass of the loop, so one per commit. |
| Annotate.StepChecks | internal/cmd/annotate.go:160 | A pass looks up the note exactly when `--force` is off, and that lookup is its first call. |
| Annotate.StepFetches | internal/cmd/annotate.go:171-172 | A pass fetches the diff exactly when it got past the note check. |
| Annotate.StepAsks | internal/cmd/annotate.go:195-197 | A pass asks the AI exactly when its diff was fetched and non-empty. |
| Annotate.StepModels | internal/cmd/annotate.go:363-367 | A pass's AI call, if any, carries the request of the stage it reached. |
| Annotate.StepAdds | internal/cmd/annotate.go:217-218 | A pass writes a note exactly when it reached the write stage. |
| Annotate.CallsOfChecks | internal/cmd/annotate.go:156-160 | The loop looks up notes exactly when `--force` is off and there is at least one commit. |
| Annotate.CallsOfFetches | internal/cmd/annotate.go:156-172 | The loop fetches no diff exactly when every commit stopped at the note check. |
| Annotate.CallsOfAsks | internal/cmd/annotate.go:156-197 | The loop asks the AI nothing exactly when no commit got past its diff. |
| Annotate.CallsOfAdds | internal/cmd/annotate.go:156-218 | The loop writes no note exactly when no commit reached the write stage. |
| Annotate.CallsOfModels | internal/cmd/annotate.go:156-237 | Every AI request of the loop names the fixed model exactly when every commit's request does. |
| Annotate.ResultsOfSnoc | internal/cmd/annotate.go:163-233 | Each pass appends its result after those of the earlier passes. |
| Annotate.CallsOfSnoc | internal/cmd/annotate.go:156-237 | Each pass's calls come after those of the earlier passes. |
| Annotate.TallySnoc | internal/cmd/annotate.go:162-236 | Bumping the counter for one more result keeps `annotated`, `skipped` and `failed` equal to the number of success-or-preview, skipped and failed results. |
| Annotate.CountsPartition | internal/cmd/annotate.go:156-237 | Every result has exactly one of the four statuses. |
| Annotate.AnnotateCommits | internal/cmd/annotate.go:142-237 | The loop yields exactly the per-commit results, in commit order, and their calls. `annotated` counts successes plus previews, `skipped` counts skips and `failed` counts failures, and the three add up to the number of commits. |
| Annotate.ResultHashes | internal/cmd/annotate.go:156-237 | Result `i` carries the 7-character short hash of commit `i`. |
| Annotate.DryRunWritesNoNote | internal/cmd/annotate.go:210-217 | A dry run writes no note and reports no success, so every commit it counts as annotated is a preview. |
| Annotate.NoPreviewWithoutDryRun | internal/cmd/annotate.go:209-234 | Without `--dry-run` no result is a preview. |
| Annotate.ForceChecksNoNote | internal/cmd/annotate.go:160 | With `--force` no note is ever looked up. |
| Annotate.LoopUsesAnnotateModel | internal/cmd/annotate.go:363-367 | Whatever `--model` says, every AI request of the loop names the fixed annotation model. |
| Annotate.NotedCommitsGated | internal/cmd/annotate.go:159-169 | Without `--force`, every commit that already has a note stops at the note check and is skipped. |
| Annotate.AllAnnotatedSkipsAll | internal/cmd/annotate.go:156-169 | If every commit already has a note, a run without `--force` skips all of them: no diff is fetched, the AI is not asked, and no note is written. |
| Annotate.RunAnnotate | internal/cmd/annotate.go:106-273 | The run starts with `git log`. A failing `git log` is fatal with `failed to get commits: git log failed: ...`. The run ends with nothing to annotate exactly when the log lists no commits, and then makes no other call. Otherwise the configuration is validated, and an invalid configuration is fatal. The client is created next, and a failure there is fatal too. The run completes exactly when both succeed. A completed run's results are the loop's per-commit results for the listed commits, in order, with the loop's tallies. A dry run writes no note, `--force` looks up no note, and every AI request names the fixed model. |
| Annotate.RunWithCommits | internal/cmd/annotate.go:130-237 | Past a non-empty commit list, the configuration is validated first and the client created second. Each failure is fatal with its own wrapped message and stops further calls. The run completes exactly when both succeed, and the summary then holds the loop's results for each commit. |
| Annotate.RunLoop | internal/cmd/annotate.go:142-237 | The summary holds the loop's results and calls for the world's answers per commit. Its total is the number of commits, the tallies partition the total, and result `i` carries commit `i`'s short hash. A dry run writes no note and `--force` looks up none. |
| Annotate.RunAnnotateCommand | internal/cmd/annotate.go:72-90 | The configuration validated is the loaded one with the flags applied, so `--model` sets its default model. Every AI request still names the fixed annotation model, and `--dry-run` writes no note. |

## Left out

- The `exec.Command` calls for `git log`, `git show`, `git notes show` and `git notes add` are not modelled as processes. Their answers are inputs (`Env`, `CommitOracle`), and the calls are recorded as `Call` values.
- `addNote` writes the note to a temporary file before calling `git notes add`. This staging and cleanup is filesystem I/O and is left out; the model only records the write and its outcome.
- `ai.ValidateConfig`, `ai.NewClient`, `ai.NewService` and `service.Run` belong to an AI SDK that is not part of this model. Their outcomes and replies are inputs.
- Cobra command and flag wiring, flag defaults, internal/cmd/root.go and main.go are left out. They are command-line plumbing with no logic to model.
- Printing, the JSON encoding of the summary, `output.OutputOptions` and `outputOpts.Resolve` are left out. They are formatting through a package that is not part of this model. One behaviour is noted but not modelled: the `yaml` output option suppresses the progress lines, yet still falls through to the text summary.
- `Hash[:7]` is not modelled as a possible panic. Hashes are assumed to have at least 7 characters (`Annotate.HashesShortenable`, `Annotate.LogHashesShortenable`), as full git hashes do.
- `since` is an unbounded integer, whereas Go's `int` is 64 bits wide. Only `%d` formatting touches it, and that formatting does not depend on the width.
- Strings are sequences of Unicode code points, not UTF-8 bytes. `strings.TrimSpace` on invalid UTF-8 is not modelled.
- The fields of `ai.Config` other than provider, API key and default model are an opaque map, copied unchanged.
- `Annotate.AiRun` records the template fields and the model of a request rather than the prompt texts. `Annotate.RequestPrompts` computes the texts, and `Prompt.UserPromptRoundTrip` and `Prompt.UserPromptInjective` show that the fields and the text determine each other.
- `ai.NewService` has no effect of its own and is not recorded as a call.
- GitLog.GetCommits: uses the corrected loop (`GitLog.ParseLog`). On a trimmed log of `4k+3` lines with every record hash set, the source panics at internal/cmd/annotate.go:312, while `GetCommits` returns the commits before the incomplete record. `GitLog.CommitsFromLogAsWritten` and `GitLog.ParseLogAsWrittenAgrees` state exactly which logs those are, and `GitLog.GetCommitsAsWritten` shows that `GetCommits` agrees with the loop as written on every other log.
- Annotate.RunAnnotate: runs on `GitLog.GetCommits`, so on the logs above it completes with the commits before the incomplete record, where the source panics.

## Findings

| source | as written | input that shows it | evidently intended | confidence | as-written member | corrected member |
|---|---|---|---|---|---|---|
| internal/cmd/annotate.go:304 | The loop guard `i+3 <= len(lines)` admits `i+3 == len(lines)`, and line 312 then reads `lines[i+3]`, one past the end. That is a Go index-out-of-range panic. | A log whose oldest listed commit has an empty subject (`git commit --allow-empty-message`), e.g. the single commit `Commit(hash := "0123456789abcdef", message := "", author := "A <a@x>", date := "Mon Jan 1")`. `git log` prints `hash\nauthor\ndate\n\n`, and `TrimSpace` removes the empty subject line with the trailing newline. That leaves 3 lines, and the guard lets `i = 0` through. | A guard of `i+3 < len(lines)`: only complete four-line records are read. The incomplete record is then dropped, and the commits before it are annotated. | not executed | GitLog.EmptyLastSubjectPanics | GitLog.ParseLog |

The as-written loop is `GitLog.ParseLogAsWritten`. `GitLog.ParseLogAsWrittenAgrees` shows that it panics exactly on the inputs that reach a three-line tail, and agrees with the corrected loop everywhere else. The rest of the model uses the corrected `GitLog.ParseLog`. `GitLog.LogTextRoundTrip` proves that this loop reads back every list of commits whose printed log trims cleanly.
