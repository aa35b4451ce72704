/** The annotate run (`runAnnotate` and `generateAnnotation` in
    internal/cmd/annotate.go): for each selected commit a chain of
    decisions ends in exactly one result and one counter bump.

    Every effect on the outside world is an input. `CommitOracle` holds
    what git and the AI service answer for one commit; `Env` holds the
    answers for the run as a whole. The effects the run would invoke are
    returned as a sequence of `Call`s, so that properties such as "a dry
    run never writes a note" can be stated. */
module Annotate {
  import opened Results
  import opened Text
  import opened Prompt
  import opened GitLog
  import opened Config

  /** The notes ref annotations are stored under. */
  const NotesRef: string := "ai"

  const AlreadyAnnotated: string := "already annotated"
  const NoDiff: string := "no diff (merge commit?)"

  datatype Status = Success | Skipped | Failed | Preview

  /** One entry of the run's results. An empty `message` or `annotation`
      stands for the field the JSON encoding omits. */
  datatype AnnotationResult = AnnotationResult(hash: string, status: Status, message: string, annotation: string)

  /** The three tallies of the run. */
  datatype Counter = AnnotatedCounter | SkippedCounter | FailedCounter

  /** The counter each status is tallied under: previews count as
      annotated. */
  function CounterFor(status: Status): (c: Counter)
    ensures c == AnnotatedCounter <==> status == Success || status == Preview
    ensures c == SkippedCounter <==> status == Skipped
    ensures c == FailedCounter <==> status == Failed
  {
    match status
    case Success => AnnotatedCounter
    case Preview => AnnotatedCounter
    case Skipped => SkippedCounter
    case Failed => FailedCounter
  }

  /** What is sent to the AI service: the fields the prompt template is
      filled with, and the model. The prompt texts themselves are
      `RequestPrompts` of the request. */
  datatype Request = Request(fields: Fields, model: string)

  /** The system and user instructions of a request. */
  function RequestPrompts(r: Request): (p: Prompts)
    ensures p.system == SystemPrompt
  {
    AnnotateCommit(r.fields.hash, r.fields.message, r.fields.author, r.fields.date, r.fields.diff)
  }

  /** An effect on the outside world. */
  datatype Call =
    | GitLog(args: seq<string>)                          // git log <args>
    | ValidateConfig(config: AiConfig)                   // ai.ValidateConfig
    | NewClient(config: AiConfig)                        // ai.NewClient
    | NoteShow(hash: string, ref: string)                // git notes --ref <ref> show <hash>
    | GitShow(hash: string)                              // git show --format= <hash>
    | AiRun(request: Request)                            // service.Run
    | NoteAdd(hash: string, ref: string, text: string)   // addNote

  /** What the outside world answers for one commit: whether a note exists,
      the outcome of `git show`, the AI service's reply, and the outcome of
      writing the note. An answer is only consulted if its call is made. */
  datatype CommitOracle = CommitOracle(hasNote: bool, show: Result<string>, reply: Result<string>, noteAdd: Outcome)

  /** `getCommitDiff`: the output of `git show`, or its wrapped error. */
  function GetCommitDiff(show: Result<string>): (r: Result<string>)
    ensures r.Ok? <==> show.Ok?
    ensures r.Ok? ==> r.value == show.value
    ensures r.Err? ==> r.error == "git show failed: " + show.error
  {
    match show
    case Ok(out) => Ok(out)
    case Err(e) => Err("git show failed: " + e)
  }

  /** The request `generateAnnotation` sends for a commit: the template
      filled with the 7-character short hash, always naming the fixed
      annotation model. */
  function AnnotationRequest(c: Commit, diff: string): (r: Request)
    requires |c.hash| >= 7
    ensures r.model == AnnotateCommitModel
  {
    Request(Fields(c.hash[..7], c.author, c.date, c.message, diff), AnnotateCommitModel)
  }

  /** The texts sent for a commit: the fixed system instruction, and a user
      instruction from which the short hash, the author, the date, the
      subject and the diff can be read back whenever the first four are
      single lines, as `git log`'s fields are. */
  lemma AnnotationRequestText(c: Commit, diff: string)
    requires |c.hash| >= 7
    ensures RequestPrompts(AnnotationRequest(c, diff)).system == SystemPrompt
    ensures '\n' !in c.author && '\n' !in c.date && '\n' !in c.message && '\n' !in c.hash ==>
              ReadUserPrompt(RequestPrompts(AnnotationRequest(c, diff)).user)
              == Some(Fields(c.hash[..7], c.author, c.date, c.message, diff))
  {
    if '\n' !in c.author && '\n' !in c.date && '\n' !in c.message && '\n' !in c.hash {
      assert '\n' !in c.hash[..7];
      UserPromptRoundTrip(c.hash[..7], c.message, c.author, c.date, diff);
    }
  }

  /** `generateAnnotation` after the request: the reply with surrounding
      white space removed, or the wrapped error. */
  function GenerateAnnotation(reply: Result<string>): (r: Result<string>)
    ensures r.Ok? <==> reply.Ok?
    ensures r.Ok? ==> TrimSpace(r.value) == r.value && r.value == TrimSpace(reply.value)
    ensures r.Err? ==> r.error == "AI request failed: " + reply.error
  {
    match reply
    case Ok(text) =>
      TrimSpaceIdempotent(text);
      Ok(TrimSpace(text))
    case Err(e) => Err("AI request failed: " + e)
  }

  /** How far a commit got: the note check, the diff, the AI request, or
      the note write. */
  datatype Reach = Gated | Fetched | Asked(request: Request) | Wrote(request: Request, annotation: string)

  /** The outcome of one pass of the loop body. */
  datatype StepOutcome = StepOutcome(result: AnnotationResult, bump: Counter, reach: Reach)

  /** The effects of a commit that got as far as `reach`: the note check
      unless `--force` is given, then one call per stage entered. */
  function StepCalls(c: Commit, force: bool, reach: Reach): seq<Call> {
    var gate := if force then [] else [NoteShow(c.hash, NotesRef)];
    match reach
    case Gated => gate
    case Fetched => gate + [GitShow(c.hash)]
    case Asked(request) => gate + [GitShow(c.hash), AiRun(request)]
    case Wrote(request, annotation) => gate + [GitShow(c.hash), AiRun(request), NoteAdd(c.hash, NotesRef, annotation)]
  }

  predicate AddsNoNote(calls: seq<Call>) {
    forall i :: 0 <= i < |calls| ==> !calls[i].NoteAdd?
  }

  predicate ChecksNoNote(calls: seq<Call>) {
    forall i :: 0 <= i < |calls| ==> !calls[i].NoteShow?
  }

  predicate FetchesNoDiff(calls: seq<Call>) {
    forall i :: 0 <= i < |calls| ==> !calls[i].GitShow?
  }

  predicate AsksNoAi(calls: seq<Call>) {
    forall i :: 0 <= i < |calls| ==> !calls[i].AiRun?
  }

  /** Every AI request names the fixed annotation model. */
  predicate RequestsUseAnnotateModel(calls: seq<Call>) {
    forall i :: 0 <= i < |calls| && calls[i].AiRun? ==> calls[i].request.model == AnnotateCommitModel
  }

  /** Without `--force` a commit's pass starts with the note check. Every
      git call of the pass names that commit, and the notes calls use the
      `ai` ref. */
  lemma StepCallsNameCommit(c: Commit, force: bool, reach: Reach)
    ensures var calls := StepCalls(c, force, reach);
            !force ==> |calls| >= 1 && calls[0] == NoteShow(c.hash, NotesRef)
    ensures var calls := StepCalls(c, force, reach);
            forall i :: 0 <= i < |calls| ==>
              || (calls[i].NoteShow? && calls[i].hash == c.hash && calls[i].ref == NotesRef)
              || (calls[i].GitShow? && calls[i].hash == c.hash)
              || calls[i].AiRun?
              || (calls[i].NoteAdd? && calls[i].hash == c.hash && calls[i].ref == NotesRef)
  {
  }

  /** Which calls a commit's pass makes, by how far it got. */
  lemma StepCallsMade(c: Commit, force: bool, reach: Reach)
    ensures var calls := StepCalls(c, force, reach);
            && (!force ==> calls[0] == NoteShow(c.hash, NotesRef))
            && (ChecksNoNote(calls) <==> force)
            && (FetchesNoDiff(calls) <==> reach.Gated?)
            && (AsksNoAi(calls) <==> reach.Gated? || reach.Fetched?)
            && (AddsNoNote(calls) <==> !reach.Wrote?)
            && (RequestsUseAnnotateModel(calls)
                <==> (reach.Asked? || reach.Wrote? ==> reach.request.model == AnnotateCommitModel))
  {
    StepChecks(c, force, reach);
    StepFetches(c, force, reach);
    StepAsks(c, force, reach);
    StepModels(c, force, reach);
    StepAdds(c, force, reach);
  }

  /** The loop body for one commit: the note check (skipped with
      `--force`), the diff, the AI request, and the note write (skipped in
      a dry run); the first stage that stops the commit decides its
      result. */
  function Step(c: Commit, o: CommitOracle, force: bool, dryRun: bool): (s: StepOutcome)
    requires |c.hash| >= 7
    ensures s.result.hash == c.hash[..7]
    ensures s.bump == CounterFor(s.result.status)
    ensures dryRun ==> s.result.status != Success && !s.reach.Wrote?
    ensures !dryRun ==> s.result.status != Preview
    ensures s.reach.Asked? || s.reach.Wrote? ==> s.reach.request.model == AnnotateCommitModel
  {
    var short := c.hash[..7];
    if !force && o.hasNote then
      StepOutcome(AnnotationResult(short, Skipped, AlreadyAnnotated, ""), SkippedCounter, Gated)
    else
      match GetCommitDiff(o.show)
      case Err(e) =>
        StepOutcome(AnnotationResult(short, Failed, "failed to get diff: " + e, ""), FailedCounter, Fetched)
      case Ok(diff) =>
        if |diff| == 0 then
          StepOutcome(AnnotationResult(short, Skipped, NoDiff, ""), SkippedCounter, Fetched)
        else
          var request := AnnotationRequest(c, diff);
          match GenerateAnnotation(o.reply)
          case Err(e) =>
            StepOutcome(AnnotationResult(short, Failed, "failed to generate annotation: " + e, ""),
                        FailedCounter, Asked(request))
          case Ok(annotation) =>
            if dryRun then
              StepOutcome(AnnotationResult(short, Preview, "", annotation), AnnotatedCounter, Asked(request))
            else
              match o.noteAdd
              case Fail(e) =>
                StepOutcome(AnnotationResult(short, Failed, "failed to add note: " + e, ""), FailedCounter,
                            Wrote(request, annotation))
              case Pass =>
                StepOutcome(AnnotationResult(short, Success, "", annotation), AnnotatedCounter,
                            Wrote(request, annotation))
  }

  /** The gate: a commit is skipped as already annotated exactly when
      `--force` is off and it has a note; the note check comes first, and a
      skipped commit's diff is never fetched. */
  lemma StepGate(c: Commit, o: CommitOracle, force: bool, dryRun: bool)
    requires |c.hash| >= 7
    ensures var s := Step(c, o, force, dryRun);
            (s.result.status == Skipped && s.result.message == AlreadyAnnotated) <==> (!force && o.hasNote)
    ensures var calls := StepCalls(c, force, Step(c, o, force, dryRun).reach);
            !force ==> calls[0] == NoteShow(c.hash, NotesRef)
    ensures var calls := StepCalls(c, force, Step(c, o, force, dryRun).reach);
            FetchesNoDiff(calls) <==> (!force && o.hasNote)
  {
    StepCallsMade(c, force, Step(c, o, force, dryRun).reach);
  }

  /** A failed `git show` fails the commit before the AI is asked. */
  lemma StepDiffError(c: Commit, o: CommitOracle, force: bool, dryRun: bool)
    requires |c.hash| >= 7
    requires force || !o.hasNote
    requires o.show.Err?
    ensures Step(c, o, force, dryRun).result
            == AnnotationResult(c.hash[..7], Failed, "failed to get diff: " + ("git show failed: " + o.show.error), "")
    ensures AsksNoAi(StepCalls(c, force, Step(c, o, force, dryRun).reach))
  {
    StepCallsMade(c, force, Step(c, o, force, dryRun).reach);
  }

  /** An empty diff skips the commit, with or without `--force`. */
  lemma StepEmptyDiff(c: Commit, o: CommitOracle, force: bool, dryRun: bool)
    requires |c.hash| >= 7
    requires force || !o.hasNote
    requires o.show == Ok("")
    ensures Step(c, o, force, dryRun).result == AnnotationResult(c.hash[..7], Skipped, NoDiff, "")
    ensures AsksNoAi(StepCalls(c, force, Step(c, o, force, dryRun).reach))
  {
    StepCallsMade(c, force, Step(c, o, force, dryRun).reach);
  }

  /** A failed AI request fails the commit and writes no note. */
  lemma StepGenerationError(c: Commit, o: CommitOracle, force: bool, dryRun: bool)
    requires |c.hash| >= 7
    requires force || !o.hasNote
    requires o.show.Ok? && o.show.value != ""
    requires o.reply.Err?
    ensures Step(c, o, force, dryRun).result
            == AnnotationResult(c.hash[..7], Failed, "failed to generate annotation: " + ("AI request failed: " + o.reply.error), "")
    ensures AddsNoNote(StepCalls(c, force, Step(c, o, force, dryRun).reach))
  {
    StepCallsMade(c, force, Step(c, o, force, dryRun).reach);
  }

  /** Past generation: a dry run previews the trimmed reply and writes
      nothing; otherwise the note is written, and the commit succeeds
      exactly when the write does. */
  lemma StepGenerated(c: Commit, o: CommitOracle, force: bool, dryRun: bool)
    requires |c.hash| >= 7
    requires force || !o.hasNote
    requires o.show.Ok? && o.show.value != ""
    requires o.reply.Ok?
    ensures var s := Step(c, o, force, dryRun);
            dryRun ==> && s.result == AnnotationResult(c.hash[..7], Preview, "", TrimSpace(o.reply.value))
                       && s.bump == AnnotatedCounter
                       && AddsNoNote(StepCalls(c, force, s.reach))
    ensures var s := Step(c, o, force, dryRun);
            !dryRun ==> && s.reach == Wrote(AnnotationRequest(c, o.show.value), TrimSpace(o.reply.value))
                        && !AddsNoNote(StepCalls(c, force, s.reach))
    ensures var s := Step(c, o, force, dryRun);
            !dryRun && o.noteAdd.Pass? ==>
              && s.result == AnnotationResult(c.hash[..7], Success, "", TrimSpace(o.reply.value))
              && s.bump == AnnotatedCounter
    ensures var s := Step(c, o, force, dryRun);
            !dryRun && o.noteAdd.Fail? ==>
              && s.result == AnnotationResult(c.hash[..7], Failed, "failed to add note: " + o.noteAdd.error, "")
              && s.bump == FailedCounter
  {
    StepCallsMade(c, force, Step(c, o, force, dryRun).reach);
  }

  predicate HashesShortenable(commits: seq<Commit>) {
    forall i :: 0 <= i < |commits| ==> |commits[i].hash| >= 7
  }

  /** The outcome of every pass of the loop, in commit order. */
  function Outcomes(commits: seq<Commit>, oracles: seq<CommitOracle>, force: bool, dryRun: bool)
    : (os: seq<StepOutcome>)
    requires |oracles| == |commits| && HashesShortenable(commits)
    ensures |os| == |commits|
  {
    seq(|commits|, i requires 0 <= i < |commits| => Step(commits[i], oracles[i], force, dryRun))
  }

  /** `os` holds the outcomes of the first `|os|` commits. */
  predicate OutcomesFor(os: seq<StepOutcome>, commits: seq<Commit>, oracles: seq<CommitOracle>, force: bool, dryRun: bool)
    requires |oracles| == |commits| && HashesShortenable(commits)
  {
    && |os| <= |commits|
    && forall j {:trigger Step(commits[j], oracles[j], force, dryRun)} ::
         0 <= j < |os| ==> os[j] == Step(commits[j], oracles[j], force, dryRun)
  }

  /** One pass of the loop body: the next commit's outcome. */
  method Visit(commits: seq<Commit>, oracles: seq<CommitOracle>, os: seq<StepOutcome>, force: bool, dryRun: bool)
    returns (s: StepOutcome)
    requires |oracles| == |commits| && HashesShortenable(commits)
    requires OutcomesFor(os, commits, oracles, force, dryRun) && |os| < |commits|
    ensures OutcomesFor(os + [s], commits, oracles, force, dryRun)
    ensures s.bump == CounterFor(s.result.status)
  {
    s := Step(commits[|os|], oracles[|os|], force, dryRun);
  }

  /** Outcomes for every commit are the loop's outcomes. */
  lemma OutcomesForAll(os: seq<StepOutcome>, commits: seq<Commit>, oracles: seq<CommitOracle>, force: bool, dryRun: bool)
    requires |oracles| == |commits| && HashesShortenable(commits)
    requires OutcomesFor(os, commits, oracles, force, dryRun) && |os| == |commits|
    ensures os == Outcomes(commits, oracles, force, dryRun)
  {
  }

  /** The results of the run: one per commit, in commit order. */
  function ResultsOf(os: seq<StepOutcome>): (rs: seq<AnnotationResult>)
    ensures |rs| == |os|
  {
    seq(|os|, i requires 0 <= i < |os| => os[i].result)
  }

  /** One more outcome adds its result at the end. */
  lemma ResultsOfSnoc(os: seq<StepOutcome>, s: StepOutcome)
    ensures ResultsOf(os + [s]) == ResultsOf(os) + [s.result]
  {
    assert forall i :: 0 <= i < |os| ==> ResultsOf(os + [s])[i] == ResultsOf(os)[i];
  }

  /** A pass looks up the note exactly when `--force` is off; the lookup
      comes first. */
  lemma StepChecks(c: Commit, force: bool, reach: Reach)
    ensures ChecksNoNote(StepCalls(c, force, reach)) <==> force
    ensures !force ==> StepCalls(c, force, reach)[0] == NoteShow(c.hash, NotesRef)
  {
    if !force {
      assert StepCalls(c, force, reach)[0].NoteShow?;
    }
  }

  /** A pass fetches the diff exactly when it got past the note check. */
  lemma StepFetches(c: Commit, force: bool, reach: Reach)
    ensures FetchesNoDiff(StepCalls(c, force, reach)) <==> reach.Gated?
  {
    var calls := StepCalls(c, force, reach);
    if !reach.Gated? {
      assert calls[if force then 0 else 1].GitShow?;
    }
  }

  /** A pass asks the AI exactly when it got past the diff. */
  lemma StepAsks(c: Commit, force: bool, reach: Reach)
    ensures AsksNoAi(StepCalls(c, force, reach)) <==> reach.Gated? || reach.Fetched?
  {
    var calls := StepCalls(c, force, reach);
    if reach.Asked? || reach.Wrote? {
      assert calls[if force then 1 else 2].AiRun?;
    }
  }

  /** A pass's request, if it made one, is the request of its reach. */
  lemma StepModels(c: Commit, force: bool, reach: Reach)
    ensures RequestsUseAnnotateModel(StepCalls(c, force, reach))
            <==> (reach.Asked? || reach.Wrote? ==> reach.request.model == AnnotateCommitModel)
  {
    var calls := StepCalls(c, force, reach);
    if reach.Asked? || reach.Wrote? {
      assert calls[if force then 1 else 2] == AiRun(reach.request);
    }
  }

  /** A pass writes a note exactly when it reached the write. */
  lemma StepAdds(c: Commit, force: bool, reach: Reach)
    ensures AddsNoNote(StepCalls(c, force, reach)) <==> !reach.Wrote?
  {
    if reach.Wrote? {
      assert StepCalls(c, force, reach)[|StepCalls(c, force, reach)| - 1].NoteAdd?;
    }
  }

  /** The calls of `a + b` are those of `a` followed by those of `b`. */
  lemma SplitConcat(a: seq<Call>, b: seq<Call>)
    ensures forall i :: 0 <= i < |a| ==> (a + b)[i] == a[i]
    ensures forall i :: 0 <= i < |b| ==> (a + b)[|a| + i] == b[i]
  {
  }

  lemma ChecksConcat(a: seq<Call>, b: seq<Call>)
    ensures ChecksNoNote(a + b) <==> ChecksNoNote(a) && ChecksNoNote(b)
  {
    SplitConcat(a, b);
  }

  lemma FetchesConcat(a: seq<Call>, b: seq<Call>)
    ensures FetchesNoDiff(a + b) <==> FetchesNoDiff(a) && FetchesNoDiff(b)
  {
    SplitConcat(a, b);
  }

  lemma AsksConcat(a: seq<Call>, b: seq<Call>)
    ensures AsksNoAi(a + b) <==> AsksNoAi(a) && AsksNoAi(b)
  {
    SplitConcat(a, b);
  }

  lemma AddsConcat(a: seq<Call>, b: seq<Call>)
    ensures AddsNoNote(a + b) <==> AddsNoNote(a) && AddsNoNote(b)
  {
    SplitConcat(a, b);
  }

  lemma ModelsConcat(a: seq<Call>, b: seq<Call>)
    ensures RequestsUseAnnotateModel(a + b) <==> RequestsUseAnnotateModel(a) && RequestsUseAnnotateModel(b)
  {
    SplitConcat(a, b);
  }

  /** Calls that write no note, look up no note and ask the AI nothing
      leave those three properties of what follows them unchanged. */
  lemma QuietPrefix(a: seq<Call>, b: seq<Call>)
    requires forall i :: 0 <= i < |a| ==> !a[i].NoteAdd? && !a[i].NoteShow? && !a[i].AiRun?
    ensures AddsNoNote(a + b) <==> AddsNoNote(b)
    ensures ChecksNoNote(a + b) <==> ChecksNoNote(b)
    ensures RequestsUseAnnotateModel(a + b) <==> RequestsUseAnnotateModel(b)
  {
    AddsConcat(a, b);
    ChecksConcat(a, b);
    ModelsConcat(a, b);
  }

  /** The effects of the loop's first `k` passes, pass by pass. */
  function CallsOf(commits: seq<Commit>, os: seq<StepOutcome>, force: bool, k: nat): seq<Call>
    requires k <= |os| && k <= |commits|
  {
    if k == 0 then [] else CallsOf(commits, os, force, k - 1) + StepCalls(commits[k - 1], force, os[k - 1].reach)
  }

  /** The calls of the first `k` passes depend only on their outcomes. */
  lemma {:induction false} CallsOfFrame(commits: seq<Commit>, os: seq<StepOutcome>, os2: seq<StepOutcome>, force: bool, k: nat)
    requires k <= |os| && k <= |os2| && k <= |commits|
    requires forall j :: 0 <= j < k ==> os[j] == os2[j]
    ensures CallsOf(commits, os, force, k) == CallsOf(commits, os2, force, k)
  {
    if k > 0 {
      CallsOfFrame(commits, os, os2, force, k - 1);
    }
  }

  /** One more pass adds its calls at the end. */
  lemma CallsOfSnoc(commits: seq<Commit>, os: seq<StepOutcome>, s: StepOutcome, force: bool)
    requires |os| < |commits|
    ensures CallsOf(commits, os + [s], force, |os| + 1)
            == CallsOf(commits, os, force, |os|) + StepCalls(commits[|os|], force, s.reach)
  {
    CallsOfFrame(commits, os, os + [s], force, |os|);
  }

  /** The loop looks up notes exactly when `--force` is off and there is
      at least one commit. */
  lemma {:induction false} CallsOfChecks(commits: seq<Commit>, os: seq<StepOutcome>, force: bool, k: nat)
    requires k <= |os| && k <= |commits|
    ensures ChecksNoNote(CallsOf(commits, os, force, k)) <==> force || k == 0
  {
    if k > 0 {
      CallsOfChecks(commits, os, force, k - 1);
      StepChecks(commits[k - 1], force, os[k - 1].reach);
      ChecksConcat(CallsOf(commits, os, force, k - 1), StepCalls(commits[k - 1], force, os[k - 1].reach));
    }
  }

  /** The loop fetches no diff exactly when every commit stopped at the
      note check. */
  lemma {:induction false} CallsOfFetches(commits: seq<Commit>, os: seq<StepOutcome>, force: bool, k: nat)
    requires k <= |os| && k <= |commits|
    ensures FetchesNoDiff(CallsOf(commits, os, force, k)) <==> forall j :: 0 <= j < k ==> os[j].reach.Gated?
  {
    if k > 0 {
      CallsOfFetches(commits, os, force, k - 1);
      StepFetches(commits[k - 1], force, os[k - 1].reach);
      FetchesConcat(CallsOf(commits, os, force, k - 1), StepCalls(commits[k - 1], force, os[k - 1].reach));
    }
  }

  /** The loop asks the AI nothing exactly when no commit got past its
      diff. */
  lemma {:induction false} CallsOfAsks(commits: seq<Commit>, os: seq<StepOutcome>, force: bool, k: nat)
    requires k <= |os| && k <= |commits|
    ensures AsksNoAi(CallsOf(commits, os, force, k))
            <==> forall j :: 0 <= j < k ==> os[j].reach.Gated? || os[j].reach.Fetched?
  {
    if k > 0 {
      CallsOfAsks(commits, os, force, k - 1);
      StepAsks(commits[k - 1], force, os[k - 1].reach);
      AsksConcat(CallsOf(commits, os, force, k - 1), StepCalls(commits[k - 1], force, os[k - 1].reach));
    }
  }

  /** The loop writes no note exactly when no commit reached the write. */
  lemma {:induction false} CallsOfAdds(commits: seq<Commit>, os: seq<StepOutcome>, force: bool, k: nat)
    requires k <= |os| && k <= |commits|
    ensures AddsNoNote(CallsOf(commits, os, force, k)) <==> forall j :: 0 <= j < k ==> !os[j].reach.Wrote?
  {
    if k > 0 {
      CallsOfAdds(commits, os, force, k - 1);
      StepAdds(commits[k - 1], force, os[k - 1].reach);
      AddsConcat(CallsOf(commits, os, force, k - 1), StepCalls(commits[k - 1], force, os[k - 1].reach));
    }
  }

  /** The loop's AI requests all name the fixed model exactly when every
      commit's request does. */
  lemma {:induction false} CallsOfModels(commits: seq<Commit>, os: seq<StepOutcome>, force: bool, k: nat)
    requires k <= |os| && k <= |commits|
    ensures RequestsUseAnnotateModel(CallsOf(commits, os, force, k))
            <==> forall j :: 0 <= j < k && (os[j].reach.Asked? || os[j].reach.Wrote?)
                   ==> os[j].reach.request.model == AnnotateCommitModel
  {
    if k > 0 {
      CallsOfModels(commits, os, force, k - 1);
      StepModels(commits[k - 1], force, os[k - 1].reach);
      ModelsConcat(CallsOf(commits, os, force, k - 1), StepCalls(commits[k - 1], force, os[k - 1].reach));
    }
  }

  /** The number of results with the given status. */
  function Count(rs: seq<AnnotationResult>, status: Status): nat {
    if |rs| == 0 then 0
    else Count(rs[..|rs| - 1], status) + (if rs[|rs| - 1].status == status then 1 else 0)
  }

  lemma CountSnoc(rs: seq<AnnotationResult>, r: AnnotationResult, status: Status)
    ensures Count(rs + [r], status) == Count(rs, status) + (if r.status == status then 1 else 0)
  {
    assert (rs + [r])[..|rs|] == rs;
  }

  /** Bumping the counter of one more result keeps the three tallies equal
      to the counts of the statuses they gather. */
  lemma TallySnoc(rs: seq<AnnotationResult>, r: AnnotationResult, annotated: nat, skipped: nat, failed: nat)
    requires annotated == Count(rs, Success) + Count(rs, Preview)
    requires skipped == Count(rs, Skipped) && failed == Count(rs, Failed)
    ensures var c := CounterFor(r.status);
            && annotated + (if c == AnnotatedCounter then 1 else 0) == Count(rs + [r], Success) + Count(rs + [r], Preview)
            && skipped + (if c == SkippedCounter then 1 else 0) == Count(rs + [r], Skipped)
            && failed + (if c == FailedCounter then 1 else 0) == Count(rs + [r], Failed)
  {
    CountSnoc(rs, r, Success);
    CountSnoc(rs, r, Preview);
    CountSnoc(rs, r, Skipped);
    CountSnoc(rs, r, Failed);
  }

  /** Every result has exactly one of the four statuses. */
  lemma {:induction false} CountsPartition(rs: seq<AnnotationResult>)
    ensures Count(rs, Success) + Count(rs, Skipped) + Count(rs, Failed) + Count(rs, Preview) == |rs|
  {
    if |rs| > 0 {
      CountsPartition(rs[..|rs| - 1]);
    }
  }

  /** A status no result has is counted zero times. */
  lemma {:induction false} CountAbsent(rs: seq<AnnotationResult>, status: Status)
    requires forall i :: 0 <= i < |rs| ==> rs[i].status != status
    ensures Count(rs, status) == 0
  {
    if |rs| > 0 {
      CountAbsent(rs[..|rs| - 1], status);
    }
  }

  /** A status every result has is counted once per result. */
  lemma {:induction false} CountEvery(rs: seq<AnnotationResult>, status: Status)
    requires forall i :: 0 <= i < |rs| ==> rs[i].status == status
    ensures Count(rs, status) == |rs|
  {
    if |rs| > 0 {
      CountEvery(rs[..|rs| - 1], status);
    }
  }

  /** The loop of `runAnnotate`: one result and one counter bump per
      commit. The counters agree with the results' statuses, previews
      counting as annotated. */
  method AnnotateCommits(commits: seq<Commit>, oracles: seq<CommitOracle>, force: bool, dryRun: bool)
    returns (annotated: nat, skipped: nat, failed: nat, results: seq<AnnotationResult>, calls: seq<Call>)
    requires |oracles| == |commits| && HashesShortenable(commits)
    ensures results == ResultsOf(Outcomes(commits, oracles, force, dryRun))
    ensures calls == CallsOf(commits, Outcomes(commits, oracles, force, dryRun), force, |commits|)
    ensures annotated == Count(results, Success) + Count(results, Preview)
    ensures skipped == Count(results, Skipped)
    ensures failed == Count(results, Failed)
    ensures annotated + skipped + failed == |results| == |commits|
  {
    annotated, skipped, failed := 0, 0, 0;
    results, calls := [], [];
    var outcomes: seq<StepOutcome> := [];
    while |outcomes| < |commits|
      invariant OutcomesFor(outcomes, commits, oracles, force, dryRun)
      invariant results == ResultsOf(outcomes)
      invariant calls == CallsOf(commits, outcomes, force, |outcomes|)
      invariant annotated == Count(results, Success) + Count(results, Preview)
      invariant skipped == Count(results, Skipped)
      invariant failed == Count(results, Failed)
      decreases |commits| - |outcomes|
    {
      var i := |outcomes|;
      var s := Visit(commits, oracles, outcomes, force, dryRun);
      TallySnoc(results, s.result, annotated, skipped, failed);
      ResultsOfSnoc(outcomes, s);
      CallsOfSnoc(commits, outcomes, s, force);
      outcomes := outcomes + [s];
      results := results + [s.result];
      calls := calls + StepCalls(commits[i], force, s.reach);
      annotated := annotated + if s.bump == AnnotatedCounter then 1 else 0;
      skipped := skipped + if s.bump == SkippedCounter then 1 else 0;
      failed := failed + if s.bump == FailedCounter then 1 else 0;
    }
    OutcomesForAll(outcomes, commits, oracles, force, dryRun);
    CountsPartition(results);
  }

  /** Each result carries the short hash of its commit. */
  lemma ResultHashes(commits: seq<Commit>, oracles: seq<CommitOracle>, force: bool, dryRun: bool)
    requires |oracles| == |commits| && HashesShortenable(commits)
    ensures var rs := ResultsOf(Outcomes(commits, oracles, force, dryRun));
            forall i :: 0 <= i < |rs| ==> rs[i].hash == commits[i].hash[..7]
  {
    var os := Outcomes(commits, oracles, force, dryRun);
    forall i | 0 <= i < |os|
      ensures ResultsOf(os)[i].hash == commits[i].hash[..7]
    {
      assert os[i] == Step(commits[i], oracles[i], force, dryRun);
    }
  }

  /** A dry run writes no note and reports no success, so every commit it
      counts as annotated is a preview. */
  lemma DryRunWritesNoNote(commits: seq<Commit>, oracles: seq<CommitOracle>, force: bool)
    requires |oracles| == |commits| && HashesShortenable(commits)
    ensures var os := Outcomes(commits, oracles, force, true);
            AddsNoNote(CallsOf(commits, os, force, |commits|)) && Count(ResultsOf(os), Success) == 0
  {
    var os := Outcomes(commits, oracles, force, true);
    CallsOfAdds(commits, os, force, |commits|);
    CountAbsent(ResultsOf(os), Success);
  }

  /** Only a dry run produces previews. */
  lemma NoPreviewWithoutDryRun(commits: seq<Commit>, oracles: seq<CommitOracle>, force: bool)
    requires |oracles| == |commits| && HashesShortenable(commits)
    ensures Count(ResultsOf(Outcomes(commits, oracles, force, false)), Preview) == 0
  {
    CountAbsent(ResultsOf(Outcomes(commits, oracles, force, false)), Preview);
  }

  /** With `--force` no note is ever looked up. */
  lemma ForceChecksNoNote(commits: seq<Commit>, oracles: seq<CommitOracle>, dryRun: bool)
    requires |oracles| == |commits| && HashesShortenable(commits)
    ensures ChecksNoNote(CallsOf(commits, Outcomes(commits, oracles, true, dryRun), true, |commits|))
  {
    CallsOfChecks(commits, Outcomes(commits, oracles, true, dryRun), true, |commits|);
  }

  /** Whatever `--model` says, every AI request of the loop names the fixed
      annotation model. */
  lemma LoopUsesAnnotateModel(commits: seq<Commit>, oracles: seq<CommitOracle>, force: bool, dryRun: bool)
    requires |oracles| == |commits| && HashesShortenable(commits)
    ensures RequestsUseAnnotateModel(CallsOf(commits, Outcomes(commits, oracles, force, dryRun), force, |commits|))
  {
    CallsOfModels(commits, Outcomes(commits, oracles, force, dryRun), force, |commits|);
  }

  /** Without `--force`, a commit that already has a note stops at the
      note check and is skipped. */
  lemma NotedCommitsGated(commits: seq<Commit>, oracles: seq<CommitOracle>, dryRun: bool)
    requires |oracles| == |commits| && HashesShortenable(commits)
    requires forall i :: 0 <= i < |oracles| ==> oracles[i].hasNote
    ensures var os := Outcomes(commits, oracles, false, dryRun);
            forall j :: 0 <= j < |os| ==> os[j].reach.Gated? && os[j].result.status == Skipped
  {
    var os := Outcomes(commits, oracles, false, dryRun);
    forall j | 0 <= j < |os|
      ensures os[j].reach.Gated? && os[j].result.status == Skipped
    {
      assert os[j] == Step(commits[j], oracles[j], false, dryRun);
    }
  }

  /** Rerunning without `--force` once every commit has a note skips them
      all: nothing is fetched, generated or written. */
  lemma AllAnnotatedSkipsAll(commits: seq<Commit>, oracles: seq<CommitOracle>, dryRun: bool)
    requires |oracles| == |commits| && HashesShortenable(commits)
    requires forall i :: 0 <= i < |oracles| ==> oracles[i].hasNote
    ensures var rs := ResultsOf(Outcomes(commits, oracles, false, dryRun));
            Count(rs, Skipped) == |commits| && Count(rs, Success) == 0 && Count(rs, Preview) == 0
    ensures var calls := CallsOf(commits, Outcomes(commits, oracles, false, dryRun), false, |commits|);
            FetchesNoDiff(calls) && AsksNoAi(calls) && AddsNoNote(calls)
  {
    var os := Outcomes(commits, oracles, false, dryRun);
    var rs := ResultsOf(os);
    NotedCommitsGated(commits, oracles, dryRun);
    assert forall i :: 0 <= i < |rs| ==> rs[i] == os[i].result;
    CountEvery(rs, Skipped);
    CountAbsent(rs, Success);
    CountAbsent(rs, Preview);
    CallsOfFetches(commits, os, false, |commits|);
    CallsOfAsks(commits, os, false, |commits|);
    CallsOfAdds(commits, os, false, |commits|);
  }

  datatype Options = Options(since: int, from: string, to: string, dryRun: bool, force: bool)

  /** The summary reported at the end of a run. */
  datatype Summary = Summary(total: nat, annotated: nat, skipped: nat, failed: nat, dryRun: bool,
                             results: seq<AnnotationResult>)

  /** A run ends in a fatal error, with nothing to annotate, or with a
      summary. */
  datatype RunOutcome = Fatal(error: string) | NothingToAnnotate | Completed(summary: Summary)

  /** The answers of the outside world for a whole run: `git log` for an
      argument list, configuration validation and client creation for a
      configuration, and the per-commit answers. */
  datatype Env = Env(gitLog: seq<string> -> Result<string>,
                     validate: AiConfig -> Outcome,
                     newClient: AiConfig -> Outcome,
                     world: Commit -> CommitOracle)

  /** Every commit the log lists has a full-length hash. */
  predicate LogHashesShortenable(opts: Options, env: Env) {
    var log := env.gitLog(LogArgs(opts.since, opts.from, opts.to));
    log.Ok? ==> HashesShortenable(CommitsFromLog(log.value))
  }

  /** `runAnnotate`. A failing `git log` is fatal; an empty commit list
      ends the run before the configuration is validated; an invalid
      configuration or a failed client creation is fatal; otherwise the
      loop runs and its tallies form the summary. */
  method RunAnnotate(cfg: AiConfig, opts: Options, env: Env) returns (outcome: RunOutcome, calls: seq<Call>)
    requires LogHashesShortenable(opts, env)
    ensures var args := LogArgs(opts.since, opts.from, opts.to);
            |calls| >= 1 && calls[0] == GitLog(args)
    ensures var log := env.gitLog(LogArgs(opts.since, opts.from, opts.to));
            log.Err? ==> outcome == Fatal("failed to get commits: git log failed: " + log.error) && |calls| == 1
    ensures var log := env.gitLog(LogArgs(opts.since, opts.from, opts.to));
            outcome.NothingToAnnotate? <==> log.Ok? && CommitsFromLog(log.value) == []
    ensures outcome.NothingToAnnotate? ==> |calls| == 1
    ensures var log := env.gitLog(LogArgs(opts.since, opts.from, opts.to));
            |calls| > 1 <==> log.Ok? && CommitsFromLog(log.value) != []
    ensures |calls| > 1 ==> calls[1] == ValidateConfig(cfg)
    ensures |calls| > 2 ==> calls[2] == NewClient(cfg)
    ensures |calls| > 1 && env.validate(cfg).Fail? ==>
              outcome == Fatal("invalid AI configuration: " + env.validate(cfg).error) && |calls| == 2
    ensures |calls| > 1 && env.validate(cfg).Pass? && env.newClient(cfg).Fail? ==>
              outcome == Fatal("failed to create AI client: " + env.newClient(cfg).error) && |calls| == 3
    ensures outcome.Completed? <==> |calls| > 1 && env.validate(cfg).Pass? && env.newClient(cfg).Pass?
    ensures outcome.Completed? ==>
              var log := env.gitLog(LogArgs(opts.since, opts.from, opts.to));
              var s := outcome.summary;
              && log.Ok?
              && s.total == |CommitsFromLog(log.value)| == |s.results| > 0
              && s.results == ResultsOf(Outcomes(CommitsFromLog(log.value),
                                                 OraclesFor(CommitsFromLog(log.value), env.world),
                                                 opts.force, opts.dryRun))
              && s.annotated + s.skipped + s.failed == s.total
              && s.annotated == Count(s.results, Success) + Count(s.results, Preview)
              && s.skipped == Count(s.results, Skipped)
              && s.failed == Count(s.results, Failed)
              && s.dryRun == opts.dryRun
              && (forall i :: 0 <= i < s.total ==> s.results[i].hash == CommitsFromLog(log.value)[i].hash[..7])
    ensures opts.dryRun ==> AddsNoNote(calls)
    ensures opts.force ==> ChecksNoNote(calls)
    ensures RequestsUseAnnotateModel(calls)
  {
    var args := LogArgs(opts.since, opts.from, opts.to);
    calls := [GitLog(args)];
    match GetCommits(env.gitLog(args)) {
      case Err(e) =>
        outcome := Fatal("failed to get commits: " + e);
        return;
      case Ok(commits) =>
        if |commits| == 0 {
          outcome := NothingToAnnotate;
          return;
        }
        var rest;
        outcome, rest := RunWithCommits(cfg, opts, env, commits);
        QuietPrefix(calls, rest);
        calls := calls + rest;
    }
  }

  /** The part of a run after the commits are listed and found non-empty:
      the configuration check, the client, and the loop. */
  method RunWithCommits(cfg: AiConfig, opts: Options, env: Env, commits: seq<Commit>)
    returns (outcome: RunOutcome, calls: seq<Call>)
    requires HashesShortenable(commits) && |commits| > 0
    ensures |calls| >= 1 && calls[0] == ValidateConfig(cfg)
    ensures |calls| > 1 ==> calls[1] == NewClient(cfg)
    ensures env.validate(cfg).Fail? ==>
              outcome == Fatal("invalid AI configuration: " + env.validate(cfg).error) && |calls| == 1
    ensures env.validate(cfg).Pass? && env.newClient(cfg).Fail? ==>
              outcome == Fatal("failed to create AI client: " + env.newClient(cfg).error) && |calls| == 2
    ensures outcome.Completed? <==> env.validate(cfg).Pass? && env.newClient(cfg).Pass?
    ensures !outcome.NothingToAnnotate?
    ensures outcome.Completed? ==>
              var s := outcome.summary;
              && s.total == |commits| == |s.results|
              && s.results == ResultsOf(Outcomes(commits, OraclesFor(commits, env.world), opts.force, opts.dryRun))
              && s.annotated + s.skipped + s.failed == s.total
              && s.annotated == Count(s.results, Success) + Count(s.results, Preview)
              && s.skipped == Count(s.results, Skipped)
              && s.failed == Count(s.results, Failed)
              && s.dryRun == opts.dryRun
              && (forall i :: 0 <= i < s.total ==> s.results[i].hash == commits[i].hash[..7])
    ensures opts.dryRun ==> AddsNoNote(calls)
    ensures opts.force ==> ChecksNoNote(calls)
    ensures RequestsUseAnnotateModel(calls)
  {
    calls := [ValidateConfig(cfg)];
    if env.validate(cfg).Fail? {
      outcome := Fatal("invalid AI configuration: " + env.validate(cfg).error);
      return;
    }
    calls := calls + [NewClient(cfg)];
    if env.newClient(cfg).Fail? {
      outcome := Fatal("failed to create AI client: " + env.newClient(cfg).error);
      return;
    }
    var summary, loopCalls := RunLoop(commits, opts, env.world);
    QuietPrefix(calls, loopCalls);
    calls := calls + loopCalls;
    outcome := Completed(summary);
  }

  /** The world's answers for each commit, in commit order. */
  function OraclesFor(commits: seq<Commit>, world: Commit -> CommitOracle): (os: seq<CommitOracle>)
    ensures |os| == |commits|
    ensures forall i :: 0 <= i < |commits| ==> os[i] == world(commits[i])
  {
    seq(|commits|, i requires 0 <= i < |commits| => world(commits[i]))
  }

  /** The loop of a run that got past the checks: the world's answers for
      each commit, the loop, and the summary of its tallies. */
  method RunLoop(commits: seq<Commit>, opts: Options, world: Commit -> CommitOracle)
    returns (s: Summary, calls: seq<Call>)
    requires HashesShortenable(commits)
    ensures s.total == |commits| == |s.results|
    ensures s.results == ResultsOf(Outcomes(commits, OraclesFor(commits, world), opts.force, opts.dryRun))
    ensures calls == CallsOf(commits, Outcomes(commits, OraclesFor(commits, world), opts.force, opts.dryRun),
                             opts.force, |commits|)
    ensures s.annotated + s.skipped + s.failed == s.total
    ensures s.annotated == Count(s.results, Success) + Count(s.results, Preview)
    ensures s.skipped == Count(s.results, Skipped)
    ensures s.failed == Count(s.results, Failed)
    ensures s.dryRun == opts.dryRun
    ensures forall i :: 0 <= i < s.total ==> s.results[i].hash == commits[i].hash[..7]
    ensures opts.dryRun ==> AddsNoNote(calls)
    ensures opts.force ==> ChecksNoNote(calls)
    ensures RequestsUseAnnotateModel(calls)
  {
    var oracles := OraclesFor(commits, world);
    var annotated, skipped, failed, results, loopCalls := AnnotateCommits(commits, oracles, opts.force, opts.dryRun);
    if opts.dryRun {
      DryRunWritesNoNote(commits, oracles, opts.force);
    }
    if opts.force {
      ForceChecksNoNote(commits, oracles, opts.dryRun);
    }
    LoopUsesAnnotateModel(commits, oracles, opts.force, opts.dryRun);
    ResultHashes(commits, oracles, opts.force, opts.dryRun);
    s := Summary(|commits|, annotated, skipped, failed, opts.dryRun, results);
    calls := loopCalls;
  }

  datatype Flags = Flags(provider: string, model: string, apiKey: string, options: Options)

  /** `RunE`: the flags are laid over the loaded configuration and the run
      uses the result. `--model` reaches only the configuration's default
      model; the annotation requests keep naming the fixed model. */
  method RunAnnotateCommand(loaded: AiConfig, flags: Flags, env: Env) returns (outcome: RunOutcome, calls: seq<Call>)
    requires LogHashesShortenable(flags.options, env)
    ensures |calls| > 1 ==> calls[1] == ValidateConfig(ApplyFlags(loaded, flags.provider, flags.apiKey, flags.model))
    ensures |calls| > 1 && flags.model != "" ==> calls[1].config.defaultModel == flags.model
    ensures RequestsUseAnnotateModel(calls)
    ensures flags.options.dryRun ==> AddsNoNote(calls)
  {
    var cfg := ApplyFlags(loaded, flags.provider, flags.apiKey, flags.model);
    outcome, calls := RunAnnotate(cfg, flags.options, env);
  }
}
