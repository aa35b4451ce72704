/** Selecting the commits to annotate: the `git log` argument list and the
    parser for its four-lines-per-commit output (`getCommits` in
    internal/cmd/annotate.go). Running `git log` itself is an input. */
module GitLog {
  import opened Results
  import opened Text

  /** A commit as the annotate command sees it. Field order follows the Go
      struct; the log output lists hash, author, date, message. */
  datatype Commit = Commit(hash: string, message: string, author: string, date: string)

  /** One record per commit: full hash, `name <email>`, date, subject. */
  const LogFormat: string := "--format=%H%n%an <%ae>%n%ad%n%s"

  const BaseArgs: seq<string> := ["log", LogFormat, "--no-merges"]

  /** The arguments passed to `git`: an explicit `from..to` range when
      `from` is set, otherwise the last `since` commits. */
  function LogArgs(since: int, from: string, to: string): (args: seq<string>)
    ensures |args| == 4 && args[..3] == BaseArgs
  {
    if from != "" then BaseArgs + [from + ".." + to]
    else BaseArgs + ["-n" + IntToDecimal(since)]
  }

  /** With a range, the count is not used; the range names both ends. */
  lemma RangeIgnoresSince(since1: int, since2: int, from: string, to: string)
    requires from != ""
    ensures LogArgs(since1, from, to) == LogArgs(since2, from, to)
    ensures LogArgs(since1, from, to)[3] == from + ".." + to
  {
  }

  /** Without a range, `to` is not used, and the count can be read back
      from the `-n` argument. */
  lemma CountIgnoresTo(since: int, to1: string, to2: string)
    ensures LogArgs(since, "", to1) == LogArgs(since, "", to2)
    ensures var last := LogArgs(since, "", to1)[3];
            |last| > 2 && last[..2] == "-n" && ParseDecimal(last[2..]) == Some(since)
  {
    var last := LogArgs(since, "", to1)[3];
    assert last[2..] == IntToDecimal(since);
    DecimalRoundTrip(since);
  }

  /** The commit whose record starts at line `i`. */
  function RecordAt(lines: seq<string>, i: nat): Commit
    requires i + 3 < |lines|
  {
    Commit(hash := lines[i], message := lines[i + 3], author := lines[i + 1], date := lines[i + 2])
  }

  /** Parses four-line records from line `i` on, stopping at the first
      record whose hash line is empty or that lacks one of its four lines. */
  function ParseFrom(lines: seq<string>, i: nat): (cs: seq<Commit>)
    ensures cs == [] || (i + 3 < |lines| && cs[0] == RecordAt(lines, i))
    decreases |lines| - i
  {
    if i + 3 < |lines| && lines[i] != "" then [RecordAt(lines, i)] + ParseFrom(lines, i + 4) else []
  }

  /** The `j`th parsed record is the four lines at its position, all
      within the lines, with a hash. */
  lemma {:induction false} ParseFromAt(lines: seq<string>, i: nat, j: nat)
    requires j < |ParseFrom(lines, i)|
    ensures i + 4 * j + 3 < |lines| && lines[i + 4 * j] != ""
    ensures ParseFrom(lines, i)[j] == RecordAt(lines, i + 4 * j)
    decreases j
  {
    if j > 0 {
      ParseFromAt(lines, i + 4, j - 1);
      assert ParseFrom(lines, i)[j] == ParseFrom(lines, i + 4)[j - 1];
      assert i + 4 * j == (i + 4) + 4 * (j - 1);
    }
  }

  /** Parsing stops where the next record is missing or has an empty hash
      line, and the parsed records lie within the lines. */
  lemma {:induction false} ParseFromStops(lines: seq<string>, i: nat)
    ensures var cs := ParseFrom(lines, i);
            && (i + 4 * |cs| + 3 >= |lines| || lines[i + 4 * |cs|] == "")
            && (cs == [] || i + 4 * |cs| <= |lines|)
    decreases |lines| - i
  {
    if i + 3 < |lines| && lines[i] != "" {
      ParseFromStops(lines, i + 4);
      assert |ParseFrom(lines, i)| == 1 + |ParseFrom(lines, i + 4)|;
    }
  }

  /** The parse loop with the bounds check the loop evidently intends
      (`i+3 < len(lines)`): a record missing any of its four lines ends the
      list, as a missing hash does. */
  function ParseLog(lines: seq<string>): (cs: seq<Commit>)
    ensures 4 * |cs| <= |lines|
    ensures forall j :: 0 <= j < |cs| ==> lines[4 * j] != "" && cs[j] == RecordAt(lines, 4 * j)
    ensures 4 * |cs| + 3 >= |lines| || lines[4 * |cs|] == ""
  {
    var cs := ParseFrom(lines, 0);
    ParseFromStops(lines, 0);
    forall j | 0 <= j < |cs|
      ensures lines[4 * j] != "" && cs[j] == RecordAt(lines, 4 * j)
    {
      ParseFromAt(lines, 0, j);
    }
    cs
  }

  /** What the parse loop of the source can end in. */
  datatype ParseOutcome = Parsed(commits: seq<Commit>) | IndexOutOfRange(index: nat)

  /** The parse loop as written: its guard `i+3 <= len(lines)` admits a
      three-line tail whose first line is set, and reading that record's
      message line then indexes past the end (a Go panic). */
  function ParseFromAsWritten(lines: seq<string>, i: nat): (o: ParseOutcome)
    ensures o.IndexOutOfRange? ==> i + 3 <= o.index == |lines| && (|lines| - i) % 4 == 3
    ensures o.Parsed? && o.commits != [] ==>
              i + 4 * |o.commits| <= |lines| && o.commits[0] == RecordAt(lines, i)
    decreases |lines| - i
  {
    if i + 3 <= |lines| then
      if lines[i] == "" then Parsed([])
      else if i + 3 == |lines| then IndexOutOfRange(i + 3)
      else match ParseFromAsWritten(lines, i + 4)
        case Parsed(rest) => Parsed([RecordAt(lines, i)] + rest)
        case IndexOutOfRange(k) => IndexOutOfRange(k)
    else Parsed([])
  }

  /** The loop as written, from the first line: a panic is always an
      index one past the last line, on a line count of the form 4k+3. */
  function ParseLogAsWritten(lines: seq<string>): (o: ParseOutcome)
    ensures o.IndexOutOfRange? ==> o.index == |lines| && |lines| % 4 == 3
    ensures o.Parsed? ==> 4 * |o.commits| <= |lines|
  {
    ParseFromAsWritten(lines, 0)
  }

  /** The inputs on which the loop from line `i` reaches a three-line tail:
      the remaining line count is 3 more than a multiple of 4 and no record
      start on the way has an empty hash line. */
  predicate ReachesShortTail(lines: seq<string>, i: nat) {
    && i + 3 <= |lines|
    && (|lines| - i) % 4 == 3
    && forall j :: 0 <= j < |lines| && i + 4 * j < |lines| ==> lines[i + 4 * j] != ""
  }

  lemma {:induction false} ParseFromAsWrittenAgrees(lines: seq<string>, i: nat)
    ensures ParseFromAsWritten(lines, i)
            == if ReachesShortTail(lines, i) then IndexOutOfRange(|lines|) else Parsed(ParseFrom(lines, i))
    decreases |lines| - i
  {
    if i + 3 <= |lines| {
      if lines[i] == "" {
        assert i + 4 * 0 < |lines| && lines[i + 4 * 0] == "";
      } else if i + 3 == |lines| {
        forall j | 0 <= j < |lines| && i + 4 * j < |lines|
          ensures lines[i + 4 * j] != ""
        {
          assert j == 0;
        }
      } else {
        ParseFromAsWrittenAgrees(lines, i + 4);
        ShortTailStep(lines, i);
      }
    }
  }

  lemma ShortTailStep(lines: seq<string>, i: nat)
    requires i + 3 < |lines| && lines[i] != ""
    ensures ReachesShortTail(lines, i) <==> ReachesShortTail(lines, i + 4)
  {
    if ReachesShortTail(lines, i) {
      forall j | 0 <= j < |lines| && (i + 4) + 4 * j < |lines|
        ensures lines[(i + 4) + 4 * j] != ""
      {
        assert (i + 4) + 4 * j == i + 4 * (j + 1);
      }
    }
    if ReachesShortTail(lines, i + 4) {
      forall j | 0 <= j < |lines| && i + 4 * j < |lines|
        ensures lines[i + 4 * j] != ""
      {
        if j > 0 {
          assert i + 4 * j == (i + 4) + 4 * (j - 1);
        }
      }
    }
  }

  /** The parse loop of the source either panics, exactly on the inputs
      that reach a three-line tail, or returns what the corrected loop
      returns. */
  lemma ParseLogAsWrittenAgrees(lines: seq<string>)
    ensures ParseLogAsWritten(lines).IndexOutOfRange? <==> ReachesShortTail(lines, 0)
    ensures ParseLogAsWritten(lines).IndexOutOfRange? ==> ParseLogAsWritten(lines).index == |lines|
    ensures ParseLogAsWritten(lines).Parsed? ==> ParseLogAsWritten(lines).commits == ParseLog(lines)
  {
    ParseFromAsWrittenAgrees(lines, 0);
  }

  /** Four full lines per commit and a hash on every record: one commit per
      record, with hash, author, date and message taken line by line. */
  lemma ParseLogFullRecords(lines: seq<string>, k: nat)
    requires |lines| == 4 * k
    requires forall j :: 0 <= j < k ==> lines[4 * j] != ""
    ensures |ParseLog(lines)| == k
    ensures forall j :: 0 <= j < k ==>
              ParseLog(lines)[j] == Commit(hash := lines[4 * j], message := lines[4 * j + 3],
                                           author := lines[4 * j + 1], date := lines[4 * j + 2])
  {
  }

  /** Nothing after the first record with an empty hash line is parsed. */
  lemma ParseLogStopsAtEmptyHash(lines: seq<string>, j: nat)
    requires 4 * j < |lines| && lines[4 * j] == ""
    ensures |ParseLog(lines)| <= j
  {
  }

  /** A trailing fragment of one or two lines adds nothing. */
  lemma {:induction false} ParseFromIgnoresFragment(lines: seq<string>, frag: seq<string>, i: nat)
    requires (|lines| - i) % 4 == 0 && i <= |lines|
    requires 1 <= |frag| <= 2
    ensures ParseFrom(lines + frag, i) == ParseFrom(lines, i)
    decreases |lines| - i
  {
    if i + 3 < |lines| {
      assert (lines + frag)[i] == lines[i];
      ParseFromIgnoresFragment(lines, frag, i + 4);
      if lines[i] != "" {
        assert RecordAt(lines + frag, i) == RecordAt(lines, i);
      }
    } else {
      assert i == |lines|;
    }
  }

  lemma ParseLogIgnoresFragment(lines: seq<string>, frag: seq<string>)
    requires |lines| % 4 == 0
    requires 1 <= |frag| <= 2
    ensures ParseLog(lines + frag) == ParseLog(lines)
  {
    ParseFromIgnoresFragment(lines, frag, 0);
  }

  /** The commits listed by `git log` output: trimmed, split on newlines,
      parsed. */
  function CommitsFromLog(output: string): (cs: seq<Commit>)
    ensures WellFormedRecords(cs)
  {
    var lines := SplitLines(TrimSpace(output));
    var cs := ParseLog(lines);
    assert forall j :: 0 <= j < |cs| ==> cs[j] == RecordAt(lines, 4 * j) && lines[4 * j] != "";
    cs
  }

  /** The same steps with the parse loop as written: where the loop does
      not run past the end it lists the same commits, and it runs past
      the end exactly on a short tail. */
  function CommitsFromLogAsWritten(output: string): (o: ParseOutcome)
    ensures o.Parsed? ==> o.commits == CommitsFromLog(output)
    ensures o.IndexOutOfRange? <==> ReachesShortTail(SplitLines(TrimSpace(output)), 0)
  {
    ParseLogAsWrittenAgrees(SplitLines(TrimSpace(output)));
    ParseLogAsWritten(SplitLines(TrimSpace(output)))
  }

  /** Output that is empty or white space lists no commits. */
  lemma EmptyLogHasNoCommits(output: string)
    requires forall k :: 0 <= k < |output| ==> IsSpace(output[k])
    ensures TrimSpace(output) == ""
    ensures CommitsFromLog(output) == []
    ensures CommitsFromLogAsWritten(output) == Parsed([])
  {
  }

  /** `getCommits`: a failing `git log` is an error, otherwise its output is
      parsed. */
  function GetCommits(log: Result<string>): (r: Result<seq<Commit>>)
    ensures log.Err? <==> r.Err?
    ensures r.Err? ==> r.error == "git log failed: " + log.error
  {
    match log
    case Err(e) => Err("git log failed: " + e)
    case Ok(out) => Ok(CommitsFromLog(out))
  }

  /** Wherever the parse loop as written does not run past the end,
      `getCommits` returns the commits it returns. */
  lemma GetCommitsAsWritten(output: string)
    ensures CommitsFromLogAsWritten(output).Parsed? ==>
              GetCommits(Ok(output)) == Ok(CommitsFromLogAsWritten(output).commits)
  {
  }

  /** The four lines `git log` prints for each commit with this format. */
  function RecordLines(cs: seq<Commit>): (lines: seq<string>)
    ensures |lines| == 4 * |cs|
  {
    if |cs| == 0 then []
    else [cs[0].hash, cs[0].author, cs[0].date, cs[0].message] + RecordLines(cs[1..])
  }

  /** The record lines start with the first hash and end with the last
      date and subject. */
  lemma RecordLinesEnds(cs: seq<Commit>)
    requires |cs| > 0
    ensures var lines := RecordLines(cs);
            && lines[0] == cs[0].hash
            && lines[|lines| - 2] == cs[|cs| - 1].date && lines[|lines| - 1] == cs[|cs| - 1].message
  {
    RecordLinesAt(cs, 0);
    var n := |cs| - 1;
    RecordLinesAt(cs, n);
    assert 4 * |cs| - 1 == 4 * n + 3;
  }

  /** The four lines of the `j`th record: hash, author, date, subject. */
  lemma {:induction false} RecordLinesAt(cs: seq<Commit>, j: nat)
    requires j < |cs|
    ensures var lines := RecordLines(cs);
            && lines[4 * j] == cs[j].hash && lines[4 * j + 1] == cs[j].author
            && lines[4 * j + 2] == cs[j].date && lines[4 * j + 3] == cs[j].message
  {
    if j > 0 {
      RecordLinesAt(cs[1..], j - 1);
      var lines := RecordLines(cs);
      var rest := RecordLines(cs[1..]);
      assert cs[1..][j - 1] == cs[j];
      assert lines == [cs[0].hash, cs[0].author, cs[0].date, cs[0].message] + rest;
      assert 4 * j == 4 + 4 * (j - 1);
      assert lines[4 * j] == rest[4 * (j - 1)];
      assert lines[4 * j + 1] == rest[4 * (j - 1) + 1];
      assert lines[4 * j + 2] == rest[4 * (j - 1) + 2];
      assert lines[4 * j + 3] == rest[4 * (j - 1) + 3];
    }
  }

  /** The text `git log` writes for these commits: every line ends in a
      newline. */
  function LogText(cs: seq<Commit>): string {
    if |cs| == 0 then "" else JoinLines(RecordLines(cs)) + "\n"
  }

  predicate SingleLine(s: string) {
    '\n' !in s
  }

  predicate AllSingleLine(lines: seq<string>) {
    forall k :: 0 <= k < |lines| ==> SingleLine(lines[k])
  }

  /** What `git log` guarantees of its records here: single-line fields and
      a full hash on every commit. */
  predicate WellFormedRecords(cs: seq<Commit>) {
    forall j :: 0 <= j < |cs| ==>
      && SingleLine(cs[j].hash) && SingleLine(cs[j].author)
      && SingleLine(cs[j].date) && SingleLine(cs[j].message)
      && cs[j].hash != ""
  }

  lemma RecordLinesSingle(cs: seq<Commit>)
    requires WellFormedRecords(cs)
    ensures AllSingleLine(RecordLines(cs))
  {
    var lines := RecordLines(cs);
    forall k | 0 <= k < |lines|
      ensures '\n' !in lines[k]
    {
      var j := k / 4;
      assert 0 <= j < |cs|;
      RecordLinesAt(cs, j);
      if k % 4 == 0 {
        assert lines[k] == cs[j].hash;
      } else if k % 4 == 1 {
        assert lines[k] == cs[j].author;
      } else if k % 4 == 2 {
        assert lines[k] == cs[j].date;
      } else {
        assert lines[k] == cs[j].message;
      }
    }
  }

  /** Newline-free lines, the first starting and the last ending with
      something other than white space: what joining and trimming keeps
      intact. */
  predicate TrimmedLines(lines: seq<string>) {
    && |lines| >= 1 && AllSingleLine(lines)
    && lines[0] != [] && !IsSpace(lines[0][0])
    && lines[|lines| - 1] != [] && !IsSpace(Last(lines[|lines| - 1]))
  }

  /** Parsing the log text gives back the commits, provided trimming does
      not eat into the first hash or the last subject. */
  lemma LogTextRoundTrip(cs: seq<Commit>)
    requires WellFormedRecords(cs)
    requires |cs| > 0 ==> !IsSpace(cs[0].hash[0])
    requires |cs| > 0 ==> cs[|cs| - 1].message != "" && !IsSpace(Last(cs[|cs| - 1].message))
    ensures CommitsFromLog(LogText(cs)) == cs
    ensures CommitsFromLogAsWritten(LogText(cs)) == Parsed(cs)
  {
    if |cs| == 0 {
      EmptyLogHasNoCommits("");
    } else {
      FullRecordLines(cs);
      TrimmedJoinKeepsLines(RecordLines(cs));
      ParseRecordLines(cs);
    }
  }

  /** The record lines of such a history meet the conditions of
      `TrimmedJoinKeepsLines`. */
  lemma FullRecordLines(cs: seq<Commit>)
    requires |cs| > 0 && WellFormedRecords(cs)
    requires !IsSpace(cs[0].hash[0])
    requires cs[|cs| - 1].message != "" && !IsSpace(Last(cs[|cs| - 1].message))
    ensures TrimmedLines(RecordLines(cs))
  {
    RecordLinesEnds(cs);
    RecordLinesSingle(cs);
  }

  /** Newline-terminated lines whose text neither starts nor ends with
      white space: trimming and splitting gives the lines back. */
  lemma TrimmedJoinKeepsLines(lines: seq<string>)
    requires TrimmedLines(lines)
    ensures SplitLines(TrimSpace(JoinLines(lines) + "\n")) == lines
  {
    var body := JoinLines(lines);
    JoinedTextTrimmed(lines);
    TrimSpaceTrailingSpace(body, '\n');
    SplitJoinLines(lines);
  }

  /** Both parse loops read a history's record lines back in full. */
  lemma ParseRecordLines(cs: seq<Commit>)
    requires WellFormedRecords(cs)
    ensures ParseLog(RecordLines(cs)) == cs
    ensures ParseLogAsWritten(RecordLines(cs)) == Parsed(cs)
  {
    var lines := RecordLines(cs);
    forall j | 0 <= j < |cs|
      ensures lines[4 * j] != "" && RecordAt(lines, 4 * j) == cs[j]
    {
      RecordLinesAt(cs, j);
    }
    ParseLogExact(lines, cs);
    ParseLogAsWrittenAgrees(lines);
    RecordCountMod4(|cs|);
  }

  /** Records that fill the lines up to a tail of at most three lines,
      each with a hash: the corrected loop returns exactly those records. */
  lemma ParseLogExact(lines: seq<string>, cs: seq<Commit>)
    requires 4 * |cs| <= |lines| < 4 * |cs| + 4
    requires forall j :: 0 <= j < |cs| ==> lines[4 * j] != "" && RecordAt(lines, 4 * j) == cs[j]
    ensures ParseLog(lines) == cs
  {
    var parsed := ParseLog(lines);
    assert |parsed| == |cs|;
  }

  function Last(s: string): char
    requires |s| > 0
  {
    s[|s| - 1]
  }

  lemma DropLast<T>(s: seq<T>)
    requires |s| > 0
    ensures s == s[..|s| - 1] + [s[|s| - 1]]
  {
  }

  lemma RecordCountMod4(n: nat)
    ensures (4 * n) % 4 == 0
    ensures n > 0 ==> (4 * n - 1) % 4 == 3
  {
  }

  /** Joined lines whose text neither starts nor ends with white space
      survive trimming unchanged. */
  lemma JoinedTextTrimmed(lines: seq<string>)
    requires |lines| >= 1
    requires lines[0] != [] && !IsSpace(lines[0][0])
    requires lines[|lines| - 1] != [] && !IsSpace(Last(lines[|lines| - 1]))
    ensures TrimSpace(JoinLines(lines)) == JoinLines(lines)
    ensures JoinLines(lines) != [] && !IsSpace(JoinLines(lines)[0]) && !IsSpace(Last(JoinLines(lines)))
  {
    var body := JoinLines(lines);
    JoinLinesEnds(lines);
    assert body[0] == body[..|lines[0]|][0];
    var last := lines[|lines| - 1];
    assert body[|body| - 1] == body[|body| - |last|..][|last| - 1];
    TrimSpaceFixedPoint(body);
  }

  /** The source's parse loop panics on the log of any history whose
      oldest listed commit has an empty subject (`git commit
      --allow-empty-message`): trimming eats the empty last line, leaving
      three lines for the last record. The corrected loop drops that
      record instead. */
  lemma EmptyLastSubjectPanics(cs: seq<Commit>)
    requires |cs| > 0 && WellFormedRecords(cs)
    requires !IsSpace(cs[0].hash[0])
    requires cs[|cs| - 1].message == ""
    requires cs[|cs| - 1].date != "" && !IsSpace(Last(cs[|cs| - 1].date))
    ensures CommitsFromLogAsWritten(LogText(cs)) == IndexOutOfRange(4 * |cs| - 1)
    ensures CommitsFromLog(LogText(cs)) == cs[..|cs| - 1]
  {
    var front := RecordLines(cs)[..4 * |cs| - 1];
    TrimmedLogLosesEmptySubject(cs);
    ShortLogReachesShortTail(cs);
    ParseLogAsWrittenAgrees(front);
    ShortLogDropsLastRecord(cs);
  }

  /** With an empty last subject, the lines left after trimming are all
      record lines but the last. */
  lemma TrimmedLogLosesEmptySubject(cs: seq<Commit>)
    requires |cs| > 0 && WellFormedRecords(cs)
    requires !IsSpace(cs[0].hash[0])
    requires cs[|cs| - 1].message == ""
    requires cs[|cs| - 1].date != "" && !IsSpace(Last(cs[|cs| - 1].date))
    ensures SplitLines(TrimSpace(LogText(cs))) == RecordLines(cs)[..4 * |cs| - 1]
  {
    var front := RecordLines(cs)[..4 * |cs| - 1];
    EmptySubjectLines(cs);
    assert LogText(cs) == JoinLines(front + [""]) + "\n";
    TrimmedJoinLosesEmptyLast(front);
  }

  /** The record lines of such a history are the lines but the last, which
      meet the conditions of `TrimmedJoinLosesEmptyLast`, and an empty
      line. */
  lemma EmptySubjectLines(cs: seq<Commit>)
    requires |cs| > 0 && WellFormedRecords(cs)
    requires !IsSpace(cs[0].hash[0])
    requires cs[|cs| - 1].message == ""
    requires cs[|cs| - 1].date != "" && !IsSpace(Last(cs[|cs| - 1].date))
    ensures RecordLines(cs) == RecordLines(cs)[..4 * |cs| - 1] + [""]
    ensures TrimmedLines(RecordLines(cs)[..4 * |cs| - 1])
  {
    EmptySubjectLastLine(cs);
    EmptySubjectFront(cs);
  }

  lemma EmptySubjectLastLine(cs: seq<Commit>)
    requires |cs| > 0 && cs[|cs| - 1].message == ""
    ensures RecordLines(cs) == RecordLines(cs)[..4 * |cs| - 1] + [""]
  {
    RecordLinesEnds(cs);
    DropLast(RecordLines(cs));
  }

  lemma EmptySubjectFront(cs: seq<Commit>)
    requires |cs| > 0 && WellFormedRecords(cs)
    requires !IsSpace(cs[0].hash[0])
    requires cs[|cs| - 1].date != "" && !IsSpace(Last(cs[|cs| - 1].date))
    ensures TrimmedLines(RecordLines(cs)[..4 * |cs| - 1])
  {
    assert |RecordLines(cs)| - 1 == 4 * |cs| - 1;
    RecordFrontTrimmed(cs);
  }

  lemma RecordFrontTrimmed(cs: seq<Commit>)
    requires |cs| > 0 && WellFormedRecords(cs)
    requires !IsSpace(cs[0].hash[0])
    requires cs[|cs| - 1].date != "" && !IsSpace(Last(cs[|cs| - 1].date))
    ensures TrimmedLines(RecordLines(cs)[..|RecordLines(cs)| - 1])
  {
    FrontEnds(cs);
    RecordLinesSingle(cs);
    FrontTrimmed(RecordLines(cs));
  }

  /** The first record line and the last but one carry the first hash and
      the last date. */
  lemma FrontEnds(cs: seq<Commit>)
    requires |cs| > 0 && WellFormedRecords(cs)
    requires !IsSpace(cs[0].hash[0])
    requires cs[|cs| - 1].date != "" && !IsSpace(Last(cs[|cs| - 1].date))
    ensures var lines := RecordLines(cs);
            && lines[0] != [] && !IsSpace(lines[0][0])
            && lines[|lines| - 2] != [] && !IsSpace(Last(lines[|lines| - 2]))
  {
    RecordLinesEnds(cs);
  }

  /** Dropping the last line keeps the conditions on what remains. */
  lemma FrontTrimmed(lines: seq<string>)
    requires |lines| >= 2 && AllSingleLine(lines)
    requires lines[0] != [] && !IsSpace(lines[0][0])
    requires lines[|lines| - 2] != [] && !IsSpace(Last(lines[|lines| - 2]))
    ensures TrimmedLines(lines[..|lines| - 1])
  {
    var front := lines[..|lines| - 1];
    assert front[0] == lines[0];
    assert front[|front| - 1] == lines[|lines| - 2];
    assert forall k :: 0 <= k < |front| ==> front[k] == lines[k];
  }

  /** Newline-terminated lines whose last line is empty: trimming removes
      that line and nothing else. */
  lemma TrimmedJoinLosesEmptyLast(front: seq<string>)
    requires TrimmedLines(front)
    ensures SplitLines(TrimSpace(JoinLines(front + [""]) + "\n")) == front
  {
    JoinLinesSnoc(front, "");
    assert JoinLines(front + [""]) + "\n" == JoinLines(front) + "\n" + "\n";
    JoinedTextTrimmed(front);
    TrimSpaceTrailingNewlines(JoinLines(front));
    SplitJoinLines(front);
  }

  /** The record lines but the last leave a three-line tail, and every
      record start on the way holds a hash. */
  lemma ShortLogReachesShortTail(cs: seq<Commit>)
    requires |cs| > 0 && WellFormedRecords(cs)
    ensures ReachesShortTail(RecordLines(cs)[..4 * |cs| - 1], 0)
  {
    var lines := RecordLines(cs);
    var front := lines[..4 * |cs| - 1];
    RecordCountMod4(|cs|);
    forall j | 0 <= j < |front| && 4 * j < |front|
      ensures front[4 * j] != ""
    {
      RecordLinesAt(cs, j);
      assert front[4 * j] == lines[4 * j] == cs[j].hash;
    }
  }

  /** The corrected loop reads every record of the record lines but the
      last, and drops the incomplete last one. */
  lemma ShortLogDropsLastRecord(cs: seq<Commit>)
    requires |cs| > 0 && WellFormedRecords(cs)
    ensures ParseLog(RecordLines(cs)[..4 * |cs| - 1]) == cs[..|cs| - 1]
  {
    var lines := RecordLines(cs);
    var front := lines[..4 * |cs| - 1];
    var older := cs[..|cs| - 1];
    forall j | 0 <= j < |older|
      ensures front[4 * j] != "" && RecordAt(front, 4 * j) == older[j]
    {
      RecordLinesAt(cs, j);
      assert RecordAt(front, 4 * j) == RecordAt(lines, 4 * j);
    }
    ParseLogExact(front, older);
  }
}
