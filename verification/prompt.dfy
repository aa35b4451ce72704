/** The fixed prompt template used to ask the AI backend for a commit
    annotation (internal/prompt/annotate.go). */
module Prompt {
  import opened Results

  /** The model every annotation request names, whatever the configuration. */
  const AnnotateCommitModel: string := "claude-sonnet-4-5-20250929"

  /** The system instruction; it mentions none of the commit's data. */
  const SystemPrompt: string :=
    "You are an expert code archaeologist and technical documentation specialist. "
    + "Your task is to analyze git commits and generate clear, informative annotations "
    + "that explain the technical significance of the changes.\n"
    + "\n"
    + "Your annotations should:\n"
    + "1. Explain the technical purpose and impact of the changes\n"
    + "2. Identify what problem was solved or what feature was added\n"
    + "3. Note any architectural or design implications\n"
    + "4. Highlight important implementation details\n"
    + "5. Keep it concise but informative (2-5 sentences)\n"
    + "6. Use present tense and clear, professional language\n"
    + "7. Focus on the \"why\" and \"impact\", not just the \"what\"\n"
    + "\n"
    + "Format your annotation as a single paragraph without bullet points or markdown."

  /** The literal pieces of the user instruction, in order: before the hash,
      after the hash, after the author, after the date, after the message,
      and after the diff. Every piece between two fields starts a new line. */
  const Header: string := "Analyze this git commit and provide a technical annotation:\n\nCommit: "
  const AuthorLabel: string := "\nAuthor: "
  const DateLabel: string := "\nDate: "
  const MessageLabel: string := "\nMessage: "
  const ChangesLabel: string := "\n\nChanges:\n"
  const Footer: string := "\n\nProvide a technical annotation that explains the significance of these changes:"

  /** Number of characters the template adds around the five fields. */
  const TemplateLength: nat :=
    |Header| + |AuthorLabel| + |DateLabel| + |MessageLabel| + |ChangesLabel| + |Footer|

  datatype Prompts = Prompts(system: string, user: string)

  /** The fields of an annotation request, in the order the user
      instruction lists them. */
  datatype Fields = Fields(hash: string, author: string, date: string, message: string, diff: string)

  /** `AnnotateCommit`: note that the parameters come as hash, message,
      author, date, diff while the text lists hash, author, date, message. */
  function AnnotateCommit(hash: string, message: string, author: string, date: string, diff: string): (p: Prompts)
    ensures p.system == SystemPrompt
    ensures |p.user| == TemplateLength + |hash| + |author| + |date| + |message| + |diff|
  {
    Prompts(SystemPrompt,
            Header + (hash + (AuthorLabel + (author + (DateLabel + (date
            + (MessageLabel + (message + (ChangesLabel + (diff + Footer))))))))))
  }

  /** Index of the first newline in `s`, or `|s|` when there is none. */
  function FirstNewline(s: string): (i: nat)
    ensures i <= |s|
    ensures i < |s| ==> s[i] == '\n'
    ensures forall k :: 0 <= k < i ==> s[k] != '\n'
  {
    if |s| == 0 || s[0] == '\n' then 0 else 1 + FirstNewline(s[1..])
  }

  /** Reads a one-line field followed by the separator `sep`; returns the
      field and what follows the separator. */
  function TakeField(s: string, sep: string): Option<(string, string)>
  {
    var i := FirstNewline(s);
    if sep <= s[i..] then Some((s[..i], s[i + |sep|..])) else None
  }

  /** Reads the five fields back out of a user instruction. */
  function ReadUserPrompt(u: string): Option<Fields>
  {
    if !(Header <= u) then None
    else match TakeField(u[|Header|..], AuthorLabel)
      case None => None
      case Some((hash, r1)) => match TakeField(r1, DateLabel)
        case None => None
        case Some((author, r2)) => match TakeField(r2, MessageLabel)
          case None => None
          case Some((date, r3)) => match TakeField(r3, ChangesLabel)
            case None => None
            case Some((message, r4)) =>
              if |r4| >= |Footer| && r4[|r4| - |Footer|..] == Footer then
                Some(Fields(hash, author, date, message, r4[..|r4| - |Footer|]))
              else None
  }

  lemma TakeFieldReads(x: string, sep: string, y: string)
    requires '\n' !in x
    requires |sep| > 0 && sep[0] == '\n'
    ensures TakeField(x + (sep + y), sep) == Some((x, y))
  {
    var s := x + (sep + y);
    assert s[|x|] == '\n';
    assert forall k :: 0 <= k < |x| ==> s[k] == x[k];
    assert FirstNewline(s) == |x|;
    assert s[|x|..] == sep + y;
    assert s[..|x|] == x;
    assert s[|x| + |sep|..] == y;
  }

  /** The template is unambiguous: as long as the hash, author, date and
      message are single lines (as `git log`'s fields are), the user
      instruction determines all five fields, and the diff comes back
      verbatim. */
  lemma {:induction false} UserPromptRoundTrip(hash: string, message: string, author: string, date: string, diff: string)
    requires '\n' !in hash && '\n' !in author && '\n' !in date && '\n' !in message
    ensures ReadUserPrompt(AnnotateCommit(hash, message, author, date, diff).user)
            == Some(Fields(hash, author, date, message, diff))
  {
    var u := AnnotateCommit(hash, message, author, date, diff).user;
    var r4 := diff + Footer;
    var r3 := message + (ChangesLabel + r4);
    var r2 := date + (MessageLabel + r3);
    var r1 := author + (DateLabel + r2);
    var r0 := hash + (AuthorLabel + r1);
    assert u == Header + r0;
    assert Header <= u;
    assert u[|Header|..] == r0;
    TakeFieldReads(hash, AuthorLabel, r1);
    TakeFieldReads(author, DateLabel, r2);
    TakeFieldReads(date, MessageLabel, r3);
    TakeFieldReads(message, ChangesLabel, r4);
    assert r4[..|r4| - |Footer|] == diff;
    assert r4[|r4| - |Footer|..] == Footer;
  }

  /** Different commits never share a user instruction: the prompt is
      injective in its single-line fields and the diff. */
  lemma UserPromptInjective(h1: string, m1: string, a1: string, d1: string, x1: string,
                            h2: string, m2: string, a2: string, d2: string, x2: string)
    requires '\n' !in h1 && '\n' !in a1 && '\n' !in d1 && '\n' !in m1
    requires '\n' !in h2 && '\n' !in a2 && '\n' !in d2 && '\n' !in m2
    requires AnnotateCommit(h1, m1, a1, d1, x1).user == AnnotateCommit(h2, m2, a2, d2, x2).user
    ensures h1 == h2 && m1 == m2 && a1 == a2 && d1 == d2 && x1 == x2
  {
    UserPromptRoundTrip(h1, m1, a1, d1, x1);
    UserPromptRoundTrip(h2, m2, a2, d2, x2);
  }
}
