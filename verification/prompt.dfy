/** The prompt builder of `RagService.generate_response`
    (ai-service/app/main.py, lines 76-95): the conversation history is
    rendered one line per message and wrapped, together with the new query,
    between a fixed system instruction and a fixed closing request. */
module Prompt {
  import opened Wrappers
  import Text

  /** One history entry as the service receives it: the role travels as a
      plain string, so any value other than "user" is possible here. */
  datatype HistoryEntry = HistoryEntry(role: string, content: string)

  /** Stands in for the history block when there is no history. */
  const Placeholder: string := "—"

  const SystemInstruction: string :=
    "შენ ხარ დამხმარე AI ასისტენტი Subconscious აპისთვის. "
    + "უპასუხე მკაფიოდ, სტრუქტურირებულად და მაქსიმალურად სასარგებლოდ. "
    + "თუ კითხვა არ არის ნათელი, სთხოვი მომხმარებელს დაზუსტებას."

  /** Introduces the history block. */
  const HistoryHeader: string := "საუბრის ისტორია:\n"

  /** Introduces the new query. */
  const QueryHeader: string := "ახლა მომხმარებლის ახალი კითხვა:\n"

  /** Asks for a detailed, clear answer in Georgian. */
  const Closing: string := "გთხოვ დეტალური და გასაგები პასუხი ქართულად."

  /** The speaker label of a line: "User" for role "user", "Assistant" for
      every other role. */
  function Label(role: string): string {
    if role == "user" then "User" else "Assistant"
  }

  /** `"<Label>: <content>"`. */
  function RenderLine(e: HistoryEntry): string {
    Label(e.role) + ": " + e.content
  }

  /** The rendered lines of the history, in order. */
  function RenderedLines(history: seq<HistoryEntry>): (lines: seq<string>)
    ensures |lines| == |history|
  {
    seq(|history|, i requires 0 <= i < |history| => RenderLine(history[i]))
  }

  /** The history block: the rendered lines joined by newlines, or the
      placeholder when there is no history. It is the placeholder exactly when
      the history is empty: a rendered line never is. */
  function HistoryText(history: seq<HistoryEntry>): (r: string)
    ensures r == Placeholder <==> |history| == 0
    ensures |history| > 0 ==> RenderLine(history[0]) <= r
  {
    if |history| == 0 then Placeholder
    else
      var lines := RenderedLines(history);
      assert lines[0] == RenderLine(history[0]);
      assert |lines[0]| > 1;
      Text.Join(lines, "\n")
  }

  /** No history message contains a line break. */
  ghost predicate SingleLineContents(history: seq<HistoryEntry>) {
    forall i :: 0 <= i < |history| ==> '\n' !in history[i].content
  }

  /** A non-empty history block holds one line per message, in order: line
      `i` is the label chosen by message `i`'s role, ": ", then its content.
      This holds when no content itself contains a line break. */
  lemma HistoryLines(history: seq<HistoryEntry>)
    requires |history| > 0
    requires SingleLineContents(history)
    ensures var lines := Text.Split(HistoryText(history), '\n');
            && |lines| == |history|
            && forall i :: 0 <= i < |history| ==>
                 lines[i] == (if history[i].role == "user" then "User: " else "Assistant: ")
                             + history[i].content
  {
    var lines := RenderedLines(history);
    forall i | 0 <= i < |lines|
      ensures '\n' !in lines[i]
      ensures lines[i] == (if history[i].role == "user" then "User: " else "Assistant: ") + history[i].content
    {
      LineHasNoBreak(history[i]);
    }
    assert HistoryText(history) == Text.Join(lines, ['\n']);
    Text.SplitJoin(lines, '\n');
  }

  /** A rendered line is the label, ": " and the content, and breaks no line
      the content does not break. */
  lemma LineHasNoBreak(e: HistoryEntry)
    ensures RenderLine(e) == (if e.role == "user" then "User: " else "Assistant: ") + e.content
    ensures '\n' !in e.content ==> '\n' !in RenderLine(e)
  {
    assert RenderLine(e) == Label(e.role) + ": " + e.content;
    assert Label(e.role) + ": " == (if e.role == "user" then "User: " else "Assistant: ");
  }

  /** The text of the prompt before the history block. */
  const Opening: string := SystemInstruction + "\n\n" + HistoryHeader

  /** The text of the prompt between the history block and the query. */
  const QueryIntro: string := "\n\n" + QueryHeader + "User: "

  /** The text of the prompt after the query. */
  const Tail: string := "\n\n" + Closing

  /** The prompt sent to the model for `query` after `history`. */
  function FullPrompt(history: seq<HistoryEntry>, query: string): string {
    SystemInstruction + "\n\n"
    + HistoryHeader + HistoryText(history) + "\n\n"
    + QueryHeader + "User: " + query + "\n\n"
    + Closing
  }

  /** The text of the prompt before the query. */
  function Lead(history: seq<HistoryEntry>): string {
    Opening + HistoryText(history) + QueryIntro
  }

  /** The prompt is the fixed opening, the history block, the query line and
      the fixed closing, in that order. */
  lemma PromptParts(history: seq<HistoryEntry>, query: string)
    ensures FullPrompt(history, query) == Lead(history) + query + Tail
  {
    Regroup(Opening + HistoryText(history), "\n\n", QueryHeader, "User: ", query, Closing);
  }

  /** Regrouping the concatenation the prompt is written as. */
  lemma Regroup(x: string, nn: string, qh: string, us: string, q: string, cl: string)
    ensures x + nn + qh + us + q + nn + cl == (x + (nn + qh + us)) + q + (nn + cl)
  {
    assert x + nn + qh + us == x + (nn + qh + us);
  }

  /** Where each of five consecutive pieces sits in their concatenation. */
  lemma Pieces(a: string, b: string, c: string, d: string, e: string)
    ensures var s := a + b + c + d + e;
            && a <= s
            && s[|a|..|a| + |b|] == b
            && s[|a + b|..|a + b + c|] == c
            && s[|a + b + c|..|a + b + c| + |d|] == d
            && s[|s| - |e|..] == e
  {
    var s := a + b + c + d + e;
    assert s == a + (b + c + d + e);
    assert s == (a + b) + (c + d + e);
    assert s == (a + b + c + d) + e;
    assert s == (a + b + c) + d + e;
    assert (a + b + c)[|a + b|..] == c;
    assert (a + b + c + d)[|a + b + c|..] == d;
  }

  /** The prompt built by `FullPrompt` is, in order: the system instruction,
      a blank line and the history header; the history block; a blank line,
      the query header and "User: "; the query; a blank line and the closing
      request. Each piece occurs verbatim at its offset, so both the rendered
      history and the query occur in the prompt. */
  lemma PromptLayout(history: seq<HistoryEntry>, query: string)
    ensures var p := FullPrompt(history, query);
            var h := HistoryText(history);
            var q := |Opening| + |h| + |QueryIntro|;
            && |p| == q + |query| + |Tail|
            && Opening <= p
            && p[|Opening|..|Opening| + |h|] == h
            && p[|Opening| + |h|..q] == QueryIntro
            && p[q..q + |query|] == query
            && p[|p| - |Tail|..] == Tail
  {
    PromptParts(history, query);
    Pieces(Opening, HistoryText(history), QueryIntro, query, Tail);
  }

  /** Every prompt starts with the system instruction and ends with the
      closing request. */
  lemma PromptFrame(history: seq<HistoryEntry>, query: string)
    ensures var p := FullPrompt(history, query);
            && SystemInstruction <= p
            && |Closing| <= |p| && p[|p| - |Closing|..] == Closing
  {
    var p := FullPrompt(history, query);
    PromptLayout(history, query);
    assert Opening[..|SystemInstruction|] == SystemInstruction;
    assert p[..|Opening|][..|SystemInstruction|] == SystemInstruction;
    var t := p[|p| - |Tail|..];
    assert t[|t| - |Closing|..] == Closing;
    assert p[|p| - |Closing|..] == t[|t| - |Closing|..];
  }

  /** Recovers the query from a prompt built for `history`, or `None` when
      the text does not have the prompt's shape. */
  function ExtractQuery(prompt: string, history: seq<HistoryEntry>): Option<string> {
    var lead := Lead(history);
    if |prompt| >= |lead| + |Tail| && prompt[..|lead|] == lead && prompt[|prompt| - |Tail|..] == Tail
    then Some(prompt[|lead|..|prompt| - |Tail|])
    else None
  }

  /** The query can be read back out of the prompt: the prompt loses nothing
      of it. */
  lemma QueryRoundTrip(history: seq<HistoryEntry>, query: string)
    ensures ExtractQuery(FullPrompt(history, query), history) == Some(query)
  {
    var p := FullPrompt(history, query);
    var lead := Lead(history);
    PromptParts(history, query);
    assert p[..|lead|] == lead;
    assert p[|p| - |Tail|..] == Tail;
    assert p[|lead|..|p| - |Tail|] == query;
  }

  /** Different queries after the same history give different prompts. */
  lemma PromptDeterminesQuery(history: seq<HistoryEntry>, q1: string, q2: string)
    requires FullPrompt(history, q1) == FullPrompt(history, q2)
    ensures q1 == q2
  {
    QueryRoundTrip(history, q1);
    QueryRoundTrip(history, q2);
  }
}
