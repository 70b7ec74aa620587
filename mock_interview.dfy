/**
 * The pure helpers of app/ui/views/mock_interview_helpers.py: `parse_evaluation` (the
 * JSON path, then the line-based legacy parser), `add_to_history` and
 * `get_question_history` over the session's history list. The evaluation API, the
 * database calls behind `load_history_from_db` and the clock are parameters.
 */
module MockInterview {
  import opened Wrappers
  import opened JsonValue
  import Text
  import Seqs

  /** The dict `parse_evaluation` returns: its five keys, one field each. */
  datatype Evaluation = Evaluation(score: int, strengths: Json, weaknesses: Json, suggestion: Json, idealAnswer: Json)

  function Strings(xs: seq<string>): Json {
    JArr(seq(|xs|, k requires 0 <= k < |xs| => JStr(xs[k])))
  }

  /** `v or default`. */
  function Or(v: Json, default: Json): Json {
    if Truthy(v) then v else default
  }

  // ---------------------------------------------------------------- the JSON path

  /** The JSON path on a parsed value; `None` where it raises (not a dict, or `int` rejects the score). */
  function FromJson(data: Json): Option<Evaluation> {
    if !data.JObj? then None
    else
      var m := data.fields;
      match ToInt(Get(m, "score", JInt(0)), Text.ParseInt)
      case None => None
      case Some(score) =>
        Some(Evaluation(score,
                        Or(Get(m, "strengths", JArr([])), JArr([])),
                        Or(Get(m, "weaknesses", JArr([])), JArr([])),
                        Or(Get(m, "suggestion", JStr("")), JStr("")),
                        Or(Get(m, "ideal_answer", JStr("")), JStr(""))))
  }

  /**
   * A dict whose score converts yields the converted score, each present truthy field as
   * it is, and `[]` or `""` for a missing or falsy one; a value that is not a dict, or whose
   * score does not convert, does not take the JSON path.
   */
  lemma FromJsonFields(data: Json)
    ensures FromJson(data).Some? <==> data.JObj? && ToInt(Get(data.fields, "score", JInt(0)), Text.ParseInt).Some?
    ensures data.JObj? && "score" !in data.fields ==> FromJson(data).Some? && FromJson(data).value.score == 0
    ensures FromJson(data).Some? ==>
      var e := FromJson(data).value;
      var m := data.fields;
      && (("strengths" in m && Truthy(m["strengths"])) ==> e.strengths == m["strengths"])
      && (!("strengths" in m && Truthy(m["strengths"])) ==> e.strengths == JArr([]))
      && (("weaknesses" in m && Truthy(m["weaknesses"])) ==> e.weaknesses == m["weaknesses"])
      && (!("weaknesses" in m && Truthy(m["weaknesses"])) ==> e.weaknesses == JArr([]))
      && (("suggestion" in m && Truthy(m["suggestion"])) ==> e.suggestion == m["suggestion"])
      && (!("suggestion" in m && Truthy(m["suggestion"])) ==> e.suggestion == JStr(""))
      && (("ideal_answer" in m && Truthy(m["ideal_answer"])) ==> e.idealAnswer == m["ideal_answer"])
      && (!("ideal_answer" in m && Truthy(m["ideal_answer"])) ==> e.idealAnswer == JStr(""))
  {
  }

  // ---------------------------------------------------------------- the legacy text parser

  datatype Section = NoSection | Strengths | Weaknesses | Suggestion | IdealAnswer

  /** The parser's variables: `score`, the four lists and `current_section`. */
  datatype Parse = Parse(
    score: Option<int>,
    strengths: seq<string>,
    weaknesses: seq<string>,
    suggestionLines: seq<string>,
    idealLines: seq<string>,
    section: Section)

  const Start := Parse(None, [], [], [], [], NoSection)

  /** `int(line.split(":", 1)[1].split("/")[0].strip())`; `None` where it raises. */
  function ScoreOf(line: string): Option<int> {
    match Text.FindChar(line, ':')
    case None => None
    case Some(i) =>
      var after := line[i + 1..];
      var num := match Text.FindChar(after, '/') case None => after case Some(j) => after[..j];
      Text.ParseInt(num)
  }

  /** `line.lstrip("-• ").strip()`. */
  function Bullet(line: string): string {
    Text.Strip(Text.LStripChars(line, {'-', '•', ' '}))
  }

  /** What one line of the text is to the parser. */
  datatype LineKind =
    | Blank
    | ScoreLine(value: Option<int>)
    | Header(heading: Section)
    | Content(line: string)

  /** The line's kind: the header tests run on the stripped, lower-cased line, in order. */
  function Classify(rawLine: string): LineKind {
    var line := Text.Strip(rawLine);
    if line == "" then Blank
    else
      var lower := Text.Lower(line);
      if Text.StartsWith(lower, "score") then ScoreLine(ScoreOf(line))
      else if Text.StartsWith(lower, "strengths") then Header(Strengths)
      else if Text.StartsWith(lower, "weaknesses") then Header(Weaknesses)
      else if Text.StartsWith(lower, "suggestion") then Header(Suggestion)
      else if Text.StartsWith(lower, "ideal answer") then Header(IdealAnswer)
      else Content(line)
  }

  /** A non-blank line that starts (lower-cased) with one of the five headers. */
  predicate IsHeader(line: string) {
    var lower := Text.Lower(Text.Strip(line));
    Text.Strip(line) != "" &&
    (Text.StartsWith(lower, "score") || Text.StartsWith(lower, "strengths") || Text.StartsWith(lower, "weaknesses")
     || Text.StartsWith(lower, "suggestion") || Text.StartsWith(lower, "ideal answer"))
  }

  /**
   * Blank lines are exactly the lines that strip to nothing; header lines (score lines
   * included) are exactly the kinds that carry no content; content is the stripped line.
   */
  lemma ClassifyCases(line: string)
    ensures Classify(line) == Blank <==> Text.Strip(line) == ""
    ensures Classify(line).ScoreLine? || Classify(line).Header? <==> IsHeader(line)
    ensures Classify(line).ScoreLine? ==> Classify(line).value == ScoreOf(Text.Strip(line))
    ensures Classify(line).Content? ==> Classify(line).line == Text.Strip(line) && Text.Strip(line) != ""
    ensures Classify(line).Header? ==> Classify(line).heading != NoSection
  {
    var s := Text.Strip(line);
    var lower := Text.Lower(s);
    if s == "" {
    } else if Text.StartsWith(lower, "score") {
      assert Classify(line) == ScoreLine(ScoreOf(s));
    } else if Text.StartsWith(lower, "strengths") {
      assert Classify(line) == Header(Strengths);
    } else if Text.StartsWith(lower, "weaknesses") {
      assert Classify(line) == Header(Weaknesses);
    } else if Text.StartsWith(lower, "suggestion") {
      assert Classify(line) == Header(Suggestion);
    } else if Text.StartsWith(lower, "ideal answer") {
      assert Classify(line) == Header(IdealAnswer);
    } else {
      assert Classify(line) == Content(s);
    }
  }

  /** One iteration of the line loop. */
  function Step(p: Parse, kind: LineKind): Parse {
    match kind
    case Blank => p
    case ScoreLine(v) => p.(score := if v.Some? then v else p.score, section := NoSection)
    case Header(s) => p.(section := s)
    case Content(line) =>
      match p.section
      case Strengths => p.(strengths := p.strengths + [Bullet(line)])
      case Weaknesses => p.(weaknesses := p.weaknesses + [Bullet(line)])
      case Suggestion => p.(suggestionLines := p.suggestionLines + [line])
      case IdealAnswer => p.(idealLines := p.idealLines + [line])
      case NoSection => p
  }

  function Fold(p: Parse, kinds: seq<LineKind>): Parse
    decreases |kinds|
  {
    if kinds == [] then p else Fold(Step(p, kinds[0]), kinds[1..])
  }

  function Kinds(lines: seq<string>): seq<LineKind> {
    seq(|lines|, k requires 0 <= k < |lines| => Classify(lines[k]))
  }

  /** The dict built after the loop. */
  function Finish(p: Parse): Evaluation {
    Evaluation(p.score.GetOr(0), Strings(p.strengths), Strings(p.weaknesses),
               JStr(Text.Strip(Text.Join(p.suggestionLines, "\n"))), JStr(Text.Strip(Text.Join(p.idealLines, "\n"))))
  }

  /** What the legacy parser returns for `text`. */
  function ParsedText(text: string): Evaluation {
    Finish(Fold(Start, Kinds(Text.SplitLines(text))))
  }

  /** Folding over two runs of lines is folding over the first, then the second. */
  lemma {:induction false} FoldAppend(p: Parse, a: seq<LineKind>, b: seq<LineKind>)
    ensures Fold(p, a + b) == Fold(Fold(p, a), b)
    decreases |a|
  {
    if a == [] {
      assert a + b == b;
    } else {
      assert (a + b)[0] == a[0];
      assert (a + b)[1..] == a[1..] + b;
      FoldAppend(Step(p, a[0]), a[1..], b);
    }
  }

  /**
   * Header lines are never recorded as content; a score line resets the section and keeps
   * the previous score when its number does not parse.
   */
  lemma HeadersRecordNothing(p: Parse, kind: LineKind)
    requires kind.ScoreLine? || kind.Header?
    ensures var q := Step(p, kind);
      && q.strengths == p.strengths && q.weaknesses == p.weaknesses
      && q.suggestionLines == p.suggestionLines && q.idealLines == p.idealLines
    ensures kind.ScoreLine? ==>
      Step(p, kind).section == NoSection && Step(p, kind).score == (if kind.value.Some? then kind.value else p.score)
  {
  }

  /** A content line goes to the current section's list only; with no section it is dropped. */
  lemma ContentToCurrentSection(p: Parse, line: string)
    ensures var q := Step(p, Content(line));
      && q.section == p.section && q.score == p.score
      && q.strengths == p.strengths + (if p.section == Strengths then [Bullet(line)] else [])
      && q.weaknesses == p.weaknesses + (if p.section == Weaknesses then [Bullet(line)] else [])
      && q.suggestionLines == p.suggestionLines + (if p.section == Suggestion then [line] else [])
      && q.idealLines == p.idealLines + (if p.section == IdealAnswer then [line] else [])
  {
    assert p.strengths + [] == p.strengths && p.weaknesses + [] == p.weaknesses;
    assert p.suggestionLines + [] == p.suggestionLines && p.idealLines + [] == p.idealLines;
    match p.section
    case NoSection =>
      assert Step(p, Content(line)) == p;
    case Strengths =>
      assert Step(p, Content(line)) == p.(strengths := p.strengths + [Bullet(line)]);
    case Weaknesses =>
      assert Step(p, Content(line)) == p.(weaknesses := p.weaknesses + [Bullet(line)]);
    case Suggestion =>
      assert Step(p, Content(line)) == p.(suggestionLines := p.suggestionLines + [line]);
    case IdealAnswer =>
      assert Step(p, Content(line)) == p.(idealLines := p.idealLines + [line]);
  }

  /** Lines before the first header record nothing. */
  lemma {:induction false} NoHeaderRecordsNothing(kinds: seq<LineKind>)
    requires forall k :: 0 <= k < |kinds| ==> kinds[k].Blank? || kinds[k].Content?
    ensures Fold(Start, kinds) == Start
    decreases |kinds|
  {
    if kinds != [] {
      assert Step(Start, kinds[0]) == Start;
      NoHeaderRecordsNothing(kinds[1..]);
    }
  }

  /** A line that sets the score. */
  predicate SetsScore(kind: LineKind) {
    kind.ScoreLine? && kind.value.Some?
  }

  lemma {:induction false} ScoreKept(p: Parse, kinds: seq<LineKind>)
    requires forall k :: 0 <= k < |kinds| ==> !SetsScore(kinds[k])
    ensures Fold(p, kinds).score == p.score
    decreases |kinds|
  {
    if kinds != [] {
      ScoreKept(Step(p, kinds[0]), kinds[1..]);
    }
  }

  /** The last score line whose number parses decides the score. */
  lemma LastScoreWins(p: Parse, before: seq<LineKind>, line: LineKind, after: seq<LineKind>)
    requires SetsScore(line)
    requires forall k :: 0 <= k < |after| ==> !SetsScore(after[k])
    ensures Fold(p, before + [line] + after).score == line.value
  {
    FoldAppend(p, before + [line], after);
    FoldAppend(p, before, [line]);
    ScoreKept(Fold(p, before + [line]), after);
  }

  /** With no score line that parses, the score is 0. */
  lemma DefaultScore(text: string)
    requires forall k :: 0 <= k < |Kinds(Text.SplitLines(text))| ==> !SetsScore(Kinds(Text.SplitLines(text))[k])
    ensures ParsedText(text).score == 0
  {
    ScoreKept(Start, Kinds(Text.SplitLines(text)));
  }

  lemma FoldStep(p: Parse, kinds: seq<LineKind>, i: nat)
    requires i < |kinds|
    ensures Fold(p, kinds[i..]) == Fold(Step(p, kinds[i]), kinds[i + 1..])
  {
    assert kinds[i..][1..] == kinds[i + 1..];
  }

  /** The legacy parser: one pass over `text.splitlines()`, each line classified by `Classify`. */
  method ParseText(text: string) returns (e: Evaluation)
    ensures e == ParsedText(text)
  {
    var lines := Text.SplitLines(text);
    ghost var kinds := Kinds(lines);
    var score: Option<int> := None;
    var strengths: seq<string>, weaknesses: seq<string> := [], [];
    var suggestionLines: seq<string>, idealLines: seq<string> := [], [];
    var current := NoSection;
    for i := 0 to |lines|
      invariant Fold(Parse(score, strengths, weaknesses, suggestionLines, idealLines, current), kinds[i..]) == Fold(Start, kinds)
    {
      ghost var before := Parse(score, strengths, weaknesses, suggestionLines, idealLines, current);
      FoldStep(before, kinds, i);
      var kind := Classify(lines[i]);
      assert kind == kinds[i];
      ghost var next := Step(before, kind);
      match kind {
        case Blank =>
        case ScoreLine(parsed) =>
          if parsed.Some? {
            score := parsed;
          }
          current := NoSection;
        case Header(section) =>
          current := section;
        case Content(line) =>
          if current == Strengths {
            strengths := strengths + [Bullet(line)];
          } else if current == Weaknesses {
            weaknesses := weaknesses + [Bullet(line)];
          } else if current == Suggestion {
            suggestionLines := suggestionLines + [line];
          } else if current == IdealAnswer {
            idealLines := idealLines + [line];
          }
      }
      assert score == next.score && current == next.section;
      assert strengths == next.strengths && weaknesses == next.weaknesses;
      assert suggestionLines == next.suggestionLines && idealLines == next.idealLines;
    }
    assert kinds[|lines|..] == [];
    e := Finish(Parse(score, strengths, weaknesses, suggestionLines, idealLines, current));
  }

  /** `parse_evaluation(text)`: the JSON path when it succeeds, the legacy parser otherwise. */
  method ParseEvaluation(parse: string -> Option<Json>, text: string) returns (e: Evaluation)
    ensures parse(text).Some? && FromJson(parse(text).value).Some? ==> e == FromJson(parse(text).value).value
    ensures parse(text).None? || FromJson(parse(text).value).None? ==> e == ParsedText(text)
  {
    var data := parse(text);
    if data.Some? {
      var fromJson := FromJson(data.value);
      if fromJson.Some? {
        return fromJson.value;
      }
    }
    e := ParseText(text);
  }

  // ---------------------------------------------------------------- history

  /** One history entry. */
  datatype Entry = Entry(
    question: string,
    userAnswer: string,
    score: Json,
    strengths: Json,
    weaknesses: Json,
    suggestion: Json,
    idealAnswer: Json,
    timestamp: string)

  /** The entry `add_to_history` builds; `now` is `datetime.now().strftime("%Y-%m-%d %H:%M")`. */
  function NewEntry(question: string, evalResult: map<string, Json>, userAnswer: string, now: string): Entry {
    Entry(question, userAnswer,
          Get(evalResult, "score", JInt(0)), Get(evalResult, "strengths", JArr([])), Get(evalResult, "weaknesses", JArr([])),
          Get(evalResult, "suggestion", JStr("")), Get(evalResult, "ideal_answer", JStr("")), now)
  }

  predicate AsksQuestion(e: Entry, question: string) {
    e.question == question
  }

  /** `[h for h in history if h["question"] == question]`. */
  function ForQuestion(history: seq<Entry>, question: string): seq<Entry> {
    Seqs.Filter(e => AsksQuestion(e, question), history)
  }

  /** Exactly the entries for the question, in history order. */
  lemma ForQuestionExact(history: seq<Entry>, question: string)
    ensures Seqs.IsSubsequence(ForQuestion(history, question), history)
    ensures forall e :: e in ForQuestion(history, question) ==> e.question == question
    ensures forall k :: 0 <= k < |history| && history[k].question == question ==> history[k] in ForQuestion(history, question)
  {
    var p := e => AsksQuestion(e, question);
    Seqs.FilterIsSubsequence(p, history);
    forall k | 0 <= k < |history| && history[k].question == question
      ensures history[k] in ForQuestion(history, question)
    {
      Seqs.FilterKeeps(p, history, k);
    }
  }

  /** Adding an entry extends the question's history by that entry, and no other question's. */
  lemma AddThenForQuestion(history: seq<Entry>, e: Entry, question: string)
    ensures ForQuestion(history + [e], question)
         == ForQuestion(history, question) + (if e.question == question then [e] else [])
  {
    Seqs.FilterAppend(e' => AsksQuestion(e', question), history, e);
  }

  /** The Streamlit session, reduced to the history list. */
  class Session {
    /** `st.session_state["mock_interview_history"]`; `None` while the key is absent. */
    var history: Option<seq<Entry>>

    constructor (history: Option<seq<Entry>>)
      ensures this.history == history
    {
      this.history := history;
    }

    /** `add_to_history`: one entry appended at the end; earlier entries untouched. */
    method AddToHistory(question: string, evalResult: map<string, Json>, userAnswer: string, now: string)
      modifies this
      ensures history == Some(old(history).GetOr([]) + [NewEntry(question, evalResult, userAnswer, now)])
    {
      var h := history.GetOr([]);
      h := h + [NewEntry(question, evalResult, userAnswer, now)];
      history := Some(h);
    }

    /**
     * `get_question_history`: filters the session history, loading it first when it is
     * empty or absent. `db` is what `load_history_from_db` receives: the stored history
     * on status 200 (which it also puts into the session), `None` otherwise.
     */
    method GetQuestionHistory(question: string, db: Option<seq<Entry>>) returns (r: seq<Entry>)
      modifies this
      ensures old(history).GetOr([]) != [] ==> r == ForQuestion(old(history).value, question) && history == old(history)
      ensures old(history).GetOr([]) == [] && db.Some? ==> r == ForQuestion(db.value, question) && history == db
      ensures old(history).GetOr([]) == [] && db.None? ==> r == [] && history == old(history)
    {
      var h := history.GetOr([]);
      if h == [] {
        if db.Some? {
          history := db;
          h := db.value;
        }
      }
      r := ForQuestion(h, question);
    }
  }
}
