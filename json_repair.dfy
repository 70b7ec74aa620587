/**
 * `safe_json_parse` of app/gemini/json_utils.py; `GeminiService.safe_json_parse` in
 * app/gemini/service.py is the same chain. It never raises: it tries the original text,
 * the fence-stripped text, the brace substring and a repaired text, in that order, and
 * falls back to `{"raw_text": text}`. `json.loads` is the parameter `parse`.
 */
module JsonRepair {
  import opened Wrappers
  import opened JsonValue
  import Text

  /** `json.loads` as a partial function: `None` where it raises. */
  type Parser = string -> Option<Json>

  /** The text starts with three backticks. */
  predicate FenceAt(s: string) {
    |s| >= 3 && s[0] == '`' && s[1] == '`' && s[2] == '`'
  }

  /** The text starts with three backticks followed by `json`. */
  predicate JsonFenceAt(s: string) {
    |s| >= 7 && FenceAt(s) && s[3] == 'j' && s[4] == 's' && s[5] == 'o' && s[6] == 'n'
  }

  /** No three consecutive backticks anywhere. */
  predicate NoFence(s: string) {
    forall i :: 0 <= i < |s| - 2 ==> !(s[i] == '`' && s[i + 1] == '`' && s[i + 2] == '`')
  }

  /**
   * `re.sub(r"```json\s*|```\s*", "", s)`: at each position the `json` alternative is
   * tried first; a match and the whitespace run after it are deleted, and scanning
   * resumes after the match.
   */
  function RemoveFences(s: string): (r: string)
    ensures |r| <= |s|
    ensures NoFence(r)
    ensures s != [] && !FenceAt(s) ==> r != [] && r[0] == s[0]
    decreases |s|
  {
    if s == [] then []
    else if JsonFenceAt(s) then RemoveFences(Text.LStrip(s[7..]))
    else if FenceAt(s) then RemoveFences(Text.LStrip(s[3..]))
    else
      var rest := RemoveFences(s[1..]);
      assert |s| >= 2 && s[0] == '`' && s[1] == '`' ==> !FenceAt(s[1..]);
      assert |s| >= 3 && s[0] == '`' && s[1] == '`' && s[2] == '`' ==> false;
      assert |s| >= 3 && s[0] == '`' && s[1] == '`' ==> !FenceAt(s[2..]) && s[1..][1..] == s[2..];
      [s[0]] + rest
  }

  /** A text that does not open with a backtick keeps its first character. */
  lemma PlainHead(s: string)
    requires s != [] && s[0] != '`'
    ensures RemoveFences(s) == [s[0]] + RemoveFences(s[1..])
  {
  }

  /** A prefix without backticks passes through fence removal unchanged. */
  lemma {:induction false} RemoveFencesPlainPrefix(a: string, t: string)
    requires Text.NoChar(a, '`')
    ensures RemoveFences(a + t) == a + RemoveFences(t)
    decreases |a|
  {
    if a == [] {
      assert a + t == t;
    } else {
      var s := a + t;
      assert s[0] == a[0];
      PlainHead(s);
      assert s[1..] == a[1..] + t;
      RemoveFencesPlainPrefix(a[1..], t);
      assert [a[0]] + (a[1..] + RemoveFences(t)) == a + RemoveFences(t);
    }
  }

  /** Text without backticks is left as it is. */
  lemma NoBacktickUnchanged(s: string)
    requires Text.NoChar(s, '`')
    ensures RemoveFences(s) == s
  {
    RemoveFencesPlainPrefix(s, []);
    assert s + [] == s;
  }

  /** Stage 2's text: fences removed, then `.strip()`. */
  function Cleaned(text: string): string {
    Text.Strip(RemoveFences(text))
  }

  /**
   * The span of `re.search(r"\{.*\}", s, re.DOTALL)` as the indices of its first and
   * last character: the first `{` and the last `}`, provided the `}` comes later.
   */
  function BraceMatch(s: string): (r: Option<(nat, nat)>)
    ensures r.Some? ==>
      var (i, j) := r.value;
      i < j < |s| && s[i] == '{' && s[j] == '}'
      && Text.NoChar(s[..i], '{') && Text.NoChar(s[j + 1..], '}')
    ensures r.None? <==> forall i, j :: 0 <= i < j < |s| && s[i] == '{' ==> s[j] != '}'
  {
    match (Text.FindChar(s, '{'), Text.RFindChar(s, '}'))
    case (Some(i), Some(j)) =>
      if i < j then Some((i, j))
      else
        None
    case _ => None
  }

  /** Stage 3's text, when the brace span exists. */
  function BraceSpan(s: string): (r: Option<string>)
    ensures r.Some? ==> |r.value| >= 2 && r.value[0] == '{' && r.value[|r.value| - 1] == '}'
  {
    match BraceMatch(s)
    case Some((i, j)) => Some(s[i..j + 1])
    case None => None
  }

  /** Stage 4's text: newlines to spaces, then `,}` to `}`, then `,]` to `]`. */
  function Repair(s: string): (r: string)
    ensures Text.NoChar(r, '\n')
  {
    var noNewlines := Text.ReplaceAll(s, "\n", " ");
    Text.ReplaceRemovesChar(s, '\n', " ");
    var objects := Text.ReplaceAll(noNewlines, ",}", "}");
    Text.ReplaceKeepsNoChar(noNewlines, ",}", "}", '\n');
    Text.ReplaceKeepsNoChar(objects, ",]", "]", '\n');
    Text.ReplaceAll(objects, ",]", "]")
  }

  /** The stage texts, in the order they are tried; the brace span only when it exists. */
  function StageTexts(text: string, cleaned: string, span: Option<string>, repaired: string): seq<string> {
    match span
    case Some(sp) => [text, cleaned, sp, repaired]
    case None => [text, cleaned, repaired]
  }

  /** The texts handed to `json.loads`, in the order they are tried. */
  function Candidates(text: string): seq<string> {
    StageTexts(text, Cleaned(text), BraceSpan(Cleaned(text)), Repair(Cleaned(text)))
  }

  /** The first candidate that parses, as a reference for the chain. */
  function FirstParse(parse: Parser, cs: seq<string>): (r: Option<Json>)
    decreases |cs|
  {
    if cs == [] then None
    else match parse(cs[0])
      case Some(v) => Some(v)
      case None => FirstParse(parse, cs[1..])
  }

  lemma FirstParseCons(parse: Parser, c: string, cs: seq<string>)
    ensures FirstParse(parse, [c] + cs) == if parse(c).Some? then parse(c) else FirstParse(parse, cs)
  {
    assert ([c] + cs)[1..] == cs;
  }

  lemma FirstParse3(parse: Parser, a: string, b: string, c: string)
    ensures FirstParse(parse, [a, b, c])
      == if parse(a).Some? then parse(a) else if parse(b).Some? then parse(b) else parse(c)
  {
    FirstParseCons(parse, c, []);
    FirstParseCons(parse, b, [c]);
    FirstParseCons(parse, a, [b, c]);
    assert [c] + [] == [c];
    assert [b] + [c] == [b, c];
    assert [a] + [b, c] == [a, b, c];
  }

  lemma FirstParse4(parse: Parser, a: string, b: string, c: string, d: string)
    ensures FirstParse(parse, [a, b, c, d])
      == if parse(a).Some? then parse(a) else FirstParse(parse, [b, c, d])
  {
    FirstParseCons(parse, a, [b, c, d]);
    assert [a] + [b, c, d] == [a, b, c, d];
  }

  /** The chain of parse attempts over given stage texts, with the raw-text fallback. */
  function Chain(parse: Parser, text: string, cleaned: string, span: Option<string>, repaired: string): Json {
    match parse(text)
    case Some(v) => v
    case None =>
      match parse(cleaned)
      case Some(v) => v
      case None =>
        var fromSpan := match span case Some(sp) => parse(sp) case None => None;
        if fromSpan.Some? then fromSpan.value
        else
          match parse(repaired)
          case Some(v) => v
          case None => Single("raw_text", text)
  }

  /** `safe_json_parse(text)`. */
  function SafeJsonParse(parse: Parser, text: string): (r: Json)
    ensures parse(text).Some? ==> r == parse(text).value
  {
    Chain(parse, text, Cleaned(text), BraceSpan(Cleaned(text)), Repair(Cleaned(text)))
  }

  /** `FirstParse` returns the parse of the earliest candidate that parses, and `None` iff none does. */
  lemma {:induction false} FirstParseIsEarliest(parse: Parser, cs: seq<string>)
    ensures FirstParse(parse, cs).None? <==> forall k :: 0 <= k < |cs| ==> parse(cs[k]).None?
    ensures FirstParse(parse, cs).Some? ==>
      exists k :: 0 <= k < |cs| && parse(cs[k]) == FirstParse(parse, cs)
        && forall j :: 0 <= j < k ==> parse(cs[j]).None?
    decreases |cs|
  {
    if cs != [] && parse(cs[0]).None? {
      FirstParseIsEarliest(parse, cs[1..]);
      assert forall k :: 1 <= k < |cs| ==> cs[k] == cs[1..][k - 1];
      if FirstParse(parse, cs).Some? {
        var k :| 0 <= k < |cs[1..]| && parse(cs[1..][k]) == FirstParse(parse, cs[1..])
          && forall j :: 0 <= j < k ==> parse(cs[1..][j]).None?;
        assert parse(cs[k + 1]) == FirstParse(parse, cs);
        assert forall j :: 0 <= j < k + 1 ==> parse(cs[j]).None? by {
          forall j | 0 <= j < k + 1 ensures parse(cs[j]).None? {
            if j > 0 { assert cs[j] == cs[1..][j - 1]; }
          }
        }
      }
    }
  }

  /**
   * The chain returns the parse of the first stage that succeeds, in the order original,
   * fence-stripped, brace span, repaired, and `{"raw_text": text}` with the original text
   * when none does.
   */
  lemma StagesInOrder(parse: Parser, text: string)
    ensures SafeJsonParse(parse, text)
      == (match FirstParse(parse, Candidates(text)) case Some(v) => v case None => Single("raw_text", text))
  {
    ChainInOrder(parse, text, Cleaned(text), BraceSpan(Cleaned(text)), Repair(Cleaned(text)));
  }

  lemma ChainInOrder(parse: Parser, text: string, cleaned: string, span: Option<string>, repaired: string)
    ensures Chain(parse, text, cleaned, span, repaired)
      == (match FirstParse(parse, StageTexts(text, cleaned, span, repaired)) case Some(v) => v case None => Single("raw_text", text))
  {
    match span
    case Some(sp) =>
      FirstParse4(parse, text, cleaned, sp, repaired);
      FirstParse3(parse, cleaned, sp, repaired);
    case None => FirstParse3(parse, text, cleaned, repaired);
  }

  /** The raw-text fallback, carrying the original text, is reached when no candidate parses. */
  lemma AllStagesFail(parse: Parser, text: string)
    requires forall k :: 0 <= k < |Candidates(text)| ==> parse(Candidates(text)[k]).None?
    ensures SafeJsonParse(parse, text) == Single("raw_text", text)
  {
    StagesInOrder(parse, text);
    FirstParseIsEarliest(parse, Candidates(text));
  }

  /** A fenced body without backticks and without surrounding whitespace is recovered exactly by stage 2. */
  lemma FencedBodyRecovered(body: string)
    requires body != [] && Text.NoChar(body, '`')
    requires !Text.IsSpace(body[0]) && !Text.IsSpace(body[|body| - 1])
    ensures Cleaned("```json\n" + body + "\n```") == body
  {
    var s := "```json\n" + body + "\n```";
    assert JsonFenceAt(s);
    assert s[7..] == "\n" + (body + "\n```");
    Text.LStripSpacePrefix("\n", body + "\n```");
    RemoveFencesPlainPrefix(body, "\n```");
    assert "\n```"[1..] == "```";
    assert RemoveFences("```") == RemoveFences([]) by { assert FenceAt("```"); assert "```"[3..] == []; }
    assert RemoveFences("\n```") == "\n";
    Text.LStripSpacePrefix([], body + "\n");
    assert [] + (body + "\n") == body + "\n";
    Text.RStripSpaceSuffix(body, "\n");
  }

  /** The markdown test: a fenced `{"a": 1}` is parsed through stage 2. */
  lemma FencedObjectParsed(parse: Parser, v: Json)
    requires parse("```json\n{\"a\": 1}\n```").None?
    requires parse("{\"a\": 1}") == Some(v)
    ensures SafeJsonParse(parse, "```json\n{\"a\": 1}\n```") == v
  {
    assert "```json\n" + "{\"a\": 1}" + "\n```" == "```json\n{\"a\": 1}\n```";
    FencedBodyParsed(parse, "{\"a\": 1}", v);
  }

  /** A fenced body that parses is the result when the fenced text itself does not parse. */
  lemma FencedBodyParsed(parse: Parser, body: string, v: Json)
    requires body != [] && Text.NoChar(body, '`')
    requires !Text.IsSpace(body[0]) && !Text.IsSpace(body[|body| - 1])
    requires parse("```json\n" + body + "\n```").None? && parse(body) == Some(v)
    ensures SafeJsonParse(parse, "```json\n" + body + "\n```") == v
  {
    FencedBodyRecovered(body);
    CleanedStageWins(parse, "```json\n" + body + "\n```", v);
  }

  /** When the original text does not parse and its stage-2 text does, that parse is the result. */
  lemma CleanedStageWins(parse: Parser, text: string, v: Json)
    requires parse(text).None? && parse(Cleaned(text)) == Some(v)
    ensures SafeJsonParse(parse, text) == v
  {
  }

  /** When stages 1 to 3 fail and the repaired text parses, that parse is the result. */
  lemma RepairStageWins(parse: Parser, text: string, v: Json)
    requires parse(text).None? && parse(Cleaned(text)).None?
    requires BraceSpan(Cleaned(text)).None? || parse(BraceSpan(Cleaned(text)).value).None?
    requires parse(Repair(Cleaned(text))) == Some(v)
    ensures SafeJsonParse(parse, text) == v
  {
  }

  /** Text with no backtick whose ends are not whitespace is its own stage-2 text. */
  lemma PlainTextCleaned(s: string)
    requires Text.NoChar(s, '`') && (s == [] || (!Text.IsSpace(s[0]) && !Text.IsSpace(s[|s| - 1])))
    ensures Cleaned(s) == s
  {
    NoBacktickUnchanged(s);
  }

  /** The brace span of a text that opens with its only `{` and closes with its only `}` is the whole text. */
  lemma WholeTextSpan(s: string)
    requires |s| >= 2 && s[0] == '{' && s[|s| - 1] == '}' && Text.NoChar(s[..|s| - 1], '}')
    ensures BraceSpan(s) == Some(s)
  {
    var m := BraceMatch(s);
    assert m.Some?;
    var (i, j) := m.value;
    assert s[0..|s|] == s;
  }

  /** Dropping the comma before a closing brace, when the text has no other comma or newline. */
  lemma RepairDropsComma(head: string)
    requires Text.NoChar(head, ',') && Text.NoChar(head, '\n')
    ensures Repair(head + ",}") == head + "}"
  {
    var s := head + ",}";
    assert Text.NoChar(",}", '\n');
    assert Text.NoChar(s, '\n');
    Text.ReplaceAbsent(s, "\n", " ");
    Text.ReplaceAfterAbsent(head, ",}", ",}", "}");
    assert ",}"[..2] == ",}" && ",}"[2..] == [];
    assert Text.ReplaceAll(",}", ",}", "}") == "}";
    assert Text.NoChar(head + "}", ',');
    Text.ReplaceAbsent(head + "}", ",]", "]");
  }

  /** The repair test: `{"a": 1,}` fails stages 1 to 3 and is repaired to `{"a": 1}`. */
  lemma TrailingCommaRepaired(parse: Parser, v: Json)
    requires parse("{\"a\": 1,}").None?
    requires parse("{\"a\": 1}") == Some(v)
    ensures SafeJsonParse(parse, "{\"a\": 1,}") == v
  {
    assert "{\"a\": 1" + ",}" == "{\"a\": 1,}";
    assert "{\"a\": 1" + "}" == "{\"a\": 1}";
    TrailingCommaParsed(parse, "{\"a\": 1", v);
  }

  /** An object whose only defect is a comma before its final brace fails stages 1 to 3 and is parsed after repair. */
  lemma TrailingCommaParsed(parse: Parser, head: string, v: Json)
    requires head != [] && head[0] == '{'
    requires Text.NoChar(head, '`') && Text.NoChar(head, '}') && Text.NoChar(head, ',') && Text.NoChar(head, '\n')
    requires parse(head + ",}").None? && parse(head + "}") == Some(v)
    ensures SafeJsonParse(parse, head + ",}") == v
  {
    TrailingCommaStages(head);
    RepairStageWins(parse, head + ",}", v);
  }

  /** The stage texts of such an object: itself, itself, and itself without the comma. */
  lemma TrailingCommaStages(head: string)
    requires head != [] && head[0] == '{'
    requires Text.NoChar(head, '`') && Text.NoChar(head, '}') && Text.NoChar(head, ',') && Text.NoChar(head, '\n')
    ensures Cleaned(head + ",}") == head + ",}"
    ensures BraceSpan(head + ",}") == Some(head + ",}")
    ensures Repair(head + ",}") == head + "}"
  {
    TrailingCommaCleaned(head);
    TrailingCommaSpan(head);
    RepairDropsComma(head);
  }

  lemma TrailingCommaCleaned(head: string)
    requires head != [] && Text.NoChar(head, '`') && !Text.IsSpace(head[0])
    ensures Cleaned(head + ",}") == head + ",}"
  {
    var s := head + ",}";
    assert Text.NoChar(s, '`') by {
      assert forall i :: |head| <= i < |s| ==> s[i] == ",}"[i - |head|];
    }
    PlainTextCleaned(s);
  }

  lemma TrailingCommaSpan(head: string)
    requires head != [] && head[0] == '{' && Text.NoChar(head, '}')
    ensures BraceSpan(head + ",}") == Some(head + ",}")
  {
    var s := head + ",}";
    assert s[..|s| - 1] == head + ",";
    assert Text.NoChar(head + ",", '}');
    WholeTextSpan(s);
  }

  /** Text without newlines or commas is its own repaired text. */
  lemma RepairUnchanged(s: string)
    requires Text.NoChar(s, '\n') && Text.NoChar(s, ',')
    ensures Repair(s) == s
  {
    Text.ReplaceAbsent(s, "\n", " ");
    Text.ReplaceAbsent(s, ",}", "}");
    Text.ReplaceAbsent(s, ",]", "]");
  }

  /** When no stage parses, the result is the raw-text object built from the original text. */
  lemma NoStageParses(parse: Parser, text: string)
    requires parse(text).None? && parse(Cleaned(text)).None?
    requires BraceSpan(Cleaned(text)).None? || parse(BraceSpan(Cleaned(text)).value).None?
    requires parse(Repair(Cleaned(text))).None?
    ensures SafeJsonParse(parse, text) == Single("raw_text", text)
  {
  }

  /** Text without backticks, braces, newlines or commas, and not padded with whitespace, fails every stage when it fails the first. */
  lemma PlainTextFallsBack(parse: Parser, text: string)
    requires parse(text).None?
    requires Text.NoChar(text, '`') && Text.NoChar(text, '{') && Text.NoChar(text, '\n') && Text.NoChar(text, ',')
    requires text == [] || (!Text.IsSpace(text[0]) && !Text.IsSpace(text[|text| - 1]))
    ensures SafeJsonParse(parse, text) == Single("raw_text", text)
  {
    PlainTextCleaned(text);
    assert Text.FindChar(text, '{').None?;
    assert BraceSpan(text).None?;
    RepairUnchanged(text);
    NoStageParses(parse, text);
  }

  /** The fallback test: `not json` comes back as `{"raw_text": "not json"}`. */
  lemma NotJsonFallsBack(parse: Parser)
    requires parse("not json").None?
    ensures SafeJsonParse(parse, "not json") == Single("raw_text", "not json")
    ensures "raw_text" in SafeJsonParse(parse, "not json").fields
  {
    PlainTextFallsBack(parse, "not json");
  }

  /** Repair turns newlines into spaces before looking for `,}`, so `",\n}"` becomes `", }"` and keeps its comma. */
  lemma CommaBeforeNewlineNotRepaired()
    ensures Repair(",\n}") == ", }"
  {
    Text.ReplaceAfterAbsent(",", "\n}", "\n", " ");
    assert "\n}"[..1] == "\n" && "\n}"[1..] == "}";
    Text.ReplaceAbsent("}", "\n", " ");
    assert Text.ReplaceAll(",\n}", "\n", " ") == ", }";
    assert ", }"[..2][1] != ",}"[1];
    assert ", }"[1..] == " }";
    Text.ReplaceAbsent(" }", ",}", "}");
    assert ", }"[..2][1] != ",]"[1];
    Text.ReplaceAbsent(" }", ",]", "]");
  }
}
