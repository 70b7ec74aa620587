/**
 * app/utils/json_handler.py: `extract_json` (a brace-counting scan), `clean_json`
 * (three ordered string cleanups) and `parse_or_repair_json` (extract, clean, strict
 * parse, with every failure raised).
 */
module JsonHandler {
  import opened Wrappers
  import opened JsonValue
  import Text
  import JsonRepair

  const NoStart := Error(ValueError, "No JSON object start found in model response")
  const NeverBalanced := Error(ValueError, "JSON braces never balanced in model response")

  /** How one character moves the brace count. */
  function Delta(c: char): int {
    if c == '{' then 1 else if c == '}' then -1 else 0
  }

  /** Opening minus closing braces in `s`; quotes play no part. */
  function Balance(s: string): int
    decreases |s|
  {
    if s == [] then 0 else Balance(s[..|s| - 1]) + Delta(s[|s| - 1])
  }

  /** The least end `e` in `from .. |text|` at which `text[start..e]` is balanced. */
  function FirstBalanced(text: string, start: nat, from: nat): (r: Option<nat>)
    requires start < from
    ensures r.Some? ==> from <= r.value <= |text| && Balance(text[start..r.value]) == 0
    ensures r.Some? ==> forall e :: from <= e < r.value ==> Balance(text[start..e]) != 0
    ensures r.None? ==> forall e :: from <= e <= |text| ==> Balance(text[start..e]) != 0
    decreases |text| + 1 - from
  {
    if from > |text| then None
    else if Balance(text[start..from]) == 0 then Some(from)
    else FirstBalanced(text, start, from + 1)
  }

  /**
   * What `extract_json` computes: from the first `{` up to and including the first
   * character at which the count of `{` minus `}` comes back to zero.
   */
  function Extract(text: string): Result<string> {
    match Text.FindChar(text, '{')
    case None => Err(NoStart)
    case Some(start) =>
      match FirstBalanced(text, start, start + 1)
      case Some(e) => Ok(text[start..e])
      case None => Err(NeverBalanced)
  }

  lemma BalanceSnoc(s: string, c: char)
    ensures Balance(s + [c]) == Balance(s) + Delta(c)
  {
    assert (s + [c])[..|s|] == s;
  }

  /** Scanning one more character of the text moves the count by that character's delta. */
  lemma BalanceStep(text: string, start: nat, i: nat)
    requires start <= i < |text|
    ensures Balance(text[start..i + 1]) == Balance(text[start..i]) + Delta(text[i])
  {
    assert text[start..i + 1] == text[start..i] + [text[i]];
    BalanceSnoc(text[start..i], text[i]);
  }

  /** `extract_json(text)`. */
  method ExtractJson(text: string) returns (r: Result<string>)
    ensures r == Extract(text)
  {
    var found := Text.FindChar(text, '{');
    if found.None? {
      return Err(NoStart);
    }
    var start := found.value;
    var braceCount := 0;
    var inJson := false;
    for i := start to |text|
      invariant braceCount == Balance(text[start..i])
      invariant inJson == (i > start)
      invariant FirstBalanced(text, start, start + 1) == FirstBalanced(text, start, i + 1)
    {
      var ch := text[i];
      if ch == '{' {
        braceCount := braceCount + 1;
        inJson := true;
      } else if ch == '}' {
        braceCount := braceCount - 1;
      }
      BalanceStep(text, start, i);
      if inJson && braceCount == 0 {
        return Ok(text[start..i + 1]);
      }
    }
    return Err(NeverBalanced);
  }

  /** Before the count first returns to zero it stays positive: it starts at one and moves by at most one. */
  lemma {:induction false} PositiveUntilBalanced(text: string, start: nat, e: nat)
    requires start < |text| && text[start] == '{'
    requires start < e <= |text|
    requires forall e' :: start + 1 <= e' <= e ==> Balance(text[start..e']) != 0
    ensures Balance(text[start..e]) > 0
    decreases e
  {
    if e == start + 1 {
      assert text[start..e] == [] + ['{'];
      BalanceSnoc([], '{');
    } else {
      PositiveUntilBalanced(text, start, e - 1);
      assert text[start..e] == text[start..e - 1] + [text[e - 1]];
      BalanceSnoc(text[start..e - 1], text[e - 1]);
    }
  }

  /** The raised `ValueError` for a missing start happens exactly when the text has no `{`. */
  lemma NoStartIffNoBrace(text: string)
    ensures Extract(text) == Err(NoStart) <==> Text.NoChar(text, '{')
  {
  }

  /**
   * A successful extraction starts at the first `{` of the text, ends with a `}`, is
   * balanced, and every proper non-empty prefix has more `{` than `}`.
   */
  lemma ExtractedIsBalancedObject(text: string)
    requires Extract(text).Ok?
    ensures var r := Extract(text).value;
      var start := Text.FindChar(text, '{').value;
      && Text.FindChar(text, '{').Some?
      && start + |r| <= |text| && r == text[start..start + |r|]
      && |r| >= 2 && r[0] == '{' && r[|r| - 1] == '}'
      && Balance(r) == 0
      && forall k :: 0 < k < |r| ==> Balance(r[..k]) > 0
  {
    var start := Text.FindChar(text, '{').value;
    var e := FirstBalanced(text, start, start + 1).value;
    assert Extract(text).value == text[start..e];
    BalancedSpanShape(text, start, e);
  }

  lemma BalancedSpanShape(text: string, start: nat, e: nat)
    requires start < |text| && text[start] == '{' && start < e <= |text|
    requires Balance(text[start..e]) == 0
    requires forall e' :: start + 1 <= e' < e ==> Balance(text[start..e']) != 0
    ensures var r := text[start..e];
      |r| >= 2 && r[0] == '{' && r[|r| - 1] == '}'
      && forall k :: 0 < k < |r| ==> Balance(r[..k]) > 0
  {
    var r := text[start..e];
    forall k | 0 < k < |r|
      ensures Balance(r[..k]) > 0
    {
      assert r[..k] == text[start..start + k];
      PositiveUntilBalanced(text, start, start + k);
    }
    assert e >= start + 2 by {
      assert text[start..start + 1] == [] + ['{'];
      BalanceSnoc([], '{');
    }
    PositiveUntilBalanced(text, start, e - 1);
    assert r == text[start..e - 1] + [text[e - 1]];
    BalanceSnoc(text[start..e - 1], text[e - 1]);
  }

  /** The `ValueError` for unbalanced braces happens exactly when a `{` exists and the count stays positive to the end. */
  lemma NeverBalancedIffPositive(text: string)
    ensures Extract(text) == Err(NeverBalanced) <==>
      Text.FindChar(text, '{').Some?
      && var start := Text.FindChar(text, '{').value;
         forall e :: start < e <= |text| ==> Balance(text[start..e]) > 0
  {
    match Text.FindChar(text, '{')
    case None =>
    case Some(start) =>
      if FirstBalanced(text, start, start + 1).None? {
        forall e | start < e <= |text|
          ensures Balance(text[start..e]) > 0
        {
          PositiveUntilBalanced(text, start, e);
        }
      }
  }

  lemma {:induction false} BalanceConcat(a: string, b: string)
    ensures Balance(a + b) == Balance(a) + Balance(b)
    decreases |b|
  {
    if b == [] {
      assert a + b == a;
    } else {
      var b' := b[..|b| - 1];
      assert a + b == (a + b') + [b[|b| - 1]];
      assert b == b' + [b[|b| - 1]];
      BalanceSnoc(a + b', b[|b| - 1]);
      BalanceSnoc(b', b[|b| - 1]);
      BalanceConcat(a, b');
    }
  }

  lemma {:induction false} BalanceWithoutBraces(a: string)
    requires Text.NoChar(a, '{') && Text.NoChar(a, '}')
    ensures Balance(a) == 0
    decreases |a|
  {
    if a != [] {
      BalanceWithoutBraces(a[..|a| - 1]);
    }
  }

  /** One `{` followed by brace-free text leaves the count at one; a `}` then brings it to zero. */
  lemma OpenThenPlain(b: string)
    requires Text.NoChar(b, '{') && Text.NoChar(b, '}')
    ensures Balance("{" + b) == 1 && Balance("{" + b + "}") == 0
  {
    BalanceConcat("{", b);
    BalanceWithoutBraces(b);
    assert "{" == [] + ['{'];
    BalanceSnoc([], '{');
    BalanceSnoc("{" + b, '}');
  }

  /** After `{` and brace-free text, the first `}` closes the object, whatever follows. */
  lemma FirstCloseEnds(b: string, rest: string)
    requires Text.NoChar(b, '{') && Text.NoChar(b, '}')
    ensures Extract("{" + b + "}" + rest) == Ok("{" + b + "}")
  {
    var text := "{" + b + "}" + rest;
    var close := |b| + 2;
    assert text[0] == '{';
    assert Text.FindChar(text, '{') == Some(0);
    forall e | 1 <= e < close
      ensures Balance(text[0..e]) != 0
    {
      assert text[0..e] == "{" + b[..e - 1];
      OpenThenPlain(b[..e - 1]);
    }
    assert text[0..close] == "{" + b + "}";
    OpenThenPlain(b);
    FirstBalancedAt(text, 0, 1, close);
  }

  /**
   * Quotes do not hide braces: after `{` and brace-free text `a`, a `}` written inside a
   * string literal closes the object, whatever follows.
   */
  lemma QuotedBraceCloses(a: string, rest: string)
    requires Text.NoChar(a, '{') && Text.NoChar(a, '}')
    ensures Extract("{" + a + "\"}" + rest) == Ok("{" + a + "\"}")
  {
    var b := a + "\"";
    assert Text.NoChar(b, '{') && Text.NoChar(b, '}');
    FirstCloseEnds(b, rest);
    assert "{" + b + "}" == "{" + a + "\"}";
    assert "{" + b + "}" + rest == "{" + a + "\"}" + rest;
  }

  /** The search for the first balanced end finds `e` when the count is non-zero from `from` up to `e` and zero at `e`. */
  lemma {:induction false} FirstBalancedAt(text: string, start: nat, from: nat, e: nat)
    requires start < from <= e <= |text|
    requires Balance(text[start..e]) == 0
    requires forall e' :: from <= e' < e ==> Balance(text[start..e']) != 0
    ensures FirstBalanced(text, start, from) == Some(e)
    decreases e - from
  {
    if from < e {
      FirstBalancedAt(text, start, from + 1, e);
    }
  }

  /** Characters that `clean_json`'s first step never deletes. */
  predicate Kept(c: char) {
    c != ',' && !Text.IsSpace(c)
  }

  /**
   * `re.sub(r",\s*([}\]])", r"\1", s)`: a comma followed by a (possibly empty) run of
   * whitespace and then `}` or `]` is replaced by that bracket; scanning resumes after it.
   */
  function DropTrailingCommas(s: string): (r: string)
    decreases |s|
  {
    if s == [] then []
    else if s[0] == ',' then
      var rest := Text.LStrip(s[1..]);
      if rest != [] && (rest[0] == '}' || rest[0] == ']') then [rest[0]] + DropTrailingCommas(rest[1..])
      else [s[0]] + DropTrailingCommas(s[1..])
    else [s[0]] + DropTrailingCommas(s[1..])
  }

  /** The characters of `s` that are neither commas nor whitespace, in order. */
  function KeptChars(s: string): string
    decreases |s|
  {
    if s == [] then [] else (if Kept(s[0]) then [s[0]] else []) + KeptChars(s[1..])
  }

  /** One more character in front. */
  lemma KeptCharsCons(c: char, t: string)
    ensures KeptChars([c] + t) == (if Kept(c) then [c] else []) + KeptChars(t)
  {
    assert ([c] + t)[1..] == t;
  }

  /** Stripping leading whitespace deletes no kept character. */
  lemma {:induction false} LStripKeepsRest(t: string)
    ensures KeptChars(Text.LStrip(t)) == KeptChars(t)
    decreases |t|
  {
    if t != [] && Text.IsSpace(t[0]) {
      LStripKeepsRest(t[1..]);
    }
  }

  /** The comma-dropping case of the first step keeps every kept character. */
  lemma DroppedCommaKeepsRest(s: string, rest: string)
    requires s != [] && s[0] == ',' && rest == Text.LStrip(s[1..])
    requires rest != [] && (rest[0] == '}' || rest[0] == ']')
    requires KeptChars(DropTrailingCommas(rest[1..])) == KeptChars(rest[1..])
    ensures KeptChars(DropTrailingCommas(s)) == KeptChars(s)
  {
    var dropped := DropTrailingCommas(rest[1..]);
    calc {
      KeptChars(DropTrailingCommas(s));
      KeptChars([rest[0]] + dropped);
      { KeptCharsCons(rest[0], dropped); }
      [rest[0]] + KeptChars(dropped);
      [rest[0]] + KeptChars(rest[1..]);
      KeptChars(rest);
      { LStripKeepsRest(s[1..]); }
      KeptChars(s[1..]);
      KeptChars(s);
    }
  }

  /** Any other character is kept, and the step goes on after it. */
  lemma KeptCharKeepsRest(s: string)
    requires s != []
    requires DropTrailingCommas(s) == [s[0]] + DropTrailingCommas(s[1..])
    requires KeptChars(DropTrailingCommas(s[1..])) == KeptChars(s[1..])
    ensures KeptChars(DropTrailingCommas(s)) == KeptChars(s)
  {
    KeptCharsCons(s[0], DropTrailingCommas(s[1..]));
  }

  /** The first step deletes only commas and whitespace: every other character survives, in order. */
  lemma {:induction false} DropTrailingCommasKeepsRest(s: string)
    ensures KeptChars(DropTrailingCommas(s)) == KeptChars(s)
    decreases |s|
  {
    if s != [] {
      var rest := Text.LStrip(s[1..]);
      if s[0] == ',' && rest != [] && (rest[0] == '}' || rest[0] == ']') {
        DropTrailingCommasKeepsRest(rest[1..]);
        DroppedCommaKeepsRest(s, rest);
      } else {
        DropTrailingCommasKeepsRest(s[1..]);
        KeptCharKeepsRest(s);
      }
    }
  }

  /** A comma, any whitespace, then a closing bracket: the comma and the whitespace go, the bracket stays. */
  lemma CommaBeforeCloserDropped(ws: string, closer: char, t: string)
    requires Text.AllSpace(ws) && (closer == '}' || closer == ']')
    ensures DropTrailingCommas([','] + ws + [closer] + t) == [closer] + DropTrailingCommas(t)
  {
    var s := [','] + ws + [closer] + t;
    assert s[1..] == ws + ([closer] + t);
    Text.LStripSpacePrefix(ws, [closer] + t);
    assert ([closer] + t)[1..] == t;
  }

  /** No three consecutive dots anywhere. */
  predicate NoEllipsis(s: string) {
    forall i :: 0 <= i < |s| - 2 ==> !(s[i] == '.' && s[i + 1] == '.' && s[i + 2] == '.')
  }

  /** The text does not open with two dots. */
  predicate NoLeadingDots(s: string) {
    !(|s| >= 2 && s[0] == '.' && s[1] == '.')
  }

  /** `s.replace("...", "")`: scanning left to right, each `...` found is deleted. */
  function DropEllipses(s: string): string {
    Text.ReplaceAll(s, "...", "")
  }

  /** A text opening with anything but a dot keeps its first character. */
  lemma DropEllipsesKeepsHead(s: string)
    requires s != [] && s[0] != '.'
    ensures DropEllipses(s) == [s[0]] + DropEllipses(s[1..])
  {
    if |s| >= 3 {
      assert s[..3][0] == s[0];
    } else {
      assert s[1..] == s[1..][..];
    }
  }

  /** A text that does not open with two dots does not after the step either. */
  lemma LeadingDotsStayApart(t: string)
    requires NoLeadingDots(t)
    ensures NoLeadingDots(DropEllipses(t))
  {
    if |t| >= 3 {
      assert t[..3] != "..." by { assert t[..3][0] == t[0] && t[..3][1] == t[1]; }
      if t[0] == '.' {
        DropEllipsesKeepsHead(t[1..]);
      }
    }
  }

  /**
   * No `...` is left after the step: within a run of dots, whole triples are deleted
   * from its left end, and the fewer than three that remain stay separated from the
   * next run by a character that is not a dot.
   */
  lemma {:induction false} EllipsesGone(s: string)
    ensures NoEllipsis(DropEllipses(s))
    decreases |s|
  {
    if |s| < 3 {
    } else if s[..3] == "..." {
      EllipsesGone(s[3..]);
    } else {
      var t := s[1..];
      EllipsesGone(t);
      var r := DropEllipses(t);
      assert DropEllipses(s) == [s[0]] + r;
      if s[0] == '.' {
        assert NoLeadingDots(t) by {
          assert s[..3][1] == t[0] && s[..3][2] == t[1];
        }
        LeadingDotsStayApart(t);
      }
      forall i | 0 <= i < |[s[0]] + r| - 2
        ensures !(([s[0]] + r)[i] == '.' && ([s[0]] + r)[i + 1] == '.' && ([s[0]] + r)[i + 2] == '.')
      {
        if i > 0 { assert ([s[0]] + r)[i] == r[i - 1]; }
      }
    }
  }

  /** The characters of `s` other than the dot, in order. */
  function NonDots(s: string): string
    decreases |s|
  {
    if s == [] then [] else (if s[0] != '.' then [s[0]] else []) + NonDots(s[1..])
  }

  /** The step deletes only dots: every other character survives, in order. */
  lemma {:induction false} DropEllipsesKeepsRest(s: string)
    ensures NonDots(DropEllipses(s)) == NonDots(s)
    decreases |s|
  {
    if |s| >= 3 {
      if s[..3] == "..." {
        assert DropEllipses(s) == DropEllipses(s[3..]);
        assert NonDots(s) == NonDots(s[3..]) by {
          assert s[0] == '.' && s[1..][0] == '.' && s[1..][1..][0] == '.';
          assert NonDots(s) == NonDots(s[1..]);
          assert NonDots(s[1..]) == NonDots(s[1..][1..]);
          assert NonDots(s[1..][1..]) == NonDots(s[1..][1..][1..]);
          assert s[1..][1..][1..] == s[3..];
        }
        DropEllipsesKeepsRest(s[3..]);
      } else {
        assert DropEllipses(s) == [s[0]] + DropEllipses(s[1..]);
        assert ([s[0]] + DropEllipses(s[1..]))[1..] == DropEllipses(s[1..]);
        DropEllipsesKeepsRest(s[1..]);
      }
    }
  }

  /** `clean_json(s)`: trailing commas dropped, then `...` removed, then every U+200B removed. */
  function CleanJson(s: string): (r: string)
    ensures Text.NoChar(r, '\U{200B}')
  {
    var noEllipses := DropEllipses(DropTrailingCommas(s));
    Text.ReplaceRemovesChar(noEllipses, '\U{200B}', "");
    Text.ReplaceAll(noEllipses, "\U{200B}", "")
  }

  /** A prefix without dots passes through the step unchanged. */
  lemma {:induction false} DropEllipsesPlainPrefix(a: string, t: string)
    requires Text.NoChar(a, '.')
    ensures DropEllipses(a + t) == a + DropEllipses(t)
    decreases |a|
  {
    if a == [] {
      assert a + t == t;
    } else {
      DropEllipsesKeepsHead(a + t);
      assert (a + t)[1..] == a[1..] + t;
      DropEllipsesPlainPrefix(a[1..], t);
      calc {
        DropEllipses(a + t);
        [a[0]] + DropEllipses(a[1..] + t);
        [a[0]] + (a[1..] + DropEllipses(t));
        { assert a == [a[0]] + a[1..]; }
        a + DropEllipses(t);
      }
    }
  }

  /** Text without commas passes through the first step unchanged. */
  lemma {:induction false} NoCommaUnchanged(s: string)
    requires Text.NoChar(s, ',')
    ensures DropTrailingCommas(s) == s
    decreases |s|
  {
    if s != [] {
      NoCommaUnchanged(s[1..]);
    }
  }

  /** Whitespace followed by comma-free text holds no comma. */
  lemma SpaceThenNoComma(ws: string, tail: string)
    requires Text.AllSpace(ws) && Text.NoChar(tail, ',')
    ensures Text.NoChar(ws + tail, ',')
  {
    forall i | 0 <= i < |ws + tail| ensures (ws + tail)[i] != ',' {
      if i < |ws| { assert Text.IsSpace(ws[i]); } else { assert (ws + tail)[i] == tail[i - |ws|]; }
    }
  }

  /** The first step keeps a comma whose next non-space character is a dot. */
  lemma CommaBeforeDotsKept(ws: string, tail: string)
    requires Text.AllSpace(ws) && tail != [] && tail[0] == '.' && Text.NoChar(tail, ',')
    ensures DropTrailingCommas([','] + ws + tail) == [','] + ws + tail
  {
    var s := [','] + ws + tail;
    assert s[1..] == ws + tail;
    assert Text.LStrip(s[1..]) == tail by {
      Text.LStripSpacePrefix(ws, tail);
    }
    calc {
      DropTrailingCommas(s);
      [','] + DropTrailingCommas(ws + tail);
      { SpaceThenNoComma(ws, tail); NoCommaUnchanged(ws + tail); }
      [','] + (ws + tail);
    }
  }

  /** The ellipsis step removes the `...` between the comma and its bracket. */
  lemma EllipsisBetweenRemoved(ws: string, closer: char)
    requires Text.AllSpace(ws) && (closer == '}' || closer == ']')
    ensures DropEllipses([','] + ws + "..." + [closer]) == [','] + ws + [closer]
  {
    var tail := "..." + [closer];
    assert Text.NoChar([','] + ws, '.');
    DropEllipsesPlainPrefix([','] + ws, tail);
    assert DropEllipses(tail) == [closer] by {
      assert tail[..3] == "..." && tail[3..] == [closer];
      assert DropEllipses(tail) == DropEllipses(tail[3..]);
      assert DropEllipses([closer]) == [closer];
    }
    assert [','] + ws + "..." + [closer] == [','] + ws + tail;
  }

  /** A comma, whitespace and a bracket hold no U+200B, which is not whitespace. */
  lemma CommaSpaceBracketPlain(ws: string, closer: char)
    requires Text.AllSpace(ws) && (closer == '}' || closer == ']')
    ensures Text.NoChar([','] + ws + [closer], '\U{200B}')
  {
    var kept := [','] + ws + [closer];
    forall i | 0 <= i < |kept| ensures kept[i] != '\U{200B}' {
      if 0 < i < |kept| - 1 {
        assert kept[i] == ws[i - 1] && Text.IsSpace(ws[i - 1]);
      }
    }
  }

  /**
   * The steps run in this order, so a comma whose bracket is reached only once a `...`
   * has been removed survives, where `CommaBeforeCloserDropped` shows it going when
   * nothing stands between them.
   */
  lemma CommaBeforeEllipsisSurvives(ws: string, closer: char)
    requires Text.AllSpace(ws) && (closer == '}' || closer == ']')
    ensures CleanJson([','] + ws + "..." + [closer]) == [','] + ws + [closer]
  {
    var s := [','] + ws + "..." + [closer];
    var tail := "..." + [closer];
    var kept := [','] + ws + [closer];
    assert s == [','] + ws + tail;
    CommaBeforeDotsKept(ws, tail);
    EllipsisBetweenRemoved(ws, closer);
    assert DropEllipses(DropTrailingCommas(s)) == kept;
    CommaSpaceBracketPlain(ws, closer);
    Text.ReplaceAbsent(kept, "\U{200B}", "");
  }

  /** `parse_or_repair_json(text)`: extraction and parse failures are raised; there is no raw-text fallback. */
  method ParseOrRepairJson(parse: JsonRepair.Parser, text: string) returns (r: Result<Json>)
    ensures Text.NoChar(text, '{') ==> r == Err(NoStart)
    ensures Extract(text).Err? ==> r == Err(Extract(text).error)
    ensures Extract(text).Ok? ==>
      (r.Ok? <==> parse(CleanJson(Extract(text).value)).Some?)
      && (r.Ok? ==> Some(r.value) == parse(CleanJson(Extract(text).value)))
      && (r.Err? ==> r.error == DecodeFailure)
  {
    var raw := ExtractJson(text);
    if raw.Err? {
      return Err(raw.error);
    }
    var cleaned := CleanJson(raw.value);
    var parsed := parse(cleaned);
    if parsed.None? {
      return Err(DecodeFailure);
    }
    r := Ok(parsed.value);
  }
}
