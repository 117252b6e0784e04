/**
 * The text that enters and leaves the aggregation step of the topic generator
 * (script/py/fabric_flask/bing_search.py): the numbered format template built in
 * `generate_top_topics`, the newline-joined list of extracted topics, and the
 * numbered-list parser at the end of `run`.
 */
module TopicList {
  import opened Common
  import opened Text

  // ---------------------------------------------------------------------------
  // The format template

  /** Line `i` of the template without its newline: `f"{i}. Topic {i}"`. */
  function TemplateLine(i: nat): string {
    NatToString(i) + ". Topic " + NatToString(i)
  }

  /** What the parser reads off line `i` of the template. */
  function TopicName(i: nat): string {
    "Topic " + NatToString(i)
  }

  /** The template for `n` tags: `f"{i}. Topic {i}\n"` for `i` in `range(1, n + 1)`. */
  function Template(n: int): string {
    if n <= 0 then "" else Template(n - 1) + TemplateLine(n) + "\n"
  }

  /** `["Topic 1", ..., "Topic n"]`. */
  function TopicNames(n: int): (names: seq<string>)
    ensures |names| == if n <= 0 then 0 else n
  {
    if n <= 0 then [] else TopicNames(n - 1) + [TopicName(n)]
  }

  /** The loop of `generate_top_topics` that grows the template one line at a time. */
  method BuildTemplate(n: int) returns (s: string)
    ensures s == Template(n)
  {
    s := "";
    var i := 1;
    while i <= n
      invariant 1 <= i <= if n >= 0 then n + 1 else 1
      invariant s == Template(i - 1)
    {
      s := s + NatToString(i) + ". Topic " + NatToString(i) + "\n";
      assert s == Template(i - 1) + TemplateLine(i) + "\n";
      i := i + 1;
    }
  }

  // ---------------------------------------------------------------------------
  // The parser of `run`: `[topic.split(".")[1].strip() for topic in text.split("\n") if topic]`

  /** `topic.split(".")[1]` raised `IndexError`: a non-empty line without a period. */
  datatype ParseError = MissingPeriod(line: string)

  /** One non-empty line: the stripped text between its first and second period. */
  function ParseLine(line: string): (r: Result<string, ParseError>)
    ensures r.Err? <==> '.' !in line
  {
    SplitCountsSeparator(line, '.');
    var parts := SplitOn(line, '.');
    if |parts| < 2 then Err(MissingPeriod(line)) else Ok(Strip(parts[1]))
  }

  /** The lines the comprehension keeps: the non-empty ones, in order. */
  function NonEmptyLines(lines: seq<string>): (kept: seq<string>)
  {
    if lines == [] then []
    else if lines[0] == "" then NonEmptyLines(lines[1..])
    else [lines[0]] + NonEmptyLines(lines[1..])
  }

  /** One line of the comprehension in front of the outcome for the lines after it. */
  function ParseStep(parse: string -> Result<string, ParseError>, line: string, rest: Result<seq<string>, ParseError>): (r: Result<seq<string>, ParseError>)
    ensures r.Ok? ==> rest.Ok? && (line != "" ==> parse(line).Ok?)
    ensures r.Ok? ==> r.value == (if line == "" then [] else [parse(line).value]) + rest.value
  {
    if line == "" then rest
    else
      match parse(line)
      case Err(e) => Err(e)
      case Ok(t) =>
        match rest
        case Err(e) => Err(e)
        case Ok(ts) => Ok([t] + ts)
  }

  /**
   * The comprehension over the lines with line parser `parse`: the first
   * non-empty line it rejects aborts it; otherwise one topic per non-empty
   * line, in order.
   */
  function ParseLinesWith(parse: string -> Result<string, ParseError>, lines: seq<string>): Result<seq<string>, ParseError> {
    if lines == [] then Ok([]) else ParseStep(parse, lines[0], ParseLinesWith(parse, lines[1..]))
  }

  /** The comprehension of `run`, reading each line with `ParseLine`. */
  function ParseLines(lines: seq<string>): Result<seq<string>, ParseError> {
    ParseLinesWith(ParseLine, lines)
  }

  /** The parse step of `run`, applied to the aggregation output. */
  function ParseTopicList(text: string): Result<seq<string>, ParseError> {
    ParseLines(SplitOn(text, '\n'))
  }

  lemma {:induction false} SplitCountsSeparator(s: string, c: char)
    ensures |SplitOn(s, c)| >= 2 <==> c in s
  {
    if s != [] {
      SplitCountsSeparator(s[1..], c);
      assert s == [s[0]] + s[1..];
    }
  }

  /** On success there is one topic per non-empty line, and topic `i` is what `parse` reads off the `i`-th of them. */
  lemma {:induction false} ParseLinesWithOk(parse: string -> Result<string, ParseError>, lines: seq<string>)
    requires ParseLinesWith(parse, lines).Ok?
    ensures var ts, kept := ParseLinesWith(parse, lines).value, NonEmptyLines(lines);
      |ts| == |kept| && forall i :: 0 <= i < |ts| ==> parse(kept[i]) == Ok(ts[i])
  {
    if lines != [] {
      ParseLinesWithOk(parse, lines[1..]);
    }
  }

  /** On success there is one topic per non-empty line, and topic `i` is what `ParseLine` reads off the `i`-th of them. */
  lemma ParseLinesOk(lines: seq<string>)
    requires ParseLines(lines).Ok?
    ensures var ts, kept := ParseLines(lines).value, NonEmptyLines(lines);
      |ts| == |kept| && forall i :: 0 <= i < |ts| ==> ParseLine(kept[i]) == Ok(ts[i])
  {
    ParseLinesWithOk(ParseLine, lines);
  }

  /** The parse fails exactly when `parse` rejects some non-empty line. */
  lemma {:induction false} ParseLinesWithFailsIff(parse: string -> Result<string, ParseError>, lines: seq<string>)
    ensures ParseLinesWith(parse, lines).Err? <==> exists i :: 0 <= i < |lines| && lines[i] != "" && parse(lines[i]).Err?
  {
    if lines != [] {
      ParseLinesWithFailsIff(parse, lines[1..]);
      assert forall i :: 0 < i < |lines| ==> lines[i] == lines[1..][i - 1];
    }
  }

  /** The parse fails exactly when some non-empty line has no period. */
  lemma ParseLinesFailsIff(lines: seq<string>)
    ensures ParseLines(lines).Err? <==> exists i :: 0 <= i < |lines| && lines[i] != "" && '.' !in lines[i]
  {
    ParseLinesWithFailsIff(ParseLine, lines);
  }

  /** The parse of a whole text fails exactly on a non-empty line without a period, and otherwise yields one topic per non-empty line. */
  lemma ParseTopicListCases(text: string)
    ensures var lines := SplitOn(text, '\n');
      ParseTopicList(text).Err? <==> exists i :: 0 <= i < |lines| && lines[i] != "" && '.' !in lines[i]
    ensures ParseTopicList(text).Ok? ==> |ParseTopicList(text).value| == |NonEmptyLines(SplitOn(text, '\n'))|
  {
    var lines := SplitOn(text, '\n');
    assert ParseTopicList(text) == ParseLines(lines);
    ParseLinesFailsIff(lines);
    if ParseLines(lines).Err? {
      var i :| 0 <= i < |lines| && lines[i] != "" && '.' !in lines[i];
      assert SplitOn(text, '\n')[i] == lines[i];
    }
    if ParseLines(lines).Ok? {
      ParseLinesOk(lines);
    }
  }

  /** Topics appended after a successful step stay after the step's own topic. */
  lemma ParseStepAppend(parse: string -> Result<string, ParseError>, line: string, ts: seq<string>, a: seq<string>, b: seq<string>)
    requires ParseStep(parse, line, Ok(ts)) == Ok(a)
    ensures ParseStep(parse, line, Ok(ts + b)) == Ok(a + b)
  {
    if line != "" {
      assert a == [parse(line).value] + ts;
      assert a + b == [parse(line).value] + (ts + b);
    }
  }

  /** Parsing distributes over a concatenation of line lists, whatever the line parser. */
  lemma {:induction false} ParseLinesWithAppend(parse: string -> Result<string, ParseError>, x: seq<string>, y: seq<string>, a: seq<string>, b: seq<string>)
    requires ParseLinesWith(parse, x) == Ok(a) && ParseLinesWith(parse, y) == Ok(b)
    ensures ParseLinesWith(parse, x + y) == Ok(a + b)
  {
    if x == [] {
      assert x + y == y;
      assert a + b == b;
    } else {
      var xy := x + y;
      assert xy[0] == x[0] && xy[1..] == x[1..] + y;
      var rest := ParseLinesWith(parse, x[1..]);
      ParseLinesWithAppend(parse, x[1..], y, rest.value, b);
      ParseStepAppend(parse, x[0], rest.value, a, b);
    }
  }

  /** Parsing distributes over a concatenation of line lists. */
  lemma ParseLinesAppend(x: seq<string>, y: seq<string>, a: seq<string>, b: seq<string>)
    requires ParseLines(x) == Ok(a) && ParseLines(y) == Ok(b)
    ensures ParseLines(x + y) == Ok(a + b)
  {
    ParseLinesWithAppend(ParseLine, x, y, a, b);
  }

  // ---------------------------------------------------------------------------
  // Template -> parser round trip

  /** The template lines `1..n` without their newlines. */
  function TemplateLines(n: int): seq<string> {
    if n <= 0 then [] else TemplateLines(n - 1) + [TemplateLine(n)]
  }

  lemma DigitsLack(d: string, c: char)
    requires AllDigits(d) && !IsDigit(c)
    ensures c !in d
  {
  }

  lemma TemplateLineSplit(i: nat)
    ensures SplitOn(TemplateLine(i), '.') == [NatToString(i), " " + TopicName(i)]
  {
    var d := NatToString(i);
    var rest := " Topic " + d;
    DigitsLack(d, '.');
    assert '.' !in " Topic ";
    assert '.' !in rest;
    assert TemplateLine(i) == d + ['.'] + rest;
    assert rest == " " + TopicName(i);
    SplitAfterFirst(d, rest, '.');
    SplitWithout(rest, '.');
  }

  lemma StripTopicName(i: nat)
    ensures Strip(" " + TopicName(i)) == TopicName(i)
  {
    var name := TopicName(i);
    var d := NatToString(i);
    assert (" " + name)[1..] == name;
    assert StripLeft(" " + name) == name;
    assert name[|name| - 1] == d[|d| - 1];
    assert IsDigit(d[|d| - 1]);
    assert StripRight(name) == name;
  }

  lemma TemplateLineParts(i: nat)
    ensures TemplateLine(i) != "" && '\n' !in TemplateLine(i)
    ensures ParseLine(TemplateLine(i)) == Ok(TopicName(i))
  {
    var d := NatToString(i);
    DigitsLack(d, '\n');
    assert '\n' !in " Topic " + d;
    assert TemplateLine(i) == d + (". Topic " + d);
    TemplateLineSplit(i);
    StripTopicName(i);
  }

  /** Appending one newline-terminated line to newline-terminated text adds one line. */
  lemma SplitAddLine(prev: string, lines: seq<string>, line: string)
    requires '\n' !in line
    requires SplitOn(prev, '\n') == lines + [""]
    ensures SplitOn(prev + (line + "\n"), '\n') == lines + [line] + [""]
  {
    SplitConcat(prev, line + "\n", '\n');
    SplitAfterFirst(line, "", '\n');
    assert line + ['\n'] + "" == line + "\n";
    var A := lines + [""];
    assert A[..|A| - 1] == lines;
    assert "" + line == line;
  }

  lemma {:induction false} SplitTemplate(n: int)
    ensures SplitOn(Template(n), '\n') == TemplateLines(n) + [""]
  {
    if n > 0 {
      SplitTemplate(n - 1);
      TemplateLineParts(n);
      assert Template(n) == Template(n - 1) + (TemplateLine(n) + "\n");
      SplitAddLine(Template(n - 1), TemplateLines(n - 1), TemplateLine(n));
    }
  }

  lemma {:induction false} ParseTemplateLines(n: int)
    ensures ParseLines(TemplateLines(n)) == Ok(TopicNames(n))
  {
    if n > 0 {
      ParseTemplateLines(n - 1);
      TemplateLineParts(n);
      var line := TemplateLine(n);
      assert ParseLines([line]) == Ok([TopicName(n)]) by {
        assert [line][1..] == [];
        assert ParseLinesWith(ParseLine, []) == Ok([]);
        assert [TopicName(n)] + [] == [TopicName(n)];
      }
      ParseLinesAppend(TemplateLines(n - 1), [line], TopicNames(n - 1), [TopicName(n)]);
    }
  }

  /** Parsing the template for `n` tags yields `["Topic 1", ..., "Topic n"]`. */
  lemma TemplateRoundTrip(n: int)
    ensures ParseTopicList(Template(n)) == Ok(TopicNames(n))
  {
    SplitTemplate(n);
    ParseTemplateLines(n);
    assert ParseLines([""]) == Ok([]);
    ParseLinesAppend(TemplateLines(n), [""], TopicNames(n), []);
    assert TopicNames(n) + [] == TopicNames(n);
  }

  lemma {:induction false} TemplateStartsWithOne(n: int)
    requires n >= 1
    ensures Template(n) != [] && Template(n)[0] == '1'
  {
    if n > 1 {
      TemplateStartsWithOne(n - 1);
    } else {
      assert Template(1) == TemplateLine(1) + "\n";
      assert NatToString(1) == ['1'];
    }
  }

  lemma StripTemplate(n: int)
    requires n >= 1
    ensures Strip(Template(n)) == Template(n - 1) + TemplateLine(n)
  {
    var t := Template(n);
    var line := TemplateLine(n);
    var body := Template(n - 1) + line;
    assert t == body + "\n";
    TemplateStartsWithOne(n);
    assert StripLeft(t) == t;
    assert t[..|t| - 1] == body;
    var d := NatToString(n);
    assert line[|line| - 1] == d[|d| - 1];
    assert IsDigit(d[|d| - 1]);
    assert StripRight(body) == body;
  }

  /** A last line without a newline after it ends the split instead of an empty piece. */
  lemma SplitLastLine(prev: string, lines: seq<string>, line: string)
    requires '\n' !in line
    requires SplitOn(prev, '\n') == lines + [""]
    ensures SplitOn(prev + line, '\n') == lines + [line]
  {
    SplitConcat(prev, line, '\n');
    SplitWithout(line, '\n');
    var A := lines + [""];
    assert A[..|A| - 1] == lines;
    assert A[|A| - 1] + line == line;
    assert [line][1..] == [];
  }

  lemma SplitStrippedTemplate(n: int)
    requires n >= 1
    ensures SplitOn(Template(n - 1) + TemplateLine(n), '\n') == TemplateLines(n)
  {
    SplitTemplate(n - 1);
    TemplateLineParts(n);
    SplitLastLine(Template(n - 1), TemplateLines(n - 1), TemplateLine(n));
  }

  /** `run` strips the aggregation output before parsing: a verbatim template still parses to its topic names. */
  lemma StrippedTemplateRoundTrip(n: int)
    ensures ParseTopicList(Strip(Template(n))) == Ok(TopicNames(n))
  {
    if n <= 0 {
      assert Template(n) == "" && TopicNames(n) == [];
      assert Strip("") == "";
      assert SplitOn("", '\n') == [""];
      assert ParseLines([""]) == Ok([]);
    } else {
      StripTemplate(n);
      SplitStrippedTemplate(n);
      ParseTemplateLines(n);
      assert SplitOn(Strip(Template(n)), '\n') == TemplateLines(n);
    }
  }

  // ---------------------------------------------------------------------------
  // The input of the aggregation prompt

  /** `[t for t in topics if t]`: the truthy extracted-topic values, in order. */
  function TruthyValues(topics: seq<Option<string>>): (kept: seq<string>)
    ensures |kept| <= |topics|
    ensures forall i :: 0 <= i < |kept| ==> kept[i] != "" && Some(kept[i]) in topics
    ensures forall i :: 0 <= i < |topics| && Truthy(topics[i]) ==> topics[i].value in kept
  {
    if topics == [] then []
    else
      var rest := TruthyValues(topics[1..]);
      assert forall i :: 0 < i < |topics| ==> topics[i] == topics[1..][i - 1];
      if Truthy(topics[0]) then [topics[0].value] + rest else rest
  }

  /** The comprehension keeps order and duplicates: the kept values of consecutive lists are consecutive. */
  lemma {:induction false} TruthyValuesAppend(a: seq<Option<string>>, b: seq<Option<string>>)
    ensures TruthyValues(a + b) == TruthyValues(a) + TruthyValues(b)
    decreases |a|
  {
    if a != [] {
      assert (a + b)[0] == a[0];
      assert (a + b)[1..] == a[1..] + b;
      TruthyValuesAppend(a[1..], b);
    } else {
      assert a + b == b;
    }
  }

  /** One value is kept exactly when it is truthy. */
  lemma TruthyValuesSingle(t: Option<string>)
    ensures Truthy(t) ==> TruthyValues([t]) == [t.value]
    ensures !Truthy(t) ==> TruthyValues([t]) == []
  {
    assert [t][1..] == [];
  }

  /** `'\n'.join(...)` of the truthy extracted topics: the text handed to the aggregation prompt. */
  function CombinedTopicsText(topics: seq<Option<string>>): string {
    Join("\n", TruthyValues(topics))
  }
}
