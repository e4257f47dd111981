/**
 * The Prometheus text exposition format, version 0.0.4: how one line is written and how it is read.
 * The reader follows the format's own sections "Line format" and "Comments, help text, and type information".
 */
module Exposition {
  import opened Wrappers

  datatype Kind = Counter | Gauge

  type Pair = (string, string)

  datatype Line =
    | Help(name: string, text: string)
    | Type(name: string, kind: Kind)
    | Sample(name: string, labels: seq<Pair>, value: string)

  // ---- Label values ----

  /** strings.ReplaceAll for a one-character old string. */
  function ReplaceAll(s: string, from: char, to: string): string {
    if s == "" then "" else (if s[0] == from then to else [s[0]]) + ReplaceAll(s[1..], from, to)
  }

  function EscapeLabel(value: string): string {
    ReplaceAll(ReplaceAll(ReplaceAll(value, '\\', "\\\\"), '\n', "\\n"), '"', "\\\"")
  }

  function EscapeChar(c: char): string {
    if c == '\\' then "\\\\" else if c == '\n' then "\\n" else if c == '"' then "\\\"" else [c]
  }

  function EscapeEach(value: string): string {
    if value == "" then "" else EscapeChar(value[0]) + EscapeEach(value[1..])
  }

  lemma {:induction false} ReplaceAllConcat(a: string, b: string, from: char, to: string)
    ensures ReplaceAll(a + b, from, to) == ReplaceAll(a, from, to) + ReplaceAll(b, from, to)
  {
    if a == "" {
      assert a + b == b;
    } else {
      assert (a + b)[1..] == a[1..] + b;
      ReplaceAllConcat(a[1..], b, from, to);
    }
  }

  lemma EscapeOneChar(c: char)
    ensures EscapeLabel([c]) == EscapeChar(c)
  {
    ReplaceOne(c, '\\', "\\\\");
    var first := ReplaceAll([c], '\\', "\\\\");
    if c == '\\' {
      assert first == ['\\'] + ['\\'];
      ReplaceAllConcat(['\\'], ['\\'], '\n', "\\n");
      ReplaceOne('\\', '\n', "\\n");
      ReplaceAllConcat(['\\'], ['\\'], '"', "\\\"");
      ReplaceOne('\\', '"', "\\\"");
    } else {
      ReplaceOne(c, '\n', "\\n");
      if c == '\n' {
        assert ReplaceAll(first, '\n', "\\n") == ['\\'] + ['n'];
        ReplaceAllConcat(['\\'], ['n'], '"', "\\\"");
        ReplaceOne('\\', '"', "\\\"");
        ReplaceOne('n', '"', "\\\"");
      } else {
        ReplaceOne(c, '"', "\\\"");
      }
    }
  }

  lemma ReplaceOne(c: char, from: char, to: string)
    ensures ReplaceAll([c], from, to) == if c == from then to else [c]
  {
    assert [c][1..] == "";
  }

  /** The three replacements in sequence are one replacement per character. */
  lemma {:induction false} EscapeIsPerCharacter(value: string)
    ensures EscapeLabel(value) == EscapeEach(value)
  {
    if value != "" {
      var head, tail := [value[0]], value[1..];
      assert value == head + tail;
      EscapeIsPerCharacter(tail);
      EscapeOneChar(value[0]);
      EscapeConcat(head, tail);
    }
  }

  lemma EscapeConcat(a: string, b: string)
    ensures EscapeLabel(a + b) == EscapeLabel(a) + EscapeLabel(b)
  {
    ReplaceAllConcat(a, b, '\\', "\\\\");
    var a1, b1 := ReplaceAll(a, '\\', "\\\\"), ReplaceAll(b, '\\', "\\\\");
    ReplaceAllConcat(a1, b1, '\n', "\\n");
    ReplaceAllConcat(ReplaceAll(a1, '\n', "\\n"), ReplaceAll(b1, '\n', "\\n"), '"', "\\\"");
  }

  /** Reads a label value up to its closing quote: the value, and the text after the quote. */
  function ParseQuoted(s: string): (r: Option<(string, string)>)
    ensures r.Some? ==> |r.value.1| < |s|
  {
    if s == "" || s[0] == '\n' then None
    else if s[0] == '"' then Some(("", s[1..]))
    else if s[0] == '\\' then
      if |s| < 2 then None
      else
        var rest := ParseQuoted(s[2..]);
        if rest.None? then None
        else if s[1] == '\\' || s[1] == '"' then Some(([s[1]] + rest.value.0, rest.value.1))
        else if s[1] == 'n' then Some((['\n'] + rest.value.0, rest.value.1))
        else None
    else
      var rest := ParseQuoted(s[1..]);
      if rest.None? then None else Some(([s[0]] + rest.value.0, rest.value.1))
  }

  lemma ParseQuotedChar(c: char, s: string)
    requires ParseQuoted(s).Some?
    ensures ParseQuoted(EscapeChar(c) + s) == Some(([c] + ParseQuoted(s).value.0, ParseQuoted(s).value.1))
  {
    var e := EscapeChar(c);
    if |e| == 2 {
      assert (e + s)[2..] == s;
    } else {
      assert (e + s)[1..] == s;
    }
  }

  lemma {:induction false} EscapedIsOneLine(value: string)
    ensures OneLine(EscapeEach(value))
  {
    if value != "" {
      EscapedIsOneLine(value[1..]);
    }
  }

  lemma QuoteEnds(rest: string)
    ensures ParseQuoted("\"" + rest) == Some(("", rest))
  {
    assert ("\"" + rest)[1..] == rest;
  }

  lemma EscapeUnfolds(value: string, after: string)
    requires value != ""
    ensures EscapeEach(value) + after == EscapeChar(value[0]) + (EscapeEach(value[1..]) + after)
  {
  }

  lemma {:induction false} EscapedEachReadsBack(value: string, rest: string)
    ensures ParseQuoted(EscapeEach(value) + ("\"" + rest)) == Some((value, rest))
  {
    var after := "\"" + rest;
    if value == "" {
      assert EscapeEach(value) + after == after;
      QuoteEnds(rest);
    } else {
      EscapedEachReadsBack(value[1..], rest);
      EscapeUnfolds(value, after);
      ParseQuotedChar(value[0], EscapeEach(value[1..]) + after);
      assert [value[0]] + value[1..] == value;
    }
  }

  /** An escaped value is read back whole, whatever it holds, and the reader stops at its own closing quote. */
  lemma EscapedValueReadsBack(value: string, rest: string)
    ensures ParseQuoted(EscapeLabel(value) + "\"" + rest) == Some((value, rest))
    ensures OneLine(EscapeLabel(value))
  {
    EscapeIsPerCharacter(value);
    EscapedIsOneLine(value);
    EscapedEachReadsBack(value, rest);
    assert EscapeEach(value) + "\"" + rest == EscapeEach(value) + ("\"" + rest);
  }

  // ---- Characters and spans ----

  predicate IsNameChar(c: char) {
    'a' <= c <= 'z' || 'A' <= c <= 'Z' || '0' <= c <= '9' || c == '_' || c == ':'
  }

  predicate NotSpace(c: char) {
    c != ' '
  }

  predicate NotBreak(c: char) {
    c != '\n'
  }

  predicate IsTokenChar(c: char) {
    c != ' ' && c != '\n'
  }

  predicate IsName(s: string) {
    s != "" && forall i :: 0 <= i < |s| ==> IsNameChar(s[i])
  }

  predicate OneLine(s: string) {
    forall i :: 0 <= i < |s| ==> s[i] != '\n'
  }

  predicate IsToken(s: string) {
    s != "" && forall i :: 0 <= i < |s| ==> IsTokenChar(s[i])
  }

  /** How many characters, from the start, satisfy p. */
  function Span(s: string, p: char -> bool): (n: nat)
    ensures n <= |s|
  {
    if s == "" || !p(s[0]) then 0 else 1 + Span(s[1..], p)
  }

  lemma {:induction false} SpanStops(a: string, b: string, p: char -> bool)
    requires forall i :: 0 <= i < |a| ==> p(a[i])
    requires b == "" || !p(b[0])
    ensures Span(a + b, p) == |a| && (a + b)[..|a|] == a && (a + b)[|a|..] == b
  {
    if a == "" {
      assert a + b == b;
    } else {
      assert (a + b)[1..] == a[1..] + b;
      SpanStops(a[1..], b, p);
    }
  }

  // ---- Writing ----

  const HELP: string := "# HELP "
  const TYPE: string := "# TYPE "

  function KindText(k: Kind): string {
    match k
    case Counter => "counter"
    case Gauge => "gauge"
  }

  function PrintPair(p: Pair): string {
    p.0 + "=\"" + EscapeLabel(p.1) + "\""
  }

  function PrintPairs(ps: seq<Pair>): string {
    if ps == [] then ""
    else if |ps| == 1 then PrintPair(ps[0])
    else PrintPair(ps[0]) + "," + PrintPairs(ps[1..])
  }

  function PrintLabels(ps: seq<Pair>): string {
    if ps == [] then "" else "{" + PrintPairs(ps) + "}"
  }

  function PrintLine(line: Line): string {
    match line
    case Help(name, text) => HELP + name + " " + text
    case Type(name, kind) => TYPE + name + " " + KindText(kind)
    case Sample(name, labels, value) => name + PrintLabels(labels) + " " + value
  }

  /** The lines, each ended by a line feed. */
  function Print(lines: seq<Line>): string {
    if lines == [] then "" else Print(lines[..|lines| - 1]) + PrintLine(lines[|lines| - 1]) + "\n"
  }

  /** A backslash, a line feed and a quote are written as two characters, every other as itself. */
  lemma EscapesAre(c: char)
    ensures EscapeLabel("\\") == "\\\\" && EscapeLabel("\n") == "\\n" && EscapeLabel("\"") == "\\\""
    ensures c !in "\\\n\"" ==> EscapeLabel([c]) == [c]
  {
    EscapeOneChar('\\');
    EscapeOneChar('\n');
    EscapeOneChar('"');
    EscapeOneChar(c);
  }

  /** What each kind of line looks like, with the two labels a sample may have. */
  lemma LineForms(name: string, text: string, a: string, x: string, b: string, y: string, value: string)
    ensures PrintLine(Help(name, text)) == "# HELP " + name + " " + text
    ensures PrintLine(Type(name, Counter)) == "# TYPE " + name + " " + "counter"
    ensures PrintLine(Type(name, Gauge)) == "# TYPE " + name + " " + "gauge"
    ensures PrintLine(Sample(name, [], value)) == name + " " + value
    ensures
      var first, second := a + "=\"" + EscapeLabel(x) + "\"", b + "=\"" + EscapeLabel(y) + "\"";
      PrintLine(Sample(name, [(a, x), (b, y)], value)) == name + ("{" + (first + "," + second) + "}") + " " + value
  {
    assert name + "" == name;
    TwoPairs((a, x), (b, y));
  }

  lemma TwoPairs(p: Pair, q: Pair)
    ensures PrintLabels([p, q]) == "{" + (PrintPair(p) + "," + PrintPair(q)) + "}"
  {
    assert [p, q][1..] == [q];
    assert PrintPairs([q]) == PrintPair(q);
    assert PrintPairs([p, q]) == PrintPair(p) + "," + PrintPair(q);
  }

  // ---- Reading ----

  function ParsePairs(s: string): (r: Option<(seq<Pair>, string)>)
    decreases |s|
  {
    var n := Span(s, IsNameChar);
    if n == 0 || |s| < n + 2 || s[n] != '=' || s[n + 1] != '"' then None
    else
      var quoted := ParseQuoted(s[n + 2..]);
      if quoted.None? || quoted.value.1 == "" then None
      else
        var tail := quoted.value.1;
        if tail[0] == '}' then Some(([(s[..n], quoted.value.0)], tail[1..]))
        else if tail[0] == ',' then
          var rest := ParsePairs(tail[1..]);
          if rest.None? then None else Some(([(s[..n], quoted.value.0)] + rest.value.0, rest.value.1))
        else None
  }

  function ParseSample(s: string): Option<Line> {
    var n := Span(s, IsNameChar);
    if n == 0 then None
    else
      var rest := s[n..];
      var labels := if rest != "" && rest[0] == '{' then ParsePairs(rest[1..]) else Some(([], rest));
      if labels.None? then None
      else
        var tail := labels.value.1;
        if |tail| >= 2 && tail[0] == ' ' && Span(tail[1..], IsTokenChar) == |tail| - 1
        then Some(Sample(s[..n], labels.value.0, tail[1..])) else None
  }

  function ParseKind(s: string): Option<Kind> {
    if s == KindText(Counter) then Some(Counter) else if s == KindText(Gauge) then Some(Gauge) else None
  }

  function ParseComment(s: string): Option<Line> {
    if |s| < |HELP| then None
    else
      var body := s[|HELP|..];
      var n := Span(body, NotSpace);
      if n == 0 || n == |body| then None
      else if s[..|HELP|] == HELP then Some(Help(body[..n], body[n + 1..]))
      else if s[..|HELP|] == TYPE && ParseKind(body[n + 1..]).Some? then Some(Type(body[..n], ParseKind(body[n + 1..]).value))
      else None
  }

  function ParseLine(s: string): Option<Line> {
    if s != "" && s[0] == '#' then ParseComment(s) else ParseSample(s)
  }

  /** Every line of the text must be ended and readable. */
  function Parse(text: string): Option<seq<Line>>
    decreases |text|
  {
    if text == "" then Some([])
    else
      var n := Span(text, NotBreak);
      if n == |text| || ParseLine(text[..n]).None? then None
      else
        var rest := Parse(text[n + 1..]);
        if rest.None? then None else Some([ParseLine(text[..n]).value] + rest.value)
  }

  // ---- Reading undoes writing ----

  predicate WellFormed(line: Line) {
    && IsName(line.name)
    && (line.Help? ==> OneLine(line.text))
    && (line.Sample? ==> IsToken(line.value) && forall i :: 0 <= i < |line.labels| ==> IsName(line.labels[i].0))
  }

  /** One pair at the front of a text is cut off exactly. */
  lemma PairReadsBack(p: Pair, after: string)
    requires IsName(p.0)
    ensures
      var s := PrintPair(p) + after;
      && Span(s, IsNameChar) == |p.0| && s[..|p.0|] == p.0
      && |s| >= |p.0| + 2 && s[|p.0|] == '=' && s[|p.0| + 1] == '"'
      && ParseQuoted(s[|p.0| + 2..]) == Some((p.1, after))
  {
    var quoted := EscapeLabel(p.1) + "\"" + after;
    var s := PrintPair(p) + after;
    assert s == p.0 + ("=\"" + quoted);
    SpanStops(p.0, "=\"" + quoted, IsNameChar);
    assert s[|p.0| + 2..] == quoted;
    EscapedValueReadsBack(p.1, after);
  }

  lemma PairsUnfold(ps: seq<Pair>, rest: string)
    requires ps != []
    ensures |ps| == 1 ==> PrintPairs(ps) + "}" + rest == PrintPair(ps[0]) + ("}" + rest)
    ensures |ps| > 1 ==> PrintPairs(ps) + "}" + rest == PrintPair(ps[0]) + ("," + (PrintPairs(ps[1..]) + "}" + rest))
  {
    if |ps| == 1 {
      Regroup(PrintPair(ps[0]), "}", "", rest);
    } else {
      Regroup(PrintPair(ps[0]), ",", PrintPairs(ps[1..]), "}" + rest);
      Regroup(PrintPairs(ps), "}", "", rest);
      Regroup(PrintPairs(ps[1..]), "}", "", rest);
    }
  }

  lemma Regroup(a: string, b: string, c: string, d: string)
    ensures a + b + c + d == a + (b + (c + d)) == (a + b) + (c + d)
    ensures c == "" ==> a + b + d == a + (b + d)
  {
  }

  lemma LastPairReads(p: Pair, rest: string)
    requires IsName(p.0)
    ensures ParsePairs(PrintPair(p) + ("}" + rest)) == Some(([(p.0, p.1)], rest))
  {
    assert ("}" + rest)[1..] == rest;
    PairReadsBack(p, "}" + rest);
  }

  lemma CommaCut(more: string)
    ensures ("," + more)[0] == ',' && ("," + more)[1..] == more
  {
  }

  lemma NextPairReads(p: Pair, more: string)
    requires IsName(p.0) && ParsePairs(more).Some?
    ensures ParsePairs(PrintPair(p) + ("," + more)) == Some(([(p.0, p.1)] + ParsePairs(more).value.0, ParsePairs(more).value.1))
  {
    CommaCut(more);
    PairReadsBack(p, "," + more);
  }

  lemma {:induction false} PairsReadBack(ps: seq<Pair>, rest: string)
    requires ps != [] && forall i :: 0 <= i < |ps| ==> IsName(ps[i].0)
    ensures ParsePairs(PrintPairs(ps) + "}" + rest) == Some((ps, rest))
  {
    PairsUnfold(ps, rest);
    if |ps| == 1 {
      LastPairReads(ps[0], rest);
      assert ps == [ps[0]];
    } else {
      PairsReadBack(ps[1..], rest);
      MorePairsRead(ps, PrintPairs(ps[1..]) + "}" + rest, rest);
    }
  }

  lemma MorePairsRead(ps: seq<Pair>, more: string, rest: string)
    requires |ps| > 1 && IsName(ps[0].0) && ParsePairs(more) == Some((ps[1..], rest))
    ensures ParsePairs(PrintPair(ps[0]) + ("," + more)) == Some((ps, rest))
  {
    NextPairReads(ps[0], more);
    assert ps == [ps[0]] + ps[1..];
  }

  lemma Braces(inner: string, tail: string)
    ensures ("{" + inner + "}" + tail)[0] == '{'
    ensures ("{" + inner + "}" + tail)[1..] == inner + "}" + tail
  {
  }

  /** The label part and what follows it are told apart. */
  lemma LabelsReadBack(labels: seq<Pair>, tail: string)
    requires forall i :: 0 <= i < |labels| ==> IsName(labels[i].0)
    requires tail != "" && tail[0] == ' '
    ensures
      var rest := PrintLabels(labels) + tail;
      && rest != "" && !IsNameChar(rest[0])
      && (if rest[0] == '{' then ParsePairs(rest[1..]) else Some(([], rest))) == Some((labels, tail))
  {
    var rest := PrintLabels(labels) + tail;
    if labels == [] {
      assert rest == tail;
    } else {
      var inner := PrintPairs(labels);
      Braces(inner, tail);
      PairsReadBack(labels, tail);
    }
  }

  lemma ValueReadsBack(value: string)
    requires IsToken(value)
    ensures var tail := " " + value; |tail| >= 2 && tail[0] == ' ' && tail[1..] == value && Span(value, IsTokenChar) == |value|
  {
    SpanStops(value, "", IsTokenChar);
    assert value + "" == value;
  }

  lemma SampleReadsBack(name: string, labels: seq<Pair>, value: string)
    requires WellFormed(Sample(name, labels, value))
    ensures ParseLine(name + PrintLabels(labels) + " " + value) == Some(Sample(name, labels, value))
  {
    LabelsReadBack(labels, " " + value);
    ValueReadsBack(value);
    Regroup(name, PrintLabels(labels), " ", value);
    SampleParts(name, labels, value, PrintLabels(labels) + (" " + value));
  }

  lemma SampleParts(name: string, labels: seq<Pair>, value: string, rest: string)
    requires IsName(name) && rest != "" && !IsNameChar(rest[0])
    requires (if rest[0] == '{' then ParsePairs(rest[1..]) else Some(([], rest))) == Some((labels, " " + value))
    requires |" " + value| >= 2 && (" " + value)[0] == ' ' && (" " + value)[1..] == value && Span(value, IsTokenChar) == |value|
    ensures ParseLine(name + rest) == Some(Sample(name, labels, value))
  {
    SpanStops(name, rest, IsNameChar);
    assert (name + rest)[0] == name[0];
  }

  lemma MarksDiffer()
    ensures |HELP| == |TYPE| && HELP != TYPE && HELP[0] == '#' && TYPE[0] == '#'
    ensures KindText(Counter) != KindText(Gauge)
    ensures OneLine(HELP) && OneLine(TYPE) && OneLine(KindText(Counter)) && OneLine(KindText(Gauge))
  {
    assert HELP[2] != TYPE[2];
    assert |KindText(Counter)| != |KindText(Gauge)|;
  }

  lemma CommentSplits(mark: string, name: string, text: string)
    requires IsName(name)
    ensures
      var s := mark + name + " " + text;
      var body := s[|mark|..];
      && s[..|mark|] == mark && Span(body, NotSpace) == |name| < |body|
      && body[..|name|] == name && body[|name| + 1..] == text
  {
    var s, body := mark + name + " " + text, name + (" " + text);
    assert s == mark + body;
    assert s[..|mark|] == mark && s[|mark|..] == body;
    SpanStops(name, " " + text, NotSpace);
    assert body[|name| + 1..] == text;
  }

  lemma CommentReadsBack(line: Line)
    requires WellFormed(line) && !line.Sample?
    ensures ParseLine(PrintLine(line)) == Some(line)
  {
    MarksDiffer();
    var text := if line.Help? then line.text else KindText(line.kind);
    var mark := if line.Help? then HELP else TYPE;
    CommentSplits(mark, line.name, text);
    var s := mark + line.name + " " + text;
    assert s[0] == mark[0] == '#';
    assert line.Type? ==> ParseKind(text) == Some(line.kind);
    assert PrintLine(line) == s;
  }

  lemma OneLineConcat(a: string, b: string)
    requires OneLine(a) && OneLine(b)
    ensures OneLine(a + b)
  {
  }

  lemma {:induction false} PairsAreOneLine(ps: seq<Pair>)
    requires forall i :: 0 <= i < |ps| ==> IsName(ps[i].0)
    ensures OneLine(PrintPairs(ps))
  {
    if ps != [] {
      EscapedValueReadsBack(ps[0].1, "");
      OneLineConcat(ps[0].0, "=\"");
      OneLineConcat(ps[0].0 + "=\"", EscapeLabel(ps[0].1));
      OneLineConcat(ps[0].0 + "=\"" + EscapeLabel(ps[0].1), "\"");
      PairsAreOneLine(ps[1..]);
    }
  }

  lemma SampleIsOneLine(name: string, labels: seq<Pair>, value: string)
    requires WellFormed(Sample(name, labels, value))
    ensures OneLine(name + PrintLabels(labels) + " " + value)
  {
    PairsAreOneLine(labels);
    if labels != [] {
      OneLineConcat("{", PrintPairs(labels));
      OneLineConcat("{" + PrintPairs(labels), "}");
    }
    OneLineConcat(name, PrintLabels(labels));
    OneLineConcat(name + PrintLabels(labels), " ");
    OneLineConcat(name + PrintLabels(labels) + " ", value);
  }

  lemma CommentIsOneLine(mark: string, name: string, text: string)
    requires OneLine(mark) && IsName(name) && OneLine(text)
    ensures OneLine(mark + name + " " + text)
  {
    OneLineConcat(mark, name);
    OneLineConcat(mark + name, " ");
    OneLineConcat(mark + name + " ", text);
  }

  /** One printed line is one line of text and reads back as itself. */
  lemma LineReadsBack(line: Line)
    requires WellFormed(line)
    ensures OneLine(PrintLine(line)) && ParseLine(PrintLine(line)) == Some(line)
  {
    match line
    case Sample(name, labels, value) =>
      SampleReadsBack(name, labels, value);
      SampleIsOneLine(name, labels, value);
    case Help(name, text) =>
      MarksDiffer();
      CommentReadsBack(line);
      CommentIsOneLine(HELP, name, text);
    case Type(name, kind) =>
      MarksDiffer();
      CommentReadsBack(line);
      CommentIsOneLine(TYPE, name, KindText(kind));
  }

  lemma LineCut(printed: string, rest: string)
    requires OneLine(printed)
    ensures
      var text := printed + ("\n" + rest);
      Span(text, NotBreak) == |printed| < |text| && text[..|printed|] == printed && text[|printed| + 1..] == rest
  {
    SpanStops(printed, "\n" + rest, NotBreak);
  }

  lemma LineThenRest(printed: string, line: Line, rest: string)
    requires OneLine(printed) && ParseLine(printed) == Some(line) && Parse(rest).Some?
    ensures Parse(printed + ("\n" + rest)) == Some([line] + Parse(rest).value)
  {
    LineCut(printed, rest);
  }

  lemma PrintStep(lines: seq<Line>, line: Line, rest: string)
    ensures Print(lines + [line]) + rest == Print(lines) + (PrintLine(line) + ("\n" + rest))
  {
    assert (lines + [line])[..|lines|] == lines;
    EndedBy(Print(lines), PrintLine(line), rest);
  }

  lemma EndedBy(a: string, b: string, c: string)
    ensures a + b + "\n" + c == a + (b + ("\n" + c))
  {
  }

  lemma Shift(first: seq<Line>, last: Line, rest: seq<Line>)
    ensures first + ([last] + rest) == first + [last] + rest
  {
  }

  /** Reading the printed text gives back exactly the lines, for any label values. */
  lemma {:induction false} PrintedReadsBack(lines: seq<Line>, rest: string)
    requires forall i :: 0 <= i < |lines| ==> WellFormed(lines[i])
    requires Parse(rest).Some?
    ensures Parse(Print(lines) + rest) == Some(lines + Parse(rest).value)
  {
    if lines == [] {
      assert Print(lines) + rest == rest;
      assert lines + Parse(rest).value == Parse(rest).value;
    } else {
      var n := |lines| - 1;
      var first, last := lines[..n], lines[n];
      var printed := PrintLine(last);
      assert lines == first + [last];
      LineReadsBack(last);
      LineThenRest(printed, last, rest);
      PrintedReadsBack(first, printed + ("\n" + rest));
      PrintStep(first, last, rest);
      Shift(first, last, Parse(rest).value);
    }
  }
}
