/**
 * The PL/SQL text the Agent Builder page generates: flags written as the
 * literals `True`/`False`, JSON indented under the procedure call, and the
 * `DBMS_CLOUD_AI_AGENT` block that drops and re-creates an object.
 */
module PlsqlBlock {
  import opened Wrappers
  import opened Strings
  import opened PyJson

  // ---------------------------------------------------------------------
  // `_to_bool_literal`

  /** The words, trimmed and lower-cased, that read as true. */
  predicate TrueWord(w: string) {
    w == "true" || w == "1" || w == "yes" || w == "y"
  }

  /** `_to_bool_literal(value)`: the PL/SQL-side spelling of a flag. */
  function ToBoolLiteral(value: PyVal): (r: string)
    ensures r == "True" || r == "False"
    ensures r == "True" <==> TrueWord(Lower(Strip(StrOf(value))))
  {
    if TrueWord(Lower(Strip(StrOf(value)))) then "True" else "False"
  }

  /** A Python boolean keeps its value. */
  lemma BoolLiteralOfBool(b: bool)
    ensures ToBoolLiteral(PBool(b)) == if b then "True" else "False"
  {
    if b {
      assert StrOf(PBool(b)) == "True";
      ReadTrue();
    } else {
      assert StrOf(PBool(b)) == "False";
      ReadFalse();
    }
  }

  /** The literal read back as a flag gives the same literal. */
  lemma BoolLiteralStable(value: PyVal)
    ensures ToBoolLiteral(PStr(ToBoolLiteral(value))) == ToBoolLiteral(value)
  {
    BoolWords();
  }

  /** How the two literals read, stripped and lower-cased. */
  lemma BoolWords()
    ensures Lower(Strip("True")) == "true"
    ensures Lower(Strip("False")) == "false"
  {
    ReadTrue();
    ReadFalse();
  }

  lemma ReadTrue()
    ensures Lower(Strip("True")) == "true"
  {
    StripPlain("True");
    LowerTrue();
  }

  lemma ReadFalse()
    ensures Lower(Strip("False")) == "false"
  {
    StripPlain("False");
    LowerFalse();
  }

  lemma LowerTrue()
    ensures Lower("True") == "true"
  {
    var t := Lower("True");
    assert t[0] == 't' && t[1] == 'r' && t[2] == 'u' && t[3] == 'e';
  }

  lemma LowerFalse()
    ensures Lower("False") == "false"
  {
    var f := Lower("False");
    assert f[0] == 'f' && f[1] == 'a' && f[2] == 'l' && f[3] == 's' && f[4] == 'e';
  }

  lemma ReadLowerFalse()
    ensures Lower(Strip("false")) == "false"
  {
    StripPlain("false");
    LowerLower();
  }

  lemma LowerLower()
    ensures Lower("false") == "false"
  {
    var f := Lower("false");
    assert f[0] == 'f' && f[1] == 'a' && f[2] == 'l' && f[3] == 's' && f[4] == 'e';
  }

  /** A text that neither starts nor ends with whitespace is its own strip. */
  lemma StripPlain(w: string)
    requires w != [] && w[0] !in Whitespace && w[|w| - 1] !in Whitespace
    ensures Strip(w) == w
  {
    assert TrimLeft(w, Whitespace) == w;
    assert TrimRight(w, Whitespace) == w;
  }

  // ---------------------------------------------------------------------
  // `_indent_json_block`

  /** The twelve spaces put before every line of the attributes JSON. */
  const Padding: string := "            "

  /** Every line with the padding in front. */
  function Padded(lines: seq<string>): (r: seq<string>)
    ensures |r| == |lines|
    ensures forall i :: 0 <= i < |r| ==> r[i] == Padding + lines[i]
  {
    seq(|lines|, i requires 0 <= i < |lines| => Padding + lines[i])
  }

  /** Every line with its first twelve characters dropped. */
  function Unpadded(lines: seq<string>): (r: seq<string>)
    ensures |r| == |lines|
    ensures forall i :: 0 <= i < |r| ==> r[i] == if |lines[i]| >= |Padding| then lines[i][|Padding|..] else ""
  {
    seq(|lines|, i requires 0 <= i < |lines| => if |lines[i]| >= |Padding| then lines[i][|Padding|..] else "")
  }

  /**
   * `_indent_json_block` as written: `"\n".join(padding + line for line in
   * text.splitlines())`, which also breaks lines at the separators
   * `splitlines` knows besides `\n`.
   */
  function IndentAsWritten(text: string): string {
    Join(Padded(SplitLines(text)), "\n")
  }

  /** As written, the block has the text's lines, each with exactly twelve spaces in front. */
  lemma IndentAsWrittenLines(text: string)
    ensures SplitLines(IndentAsWritten(text)) == Padded(SplitLines(text))
  {
    var lines := Padded(SplitLines(text));
    LinesAtNoBreaks(text, LineBreaks);
    forall i, k | 0 <= i < |lines| && 0 <= k < |lines[i]| ensures lines[i][k] !in LineBreaks {
      if k >= |Padding| {
        assert lines[i][k] == SplitLines(text)[i][k - |Padding|];
      }
    }
    LinesAtJoin(lines, LineBreaks);
  }

  /**
   * `json.dumps(..., ensure_ascii=False)` keeps U+2028 inside a string, and
   * the as-written indentation breaks the line there: the string value gets
   * a newline and twelve spaces in its middle.
   */
  lemma LineSeparatorSplitsValue()
    ensures QuoteJson("a\U{2028}b", false) == "\"a\U{2028}b\""
    ensures IndentAsWritten("\"a\U{2028}b\"") == Padding + "\"a" + "\n" + Padding + "b\""
  {
    JsonKeepsSeparator();
    SampleLines();
    var lines := Padded(["\"a", "b\""]);
    assert lines == [Padding + "\"a", Padding + "b\""];
    assert Join(lines, "\n") == lines[0] + "\n" + Join(lines[1..], "\n");
  }

  lemma JsonKeepsSeparator()
    ensures EscapeAll("a\U{2028}b", false) == "a\U{2028}b"
  {
    var s := "a\U{2028}b";
    assert EscapeAll(s[2..], false) == "b" by {
      assert EscapeAll(s[2..][1..], false) == "";
    }
    assert EscapeAll(s[1..], false) == "\U{2028}b" by {
      assert s[1..][1..] == s[2..];
    }
  }

  lemma SampleLines()
    ensures SplitLines("\"a\U{2028}b\"") == ["\"a", "b\""]
  {
    var t := "\"a\U{2028}b\"";
    assert t == "\"a" + t[2..];
    LineEndOf("\"a", t[2..], LineBreaks);
    assert t[3..] == "b\"";
    LineEndOf("b\"", [], LineBreaks);
    assert "b\"" + [] == "b\"";
    assert SplitLines(t[3..]) == ["b\""];
  }

  /**
   * `_indent_json_block` as intended: every line of the JSON text, split at
   * `\n` only, with the padding in front.
   */
  function IndentJsonBlock(text: string): string {
    Join(Padded(Split(text, '\n')), "\n")
  }

  /**
   * The block has as many lines as the text, each padded by exactly twelve
   * spaces, and dropping the padding gives back the text.
   */
  lemma IndentRoundTrip(text: string)
    ensures Split(IndentJsonBlock(text), '\n') == Padded(Split(text, '\n'))
    ensures Join(Unpadded(Split(IndentJsonBlock(text), '\n')), "\n") == text
  {
    var lines := Split(text, '\n');
    var padded := Padded(lines);
    forall i | 0 <= i < |padded| ensures '\n' !in padded[i] {
      assert '\n' !in Padding;
    }
    SplitJoin(padded, '\n');
    assert Unpadded(padded) == lines by {
      forall i | 0 <= i < |lines| ensures Unpadded(padded)[i] == lines[i] {
        assert padded[i][|Padding|..] == lines[i];
      }
    }
    JoinSplit(text, '\n');
  }

  /**
   * On the text `json.dumps(..., indent=4)` writes, which has a line and does
   * not end with a newline, both readings agree unless the text carries a
   * line separator other than `\n`.
   */
  lemma IndentAgrees(text: string)
    requires text != [] && text[|text| - 1] != '\n'
    requires forall k :: 0 <= k < |text| && text[k] in LineBreaks ==> text[k] == '\n'
    ensures IndentJsonBlock(text) == IndentAsWritten(text)
  {
    LinesAtIsSplit(text, LineBreaks);
  }

  /** Each line doubled. */
  function DoubledLines(lines: seq<string>, q: char): (r: seq<string>)
    ensures |r| == |lines|
    ensures forall i :: 0 <= i < |r| ==> r[i] == Double(lines[i], q)
  {
    seq(|lines|, i requires 0 <= i < |lines| => Double(lines[i], q))
  }

  /** A text without the quote is its own doubling. */
  lemma {:induction false} DoubleNoQuote(s: string, q: char)
    requires q !in s
    ensures Double(s, q) == s
  {
    if s != [] {
      DoubleNoQuote(s[1..], q);
      DoubleHead(s, q);
      assert [s[0]] + s[1..] == s;
    }
  }

  /** Doubling a character other than `\n` does not move the line breaks. */
  lemma {:induction false} SplitDouble(t: string, q: char)
    requires q != '\n'
    ensures Split(Double(t, q), '\n') == DoubledLines(Split(t, '\n'), q)
  {
    if t != [] {
      SplitDouble(t[1..], q);
      DoubleHead(t, q);
      if t[0] == '\n' {
        SplitDoubleBreak(t, q);
      } else {
        SplitDoubleOther(t, q);
      }
    }
  }

  /** `SplitDouble` for a text that starts with a line break. */
  lemma SplitDoubleBreak(t: string, q: char)
    requires q != '\n' && t != [] && t[0] == '\n'
    requires Split(Double(t[1..], q), '\n') == DoubledLines(Split(t[1..], '\n'), q)
    requires Double(t, q) == ['\n'] + Double(t[1..], q)
    ensures Split(Double(t, q), '\n') == DoubledLines(Split(t, '\n'), q)
  {
    var d := Double(t[1..], q);
    var rest := Split(t[1..], '\n');
    SplitAtSeparator([], d, '\n');
    assert [] + ['\n'] + d == ['\n'] + d;
    SplitAtSeparator([], t[1..], '\n');
    assert [] + ['\n'] + t[1..] == t;
    assert DoubledLines([""] + rest, q) == [Double("", q)] + DoubledLines(rest, q);
  }

  /** `SplitDouble` for a text that starts with anything but a line break. */
  lemma SplitDoubleOther(t: string, q: char)
    requires q != '\n' && t != [] && t[0] != '\n'
    requires Split(Double(t[1..], q), '\n') == DoubledLines(Split(t[1..], '\n'), q)
    requires Double(t, q) == (if t[0] == q then [q, q] else [t[0]]) + Double(t[1..], q)
    ensures Split(Double(t, q), '\n') == DoubledLines(Split(t, '\n'), q)
  {
    var h := if t[0] == q then [q, q] else [t[0]];
    var d := Double(t[1..], q);
    var rest := Split(t[1..], '\n');
    SplitPrefix(h, d, '\n');
    DoubledLinesHead(rest, q);
    assert Split(Double(t, q), '\n') == [h + Double(rest[0], q)] + DoubledLines(rest[1..], q);
    SplitFirstLine(t);
    DoubledLinesCons([t[0]] + rest[0], rest[1..], q);
    FirstLineDoubled(t, rest[0], q);
  }

  /** A text that does not start with a line break: its first character joins the first line of the rest. */
  lemma SplitFirstLine(t: string)
    requires t != [] && t[0] != '\n'
    ensures Split(t, '\n') == [[t[0]] + Split(t[1..], '\n')[0]] + Split(t[1..], '\n')[1..]
  {
    SplitPrefix([t[0]], t[1..], '\n');
    assert [t[0]] + t[1..] == t;
  }

  /** Doubling a line put in front. */
  lemma DoubledLinesCons(x: string, xs: seq<string>, q: char)
    ensures DoubledLines([x] + xs, q) == [Double(x, q)] + DoubledLines(xs, q)
  {
  }

  /** The doubled lines are the doubled first line and the doubled others. */
  lemma DoubledLinesHead(xs: seq<string>, q: char)
    requires xs != []
    ensures DoubledLines(xs, q) == [Double(xs[0], q)] + DoubledLines(xs[1..], q)
  {
    assert xs == [xs[0]] + xs[1..];
    DoubledLinesCons(xs[0], xs[1..], q);
  }

  /** The first line of the text, doubled, is the doubled first character and the doubled remainder. */
  lemma FirstLineDoubled(t: string, line: string, q: char)
    requires t != []
    ensures Double([t[0]] + line, q) == (if t[0] == q then [q, q] else [t[0]]) + Double(line, q)
  {
    var first := [t[0]] + line;
    DoubleHead(first, q);
    assert first[0] == t[0] && first[1..] == line;
  }

  /** Doubling the lines and joining them is doubling the joined text, the separator having no quote. */
  lemma {:induction false} JoinDouble(lines: seq<string>, q: char)
    requires q != '\n'
    ensures Join(DoubledLines(lines, q), "\n") == Double(Join(lines, "\n"), q)
  {
    if |lines| == 1 {
    } else if |lines| > 1 {
      JoinDouble(lines[1..], q);
      assert DoubledLines(lines, q)[1..] == DoubledLines(lines[1..], q);
      DoubleConcat(lines[0] + "\n", Join(lines[1..], "\n"), q);
      DoubleConcat(lines[0], "\n", q);
      DoubleNoQuote("\n", q);
    }
  }

  /**
   * Escaping quotes before indenting is escaping the indented block: the
   * padding and the line breaks hold no quote.
   */
  lemma IndentDouble(text: string)
    ensures IndentJsonBlock(Double(text, '\'')) == Double(IndentJsonBlock(text), '\'')
  {
    var lines := Split(text, '\n');
    SplitDouble(text, '\'');
    PaddedDoubled(lines, '\'');
    JoinDouble(Padded(lines), '\'');
  }

  /** Padding then doubling is doubling then padding, the padding having no quote. */
  lemma PaddedDoubled(lines: seq<string>, q: char)
    requires q != ' '
    ensures Padded(DoubledLines(lines, q)) == DoubledLines(Padded(lines), q)
  {
    DoubleNoQuote(Padding, q);
    forall i | 0 <= i < |lines|
      ensures Padded(DoubledLines(lines, q))[i] == DoubledLines(Padded(lines), q)[i]
    {
      DoubleConcat(Padding, lines[i], q);
    }
  }

  // ---------------------------------------------------------------------
  // `_build_dbms_block`

  /** `_OBJECT_PARAM_MAP`: the name parameter of each object type's procedures. */
  function ParamFor(objectType: string): (r: Option<string>)
    ensures r.Some? <==> objectType in {"TOOL", "TASK", "AGENT", "TEAM"}
  {
    if objectType == "TOOL" then Some("tool_name")
    else if objectType == "TASK" then Some("task_name")
    else if objectType == "AGENT" then Some("agent_name")
    else if objectType == "TEAM" then Some("team_name")
    else None
  }

  /** The block's text up to the attributes literal's opening quote. */
  function BlockHead(objectType: string, param: string, identifier: string): string {
    "BEGIN\n"
    + "    DBMS_CLOUD_AI_AGENT.DROP_" + objectType + "(" + param + " => '" + identifier + "', force => TRUE);\n\n"
    + "    DBMS_CLOUD_AI_AGENT.CREATE_" + objectType + "(\n"
    + "        " + param + " => '" + identifier + "',\n"
    + "        attributes => '"
  }

  /** What follows the attributes literal's closing quote. */
  const BlockTail: string := ");\nEND;\n/"

  /** The text the attributes literal holds: the indented JSON between two line breaks. */
  function AttributesText(attributes: seq<(string, PyVal)>): string {
    "\n" + IndentJsonBlock(DumpsIndented(PDict(attributes), 0)) + "\n        "
  }

  /**
   * `_build_dbms_block(object_type, identifier, attributes)`: drop and
   * re-create the object, its attributes as `indent=4` JSON with every
   * single quote doubled, each of its `splitlines` lines indented by twelve
   * spaces; nothing for a falsy identifier or a type without a name
   * parameter.
   */
  function BuildDbmsBlock(objectType: string, identifier: PyVal, attributes: seq<(string, PyVal)>): (r: string)
    ensures r == "" <==> !Truthy(identifier) || ParamFor(Upper(objectType)).None?
  {
    if !Truthy(identifier) then ""
    else
      var jsonText := Double(DumpsIndented(PDict(attributes), 0), '\'');
      var block := IndentAsWritten(jsonText);
      match ParamFor(Upper(objectType))
      case None => ""
      case Some(param) =>
        BlockHead(objectType, param, StrOf(identifier)) + "\n" + block + "\n        '" + BlockTail
  }

  /** `_build_dbms_block` with the JSON indented line by line at `\n` only. */
  function BuildDbmsBlockCorrected(objectType: string, identifier: PyVal, attributes: seq<(string, PyVal)>): (r: string)
    ensures r == "" <==> !Truthy(identifier) || ParamFor(Upper(objectType)).None?
  {
    if !Truthy(identifier) then ""
    else
      var jsonText := Double(DumpsIndented(PDict(attributes), 0), '\'');
      var block := IndentJsonBlock(jsonText);
      match ParamFor(Upper(objectType))
      case None => ""
      case Some(param) =>
        BlockHead(objectType, param, StrOf(identifier)) + "\n" + block + "\n        '" + BlockTail
  }

  /** The only line break a text holds is `\n`. */
  predicate OnlyNewlines(text: string) {
    forall k :: 0 <= k < |text| && text[k] in LineBreaks ==> text[k] == '\n'
  }

  /**
   * When no key or value of the attributes holds a line separator other
   * than `\n`, the block as written is the corrected one.
   */
  lemma BlockAgrees(objectType: string, identifier: PyVal, attributes: seq<(string, PyVal)>)
    requires OnlyNewlines(DumpsIndented(PDict(attributes), 0))
    ensures BuildDbmsBlock(objectType, identifier, attributes) == BuildDbmsBlockCorrected(objectType, identifier, attributes)
  {
    IndentedEndsInBrace(attributes);
    DoubledAgrees(DumpsIndented(PDict(attributes), 0));
  }

  /** The `indent=4` JSON of a dict ends with its closing brace. */
  lemma IndentedEndsInBrace(attributes: seq<(string, PyVal)>)
    ensures var json := DumpsIndented(PDict(attributes), 0); json[|json| - 1] == '}'
  {
  }

  /** Doubling the quotes of a JSON text that ends in a brace keeps both readings of its lines in agreement. */
  lemma DoubledAgrees(json: string)
    requires json != [] && json[|json| - 1] == '}' && OnlyNewlines(json)
    ensures IndentAsWritten(Double(json, '\'')) == IndentJsonBlock(Double(json, '\''))
  {
    DoubleLast(json, '\'');
    DoubleOnlyNewlines(json);
    var d := Double(json, '\'');
    IndentAgrees(d);
  }

  /** Doubling single quotes adds no line break. */
  lemma DoubleOnlyNewlines(json: string)
    requires OnlyNewlines(json)
    ensures OnlyNewlines(Double(json, '\''))
  {
    DoubleChars(json, '\'');
    var d := Double(json, '\'');
    assert '\'' !in LineBreaks;
    forall k | 0 <= k < |d| && d[k] in LineBreaks ensures d[k] == '\n' {
      var j :| 0 <= j < |json| && json[j] == d[k];
    }
  }

  /** Every character of a doubled text is the quote or a character of the text. */
  lemma {:induction false} DoubleChars(s: string, q: char)
    ensures forall k :: 0 <= k < |Double(s, q)| ==> Double(s, q)[k] == q || Double(s, q)[k] in s
  {
    if s != [] {
      DoubleChars(s[1..], q);
      DoubleHead(s, q);
    }
  }

  /** Doubling keeps a last character other than the quote. */
  lemma DoubleLast(s: string, q: char)
    requires s != [] && s[|s| - 1] != q
    ensures Double(s, q) != [] && Double(s, q)[|Double(s, q)| - 1] == s[|s| - 1]
  {
    assert s == s[..|s| - 1] + [s[|s| - 1]];
    DoubleConcat(s[..|s| - 1], [s[|s| - 1]], q);
    DoubleNoQuote([s[|s| - 1]], q);
  }

  /**
   * A generated block starts with `BEGIN`, drops then creates the object,
   * ends with `END;` and `/`, and its attributes literal, read the way
   * PL/SQL reads a quoted literal, is exactly the indented JSON and closes
   * right before the procedure call's `)`: quotes in the values cannot end
   * it early. As written this holds when the JSON breaks lines at `\n` only.
   */
  lemma BlockShape(objectType: string, identifier: PyVal, attributes: seq<(string, PyVal)>)
    requires BuildDbmsBlock(objectType, identifier, attributes) != ""
    requires OnlyNewlines(DumpsIndented(PDict(attributes), 0))
    ensures var r := BuildDbmsBlock(objectType, identifier, attributes);
      var head := BlockHead(objectType, ParamFor(Upper(objectType)).value, StrOf(identifier));
      && StartsWith(r, "BEGIN\n")
      && |head| <= |r| && r[..|head|] == head
      && ReadQuoted(r[|head|..], '\'') == Some((AttributesText(attributes), BlockTail))
      && r[|r| - |BlockTail|..] == BlockTail
  {
    BlockAgrees(objectType, identifier, attributes);
    BlockShapeCorrected(objectType, identifier, attributes);
  }

  /** The corrected block has that shape for all attributes. */
  lemma BlockShapeCorrected(objectType: string, identifier: PyVal, attributes: seq<(string, PyVal)>)
    requires BuildDbmsBlockCorrected(objectType, identifier, attributes) != ""
    ensures var r := BuildDbmsBlockCorrected(objectType, identifier, attributes);
      var head := BlockHead(objectType, ParamFor(Upper(objectType)).value, StrOf(identifier));
      && StartsWith(r, "BEGIN\n")
      && |head| <= |r| && r[..|head|] == head
      && ReadQuoted(r[|head|..], '\'') == Some((AttributesText(attributes), BlockTail))
      && r[|r| - |BlockTail|..] == BlockTail
  {
    var head := BlockHead(objectType, ParamFor(Upper(objectType)).value, StrOf(identifier));
    BlockUnfold(objectType, identifier, attributes);
    HeadBegins(objectType, ParamFor(Upper(objectType)).value, StrOf(identifier));
    Assemble(head, DumpsIndented(PDict(attributes), 0));
  }

  /** The shape of a block, its head and JSON text left open. */
  lemma Assemble(head: string, json: string)
    requires |head| >= 6 && head[..6] == "BEGIN\n"
    ensures var r := head + "\n" + IndentJsonBlock(Double(json, '\'')) + "\n        '" + BlockTail;
      && StartsWith(r, "BEGIN\n")
      && |head| <= |r| && r[..|head|] == head
      && ReadQuoted(r[|head|..], '\'') == Some(("\n" + IndentJsonBlock(json) + "\n        ", BlockTail))
      && r[|r| - |BlockTail|..] == BlockTail
  {
    var body := "\n" + IndentJsonBlock(json) + "\n        ";
    BodyDoubled(json);
    BlockLayout(head, IndentJsonBlock(Double(json, '\'')), Double(body, '\''));
    TailUnquoted();
    ReadQuotedDouble(body, '\'', BlockTail);
    var r := head + "\n" + IndentJsonBlock(Double(json, '\'')) + "\n        '" + BlockTail;
    assert r[..6] == head[..6];
  }

  /** A corrected block that is generated is the head, the indented doubled JSON and the tail. */
  lemma BlockUnfold(objectType: string, identifier: PyVal, attributes: seq<(string, PyVal)>)
    requires BuildDbmsBlockCorrected(objectType, identifier, attributes) != ""
    ensures Truthy(identifier) && ParamFor(Upper(objectType)).Some?
    ensures BuildDbmsBlockCorrected(objectType, identifier, attributes)
         == BlockHead(objectType, ParamFor(Upper(objectType)).value, StrOf(identifier)) + "\n"
            + IndentJsonBlock(Double(DumpsIndented(PDict(attributes), 0), '\'')) + "\n        '" + BlockTail
  {
  }

  /** Doubling the quotes of the attributes literal doubles those of the JSON alone. */
  lemma BodyDoubled(json: string)
    ensures Double("\n" + IndentJsonBlock(json) + "\n        ", '\'') == "\n" + IndentJsonBlock(Double(json, '\'')) + "\n        "
  {
    IndentDouble(json);
    DoubleConcat("\n" + IndentJsonBlock(json), "\n        ", '\'');
    DoubleConcat("\n", IndentJsonBlock(json), '\'');
    DoubleNoQuote("\n", '\'');
    DoubleNoQuote("\n        ", '\'');
  }

  /** The block is its head, then the doubled literal, its closing quote and the tail. */
  lemma BlockLayout(head: string, block: string, doubled: string)
    requires doubled == "\n" + block + "\n        "
    ensures var r := head + "\n" + block + "\n        '" + BlockTail;
      && r == head + (doubled + ['\''] + BlockTail)
      && r[..|head|] == head
      && r[|head|..] == doubled + ['\''] + BlockTail
      && r[|r| - |BlockTail|..] == BlockTail
  {
    assert "\n        '" == "\n        " + ['\''];
    var r := head + "\n" + block + "\n        '" + BlockTail;
    assert r == head + (doubled + ['\''] + BlockTail);
    SuffixOfConcat(head + doubled + ['\''], BlockTail);
    assert head + doubled + ['\''] + BlockTail == r;
  }

  /** The tail does not start with a quote, so the literal closes right before it. */
  lemma TailUnquoted()
    ensures BlockTail == [] || BlockTail[0] != '\''
  {
  }

  /** The head starts the block with `BEGIN` on its own line. */
  lemma HeadBegins(objectType: string, param: string, identifier: string)
    ensures var head := BlockHead(objectType, param, identifier);
      |head| >= 6 && head[..6] == "BEGIN\n"
  {
  }

  /** The default `'false'` reads as false. */
  lemma FlagDefault()
    ensures ToBoolLiteral(PStr("false")) == "False"
  {
    ReadLowerFalse();
    assert !TrueWord("false");
  }
}
