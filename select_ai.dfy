/**
 * `SelectAIService`, the Select AI side of the database layer: the text it
 * builds around a natural-language prompt before handing it to
 * `DBMS_CLOUD_AI.GENERATE`, the way the answer is post-processed, the
 * annotation clauses and primary-key constraints it issues for a table made
 * from a CSV file, and the way dropping a user reports its errors.
 */
module SelectAi {
  import opened Wrappers
  import opened Strings

  // ---------------------------------------------------------------------
  // Escaping

  /** Reads a doubled text back: a pair of `q` stands for one `q`. */
  function Undouble(s: string, q: char): string
    decreases |s|
  {
    if s == [] then []
    else if |s| >= 2 && s[0] == q && s[1] == q then [q] + Undouble(s[2..], q)
    else [s[0]] + Undouble(s[1..], q)
  }

  /** Undoubling undoes doubling. */
  lemma {:induction false} UndoubleDouble(s: string, q: char)
    ensures Undouble(Double(s, q), q) == s
  {
    if s != [] {
      UndoubleDouble(s[1..], q);
      DoubleHead(s, q);
      var d := Double(s, q);
      if s[0] == q {
        assert d[0] == q && d[1] == q && d[2..] == Double(s[1..], q);
      } else {
        assert d[0] == s[0] && d[1..] == Double(s[1..], q);
      }
      assert [s[0]] + s[1..] == s;
    }
  }

  /** Doubling one character, for the two characters being doubled. */
  function DoubleChar(c: char, q: char): string {
    if c == q then [q, q] else [c]
  }

  /** Doubling two different characters can be done in either order. */
  lemma {:induction false} DoubleCommute(s: string, a: char, b: char)
    requires a != b
    ensures Double(Double(s, a), b) == Double(Double(s, b), a)
  {
    if s != [] {
      var t := s[1..];
      DoubleCommute(t, a, b);
      DoubleHead(s, a);
      DoubleHead(s, b);
      DoubleConcat(DoubleChar(s[0], a), Double(t, a), b);
      DoubleConcat(DoubleChar(s[0], b), Double(t, b), a);
      assert Double(DoubleChar(s[0], a), b) == Double(DoubleChar(s[0], b), a) by {
        DoubleSmall(s[0], a, b);
        DoubleSmall(s[0], b, a);
      }
    }
  }

  /** Doubling `b` in what doubling `a` made of one character. */
  lemma DoubleSmall(c: char, a: char, b: char)
    requires a != b
    ensures Double(DoubleChar(c, a), b) == if c == a then [a, a] else if c == b then [b, b] else [c]
  {
    if c == a {
      assert DoubleChar(c, a)[1..][1..] == [];
      DoubleHead(DoubleChar(c, a), b);
      DoubleHead(DoubleChar(c, a)[1..], b);
    } else {
      DoubleHead(DoubleChar(c, a), b);
    }
  }

  /** `text.replace("'", "''").replace("%", "%%")`. */
  function EscapeQuotesAndPercents(text: string): (r: string)
    ensures |r| == |text| + Count(text, '\'') + Count(Double(text, '\''), '%')
  {
    Double(Double(text, '\''), '%')
  }

  /** Both doublings are undone by undoing them in the opposite order. */
  lemma EscapeRoundTrip(text: string)
    ensures Undouble(Undouble(EscapeQuotesAndPercents(text), '%'), '\'') == text
  {
    UndoubleDouble(Double(text, '\''), '%');
    UndoubleDouble(text, '\'');
  }

  /**
   * An escaped text closed by a quote is read by the SQL engine as the text
   * with its percent signs still doubled, and nothing it contains can close
   * the literal early.
   */
  lemma EscapedLiteral(text: string, rest: string)
    requires rest == [] || rest[0] != '\''
    ensures ReadQuoted(EscapeQuotesAndPercents(text) + "'" + rest, '\'') == Some((Double(text, '%'), rest))
  {
    DoubleCommute(text, '\'', '%');
    ReadQuotedDouble(Double(text, '%'), '\'', rest);
  }

  // ---------------------------------------------------------------------
  // get_chat

  /** The instruction appended to every prompt, naming the answer language. */
  function Instructions(language: string): string {
    " /** Do not underline titles. Queries must always be written in uppercase. Answer only in " + language + ". **/"
  }

  /** `prompt_with_instructions`: the escaped prompt followed by the instructions. */
  function ChatPrompt(prompt: string, language: string): (r: string)
    ensures |r| == |EscapeQuotesAndPercents(prompt)| + |Instructions(language)|
  {
    EscapeQuotesAndPercents(prompt) + Instructions(language)
  }

  /** The prompt sent ends with the instructions for the language, and the user's prompt can be read back from what precedes them. */
  lemma ChatPromptRecovers(prompt: string, language: string)
    ensures var t := ChatPrompt(prompt, language);
      var k := |t| - |Instructions(language)|;
      0 <= k && t[k..] == Instructions(language) &&
      Undouble(Undouble(t[..k], '%'), '\'') == prompt
  {
    var t := ChatPrompt(prompt, language);
    var k := |t| - |Instructions(language)|;
    assert t[..k] == EscapeQuotesAndPercents(prompt);
    EscapeRoundTrip(prompt);
  }

  /** The prompt is a bind variable, so the escaping reaches the model: any quote in the prompt makes the text sent longer than prompt and instructions together. */
  lemma ChatPromptKeepsEscapes(prompt: string, language: string)
    requires '\'' in prompt
    ensures |ChatPrompt(prompt, language)| > |prompt| + |Instructions(language)|
  {
    CountPositive(prompt, '\'');
  }

  lemma {:induction false} CountPositive(s: string, c: char)
    requires c in s
    ensures Count(s, c) > 0
  {
    if s[0] != c {
      assert c in s[1..];
      CountPositive(s[1..], c);
    }
  }

  /** The localised pair `(fallback_sorry, error_prefix)`. */
  datatype Messages = Messages(sorry: string, errorPrefix: string)

  const SpanishMessages := Messages(
    "Lo siento, no se pudo generar " + "una sentencia SQL válida para tu solicitud. " + "Revisa la consulta e inténtalo de nuevo.",
    "Error al generar la respuesta: ")
  const PortugueseMessages := Messages(
    "Desculpe, não foi possível " + "gerar uma instrução SQL válida para sua solicitação. " + "Revise a consulta e tente novamente.",
    "Erro ao gerar a resposta: ")
  const EnglishMessages := Messages(
    "Sorry, a valid SQL statement " + "could not be generated for your request. " + "Please review your query and try again.",
    "Error while generating the response: ")

  /** `language_messages.get(language, language_messages["English"])`. */
  function MessagesFor(language: string): (r: Messages)
    ensures r in {SpanishMessages, PortugueseMessages, EnglishMessages}
  {
    if language == "Spanish" then SpanishMessages
    else if language == "Portuguese" then PortugueseMessages
    else EnglishMessages
  }

  /** Any language other than Spanish and Portuguese gets the English messages; the three sets of messages differ. */
  lemma MessagesFallback(language: string)
    ensures language !in {"Spanish", "Portuguese"} <==> MessagesFor(language) == EnglishMessages
    ensures MessagesFor(language) == SpanishMessages <==> language == "Spanish"
    ensures MessagesFor(language) == PortugueseMessages <==> language == "Portuguese"
  {
    assert SpanishMessages.sorry[0] == 'L';
    assert PortugueseMessages.sorry[0] == 'D';
    assert EnglishMessages.sorry[0] == 'S';
  }

  /** The start of Select AI's own "no statement" answer. */
  const GenericSorry := "Sorry, unfortunately " + "a valid SELECT statement could not be generated"

  /** What the PL/SQL block hands back: the `GENERATE` result (`None` for a NULL CLOB) or the error text `SQLERRM`. */
  datatype Generated = Generated(clob: Option<string>) | Failed(sqlerrm: string)

  /** The `GENERATE` call as issued: the bind values of the block. */
  datatype GenerateCall = GenerateCall(promptText: string, profileName: string, action: string, errorPrefix: string)

  datatype ChatReply = ChatReply(call: GenerateCall, answer: string)

  /** `response or ""` after the block: the CLOB text, the prefixed error, or empty. */
  function BlockResponse(outcome: Generated, errorPrefix: string): (r: string)
    ensures outcome.Failed? ==> r == errorPrefix + outcome.sqlerrm
    ensures outcome.Generated? && outcome.clob.Some? ==> r == outcome.clob.value
    ensures outcome == Generated(None) ==> r == ""
  {
    match outcome
    case Failed(e) => errorPrefix + e
    case Generated(None) => ""
    case Generated(Some(s)) => s
  }

  /** The post-processing: Select AI's generic apology becomes the localised one. */
  function Answer(response: string, sorry: string): string {
    if StartsWith(response, GenericSorry) then sorry else response
  }

  /** `get_chat`: the call made, and the answer returned for what the block produced. */
  function GetChat(prompt: string, profileName: string, action: string, language: string, outcome: Generated): (r: ChatReply)
    ensures r.call == GenerateCall(ChatPrompt(prompt, language), profileName, action, MessagesFor(language).errorPrefix)
    ensures r.answer == Answer(BlockResponse(outcome, MessagesFor(language).errorPrefix), MessagesFor(language).sorry)
  {
    var m := MessagesFor(language);
    ChatReply(GenerateCall(ChatPrompt(prompt, language), profileName, action, m.errorPrefix),
      Answer(BlockResponse(outcome, m.errorPrefix), m.sorry))
  }

  /** An answer is replaced exactly when it starts with the generic apology, and then by a text that is not itself replaced. */
  lemma AnswerReplacesOnlyApology(response: string, language: string)
    ensures var sorry := MessagesFor(language).sorry;
      (StartsWith(response, GenericSorry) <==> Answer(response, sorry) == sorry && response != sorry) &&
      (!StartsWith(response, GenericSorry) ==> Answer(response, sorry) == response) &&
      Answer(sorry, sorry) == sorry
  {
    var sorry := MessagesFor(language).sorry;
    assert sorry[10] != GenericSorry[10];
    NotStartsWith(sorry, GenericSorry, 10);
  }

  /** A failed generation reaches the user as the localised error prefix and the database's message. */
  lemma GetChatReportsErrors(prompt: string, profileName: string, action: string, language: string, sqlerrm: string)
    ensures GetChat(prompt, profileName, action, language, Failed(sqlerrm)).answer == MessagesFor(language).errorPrefix + sqlerrm
  {
    var m := MessagesFor(language);
    ErrorPrefixes(language);
    ReplyKept(Failed(sqlerrm), m, 0);
  }

  /** An empty or missing CLOB gives an empty answer. */
  lemma GetChatEmpty(prompt: string, profileName: string, action: string, language: string)
    ensures GetChat(prompt, profileName, action, language, Generated(None)).answer == ""
    ensures GetChat(prompt, profileName, action, language, Generated(Some(""))).answer == ""
  {
    var m := MessagesFor(language);
    ReplyKept(Generated(None), m, 0);
    ReplyKept(Generated(Some("")), m, 0);
  }

  /** What the block produced is answered unchanged when it differs from the apology at position `i`. */
  lemma ReplyKept(outcome: Generated, m: Messages, i: nat)
    requires var r := BlockResponse(outcome, m.errorPrefix);
      i < |GenericSorry| && (i < |r| ==> r[i] != GenericSorry[i])
    ensures Answer(BlockResponse(outcome, m.errorPrefix), m.sorry) == BlockResponse(outcome, m.errorPrefix)
  {
    KeptUnlessApology(BlockResponse(outcome, m.errorPrefix), m.sorry, i);
  }

  /** Every error prefix starts with `E`, where the apology has `S`. */
  lemma ErrorPrefixes(language: string)
    ensures MessagesFor(language).errorPrefix != [] && MessagesFor(language).errorPrefix[0] == 'E'
  {
  }

  /** A response that differs from the apology at position `i` is answered unchanged. */
  lemma KeptUnlessApology(response: string, sorry: string, i: nat)
    requires i < |GenericSorry| && (i < |response| ==> response[i] != GenericSorry[i])
    ensures Answer(response, sorry) == response
  {
    NotStartsWith(response, GenericSorry, i);
  }

  /** A text that differs from `p` at a position within `p`, or is shorter than `p`, does not start with `p`. */
  lemma NotStartsWith(s: string, p: string, i: nat)
    requires i < |p| && (i < |s| ==> s[i] != p[i])
    ensures !StartsWith(s, p)
  {
    if |p| <= |s| {
      assert s[0..|p|][i] == s[i];
    }
  }

  // ---------------------------------------------------------------------
  // Annotations

  /** `annotation_clause`: the name with the quoted, quote-doubled value when one is given, the bare name otherwise. */
  function AnnotationClause(name: string, value: Option<string>): (r: string)
    ensures value.None? || value.value == "" ==> r == name
    ensures value.Some? && value.value != "" ==> |r| == |name| + |value.value| + Count(value.value, '\'') + 3
  {
    if value.Some? && value.value != "" then name + " '" + Double(value.value, '\'') + "'" else name
  }

  /** A given value is read back by the SQL engine exactly, as one literal that ends the clause. */
  lemma AnnotationClauseReadsBack(name: string, value: string)
    requires value != ""
    ensures var c := AnnotationClause(name, Some(value));
      c[..|name| + 2] == name + " '" && ReadQuoted(c[|name| + 2..], '\'') == Some((value, ""))
  {
    var c := AnnotationClause(name, Some(value));
    var d := Double(value, '\'');
    assert c == (name + " '") + (d + "'" + "");
    assert c[|name| + 2..] == d + "'" + "";
    ReadQuotedDouble(value, '\'', "");
  }

  // ---------------------------------------------------------------------
  // add_primary_key

  /** The statements the service sends to the database. */
  datatype Ddl =
    | AddConstraint(table: string, constraint: string, columns: string)
    | Commit

  /** `table_name.split('.')[-1]`. */
  function LastSegment(table: string): (r: string)
    ensures '.' !in r
  {
    var parts := Split(table, '.');
    parts[|parts| - 1]
  }

  /** `PK_` followed by the table name without its schema. */
  function ConstraintName(table: string): string {
    "PK_" + LastSegment(table)
  }

  /** `add_primary_key`: nothing for no columns, otherwise the constraint on the joined columns, then a commit. */
  function AddPrimaryKey(table: string, columns: seq<string>): (r: seq<Ddl>)
    ensures columns == [] <==> r == []
    ensures columns != [] ==> r == [AddConstraint(table, ConstraintName(table), Join(columns, ", ")), Commit]
  {
    if columns == [] then [] else [AddConstraint(table, ConstraintName(table), Join(columns, ", ")), Commit]
  }

  /** The constraint is named after what follows the last dot of the table, or the whole name when there is no dot. */
  lemma ConstraintNameOfTable(table: string)
    ensures '.' !in table ==> ConstraintName(table) == "PK_" + table
    ensures '.' in table ==> exists schema :: table == schema + "." + LastSegment(table)
  {
    if '.' !in table {
      SplitNoSeparator(table, '.');
    } else {
      var parts := Split(table, '.');
      JoinSplit(table, '.');
      assert |parts| >= 2 by {
        CountPositive(table, '.');
      }
      JoinLast(parts, ".");
      var schema := Join(parts[..|parts| - 1], ".");
      assert table == schema + "." + LastSegment(table);
    }
  }

  /** The pieces after the first, each with the space `", "` leaves in front of it. */
  function Spaced(columns: seq<string>): (r: seq<string>)
    requires |columns| > 0
    ensures |r| == |columns| && r[0] == columns[0]
    ensures forall i :: 0 < i < |columns| ==> r[i] == " " + columns[i]
  {
    seq(|columns|, i requires 0 <= i < |columns| => if i == 0 then columns[0] else " " + columns[i])
  }

  /** Splitting the column list at its commas gives the columns back, each after the first with one leading space. */
  lemma ColumnListSplits(columns: seq<string>)
    requires |columns| > 0
    requires forall i :: 0 <= i < |columns| ==> ',' !in columns[i]
    ensures Split(Join(columns, ", "), ',') == Spaced(columns)
  {
    JoinSpaced(columns);
    forall i | 0 <= i < |columns| ensures ',' !in Spaced(columns)[i] {
      assert i > 0 ==> Spaced(columns)[i] == " " + columns[i];
    }
    SplitJoin(Spaced(columns), ',');
  }

  lemma {:induction false} JoinSpaced(columns: seq<string>)
    requires |columns| > 0
    ensures Join(columns, ", ") == Join(Spaced(columns), ",")
  {
    if |columns| > 1 {
      var tail := columns[1..];
      var s := Spaced(columns);
      JoinSpaced(tail);
      var st := Spaced(tail);
      assert s[1..] == [" " + tail[0]] + st[1..];
      JoinCons(" " + tail[0], st[1..]);
      JoinCons(tail[0], st[1..]);
      assert st == [tail[0]] + st[1..];
    }
  }

  /** Prepending a space to the first of the pieces joined by `","`. */
  lemma JoinCons(first: string, rest: seq<string>)
    ensures Join([first] + rest, ",") == first + (if rest == [] then "" else "," + Join(rest, ","))
  {
    if rest != [] {
      assert ([first] + rest)[1..] == rest;
    }
  }

  // ---------------------------------------------------------------------
  // drop_user

  /** The database user that belongs to an application user. */
  function UserName(userId: int): string {
    "SEL_AI_USER_ID_" + IntToString(userId)
  }

  function DroppedMessage(userId: int): string {
    "[Select AI]: The username :red[" + UserName(userId) + "] of the database user to delete successfully."
  }

  function MissingUserMessage(userId: int): string {
    "[Select AI]: The username :red[" + UserName(userId) + "] of the database does not exist."
  }

  /**
   * `drop_user`, given the text of the error the `DROP USER` or the commit
   * raised, if any: the success message, the "does not exist" message for
   * ORA-01918, and nothing (`None`) for any other error, which is swallowed.
   */
  function DropUser(userId: int, error: Option<string>): (r: Option<string>)
    ensures error.None? ==> r == Some(DroppedMessage(userId))
    ensures error.Some? && Contains(error.value, "ORA-01918") ==> r == Some(MissingUserMessage(userId))
    ensures r.None? <==> error.Some? && !Contains(error.value, "ORA-01918")
  {
    match error
    case None => Some(DroppedMessage(userId))
    case Some(e) => if Contains(e, "ORA-01918") then Some(MissingUserMessage(userId)) else None
  }

  /** Both messages name the database user, and they tell the two outcomes apart. */
  lemma DropUserMessages(userId: int)
    ensures Contains(DroppedMessage(userId), UserName(userId))
    ensures Contains(MissingUserMessage(userId), UserName(userId))
    ensures DroppedMessage(userId) != MissingUserMessage(userId)
  {
    var head := "[Select AI]: The username :red[";
    ContainsInfix(head, UserName(userId), "] of the database user to delete successfully.");
    ContainsInfix(head, UserName(userId), "] of the database does not exist.");
    var k := |head| + |UserName(userId)| + 18;
    assert DroppedMessage(userId)[k] == 'u';
    assert MissingUserMessage(userId)[k] == 'd';
  }
}
