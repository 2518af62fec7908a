/**
 * `SelectAIAgentService`: the Select AI agent's conversation query, the
 * fallback of `get_data` and the block that creates the agent.
 */
module SelectAiAgent {
  import opened Wrappers
  import opened Strings
  import SelectAi

  /** `query.replace("'", "''").replace('%', '%%')`. */
  function SafeQuery(query: string): string {
    SelectAi.EscapeQuotesAndPercents(query)
  }

  /** `profile_name_sql.replace("'", "''")`: quotes only, percent signs are left alone. */
  function SafeProfile(profile: string): string {
    Double(profile, '\'')
  }

  /** The opening of the conversation query, up to the first literal's opening quote (whitespace normalised). */
  const ConversationHead := "SELECT SP_SEL_AI_AGENT_CONVERSATION('"
  /** Between the two literals. */
  const ArgumentGap := ", '"
  /** After the second literal's closing quote. */
  const ConversationTail := ") AS ANSWER FROM DUAL"

  /** `get_conversation`'s SQL: the escaped profile, then the escaped query, as the two quoted arguments. */
  function ConversationSql(profile: string, query: string): (r: string)
    ensures |r| == |ConversationHead| + |SafeProfile(profile)| + 1 + |ArgumentGap| + |SafeQuery(query)| + 1 + |ConversationTail|
  {
    ConversationHead + SafeProfile(profile) + "'" + ArgumentGap + SafeQuery(query) + "'" + ConversationTail
  }

  /**
   * The database reads the SQL as the call with exactly two literal
   * arguments: first the profile, unchanged, then the query with its percent
   * signs doubled. No quote either contains can end its literal early.
   */
  lemma ConversationSqlReadsBack(profile: string, query: string)
    ensures var sql := ConversationSql(profile, query);
      var k := |ConversationHead|;
      sql[..k] == ConversationHead &&
      ReadQuoted(sql[k..], '\'') == Some((profile, ArgumentGap + SafeQuery(query) + "'" + ConversationTail)) &&
      ReadQuoted(SafeQuery(query) + "'" + ConversationTail, '\'') == Some((Double(query, '%'), ConversationTail))
  {
    SelectAi.DoubleCommute(query, '\'', '%');
    ArgumentsReadBack(ConversationHead, profile, ArgumentGap, Double(query, '%'), ConversationTail);
  }

  /** The generic shape of both blocks: a head, then two quoted, quote-doubled arguments separated by a gap, then a tail. */
  lemma ArgumentsReadBack(head: string, x: string, gap: string, y: string, tail: string)
    requires gap != [] && gap[0] != '\'' && (tail == [] || tail[0] != '\'')
    ensures var s := head + Double(x, '\'') + "'" + gap + Double(y, '\'') + "'" + tail;
      s[..|head|] == head &&
      ReadQuoted(s[|head|..], '\'') == Some((x, gap + Double(y, '\'') + "'" + tail)) &&
      ReadQuoted(Double(y, '\'') + "'" + tail, '\'') == Some((y, tail))
  {
    var second := gap + Double(y, '\'') + "'" + tail;
    Regroup(head, Double(x, '\''), "'", gap, Double(y, '\''), tail);
    var s := head + Double(x, '\'') + "'" + gap + Double(y, '\'') + "'" + tail;
    assert s[|head|..] == Double(x, '\'') + "'" + second;
    ReadQuotedDouble(x, '\'', second);
    ReadQuotedDouble(y, '\'', tail);
  }

  /** The two-argument shape, read as the head followed by the first literal and what comes after it. */
  lemma Regroup(h: string, d: string, q: string, g: string, e: string, t: string)
    ensures h + d + q + g + e + q + t == h + (d + q + (g + e + q + t))
  {
  }

  /** A profile keeps its percent signs where a query has them doubled. */
  lemma ProfileKeepsPercents(text: string)
    requires '\'' !in text && '%' in text
    ensures SafeProfile(text) == text
    ensures SafeQuery(text) != text
  {
    NoQuoteUnchanged(text, '\'');
    SelectAi.CountPositive(text, '%');
  }

  /** Doubling a character that does not occur changes nothing. */
  lemma {:induction false} NoQuoteUnchanged(s: string, q: char)
    requires q !in s
    ensures Double(s, q) == s
  {
    if s != [] {
      assert q !in s[1..];
      NoQuoteUnchanged(s[1..], q);
      DoubleHead(s, q);
    }
  }

  /** The result of `pd.read_sql`: column names and rows of cell texts. */
  datatype Frame = Frame(columns: seq<string>, rows: seq<seq<string>>)

  /** `pd.DataFrame()`. */
  const EmptyFrame := Frame([], [])

  /** `get_data`: the frame the query produced, or the empty frame when it raised. */
  function GetData(result: Result<Frame, string>): (r: Frame)
    ensures result.Ok? ==> r == result.value
    ensures result.Err? ==> r == EmptyFrame
  {
    match result
    case Ok(frame) => frame
    case Err(_) => EmptyFrame
  }

  /** A failed query is indistinguishable from one that found nothing with no columns. */
  lemma GetDataNeverFails(result: Result<Frame, string>)
    ensures GetData(result).rows == [] <==> result.Err? || result.value.rows == []
    ensures GetData(result) == EmptyFrame ==> result.Err? || result.value == EmptyFrame
  {
  }

  /**
   * `create_agent`: the block it runs, with both profile names inserted as
   * they are, whether the commit went through, and the message it returns;
   * `None` when `execute` or `commit` raises, which the method does not catch.
   */
  datatype AgentCreation = AgentCreation(block: string, committed: bool, message: Option<string>)

  /** The block's opening and closing, whitespace normalised. */
  const AgentHead := "BEGIN SP_SEL_AI_AGENT('"
  const AgentTail := "); END;"

  /** The anonymous block that calls `SP_SEL_AI_AGENT` with the two profile names. */
  function AgentBlock(sqlProfile: string, ragProfile: string): string {
    AgentHead + sqlProfile + "'" + ArgumentGap + ragProfile + "'" + AgentTail
  }

  /** `create_agent`, given whether the block's `execute` and the `commit` after it raise. */
  function CreateAgent(sqlProfile: string, ragProfile: string, executeRaises: bool, commitRaises: bool): (r: AgentCreation)
    ensures r.block == AgentHead + sqlProfile + "'" + ArgumentGap + ragProfile + "'" + AgentTail
    ensures r.message.Some? <==> !executeRaises && !commitRaises
    ensures r.message.Some? ==> r.message.value == "[Select AI Agent]: Module executed successfully."
    ensures r.committed <==> r.message.Some?
  {
    var block := AgentBlock(sqlProfile, ragProfile);
    if executeRaises || commitRaises then AgentCreation(block, false, None)
    else AgentCreation(block, true, Some("[Select AI Agent]: Module executed successfully."))
  }

  /** Unlike the conversation query the names are not escaped: quote-free names are read back as the two arguments. */
  lemma CreateAgentReadsBack(sqlProfile: string, ragProfile: string)
    requires '\'' !in sqlProfile && '\'' !in ragProfile
    ensures var b := AgentBlock(sqlProfile, ragProfile);
      var k := |AgentHead|;
      b[..k] == AgentHead &&
      ReadQuoted(b[k..], '\'') == Some((sqlProfile, ArgumentGap + ragProfile + "'" + AgentTail)) &&
      ReadQuoted(ragProfile + "'" + AgentTail, '\'') == Some((ragProfile, AgentTail))
  {
    NoQuoteUnchanged(sqlProfile, '\'');
    NoQuoteUnchanged(ragProfile, '\'');
    ArgumentsReadBack(AgentHead, sqlProfile, ArgumentGap, ragProfile, AgentTail);
  }
}
