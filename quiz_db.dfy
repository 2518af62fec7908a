/**
 * The quiz service's write paths and checks: whether an upload is a reload,
 * deleting a file's quiz before a reload, and inserting its questions. The
 * database is an oracle: each call states the statements it issues, in
 * order, and a `Fault` says which of them raises, if any.
 */
module QuizDb {
  import opened Wrappers
  import opened Strings
  import opened PyJson

  /** `check_if_reload`: the FILE_VERSION column read for the file, or `None` when the query raised. */
  function CheckIfReload(versions: Option<seq<int>>): (r: bool)
    ensures r ==> versions.Some? && versions.value != []
    ensures versions.Some? && versions.value != [] ==> (r <==> versions.value[0] > 1)
  {
    match versions
    case None => false
    case Some(vs) => if vs == [] then false else vs[0] > 1
  }

  /** `check_evaluation_exists`: the COUNT column of the answers with that name. */
  function CheckEvaluationExists(counts: seq<int>): (r: bool)
    ensures r <==> counts != [] && counts[0] > 0
  {
    if counts == [] then false else counts[0] > 0
  }

  /** The three languages of a question's texts. */
  datatype Texts = Texts(en: string, es: string, pt: string)

  /** The option lists of a question, as read from the uploaded JSON. */
  datatype OptionLists = OptionLists(en: PyVal, es: PyVal, pt: PyVal)

  /** One entry of `questions_data['questions']`. */
  datatype SourceQuestion = SourceQuestion(id: int, moduleId: int, moduleName: string,
                                           question: Texts, options: OptionLists, explanation: Texts)

  /** One entry of `questions_data['modules']`. */
  datatype SourceModule = SourceModule(moduleId: int, percentage: int)

  /** The bind values of one `INSERT INTO quiz`. */
  datatype QuestionRow = QuestionRow(fileId: int, questionId: int, moduleId: int, moduleName: string,
                                     modulePercentage: int, question: Texts, options: Texts, explanation: Texts)

  /** The statements the service issues. */
  datatype Statement =
    | SelectQuizIds(fileId: int)
    | DeleteAnswers(quizIds: seq<int>)
    | DeleteQuestions(fileId: int)
    | InsertQuestion(row: QuestionRow)
    | Commit
    | Rollback

  /** Which statement of a call raises (counted from 0), and the exception's text. */
  datatype Fault = NoFault | RaiseAt(index: nat, error: string)

  /** The fault hits one of the `plan`'s statements. */
  predicate Raises(fault: Fault, plan: seq<Statement>) {
    fault.RaiseAt? && fault.index < |plan|
  }

  /** What a call issues: its plan, or the plan up to the statement that raises, then the rollback. */
  function Issue(plan: seq<Statement>, fault: Fault): seq<Statement> {
    if Raises(fault, plan) then plan[..fault.index + 1] + [Rollback] else plan
  }

  /** A call's `(success, message)` pair, with the statements it issued. */
  datatype Reply = Reply(ok: bool, message: string, issued: seq<Statement>)

  /** The statements `delete_quiz_by_file` means to issue once it has read the quiz ids. */
  function DeletePlan(fileId: int, quizIds: seq<int>): seq<Statement> {
    if quizIds == [] then [SelectQuizIds(fileId)]
    else [SelectQuizIds(fileId), DeleteAnswers(quizIds), DeleteQuestions(fileId), Commit]
  }

  function DeletedMessage(answers: nat, questions: nat): string {
    "Deleted " + IntToString(answers) + " answer(s) and " + IntToString(questions) + " question(s)"
  }

  const NothingToDelete := "No existing questions found to delete"
  const DeleteErrorPrefix := "Error deleting quiz data: "

  /**
   * `delete_quiz_by_file`: `quizIds` is what the SELECT returns, the two
   * counts are the DELETEs' row counts.
   */
  function DeleteQuizByFile(fileId: int, quizIds: seq<int>, deletedAnswers: nat, deletedQuestions: nat,
                            fault: Fault): (r: Reply)
    ensures r.ok <==> !Raises(fault, DeletePlan(fileId, quizIds))
    ensures r.issued == Issue(DeletePlan(fileId, quizIds), fault)
    ensures r.ok && quizIds == [] ==> r.issued == [SelectQuizIds(fileId)] && r.message == NothingToDelete
    ensures r.ok && quizIds != [] ==> r.message == DeletedMessage(deletedAnswers, deletedQuestions)
    ensures !r.ok ==> r.message == DeleteErrorPrefix + fault.error && r.issued[|r.issued| - 1] == Rollback
    ensures r.ok ==> Rollback !in r.issued
  {
    var plan := DeletePlan(fileId, quizIds);
    if Raises(fault, plan) then Reply(false, DeleteErrorPrefix + fault.error, Issue(plan, fault))
    else if quizIds == [] then Reply(true, NothingToDelete, plan)
    else Reply(true, DeletedMessage(deletedAnswers, deletedQuestions), plan)
  }

  /** Nothing is deleted when the file has no quiz, and nothing is committed either. */
  lemma NoQuizDeletesNothing(fileId: int, deletedAnswers: nat, deletedQuestions: nat, fault: Fault)
    ensures var r := DeleteQuizByFile(fileId, [], deletedAnswers, deletedQuestions, fault);
      && (forall i :: 0 <= i < |r.issued| ==> !r.issued[i].DeleteAnswers? && !r.issued[i].DeleteQuestions?)
      && Commit !in r.issued
  {
    var r := DeleteQuizByFile(fileId, [], deletedAnswers, deletedQuestions, fault);
    assert r.issued == [SelectQuizIds(fileId)] || r.issued == [SelectQuizIds(fileId), Rollback];
  }

  /**
   * The answers go before the questions (the foreign key), both after the
   * SELECT, and the questions are deleted only when the answers were.
   */
  lemma AnswersDeletedFirst(fileId: int, quizIds: seq<int>, deletedAnswers: nat, deletedQuestions: nat,
                            fault: Fault, i: nat)
    requires i < |DeleteQuizByFile(fileId, quizIds, deletedAnswers, deletedQuestions, fault).issued|
    requires DeleteQuizByFile(fileId, quizIds, deletedAnswers, deletedQuestions, fault).issued[i].DeleteQuestions?
    ensures i == 2 && quizIds != []
    ensures DeleteQuizByFile(fileId, quizIds, deletedAnswers, deletedQuestions, fault).issued[..2]
      == [SelectQuizIds(fileId), DeleteAnswers(quizIds)]
  {
    var plan := DeletePlan(fileId, quizIds);
    var issued := Issue(plan, fault);
    if Raises(fault, plan) {
      assert issued[i] == plan[..fault.index + 1][i];
    }
  }

  /** `{m['module']: m['percentage'] for m in modules}`: a later entry for a module wins. */
  function ModulesInfo(ms: seq<SourceModule>): (r: map<int, int>)
    ensures forall i :: 0 <= i < |ms| ==> ms[i].moduleId in r
  {
    if ms == [] then map[]
    else
      var last := ms[|ms| - 1];
      ModulesInfo(ms[..|ms| - 1])[last.moduleId := last.percentage]
  }

  /** Only the listed modules get a percentage, and it is one of theirs. */
  lemma {:induction false} ModulesInfoKeys(ms: seq<SourceModule>, k: int)
    requires k in ModulesInfo(ms)
    ensures exists i :: 0 <= i < |ms| && ms[i].moduleId == k && ModulesInfo(ms)[k] == ms[i].percentage
  {
    var last := ms[|ms| - 1];
    if k != last.moduleId {
      ModulesInfoKeys(ms[..|ms| - 1], k);
      var i :| 0 <= i < |ms| - 1 && ms[..|ms| - 1][i].moduleId == k
        && ModulesInfo(ms[..|ms| - 1])[k] == ms[..|ms| - 1][i].percentage;
      assert ms[i] == ms[..|ms| - 1][i];
    } else {
      assert ms[|ms| - 1].moduleId == k;
    }
  }

  /** A question's percentage is its module's entry, or 0 when the module is not listed. */
  lemma ModulePercentageOf(ms: seq<SourceModule>, m: int)
    ensures (forall i :: 0 <= i < |ms| ==> ms[i].moduleId != m) ==> ModulePercentage(ModulesInfo(ms), m) == 0
    ensures (exists i :: 0 <= i < |ms| && ms[i].moduleId == m) ==>
      exists i :: 0 <= i < |ms| && ms[i].moduleId == m && ModulePercentage(ModulesInfo(ms), m) == ms[i].percentage
  {
    if m in ModulesInfo(ms) {
      ModulesInfoKeys(ms, m);
    }
  }

  /** Each module gets the percentage of its last entry. */
  lemma {:induction false} ModulesInfoLastWins(ms: seq<SourceModule>, j: nat)
    requires j < |ms|
    requires forall l :: j < l < |ms| ==> ms[l].moduleId != ms[j].moduleId
    ensures ModulesInfo(ms)[ms[j].moduleId] == ms[j].percentage
  {
    if j < |ms| - 1 {
      ModulesInfoLastWins(ms[..|ms| - 1], j);
    }
  }

  /** `modules_info.get(question['module'], 0)`. */
  function ModulePercentage(info: map<int, int>, m: int): int {
    if m in info then info[m] else 0
  }

  /** The bind values of the INSERT for one question; the option lists are stored as `json.dumps` text, non-ASCII escaped. */
  function RowOf(fileId: int, info: map<int, int>, q: SourceQuestion): QuestionRow {
    QuestionRow(fileId, q.id, q.moduleId, q.moduleName, ModulePercentage(info, q.moduleId), q.question,
                Texts(DumpsAscii(q.options.en), DumpsAscii(q.options.es), DumpsAscii(q.options.pt)), q.explanation)
  }

  /** One INSERT per question, in the upload's order, then the commit. */
  function InsertPlan(fileId: int, ms: seq<SourceModule>, qs: seq<SourceQuestion>): seq<Statement> {
    Inserts(fileId, ModulesInfo(ms), qs) + [Commit]
  }

  function Inserts(fileId: int, info: map<int, int>, qs: seq<SourceQuestion>): seq<Statement> {
    seq(|qs|, i requires 0 <= i < |qs| => InsertQuestion(RowOf(fileId, info, qs[i])))
  }

  lemma InsertsSnoc(fileId: int, info: map<int, int>, qs: seq<SourceQuestion>, i: nat)
    requires i < |qs|
    ensures Inserts(fileId, info, qs[..i + 1]) == Inserts(fileId, info, qs[..i]) + [InsertQuestion(RowOf(fileId, info, qs[i]))]
  {
    assert qs[..i + 1][..i] == qs[..i];
  }

  /** The first `i` INSERTs are those of the first `i` questions. */
  lemma InsertsPrefix(fileId: int, info: map<int, int>, qs: seq<SourceQuestion>, i: nat)
    requires i <= |qs|
    ensures Inserts(fileId, info, qs)[..i] == Inserts(fileId, info, qs[..i])
  {
  }

  /** The success message, with the count of inserted questions. */
  function InsertedMessage(count: nat, reload: bool): string {
    IntToString(count) + " questions " + Verb(reload) + " successfully."
  }

  function Verb(reload: bool): string {
    if reload then "reloaded" else "inserted"
  }

  /** The message starts with the count and tells a reload from a first upload. */
  lemma InsertedMessageParts(count: nat, reload: bool)
    ensures StartsWith(InsertedMessage(count, reload), IntToString(count))
    ensures InsertedMessage(count, reload) != InsertedMessage(count, !reload)
  {
    var n, q, t := IntToString(count), " questions ", " successfully.";
    PieceAt(n + q, Verb(reload), t);
    PieceAt(n + q, Verb(!reload), t);
    assert Verb(reload)[0] != Verb(!reload)[0];
  }

  lemma PieceAt(a: string, v: string, t: string)
    requires |v| > 0
    ensures (a + v + t)[|a|] == v[0]
    ensures StartsWith(a + v + t, a)
  {
    assert (a + v + t)[..|a|] == a;
  }

  const InsertErrorPrefix := "Error inserting questions: "

  /** The outcome of the reload's delete, as the oracle answers it. */
  datatype DeleteAnswer = DeleteAnswer(quizIds: seq<int>, deletedAnswers: nat, deletedQuestions: nat, fault: Fault)

  function RunDelete(fileId: int, d: DeleteAnswer): Reply {
    DeleteQuizByFile(fileId, d.quizIds, d.deletedAnswers, d.deletedQuestions, d.fault)
  }

  /** The statements and message of the insert phase, after a delete that issued `before`. */
  predicate InsertOutcome(fileId: int, ms: seq<SourceModule>, qs: seq<SourceQuestion>, reload: bool, fault: Fault,
                          before: seq<Statement>, message: string, issued: seq<Statement>) {
    var plan := InsertPlan(fileId, ms, qs);
    && issued == before + Issue(plan, fault)
    && message == if Raises(fault, plan) then InsertErrorPrefix + fault.error else InsertedMessage(|qs|, reload)
  }

  /**
   * `insert_quiz_questions`: on a reload the file's quiz is deleted first and
   * a failed delete ends the call with its message; then one INSERT per
   * question, counted, and the commit.
   */
  method InsertQuizQuestions(fileId: int, qs: seq<SourceQuestion>, ms: seq<SourceModule>, reload: bool,
                             delete: DeleteAnswer, fault: Fault) returns (message: string, issued: seq<Statement>)
    ensures reload && !RunDelete(fileId, delete).ok ==>
      message == RunDelete(fileId, delete).message && issued == RunDelete(fileId, delete).issued
    ensures !(reload && !RunDelete(fileId, delete).ok) ==>
      InsertOutcome(fileId, ms, qs, reload, fault, if reload then RunDelete(fileId, delete).issued else [], message, issued)
  {
    var before: seq<Statement> := [];
    if reload {
      var d := RunDelete(fileId, delete);
      if !d.ok {
        return d.message, d.issued;
      }
      before := d.issued;
    }
    var insertedCount, inserts := InsertRows(fileId, ModulesInfo(ms), qs, fault);
    issued := before + inserts;
    if Raises(fault, InsertPlan(fileId, ms, qs)) {
      message := InsertErrorPrefix + fault.error;
    } else {
      message := InsertedMessage(insertedCount, reload);
    }
  }

  /** The INSERT loop with its `inserted_count`, and the commit; a raise rolls back. */
  method InsertRows(fileId: int, info: map<int, int>, qs: seq<SourceQuestion>, fault: Fault)
    returns (insertedCount: nat, issued: seq<Statement>)
    ensures issued == Issue(Inserts(fileId, info, qs) + [Commit], fault)
    ensures !Raises(fault, Inserts(fileId, info, qs) + [Commit]) ==> insertedCount == |qs|
  {
    ghost var plan := Inserts(fileId, info, qs) + [Commit];
    issued := [];
    insertedCount := 0;
    var i := 0;
    while i < |qs|
      invariant 0 <= i <= |qs|
      invariant insertedCount == i
      invariant issued == Inserts(fileId, info, qs[..i])
      invariant fault.RaiseAt? ==> fault.index >= i
    {
      var row := RowOf(fileId, info, qs[i]);
      InsertsSnoc(fileId, info, qs, i);
      if fault.RaiseAt? && fault.index == i {
        InsertsPrefix(fileId, info, qs, i + 1);
        assert plan[..i + 1] == Inserts(fileId, info, qs)[..i + 1];
        issued := issued + [InsertQuestion(row), Rollback];
        return;
      }
      issued := issued + [InsertQuestion(row)];
      insertedCount := insertedCount + 1;
      i := i + 1;
    }
    assert qs[..|qs|] == qs;
    if fault.RaiseAt? && fault.index == |qs| {
      assert plan[..|qs| + 1] == plan;
      issued := issued + [Commit, Rollback];
      return;
    }
    issued := issued + [Commit];
  }

  /** A successful insert issues one INSERT per question, each with its module's percentage or 0. */
  lemma InsertedRows(fileId: int, ms: seq<SourceModule>, qs: seq<SourceQuestion>, reload: bool, fault: Fault,
                     before: seq<Statement>, message: string, issued: seq<Statement>, i: nat)
    requires InsertOutcome(fileId, ms, qs, reload, fault, before, message, issued)
    requires !Raises(fault, InsertPlan(fileId, ms, qs))
    requires i < |qs|
    ensures |issued| == |before| + |qs| + 1 && issued[|issued| - 1] == Commit
    ensures issued[|before| + i].InsertQuestion?
    ensures var row := issued[|before| + i].row;
      && row.fileId == fileId && row.questionId == qs[i].id && row.moduleId == qs[i].moduleId
      && row.modulePercentage == ModulePercentage(ModulesInfo(ms), qs[i].moduleId)
      && row.options == Texts(DumpsAscii(qs[i].options.en), DumpsAscii(qs[i].options.es), DumpsAscii(qs[i].options.pt))
      && AllPrintable(row.options.en) && AllPrintable(row.options.es) && AllPrintable(row.options.pt)
      && row.question == qs[i].question && row.explanation == qs[i].explanation
    ensures message == InsertedMessage(|qs|, reload)
  {
    var plan := InsertPlan(fileId, ms, qs);
    assert issued[|before| + i] == plan[i];
  }

  /**
   * A reload commits the delete before inserting, so when an insert then
   * fails the rollback cannot bring the old questions back.
   */
  lemma FailedReloadKeepsDeletion(fileId: int, ms: seq<SourceModule>, qs: seq<SourceQuestion>, delete: DeleteAnswer,
                                  fault: Fault, message: string, issued: seq<Statement>)
    requires RunDelete(fileId, delete).ok && delete.quizIds != []
    requires InsertOutcome(fileId, ms, qs, true, fault, RunDelete(fileId, delete).issued, message, issued)
    requires Raises(fault, InsertPlan(fileId, ms, qs))
    ensures issued[..4] == [SelectQuizIds(fileId), DeleteAnswers(delete.quizIds), DeleteQuestions(fileId), Commit]
    ensures issued[|issued| - 1] == Rollback
    ensures StartsWith(message, InsertErrorPrefix)
  {
    var d := RunDelete(fileId, delete);
    assert d.issued == DeletePlan(fileId, delete.quizIds);
    assert issued[..4] == d.issued;
    assert message[..|InsertErrorPrefix|] == InsertErrorPrefix;
  }
}
