/**
 * The quiz page's session: the language order kept across reruns, the
 * start of an evaluation, the Previous/Next/Finish navigation that records
 * one answer per question, the results by module and the reset for another
 * quiz. The clock, the random draws and the database calls are parameters.
 */
module QuizPage {
  import opened Wrappers
  import opened Strings
  import opened QuizSelect

  /** One recorded answer: `{"quiz_id", "selected_option", "is_correct"}`. */
  datatype Answer = Answer(quizId: int, selectedOption: nat, isCorrect: int)

  /** What the Start button did. */
  datatype StartOutcome = Refused(reason: StartRefusal) | NameTaken | StartFailed | Started

  /** The options of a question in the primary (first chosen) language. */
  function PrimaryOptions(q: Question, langs: seq<Lang>): seq<Choice> {
    if langs != [] && langs[0] in q.options then q.options[langs[0]] else []
  }

  /** The answer recorded for option `selected`: correct exactly when that option is. */
  function AnswerFor(q: Question, langs: seq<Lang>, selected: nat): (r: Answer)
    requires selected < |PrimaryOptions(q, langs)|
    ensures r.quizId == q.quizId && r.selectedOption == selected
    ensures r.isCorrect == 1 <==> PrimaryOptions(q, langs)[selected].isCorrect
    ensures r.isCorrect == 0 || r.isCorrect == 1
  {
    Answer(q.quizId, selected, if PrimaryOptions(q, langs)[selected].isCorrect then 1 else 0)
  }

  /** The option orders of the first `k` drawn questions. */
  function Orders(perm: nat -> seq<nat>, k: nat): (r: seq<seq<nat>>)
    ensures |r| == k && forall i :: 0 <= i < k ==> r[i] == perm(i)
  {
    seq(k, i requires 0 <= i < k => perm(i))
  }

  /** The questions a start draws: by module, adjusted to `n`, with their options shuffled. */
  function Draw(all: seq<Question>, ms: seq<Module>, n: nat, langs: seq<Lang>, perm: nat -> seq<nat>): Option<seq<Question>> {
    var drawn := Adjust(Picked(ms, all, n), all, n);
    ShuffledAll(drawn, langs, Orders(perm, |drawn|))
  }

  /** What the Start button does, given the outcome of the name check and of the draw. */
  function StartResult(langs: seq<Lang>, input: string, nameTaken: bool, drawn: Option<seq<Question>>): (r: StartOutcome)
    ensures r.Refused? <==> ValidateStart(langs, input).Some?
    ensures r.Refused? ==> r.reason == ValidateStart(langs, input).value
    ensures r == NameTaken <==> ValidateStart(langs, input).None? && nameTaken
    ensures r == Started <==> 1 <= |langs| <= 2 && !Blank(input) && !nameTaken && drawn.Some?
  {
    match ValidateStart(langs, input)
    case Some(reason) => Refused(reason)
    case None => if nameTaken then NameTaken else if drawn.None? then StartFailed else Started
  }

  /** The quiz part of the page's session state. */
  class QuizSession {
    var started: bool
    var questions: seq<Question>
    var currentIndex: int
    var answers: map<int, Answer>
    var startTime: Option<int>
    var evaluationName: string
    var fileId: Option<int>
    var finished: bool
    var langOrder: seq<Lang>
    var languages: seq<Lang>
    /** The `saved_option_<i>` keys: the option chosen at question `i`, shown again on the way back. */
    var savedOptions: map<int, nat>

    /** The state before any quiz, as the page first sets it up. */
    predicate Initial()
      reads this
    {
      && !started && questions == [] && currentIndex == 0 && answers == map[]
      && startTime.None? && evaluationName == "" && fileId.None? && !finished
    }

    /** Every question before the current one has an answer, and a finished quiz has them all. */
    predicate Valid()
      reads this
    {
      && 0 <= currentIndex <= |questions|
      && (forall i :: 0 <= i < currentIndex ==> i in answers)
      && (forall i :: i in answers ==> 0 <= i < |questions|)
      && (finished ==> forall i :: 0 <= i < |questions| ==> i in answers)
    }

    /** A quiz is running and a question is on screen. */
    predicate InProgress()
      reads this
    {
      started && !finished && currentIndex < |questions|
    }

    constructor ()
      ensures Initial() && Valid() && langOrder == [] && languages == [] && savedOptions == map[]
    {
      started, questions, currentIndex, answers := false, [], 0, map[];
      startTime, evaluationName, fileId, finished := None, "", None, false;
      langOrder, languages, savedOptions := [], [], map[];
    }

    /** The checkboxes changed: drop the unticked languages, then append the newly ticked ones. */
    method UpdateLanguages(c: Checked)
      modifies this
      ensures langOrder == UpdatedOrder(old(langOrder), c)
      ensures started == old(started) && questions == old(questions) && currentIndex == old(currentIndex)
      ensures answers == old(answers) && startTime == old(startTime) && evaluationName == old(evaluationName)
      ensures fileId == old(fileId) && finished == old(finished) && languages == old(languages)
      ensures savedOptions == old(savedOptions)
    {
      var kept := KeepChecked(langOrder, c);
      var order := kept;
      var i := 0;
      while i < |Checkboxes|
        invariant 0 <= i <= |Checkboxes|
        invariant order == Appended(kept, c, Checkboxes[..i])
      {
        assert Checkboxes[..i + 1][..i] == Checkboxes[..i];
        var l := Checkboxes[i];
        if IsChecked(c, l) && l !in order {
          order := order + [l];
        }
        i := i + 1;
      }
      assert Checkboxes[..i] == Checkboxes;
      langOrder := order;
    }

    /**
     * The Start button: the checks, the name check against existing
     * evaluations (`nameTaken`), the draw by module, the adjustment to `n`
     * questions and the option shuffle with the order `perm(i)` for the
     * `i`-th question. The session changes only when the quiz starts.
     */
    method Start(input: string, stamp: string, nameTaken: bool, file: int, all: seq<Question>, ms: seq<Module>,
                 n: nat, perm: nat -> seq<nat>, now: int) returns (outcome: StartOutcome)
      modifies this
      ensures outcome == StartResult(old(langOrder), input, nameTaken, Draw(all, ms, n, old(langOrder), perm))
      ensures outcome == Started ==>
        && started && !finished && Some(questions) == Draw(all, ms, n, old(langOrder), perm)
        && currentIndex == 0 && answers == map[]
        && startTime == Some(now) && evaluationName == EvaluationName(input, stamp)
        && fileId == Some(file) && languages == old(langOrder)
      ensures outcome != Started ==>
        && started == old(started) && questions == old(questions) && currentIndex == old(currentIndex)
        && answers == old(answers) && startTime == old(startTime) && evaluationName == old(evaluationName)
        && fileId == old(fileId) && finished == old(finished) && languages == old(languages)
      ensures langOrder == old(langOrder) && savedOptions == old(savedOptions)
      ensures old(Valid()) ==> Valid()
    {
      var refusal := ValidateStart(langOrder, input);
      if refusal.Some? {
        return Refused(refusal.value);
      }
      var name := EvaluationName(input, stamp);
      if nameTaken {
        return NameTaken;
      }
      var shuffled := DrawQuestions(all, ms, n, langOrder, perm);
      if shuffled.None? {
        return StartFailed;
      }
      Begin(shuffled.value, name, file, now);
      outcome := Started;
    }

    /** The session state a started quiz begins with. */
    method Begin(drawn: seq<Question>, name: string, file: int, now: int)
      modifies this
      ensures started && !finished && questions == drawn && currentIndex == 0 && answers == map[]
      ensures startTime == Some(now) && evaluationName == name && fileId == Some(file) && languages == old(langOrder)
      ensures langOrder == old(langOrder) && savedOptions == old(savedOptions)
      ensures Valid()
    {
      started, questions, currentIndex, answers := true, drawn, 0, map[];
      startTime, evaluationName, fileId, languages, finished := Some(now), name, Some(file), langOrder, false;
    }

    /** Previous: back one question, when there is one before. */
    method Previous()
      modifies this
      requires Valid()
      ensures Valid()
      ensures currentIndex == if old(currentIndex) > 0 then old(currentIndex) - 1 else old(currentIndex)
      ensures started == old(started) && questions == old(questions) && answers == old(answers)
      ensures finished == old(finished) && savedOptions == old(savedOptions) && languages == old(languages)
      ensures startTime == old(startTime) && evaluationName == old(evaluationName) && fileId == old(fileId)
      ensures langOrder == old(langOrder)
    {
      if currentIndex > 0 {
        currentIndex := currentIndex - 1;
      }
    }

    /**
     * Next, shown before the last question: without a selection it only
     * warns (`false`); with one it records the answer, remembers the option
     * and moves on.
     */
    method Next(selected: Option<nat>) returns (moved: bool)
      modifies this
      requires Valid() && InProgress() && currentIndex < |questions| - 1
      requires selected.Some? ==> selected.value < |PrimaryOptions(questions[currentIndex], languages)|
      ensures Valid() && InProgress()
      ensures moved <==> selected.Some?
      ensures !moved ==> currentIndex == old(currentIndex) && answers == old(answers) && savedOptions == old(savedOptions)
      ensures moved ==>
        && currentIndex == old(currentIndex) + 1
        && answers == old(answers)[old(currentIndex) := AnswerFor(old(questions[currentIndex]), old(languages), selected.value)]
        && savedOptions == old(savedOptions)[old(currentIndex) := selected.value]
      ensures started == old(started) && questions == old(questions) && finished == old(finished)
      ensures languages == old(languages) && evaluationName == old(evaluationName)
      ensures startTime == old(startTime) && fileId == old(fileId) && langOrder == old(langOrder)
    {
      if selected.None? {
        return false;
      }
      var q := questions[currentIndex];
      answers := answers[currentIndex := AnswerFor(q, languages, selected.value)];
      savedOptions := savedOptions[currentIndex := selected.value];
      currentIndex := currentIndex + 1;
      moved := true;
    }

    /**
     * Finish, shown at the last question: without a selection it only
     * warns; with one it records the last answer and, when saving the
     * answers succeeds (`saveError` is `None`), ends the quiz.
     */
    method Finish(selected: Option<nat>, saveError: Option<string>)
      modifies this
      requires Valid() && InProgress() && currentIndex == |questions| - 1
      requires selected.Some? ==> selected.value < |PrimaryOptions(questions[currentIndex], languages)|
      ensures Valid()
      ensures finished <==> selected.Some? && saveError.None?
      ensures selected.None? ==> answers == old(answers)
      ensures selected.Some? ==>
        answers == old(answers)[old(currentIndex) := AnswerFor(old(questions[currentIndex]), old(languages), selected.value)]
      ensures finished ==> forall i :: 0 <= i < |questions| ==> i in answers
      ensures started == old(started) && questions == old(questions) && currentIndex == old(currentIndex)
      ensures savedOptions == old(savedOptions) && languages == old(languages)
      ensures startTime == old(startTime) && evaluationName == old(evaluationName) && fileId == old(fileId)
      ensures langOrder == old(langOrder)
    {
      if selected.None? {
        return;
      }
      var q := questions[currentIndex];
      answers := answers[currentIndex := AnswerFor(q, languages, selected.value)];
      if saveError.None? {
        finished := true;
      }
    }

    /** Take Another Quiz: back to the initial state, with no language order and no saved option left. */
    method Reset()
      modifies this
      ensures Initial() && Valid()
      ensures langOrder == [] && savedOptions == map[] && languages == old(languages)
    {
      started, questions, currentIndex, answers := false, [], 0, map[];
      startTime, evaluationName, fileId, finished := None, "", None, false;
      langOrder := [];
      savedOptions := ClearSaved(savedOptions);
    }
  }

  /** The loop that deletes every `saved_option_<i>` key, one at a time. */
  method ClearSaved(saved: map<int, nat>) returns (r: map<int, nat>)
    ensures r == map[]
  {
    r := saved;
    var keys := r.Keys;
    while keys != {}
      invariant r.Keys == keys
      decreases |keys|
    {
      HasElement(keys);
      var k :| k in keys;
      r := map i | i in r && i != k :: r[i];
      keys := keys - {k};
    }
  }

  /** The draw of the Start button: by module, adjusted to `n`, then the option shuffle. */
  method DrawQuestions(all: seq<Question>, ms: seq<Module>, n: nat, langs: seq<Lang>, perm: nat -> seq<nat>)
    returns (r: Option<seq<Question>>)
    ensures r == Draw(all, ms, n, langs, perm)
  {
    var picked := PickByModule(ms, all, n);
    var drawn := Adjust(picked, all, n);
    r := ShuffleOptions(drawn, langs, Orders(perm, |drawn|));
  }

  // ---------------------------------------------------------------------
  // Results

  /** The indices of the correct answers. */
  function CorrectKeys(answers: map<int, Answer>): set<int> {
    set i | i in answers && answers[i].isCorrect == 1
  }

  /** `sum(1 for ans in answers.values() if ans["is_correct"] == 1)`. */
  function CorrectCount(answers: map<int, Answer>): (r: nat)
    ensures r <= |answers|
  {
    SubsetCard(CorrectKeys(answers), answers.Keys);
    |CorrectKeys(answers)|
  }

  /** The correct and the incorrect answers make up all of them; the second is never negative. */
  function Counts(answers: map<int, Answer>): (r: (nat, nat))
    ensures r.0 + r.1 == |answers|
    ensures r.0 == |CorrectKeys(answers)|
  {
    (CorrectCount(answers), |answers| - CorrectCount(answers))
  }

  /** A subset is no larger than its superset. */
  lemma {:induction false} SubsetCard(a: set<int>, b: set<int>)
    requires a <= b
    ensures |a| <= |b|
    decreases |b|
  {
    if a != {} {
      HasElement(a);
      var x :| x in a;
      SubsetCard(a - {x}, b - {x});
    }
  }

  /** A non-empty set has an element. */
  lemma HasElement(a: set<int>)
    requires a != {}
    ensures exists x :: x in a
  {
    if forall x :: x !in a {
      assert false;
    }
  }

  /** Once the quiz is finished, there is exactly one answer per question. */
  lemma FinishedCounts(answers: map<int, Answer>, n: nat)
    requires forall i :: 0 <= i < n ==> i in answers
    requires forall i :: i in answers ==> 0 <= i < n
    ensures |answers| == n
    ensures Counts(answers).0 + Counts(answers).1 == n
  {
    assert answers.Keys == RangeSet(n);
    RangeSetCard(n);
  }

  /** `{0, ..., n - 1}`. */
  function RangeSet(n: nat): (r: set<int>)
    ensures forall i :: i in r <==> 0 <= i < n
  {
    if n == 0 then {} else RangeSet(n - 1) + {n - 1}
  }

  lemma {:induction false} RangeSetCard(n: nat)
    ensures |RangeSet(n)| == n
  {
    if n > 0 {
      var a := RangeSet(n - 1);
      RangeSetCard(n - 1);
      assert n - 1 !in a;
      assert RangeSet(n) == a + {n - 1};
      assert |a + {n - 1}| == |a| + 1;
    }
  }

  /** A module's line in the results: its questions, the correct ones and its weight. */
  datatype ModuleStat = ModuleStat(name: string, total: nat, correct: nat, weight: int)

  /** Where the module `name` sits in the results so far. */
  function StatIndex(stats: seq<ModuleStat>, name: string): (r: Option<nat>)
    ensures r.Some? ==> r.value < |stats| && stats[r.value].name == name
    ensures r.Some? ==> forall j :: 0 <= j < r.value ==> stats[j].name != name
    ensures r.None? ==> forall j :: 0 <= j < |stats| ==> stats[j].name != name
    decreases |stats|
  {
    if stats == [] then None
    else if stats[0].name == name then Some(0)
    else match StatIndex(stats[1..], name)
      case None => None
      case Some(j) => Some(j + 1)
  }

  /** One more question of module `q.moduleName`, answered correctly or not. */
  function Tally(stats: seq<ModuleStat>, q: Question, correct: bool): (r: seq<ModuleStat>)
    ensures |r| >= |stats|
    ensures forall j :: 0 <= j < |stats| ==> r[j].name == stats[j].name
    ensures forall j :: 0 <= j < |stats| && stats[j].name != q.moduleName ==> r[j] == stats[j]
    ensures StatIndex(stats, q.moduleName).None? ==>
      r == stats + [ModuleStat(q.moduleName, 1, if correct then 1 else 0, q.modulePercentage)]
    ensures StatIndex(stats, q.moduleName).Some? ==>
      (&& |r| == |stats|
       && var j := StatIndex(stats, q.moduleName).value;
          r[j] == ModuleStat(q.moduleName, stats[j].total + 1, stats[j].correct + (if correct then 1 else 0), stats[j].weight))
  {
    var c := if correct then 1 else 0;
    match StatIndex(stats, q.moduleName)
    case None => stats + [ModuleStat(q.moduleName, 1, c, q.modulePercentage)]
    case Some(j) => stats[j := stats[j].(total := stats[j].total + 1, correct := stats[j].correct + c)]
  }

  /** The answer to question `i` was correct. */
  predicate AnsweredRight(answers: map<int, Answer>, i: int) {
    i in answers && answers[i].isCorrect == 1
  }

  /** The results by module after the first `k` questions. */
  function StatsOf(qs: seq<Question>, answers: map<int, Answer>, k: nat): seq<ModuleStat>
    requires k <= |qs|
  {
    if k == 0 then [] else Tally(StatsOf(qs, answers, k - 1), qs[k - 1], AnsweredRight(answers, k - 1))
  }

  /** The questions of module `m` among the first `k`. */
  function CountOf(qs: seq<Question>, m: string, k: nat): (r: nat)
    requires k <= |qs|
    ensures r == 0 <==> forall i :: 0 <= i < k ==> qs[i].moduleName != m
  {
    if k == 0 then 0 else CountOf(qs, m, k - 1) + if qs[k - 1].moduleName == m then 1 else 0
  }

  /** The correctly answered questions of module `m` among the first `k`. */
  function RightOf(qs: seq<Question>, answers: map<int, Answer>, m: string, k: nat): (r: nat)
    requires k <= |qs|
    ensures r <= CountOf(qs, m, k)
  {
    if k == 0 then 0
    else RightOf(qs, answers, m, k - 1) + if qs[k - 1].moduleName == m && AnsweredRight(answers, k - 1) then 1 else 0
  }

  /** The first of the first `k` questions that belongs to module `m`. */
  function FirstOf(qs: seq<Question>, m: string, k: nat): (r: Option<nat>)
    requires k <= |qs|
    ensures r.Some? ==> r.value < k && qs[r.value].moduleName == m
    ensures r.Some? ==> forall i :: 0 <= i < r.value ==> qs[i].moduleName != m
    ensures r.None? <==> CountOf(qs, m, k) == 0
  {
    if k == 0 then None
    else match FirstOf(qs, m, k - 1)
      case Some(i) => Some(i)
      case None => if qs[k - 1].moduleName == m then Some(k - 1) else None
  }

  /** Where a module sits after one more question: where it was, else at the end when it is the question's module. */
  lemma TallyIndex(stats: seq<ModuleStat>, q: Question, correct: bool, m: string)
    ensures StatIndex(Tally(stats, q, correct), m)
         == if StatIndex(stats, m).Some? then StatIndex(stats, m)
            else if m == q.moduleName then Some(|stats|) else None
  {
    var r := Tally(stats, q, correct);
    var a := StatIndex(stats, m);
    if a.Some? {
      assert r[a.value].name == m;
      assert forall j :: 0 <= j < a.value ==> r[j].name != m;
    } else if m == q.moduleName {
      assert r[|stats|].name == m;
      assert forall j :: 0 <= j < |stats| ==> r[j].name != m;
    } else {
      assert forall j :: 0 <= j < |r| ==> r[j].name != m by {
        forall j | 0 <= j < |r| ensures r[j].name != m {
          if j < |stats| {
            assert r[j].name == stats[j].name;
          }
        }
      }
    }
  }

  /** What the results line of module `m` records: none until a question of `m`, then its count, right answers and weight. */
  predicate EntryRecords(st: seq<ModuleStat>, m: string, count: nat, right: nat, weight: Option<int>) {
    && (StatIndex(st, m).None? <==> count == 0)
    && (count == 0 ==> right == 0 && weight.None?)
    && (StatIndex(st, m).Some? ==>
          && st[StatIndex(st, m).value].total == count
          && st[StatIndex(st, m).value].correct == right
          && weight == Some(st[StatIndex(st, m).value].weight))
  }

  /** One more question keeps the record of every module up to date. */
  lemma EntryStep(st: seq<ModuleStat>, q: Question, correct: bool, m: string, count: nat, right: nat, weight: Option<int>)
    requires EntryRecords(st, m, count, right, weight)
    ensures EntryRecords(Tally(st, q, correct), m,
                         count + (if q.moduleName == m then 1 else 0),
                         right + (if q.moduleName == m && correct then 1 else 0),
                         if weight.Some? then weight else if q.moduleName == m then Some(q.modulePercentage) else None)
  {
    TallyIndex(st, q, correct, m);
  }

  /** The weight of the first of the first `k` questions that belongs to module `m`. */
  function FirstWeight(qs: seq<Question>, m: string, k: nat): Option<int>
    requires k <= |qs|
  {
    match FirstOf(qs, m, k)
    case None => None
    case Some(i) => Some(qs[i].modulePercentage)
  }

  /** One more question fixes the weight only when it is the module's first. */
  lemma FirstWeightStep(qs: seq<Question>, m: string, k: nat)
    requires 0 < k <= |qs|
    ensures FirstWeight(qs, m, k)
         == if FirstWeight(qs, m, k - 1).Some? then FirstWeight(qs, m, k - 1)
            else if qs[k - 1].moduleName == m then Some(qs[k - 1].modulePercentage) else None
  {
  }

  /**
   * The results line of module `m` after the first `k` questions: present
   * exactly when one of them belongs to `m`, it counts those questions and
   * the ones answered right, and carries the weight of the first of them.
   */
  lemma {:induction false} ModuleEntry(qs: seq<Question>, answers: map<int, Answer>, k: nat, m: string)
    requires k <= |qs|
    ensures EntryRecords(StatsOf(qs, answers, k), m, CountOf(qs, m, k), RightOf(qs, answers, m, k), FirstWeight(qs, m, k))
  {
    if k > 0 {
      ModuleEntry(qs, answers, k - 1, m);
      FirstWeightStep(qs, m, k);
      EntryStep(StatsOf(qs, answers, k - 1), qs[k - 1], AnsweredRight(answers, k - 1), m,
                CountOf(qs, m, k - 1), RightOf(qs, answers, m, k - 1), FirstWeight(qs, m, k - 1));
    }
  }

  /** The per-module loop of the results page. */
  method ModuleStats(qs: seq<Question>, answers: map<int, Answer>) returns (stats: seq<ModuleStat>)
    requires forall i :: 0 <= i < |qs| ==> i in answers
    ensures stats == StatsOf(qs, answers, |qs|)
  {
    stats := [];
    var i := 0;
    while i < |qs|
      invariant 0 <= i <= |qs|
      invariant stats == StatsOf(qs, answers, i)
    {
      var q := qs[i];
      var c := if answers[i].isCorrect == 1 then 1 else 0;
      var j := StatIndex(stats, q.moduleName);
      if j.None? {
        stats := stats + [ModuleStat(q.moduleName, 0, 0, q.modulePercentage)];
        j := Some(|stats| - 1);
      }
      stats := stats[j.value := stats[j.value].(total := stats[j.value].total + 1, correct := stats[j.value].correct + c)];
      i := i + 1;
    }
  }

  function TotalOf(stats: seq<ModuleStat>): nat {
    if stats == [] then 0 else stats[0].total + TotalOf(stats[1..])
  }

  function CorrectOf(stats: seq<ModuleStat>): nat {
    if stats == [] then 0 else stats[0].correct + CorrectOf(stats[1..])
  }

  /** Each module's correct answers are among its questions, and each module appears once. */
  predicate WellFormed(stats: seq<ModuleStat>) {
    && (forall j :: 0 <= j < |stats| ==> stats[j].correct <= stats[j].total)
    && (forall i, j :: 0 <= i < j < |stats| ==> stats[i].name != stats[j].name)
  }

  /** The correct answers among the first `k` questions. */
  function RightAmong(answers: map<int, Answer>, k: nat): nat {
    if k == 0 then 0 else RightAmong(answers, k - 1) + if AnsweredRight(answers, k - 1) then 1 else 0
  }

  /** The module totals add up to the questions, their correct counts to the correct answers. */
  lemma {:induction false} StatsSum(qs: seq<Question>, answers: map<int, Answer>, k: nat)
    requires k <= |qs|
    ensures TotalOf(StatsOf(qs, answers, k)) == k
    ensures CorrectOf(StatsOf(qs, answers, k)) == RightAmong(answers, k)
    ensures WellFormed(StatsOf(qs, answers, k))
    ensures |StatsOf(qs, answers, k)| <= k
  {
    if k > 0 {
      var prev := StatsOf(qs, answers, k - 1);
      StatsSum(qs, answers, k - 1);
      TallySums(prev, qs[k - 1], AnsweredRight(answers, k - 1));
      assert StatsOf(qs, answers, k) == Tally(prev, qs[k - 1], AnsweredRight(answers, k - 1));
    }
  }

  /** One more question adds one to the totals and its correctness to the correct counts. */
  lemma TallySums(stats: seq<ModuleStat>, q: Question, correct: bool)
    requires WellFormed(stats)
    ensures TotalOf(Tally(stats, q, correct)) == TotalOf(stats) + 1
    ensures CorrectOf(Tally(stats, q, correct)) == CorrectOf(stats) + if correct then 1 else 0
    ensures WellFormed(Tally(stats, q, correct))
    ensures |Tally(stats, q, correct)| <= |stats| + 1
  {
    var c := if correct then 1 else 0;
    match StatIndex(stats, q.moduleName)
    case None =>
      var s := ModuleStat(q.moduleName, 1, c, q.modulePercentage);
      SumsAppend(stats, s);
    case Some(j) =>
      var s := stats[j].(total := stats[j].total + 1, correct := stats[j].correct + c);
      SumsUpdate(stats, j, s);
  }

  lemma {:induction false} SumsAppend(stats: seq<ModuleStat>, s: ModuleStat)
    ensures TotalOf(stats + [s]) == TotalOf(stats) + s.total
    ensures CorrectOf(stats + [s]) == CorrectOf(stats) + s.correct
    decreases |stats|
  {
    if stats == [] {
      assert [s][1..] == [];
    } else {
      assert (stats + [s])[1..] == stats[1..] + [s];
      SumsAppend(stats[1..], s);
    }
  }

  lemma {:induction false} SumsUpdate(stats: seq<ModuleStat>, j: nat, s: ModuleStat)
    requires j < |stats|
    ensures TotalOf(stats[j := s]) == TotalOf(stats) - stats[j].total + s.total
    ensures CorrectOf(stats[j := s]) == CorrectOf(stats) - stats[j].correct + s.correct
    decreases |stats|
  {
    if j == 0 {
      assert stats[j := s][1..] == stats[1..];
    } else {
      assert stats[j := s][1..] == stats[1..][j - 1 := s];
      SumsUpdate(stats[1..], j - 1, s);
    }
  }
}
