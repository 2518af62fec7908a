/**
 * How the quiz page sets up an evaluation: the language checkboxes and the
 * order in which they were ticked, the checks before a start, the
 * per-module quotas and the top-up to the requested number of questions,
 * and the one shuffle of the options shared by every chosen language.
 * The random choices of the page are supplied by the caller.
 */
module QuizSelect {
  import opened Wrappers
  import opened Strings

  /** The quiz languages, in the order of their checkboxes. */
  datatype Lang = Es | En | Pt

  /** The checkbox order: Español, English, Português. */
  const Checkboxes: seq<Lang> := [Es, En, Pt]

  /** The three checkboxes. */
  datatype Checked = Checked(es: bool, en: bool, pt: bool)

  predicate IsChecked(c: Checked, l: Lang) {
    match l
    case Es => c.es
    case En => c.en
    case Pt => c.pt
  }

  predicate NoDuplicates(order: seq<Lang>) {
    forall i, j :: 0 <= i < j < |order| ==> order[i] != order[j]
  }

  // ---------------------------------------------------------------------
  // Language order

  /** The previous order without the languages that are no longer ticked. */
  function KeepChecked(order: seq<Lang>, c: Checked): (r: seq<Lang>)
    ensures forall l :: l in r <==> l in order && IsChecked(c, l)
    ensures |r| <= |order|
  {
    if order == [] then []
    else (if IsChecked(c, order[0]) then [order[0]] else []) + KeepChecked(order[1..], c)
  }

  /** The appending loop over the checkboxes `langs`, starting from `base`. */
  function Appended(base: seq<Lang>, c: Checked, langs: seq<Lang>): seq<Lang>
    decreases |langs|
  {
    if langs == [] then base
    else
      var prev := Appended(base, c, langs[..|langs| - 1]);
      var l := langs[|langs| - 1];
      if IsChecked(c, l) && l !in prev then prev + [l] else prev
  }

  /** The order after the checkboxes changed: the kept languages, then the newly ticked ones in checkbox order. */
  function UpdatedOrder(order: seq<Lang>, c: Checked): seq<Lang> {
    Appended(KeepChecked(order, c), c, Checkboxes)
  }

  /** The loop only appends ticked languages that are not there yet. */
  lemma {:induction false} AppendedContents(base: seq<Lang>, c: Checked, langs: seq<Lang>)
    ensures |Appended(base, c, langs)| >= |base| && Appended(base, c, langs)[..|base|] == base
    ensures forall l :: l in Appended(base, c, langs) <==> l in base || (l in langs && IsChecked(c, l))
    ensures NoDuplicates(base) ==> NoDuplicates(Appended(base, c, langs))
    decreases |langs|
  {
    if langs != [] {
      var init := langs[..|langs| - 1];
      AppendedContents(base, c, init);
      forall l ensures l in langs <==> l in init || l == langs[|langs| - 1] {
        assert langs == init + [langs[|langs| - 1]];
      }
      var prev := Appended(base, c, init);
      assert (prev + [langs[|langs| - 1]])[..|base|] == prev[..|base|];
    }
  }

  /** After the update the order holds exactly the ticked languages, each once, the kept ones first in their old order. */
  lemma UpdatedOrderExact(order: seq<Lang>, c: Checked)
    ensures forall l :: l in UpdatedOrder(order, c) <==> IsChecked(c, l)
    ensures |UpdatedOrder(order, c)| >= |KeepChecked(order, c)|
    ensures UpdatedOrder(order, c)[..|KeepChecked(order, c)|] == KeepChecked(order, c)
    ensures NoDuplicates(order) ==> NoDuplicates(UpdatedOrder(order, c))
  {
    AppendedContents(KeepChecked(order, c), c, Checkboxes);
    if NoDuplicates(order) {
      KeepCheckedNoDuplicates(order, c);
    }
    forall l ensures l in Checkboxes {
      match l
      case Es => assert Checkboxes[0] == Es;
      case En => assert Checkboxes[1] == En;
      case Pt => assert Checkboxes[2] == Pt;
    }
  }

  /** Dropping languages keeps the rest distinct. */
  lemma {:induction false} KeepCheckedNoDuplicates(order: seq<Lang>, c: Checked)
    requires NoDuplicates(order)
    ensures NoDuplicates(KeepChecked(order, c))
    decreases |order|
  {
    if order != [] {
      assert NoDuplicates(order[1..]) by {
        forall i, j | 0 <= i < j < |order[1..]| ensures order[1..][i] != order[1..][j] {
          assert order[1..][i] == order[i + 1] && order[1..][j] == order[j + 1];
        }
      }
      KeepCheckedNoDuplicates(order[1..], c);
      assert order[0] !in order[1..] by {
        forall k | 0 <= k < |order[1..]| ensures order[1..][k] != order[0] {
          assert order[1..][k] == order[k + 1];
        }
      }
    }
  }

  /** A rerun with the same checkboxes leaves the order as it is. */
  lemma UpdatedOrderIdempotent(order: seq<Lang>, c: Checked)
    ensures UpdatedOrder(UpdatedOrder(order, c), c) == UpdatedOrder(order, c)
  {
    var u := UpdatedOrder(order, c);
    UpdatedOrderExact(order, c);
    KeepAllChecked(u, c);
    AppendedNothingNew(u, c, Checkboxes);
  }

  /** Keeping the ticked languages of an order of ticked languages keeps them all. */
  lemma {:induction false} KeepAllChecked(order: seq<Lang>, c: Checked)
    requires forall l :: l in order ==> IsChecked(c, l)
    ensures KeepChecked(order, c) == order
    decreases |order|
  {
    if order != [] {
      assert order[0] in order;
      forall l | l in order[1..] ensures IsChecked(c, l) {
        assert l in order;
      }
      KeepAllChecked(order[1..], c);
      assert [order[0]] + order[1..] == order;
    }
  }

  /** When every ticked language is already there, the appending loop adds nothing. */
  lemma {:induction false} AppendedNothingNew(base: seq<Lang>, c: Checked, langs: seq<Lang>)
    requires forall l :: IsChecked(c, l) ==> l in base
    ensures Appended(base, c, langs) == base
    decreases |langs|
  {
    if langs != [] {
      AppendedNothingNew(base, c, langs[..|langs| - 1]);
    }
  }

  // ---------------------------------------------------------------------
  // Start checks

  /** Why a start is refused. */
  datatype StartRefusal = NoLanguage | TooManyLanguages | NoEvaluationName

  /** The checks of the Start button, in the order the page makes them. */
  function ValidateStart(langs: seq<Lang>, evaluationName: string): (r: Option<StartRefusal>)
    ensures r.None? <==> 1 <= |langs| <= 2 && !Blank(evaluationName)
    ensures r == Some(NoLanguage) <==> |langs| == 0
    ensures r == Some(TooManyLanguages) <==> |langs| > 2
  {
    if |langs| == 0 then Some(NoLanguage)
    else if |langs| > 2 then Some(TooManyLanguages)
    else if evaluationName == "" || Strip(evaluationName) == "" then Some(NoEvaluationName)
    else None
  }

  /**
   * The stored evaluation name: the trimmed input, a dash and the start
   * time `%Y%m%d%H%M%S%f` without its last three digits (milliseconds).
   */
  function EvaluationName(input: string, stamp: string): (r: string)
    ensures |stamp| >= 3 ==> |r| == |Strip(input)| + 1 + |stamp| - 3
    ensures |r| > |Strip(input)|
    ensures r[..|Strip(input)|] == Strip(input) && r[|Strip(input)|] == '-'
  {
    var ms := if |stamp| >= 3 then stamp[..|stamp| - 3] else "";
    var r := Strip(input) + "-" + ms;
    assert r[..|Strip(input)|] == Strip(input);
    r
  }

  // ---------------------------------------------------------------------
  // Question selection

  /** One option of a question. */
  datatype Choice = Choice(text: string, isCorrect: bool)

  /** A quiz question with its options in each language it was written in. */
  datatype Question = Question(quizId: int, moduleId: int, moduleName: string, modulePercentage: int,
                               options: map<Lang, seq<Choice>>)

  /** A module of the quiz file and its share of the questions, in percent. */
  datatype Module = Module(moduleId: int, percentage: int)

  /** The quotient of natural numbers, rounded down. */
  function Quot(a: nat, d: nat): (r: nat)
    requires d > 0
    ensures r <= a
    ensures r * d <= a < r * d + d
    decreases a
  {
    if a < d then 0 else 1 + Quot(a - d, d)
  }

  /** `int(x)` of a quotient: truncation toward zero. */
  function TruncDiv(a: int, d: nat): (r: int)
    requires d > 0
    ensures a >= 0 ==> 0 <= r <= a && r * d <= a < r * d + d
    ensures a < 0 ==> r <= 0 && -r * d <= -a < -r * d + d
  {
    if a >= 0 then Quot(a, d) as int else 0 - Quot(-a, d)
  }

  /** A module's quota: `max(1, int(n * percentage / 100))`. */
  function Quota(n: nat, percentage: int): (r: nat)
    ensures r >= 1
    ensures n >= 1 && 0 <= percentage <= 100 ==> r <= n
  {
    var t := TruncDiv(n * percentage, 100);
    QuotaBound(n, percentage);
    if t >= 1 then t else 1
  }

  /** A share of at most 100 percent is at most the whole. */
  lemma QuotaBound(n: nat, percentage: int)
    ensures 0 <= percentage <= 100 ==> TruncDiv(n * percentage, 100) <= n
  {
    if 0 <= percentage <= 100 {
      assert n * percentage <= n * 100 by {
        assert n * (100 - percentage) >= 0;
      }
    }
  }

  /** The questions of one module, in the file's order. */
  function OfModule(all: seq<Question>, moduleId: int): (r: seq<Question>)
    ensures |r| <= |all|
    ensures forall q :: q in r <==> q in all && q.moduleId == moduleId
  {
    if all == [] then []
    else (if all[0].moduleId == moduleId then [all[0]] else []) + OfModule(all[1..], moduleId)
  }

  /** A module's draw: its quota of its questions, or all of them when it has fewer. */
  function ModulePick(all: seq<Question>, m: Module, n: nat): (r: seq<Question>)
    ensures |r| == Min(Quota(n, m.percentage), |OfModule(all, m.moduleId)|)
    ensures forall q :: q in r ==> q in all && q.moduleId == m.moduleId
    ensures |OfModule(all, m.moduleId)| < Quota(n, m.percentage) ==> r == OfModule(all, m.moduleId)
  {
    var qs := OfModule(all, m.moduleId);
    var k := Quota(n, m.percentage);
    if |qs| >= k then
      assert forall q :: q in qs[..k] ==> q in qs;
      qs[..k]
    else qs
  }

  function Min(a: int, b: int): int {
    if a <= b then a else b
  }

  /** The draws of the modules `ms`, one after the other. */
  function Picked(ms: seq<Module>, all: seq<Question>, n: nat): (r: seq<Question>)
    ensures forall q :: q in r ==> q in all
    decreases |ms|
  {
    if ms == [] then []
    else Picked(ms[..|ms| - 1], all, n) + ModulePick(all, ms[|ms| - 1], n)
  }

  /** The per-module loop of the Start button. */
  method PickByModule(ms: seq<Module>, all: seq<Question>, n: nat) returns (selected: seq<Question>)
    ensures selected == Picked(ms, all, n)
  {
    selected := [];
    var i := 0;
    while i < |ms|
      invariant 0 <= i <= |ms|
      invariant selected == Picked(ms[..i], all, n)
    {
      assert ms[..i + 1][..i] == ms[..i];
      selected := selected + ModulePick(all, ms[i], n);
      i := i + 1;
    }
    assert ms[..i] == ms;
  }

  /** The modules that have a question among `qs`. */
  function ModuleIds(qs: seq<Question>): set<int> {
    set q | q in qs :: q.moduleId
  }

  /** Every module contributes at least one question, when it has one. */
  lemma {:induction false} PickedCoversModules(ms: seq<Module>, all: seq<Question>, n: nat, k: nat)
    requires k < |ms| && OfModule(all, ms[k].moduleId) != []
    ensures ms[k].moduleId in ModuleIds(Picked(ms, all, n))
    decreases |ms|
  {
    var last := |ms| - 1;
    var before := Picked(ms[..last], all, n);
    var r := ModulePick(all, ms[last], n);
    assert Picked(ms, all, n) == before + r;
    if k == last {
      assert |r| >= 1;
      assert r[0] in before + r;
    } else {
      assert ms[..last][k] == ms[k];
      PickedCoversModules(ms[..last], all, n, k);
      var q :| q in before && q.moduleId == ms[k].moduleId;
      assert q in before + r;
    }
  }

  /** The quiz ids already drawn. */
  function Ids(qs: seq<Question>): (r: set<int>)
    ensures forall q :: q in qs ==> q.quizId in r
  {
    set q | q in qs :: q.quizId
  }

  /** The questions whose ids were not drawn, in the file's order. */
  function Unselected(all: seq<Question>, ids: set<int>): (r: seq<Question>)
    ensures forall q :: q in r <==> q in all && q.quizId !in ids
    decreases |all|
  {
    if all == [] then []
    else (if all[0].quizId !in ids then [all[0]] else []) + Unselected(all[1..], ids)
  }

  /**
   * The adjustment to exactly `n` questions: an over-full draw is cut to
   * `n`, an under-full one is topped up from the questions not yet drawn
   * when there are enough of them, and left as it is otherwise. Each
   * `sample` takes the leading questions of its pool.
   */
  function Adjust(selected: seq<Question>, all: seq<Question>, n: nat): (r: seq<Question>)
    ensures |selected| > n ==> |r| == n && forall q :: q in r ==> q in selected
    ensures |selected| <= n ==> |r| >= |selected| && r[..|selected|] == selected
    ensures |selected| < n && |Unselected(all, Ids(selected))| >= n - |selected| ==>
              |r| == n && forall q :: q in r[|selected|..] ==> q in all && q.quizId !in Ids(selected)
    ensures |selected| < n && |Unselected(all, Ids(selected))| < n - |selected| ==> r == selected
    ensures |selected| == n ==> r == selected
  {
    if |selected| > n then
      assert forall q :: q in selected[..n] ==> q in selected;
      selected[..n]
    else if |selected| < n then
      var remaining := n - |selected|;
      var available := Unselected(all, Ids(selected));
      if |available| >= remaining then
        var r := selected + available[..remaining];
        assert r[|selected|..] == available[..remaining];
        assert forall q :: q in available[..remaining] ==> q in available;
        assert r[..|selected|] == selected;
        r
      else selected
    else selected
  }

  /** The drawn questions all come from the file. */
  lemma AdjustFromFile(selected: seq<Question>, all: seq<Question>, n: nat)
    requires forall q :: q in selected ==> q in all
    ensures forall q :: q in Adjust(selected, all, n) ==> q in all
  {
    var r := Adjust(selected, all, n);
    if |selected| < n && |Unselected(all, Ids(selected))| >= n - |selected| {
      forall q | q in r ensures q in all {
        var k :| 0 <= k < |r| && r[k] == q;
        if k < |selected| {
          assert r[..|selected|][k] == q;
        } else {
          assert r[|selected|..][k - |selected|] == q;
        }
      }
    }
  }

  // ---------------------------------------------------------------------
  // Option shuffle

  /** `shuffle_indices` is an order of `range(n)`. */
  predicate IsPermutation(perm: seq<nat>, n: nat) {
    |perm| == n && (forall k :: 0 <= k < n ==> perm[k] < n) && (forall j :: 0 <= j < n ==> j in perm)
  }

  /** `[options[i] for i in perm]`; `None` when an index is out of range. */
  function Reorder(options: seq<Choice>, perm: seq<nat>): (r: Option<seq<Choice>>)
    ensures r.Some? <==> forall k :: 0 <= k < |perm| ==> perm[k] < |options|
    ensures r.Some? ==> |r.value| == |perm| && forall k :: 0 <= k < |perm| ==> r.value[k] == options[perm[k]]
  {
    if forall k :: 0 <= k < |perm| ==> perm[k] < |options| then
      Some(seq(|perm|, k requires 0 <= k < |perm| => options[perm[k]]))
    else None
  }

  /** An order of all the indices keeps every option and adds none. */
  lemma ReorderPermutation(options: seq<Choice>, perm: seq<nat>)
    requires IsPermutation(perm, |options|)
    ensures Reorder(options, perm).Some?
    ensures forall c :: c in Reorder(options, perm).value <==> c in options
  {
    var r := Reorder(options, perm).value;
    forall c | c in options ensures c in r {
      var j :| 0 <= j < |options| && options[j] == c;
      assert j in perm;
      var k :| 0 <= k < |perm| && perm[k] == j;
      assert r[k] == c;
    }
  }

  /** Every chosen language has options in the question. */
  predicate HasLanguages(q: Question, langs: seq<Lang>) {
    forall l :: l in langs ==> l in q.options
  }

  /** Every chosen language's options can be reordered by `perm`. */
  predicate FitsAll(q: Question, langs: seq<Lang>, perm: seq<nat>)
    requires HasLanguages(q, langs)
  {
    forall l :: l in langs ==> Reorder(q.options[l], perm).Some?
  }

  /**
   * One question's options after the shuffle: the order `perm` of the
   * first language's indices is applied to every chosen language; `None`
   * when a language is missing or has too few options.
   */
  function ShuffleQuestion(q: Question, langs: seq<Lang>, perm: seq<nat>): (r: Option<Question>)
    ensures r.Some? <==> langs != [] && HasLanguages(q, langs) && FitsAll(q, langs, perm)
  {
    if langs != [] && HasLanguages(q, langs) && FitsAll(q, langs, perm) then
      Some(q.(options := map l | l in q.options :: if l in langs then Reorder(q.options[l], perm).value else q.options[l]))
    else None
  }

  /** Option `k` is the same original option in every chosen language, and nothing else changes. */
  lemma ShuffleAligned(q: Question, langs: seq<Lang>, perm: seq<nat>)
    requires ShuffleQuestion(q, langs, perm).Some?
    ensures var s := ShuffleQuestion(q, langs, perm).value;
      && s.quizId == q.quizId && s.moduleId == q.moduleId && s.moduleName == q.moduleName
      && s.modulePercentage == q.modulePercentage
      && s.options.Keys == q.options.Keys
      && (forall l :: l in q.options && l !in langs ==> s.options[l] == q.options[l])
      && (forall l, k :: l in langs && 0 <= k < |perm| ==> |s.options[l]| == |perm| && s.options[l][k] == q.options[l][perm[k]])
  {
  }

  /** With an order of the first language's indices and as many options in every language, the shuffle succeeds. */
  lemma ShuffleSucceeds(q: Question, langs: seq<Lang>, perm: seq<nat>)
    requires langs != [] && HasLanguages(q, langs)
    requires IsPermutation(perm, |q.options[langs[0]]|)
    requires forall l :: l in langs ==> |q.options[l]| == |q.options[langs[0]]|
    ensures ShuffleQuestion(q, langs, perm).Some?
    ensures forall l, c :: l in langs ==> (c in ShuffleQuestion(q, langs, perm).value.options[l] <==> c in q.options[l])
  {
    forall l | l in langs ensures Reorder(q.options[l], perm).Some? {
      ReorderPermutation(q.options[l], perm);
    }
    forall l | l in langs ensures forall c :: c in ShuffleQuestion(q, langs, perm).value.options[l] <==> c in q.options[l] {
      ReorderPermutation(q.options[l], perm);
    }
  }

  /** The shuffle of every drawn question, each with its own order. */
  function ShuffledAll(qs: seq<Question>, langs: seq<Lang>, perms: seq<seq<nat>>): (r: Option<seq<Question>>)
    requires |perms| == |qs|
    ensures r.Some? ==> |r.value| == |qs|
    decreases |qs|
  {
    if qs == [] then Some([])
    else
      var n := |qs| - 1;
      match ShuffledAll(qs[..n], langs, perms[..n])
      case None => None
      case Some(done) =>
        match ShuffleQuestion(qs[n], langs, perms[n])
        case None => None
        case Some(s) => Some(done + [s])
  }

  /** The loop over the drawn questions; `None` when a question's options do not fit. */
  method ShuffleOptions(qs: seq<Question>, langs: seq<Lang>, perms: seq<seq<nat>>) returns (r: Option<seq<Question>>)
    requires |perms| == |qs|
    ensures r == ShuffledAll(qs, langs, perms)
  {
    var done: seq<Question> := [];
    var i := 0;
    while i < |qs|
      invariant 0 <= i <= |qs|
      invariant ShuffledAll(qs[..i], langs, perms[..i]) == Some(done)
    {
      assert qs[..i + 1][..i] == qs[..i] && perms[..i + 1][..i] == perms[..i];
      var s := ShuffleQuestion(qs[i], langs, perms[i]);
      if s.None? {
        ShuffledAllFails(qs, langs, perms, i + 1);
        assert qs[..i + 1] == qs[..i + 1];
        return None;
      }
      done := done + [s.value];
      i := i + 1;
    }
    assert qs[..i] == qs && perms[..i] == perms;
    r := Some(done);
  }

  /** Once a prefix fails, the whole shuffle fails. */
  lemma {:induction false} ShuffledAllFails(qs: seq<Question>, langs: seq<Lang>, perms: seq<seq<nat>>, i: nat)
    requires |perms| == |qs| && i <= |qs|
    requires ShuffledAll(qs[..i], langs, perms[..i]).None?
    ensures ShuffledAll(qs, langs, perms).None?
    decreases |qs| - i
  {
    if i < |qs| {
      assert qs[..i + 1][..i] == qs[..i] && perms[..i + 1][..i] == perms[..i];
      ShuffledAllFails(qs, langs, perms, i + 1);
    } else {
      assert qs[..i] == qs && perms[..i] == perms;
    }
  }
}
