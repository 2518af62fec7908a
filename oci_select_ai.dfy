/**
 * The Select AI module's `create`: a table is made from an uploaded CSV
 * file, then the column comments, column annotations, table annotation and
 * primary key the user entered in the data editor are applied, and finally
 * the user's Select AI profile is (re)created. Every database call is an
 * `Action`; the call at position `failAt`, if any, raises, which ends the
 * whole operation with no result.
 */
module OciSelectAi {
  import opened Wrappers
  import opened Strings

  // ---------------------------------------------------------------------
  // get_profile

  /** `f"{credential_name}"`, where a missing environment variable prints as `None`. */
  function CredentialText(credential: Option<string>): string {
    match credential
    case None => "None"
    case Some(c) => c
  }

  /** `get_profile`: `<credential>_SQL_<user id>`, upper-cased. */
  function Profile(credential: Option<string>, userId: int): string {
    Upper(CredentialText(credential) + "_SQL_" + IntToString(userId))
  }

  /** Upper-casing works character by character. */
  lemma UpperConcat(a: string, b: string)
    ensures Upper(a + b) == Upper(a) + Upper(b)
  {
    assert forall i :: 0 <= i < |a + b| ==> Upper(a + b)[i] == (Upper(a) + Upper(b))[i];
  }

  /** Upper-casing leaves the digits and sign of a number alone. */
  lemma UpperNumber(i: int)
    ensures Upper(IntToString(i)) == IntToString(i)
  {
    var s := IntToString(i);
    forall k | 0 <= k < |s| ensures UpperChar(s[k]) == s[k] {
      if i < 0 && k > 0 {
        assert s[k] == NatToString(-i)[k - 1];
      }
    }
  }

  /** The profile is the upper-cased credential, `_SQL_` and the user id as written. */
  lemma ProfileShape(credential: Option<string>, userId: int)
    ensures Profile(credential, userId) == Upper(CredentialText(credential)) + "_SQL_" + IntToString(userId)
  {
    UpperConcat(CredentialText(credential) + "_SQL_", IntToString(userId));
    UpperConcat(CredentialText(credential), "_SQL_");
    UpperNumber(userId);
  }

  /** With one credential, different users get different profiles. */
  lemma ProfileInjective(credential: Option<string>, u1: int, u2: int)
    requires Profile(credential, u1) == Profile(credential, u2)
    ensures u1 == u2
  {
    ProfileShape(credential, u1);
    ProfileShape(credential, u2);
    var h := Upper(CredentialText(credential)) + "_SQL_";
    assert (h + IntToString(u1))[|h|..] == IntToString(u1);
    assert (h + IntToString(u2))[|h|..] == IntToString(u2);
    IntToStringInjective(u1, u2);
  }

  /** `str` is one-to-one on integers. */
  lemma IntToStringInjective(a: int, b: int)
    requires IntToString(a) == IntToString(b)
    ensures a == b
  {
    if a < 0 {
      assert b < 0;
      assert IntToString(a)[1..] == NatToString(-a);
      assert IntToString(b)[1..] == NatToString(-b);
      NatToStringInjective(-a, -b);
    } else {
      assert b >= 0;
      NatToStringInjective(a, b);
    }
  }

  lemma NatToStringInjective(a: nat, b: nat)
    requires NatToString(a) == NatToString(b)
    ensures a == b
  {
    ParseNatToString(a);
    ParseNatToString(b);
  }

  // ---------------------------------------------------------------------
  // The data editor and the database calls

  /** `s.strip()` is not empty: some character of `s` is not whitespace. */
  predicate HasText(s: string) {
    exists i :: 0 <= i < |s| && s[i] !in Whitespace
  }

  /** `HasText` is the truth value of `s.strip()`. */
  lemma HasTextIff(s: string)
    ensures HasText(s) <==> !Blank(s)
  {
    BlankIff(s, Whitespace);
  }

  /** One row of the data editor: a column of the new table and what the user entered for it. */
  datatype Row = Row(columnName: string, comment: string, uiDisplay: string, classification: string, primaryKey: bool)

  /** The data editor: the columns it shows and its rows. */
  datatype Editor = Editor(columns: set<string>, rows: seq<Row>)

  /** The database calls `create` makes, in the order it makes them. */
  datatype Action =
    | CreateTableFromCsv(objectUri: string, table: string)
    | UpdateComment(table: string, column: string, comment: string)
    | UpdateColumnAnnotation(table: string, column: string, name: string, value: string)
    | UpdateTableAnnotation(table: string, name: string, value: string)
    | AddPrimaryKey(table: string, columns: seq<string>)
    | CreateProfile(profile: string, userId: int)
    | RefreshTables(userId: int)

  /** `comment_data_editor is not None and not comment_data_editor.empty`. */
  predicate Present(editor: Option<Editor>) {
    editor.Some? && |editor.value.rows| > 0
  }

  /** The two per-row loops of `create`. */
  datatype Section = CommentSection | AnnotationSection(hasUiDisplay: bool, hasClassification: bool)

  /** What one row contributes to a section. */
  function Step(section: Section, table: string, row: Row): (r: seq<Action>)
    ensures |r| <= 2
  {
    match section
    case CommentSection =>
      if HasText(row.comment) then [UpdateComment(table, row.columnName, row.comment)] else []
    case AnnotationSection(hasUi, hasClass) =>
      (if hasUi && HasText(row.uiDisplay) then [UpdateColumnAnnotation(table, row.columnName, "UI_Display", row.uiDisplay)] else []) +
      (if hasClass && HasText(row.classification) then [UpdateColumnAnnotation(table, row.columnName, "Classification", row.classification)] else [])
  }

  /** The calls made for each row, row after row. */
  function Concat(rows: seq<Row>, step: Row -> seq<Action>): seq<Action> {
    if rows == [] then [] else Concat(rows[..|rows| - 1], step) + step(rows[|rows| - 1])
  }

  lemma {:induction false} ConcatAppend(a: seq<Row>, b: seq<Row>, step: Row -> seq<Action>)
    ensures Concat(a + b, step) == Concat(a, step) + Concat(b, step)
  {
    if b != [] {
      var init := b[..|b| - 1];
      ConcatAppend(a, init, step);
      assert (a + b)[..|a + b| - 1] == a + init;
      assert (a + b)[|a + b| - 1] == b[|b| - 1];
    } else {
      assert a + b == a;
    }
  }

  /** A section's step for a table. */
  function StepOf(section: Section, table: string): Row -> seq<Action> {
    row => Step(section, table, row)
  }

  /** The calls a section makes over the rows, row by row. */
  function Rows(section: Section, table: string, rows: seq<Row>): seq<Action> {
    Concat(rows, StepOf(section, table))
  }

  /** Adding a row adds its step's calls at the end. */
  lemma RowsSnoc(section: Section, table: string, rows: seq<Row>, i: nat)
    requires i < |rows|
    ensures Rows(section, table, rows[..i + 1]) == Rows(section, table, rows[..i]) + Step(section, table, rows[i])
  {
    assert rows[..i + 1][..i] == rows[..i];
  }

  lemma RowsAppend(section: Section, table: string, a: seq<Row>, b: seq<Row>)
    ensures Rows(section, table, a + b) == Rows(section, table, a) + Rows(section, table, b)
  {
    ConcatAppend(a, b, StepOf(section, table));
  }

  /** The comment loop updates exactly the rows whose comment is not blank, one call each. */
  lemma {:induction false} CommentRowsExact(table: string, rows: seq<Row>)
    ensures forall a :: a in Rows(CommentSection, table, rows) <==>
      exists i :: 0 <= i < |rows| && HasText(rows[i].comment) && a == UpdateComment(table, rows[i].columnName, rows[i].comment)
    ensures |Rows(CommentSection, table, rows)| <= |rows|
  {
    if rows != [] {
      var init := rows[..|rows| - 1];
      CommentRowsExact(table, init);
      forall i | 0 <= i < |init| ensures init[i] == rows[i] { }
    }
  }

  /** The annotation loop issues at most two calls a row, each a `UI_Display` or `Classification` annotation with a non-blank value whose column the editor has. */
  lemma {:induction false} AnnotationRowsBounded(table: string, rows: seq<Row>, hasUi: bool, hasClass: bool)
    ensures |Rows(AnnotationSection(hasUi, hasClass), table, rows)| <= 2 * |rows|
    ensures forall a :: a in Rows(AnnotationSection(hasUi, hasClass), table, rows) ==>
      a.UpdateColumnAnnotation? && a.table == table && HasText(a.value) &&
      ((a.name == "UI_Display" && hasUi) || (a.name == "Classification" && hasClass))
  {
    if rows != [] {
      AnnotationRowsBounded(table, rows[..|rows| - 1], hasUi, hasClass);
    }
  }

  /** A row's non-blank display value and classification are both annotated. */
  lemma {:induction false} AnnotationRowsComplete(table: string, rows: seq<Row>, i: nat)
    requires i < |rows|
    ensures HasText(rows[i].uiDisplay) ==>
      UpdateColumnAnnotation(table, rows[i].columnName, "UI_Display", rows[i].uiDisplay) in Rows(AnnotationSection(true, true), table, rows)
    ensures HasText(rows[i].classification) ==>
      UpdateColumnAnnotation(table, rows[i].columnName, "Classification", rows[i].classification) in Rows(AnnotationSection(true, true), table, rows)
  {
    var init := rows[..|rows| - 1];
    if i < |rows| - 1 {
      AnnotationRowsComplete(table, init, i);
      assert init[i] == rows[i];
    }
  }

  /** The primary-key columns: the names of the rows marked as key, in row order. */
  function PkColumns(rows: seq<Row>): (r: seq<string>)
    ensures |r| <= |rows|
  {
    if rows == [] then []
    else PkColumns(rows[..|rows| - 1]) + (if rows[|rows| - 1].primaryKey then [rows[|rows| - 1].columnName] else [])
  }

  /** A column is a key column exactly when one of the rows naming it is marked. */
  lemma {:induction false} PkColumnsExact(rows: seq<Row>)
    ensures forall c :: c in PkColumns(rows) <==> exists i :: 0 <= i < |rows| && rows[i].primaryKey && rows[i].columnName == c
    ensures PkColumns(rows) == [] <==> forall i :: 0 <= i < |rows| ==> !rows[i].primaryKey
  {
    if rows != [] {
      var init := rows[..|rows| - 1];
      PkColumnsExact(init);
      forall i | 0 <= i < |init| ensures init[i] == rows[i] { }
    }
  }

  /** Key columns keep the order of their rows. */
  lemma {:induction false} PkColumnsInOrder(a: seq<Row>, b: seq<Row>)
    ensures PkColumns(a + b) == PkColumns(a) + PkColumns(b)
  {
    if b != [] {
      PkColumnsInOrder(a, b[..|b| - 1]);
      assert (a + b)[..|a + b| - 1] == a + b[..|b| - 1];
    } else {
      assert a + b == a;
    }
  }

  // ---------------------------------------------------------------------
  // The plan of `create`

  function CommentPart(table: string, editor: Option<Editor>): seq<Action> {
    if Present(editor) then Rows(CommentSection, table, editor.value.rows) else []
  }

  function AnnotationPart(table: string, editor: Option<Editor>): seq<Action> {
    if Present(editor) then
      Rows(AnnotationSection("UI_Display" in editor.value.columns, "Classification" in editor.value.columns), table, editor.value.rows)
    else []
  }

  /** The table annotation, for a description that is given and not blank. */
  function DescriptionPart(table: string, description: Option<string>): seq<Action> {
    if description.Some? && HasText(description.value) then [UpdateTableAnnotation(table, "UI_Display", description.value)] else []
  }

  /** The primary key, when the editor has the column and some row is marked. */
  function KeyPart(table: string, editor: Option<Editor>): seq<Action> {
    if Present(editor) && "Primary Key" in editor.value.columns && PkColumns(editor.value.rows) != [] then
      [AddPrimaryKey(table, PkColumns(editor.value.rows))]
    else []
  }

  function ProfilePart(credential: Option<string>, userId: int): seq<Action> {
    [CreateProfile(Profile(credential, userId), userId), RefreshTables(userId)]
  }

  /** Every call `create` makes when none of them raises, in order. */
  function CreatePlan(userId: int, objectUri: string, table: string, editor: Option<Editor>,
                      description: Option<string>, credential: Option<string>): seq<Action>
  {
    [CreateTableFromCsv(objectUri, table)] + ColumnsPart(table, editor) + RestPart(table, editor, description, credential, userId)
  }

  /** The per-column calls: the comments, then the column annotations. */
  function ColumnsPart(table: string, editor: Option<Editor>): seq<Action> {
    CommentPart(table, editor) + AnnotationPart(table, editor)
  }

  /** The calls after the column loops: the table annotation, the primary key, the profile and the cache. */
  function RestPart(table: string, editor: Option<Editor>, description: Option<string>, credential: Option<string>,
                    userId: int): seq<Action> {
    DescriptionPart(table, description) + KeyPart(table, editor) + ProfilePart(credential, userId)
  }

  const ModuleMessage := "[Select AI]: Module executed successfully."

  /** The call at position `failAt` raises. */
  predicate Fails(plan: seq<Action>, failAt: Option<nat>) {
    failAt.Some? && failAt.value < |plan|
  }

  /** The calls actually made: the plan up to and including the one that raises. */
  function Issue(plan: seq<Action>, failAt: Option<nat>): (r: seq<Action>)
    ensures Fails(plan, failAt) ==> |r| == failAt.value + 1 && r == plan[..|r|]
    ensures !Fails(plan, failAt) ==> r == plan
  {
    if Fails(plan, failAt) then plan[..failAt.value + 1] else plan
  }

  /** Once a call has raised, nothing planned after it is made. */
  lemma Skip(done: seq<Action>, later: seq<Action>, failAt: Option<nat>)
    requires Fails(done, failAt)
    ensures Fails(done + later, failAt) && Issue(done + later, failAt) == Issue(done, failAt)
  {
    assert (done + later)[..failAt.value + 1] == done[..failAt.value + 1];
  }

  // ---------------------------------------------------------------------
  // The method

  /**
   * One database call, made only when no earlier call has raised (the
   * exception would have left `create` already): `done` is what was planned
   * so far, and the call is the next planned one.
   */
  method Attempt(issued: seq<Action>, failed: bool, a: Action, failAt: Option<nat>, ghost done: seq<Action>)
    returns (issued': seq<Action>, failed': bool)
    requires issued == Issue(done, failAt) && failed == Fails(done, failAt)
    ensures issued' == Issue(done + [a], failAt) && failed' == Fails(done + [a], failAt)
  {
    if failed {
      Skip(done, [a], failAt);
      issued', failed' := issued, failed;
    } else {
      issued' := issued + [a];
      failed' := failAt == Some(|issued|);
      assert (done + [a])[..|done| + 1] == done + [a];
    }
  }

  /**
   * One more step of a row loop: a counter that counted the calls so far
   * counts them with the step's when no call has raised, and the calls made
   * so far regroup as one prefix of the section.
   */
  lemma Advance(done: seq<Action>, prev: seq<Action>, step: seq<Action>, failAt: Option<nat>,
                failed: bool, added: nat, failedNow: bool, n: nat)
    requires failed == Fails(done + prev, failAt) && (!failed ==> added == |prev|)
    requires failedNow == Fails(done + prev + step, failAt) && (!failedNow ==> n == |step|)
    ensures !failedNow ==> !failed && added + n == |prev + step|
    ensures done + prev + step == done + (prev + step)
  {
  }

  /** The comment loop, with `comments_added`. */
  method RunComments(table: string, rows: seq<Row>, failAt: Option<nat>, issued0: seq<Action>, failed0: bool, ghost done: seq<Action>)
    returns (issued: seq<Action>, failed: bool, added: nat)
    requires issued0 == Issue(done, failAt) && failed0 == Fails(done, failAt)
    ensures issued == Issue(done + Rows(CommentSection, table, rows), failAt)
    ensures failed == Fails(done + Rows(CommentSection, table, rows), failAt)
    ensures !failed ==> added == |Rows(CommentSection, table, rows)|
  {
    issued, failed, added := issued0, failed0, 0;
    var i := 0;
    while i < |rows|
      invariant 0 <= i <= |rows|
      invariant issued == Issue(done + Rows(CommentSection, table, rows[..i]), failAt)
      invariant failed == Fails(done + Rows(CommentSection, table, rows[..i]), failAt)
      invariant !failed ==> added == |Rows(CommentSection, table, rows[..i])|
    {
      ghost var prev := Rows(CommentSection, table, rows[..i]);
      var failedNow, n;
      issued, failedNow, n := CommentRow(table, rows[i], failAt, issued, failed, done + prev);
      Advance(done, prev, Step(CommentSection, table, rows[i]), failAt, failed, added, failedNow, n);
      RowsSnoc(CommentSection, table, rows, i);
      failed := failedNow;
      if !failed {
        added := added + n;
      }
      i := i + 1;
    }
    assert rows[..i] == rows;
  }

  /** The body of the comment loop: a comment when the row's is not blank. */
  method CommentRow(table: string, row: Row, failAt: Option<nat>, issued0: seq<Action>, failed0: bool, ghost done: seq<Action>)
    returns (issued: seq<Action>, failed: bool, added: nat)
    requires issued0 == Issue(done, failAt) && failed0 == Fails(done, failAt)
    ensures issued == Issue(done + Step(CommentSection, table, row), failAt)
    ensures failed == Fails(done + Step(CommentSection, table, row), failAt)
    ensures !failed ==> added == |Step(CommentSection, table, row)|
  {
    if HasText(row.comment) {
      issued, failed := Attempt(issued0, failed0, UpdateComment(table, row.columnName, row.comment), failAt, done);
      added := 1;
    } else {
      issued, failed, added := issued0, failed0, 0;
      assert done + [] == done;
    }
  }

  /** The annotation loop, with `annotations_added`. */
  method RunAnnotations(table: string, rows: seq<Row>, hasUi: bool, hasClass: bool, failAt: Option<nat>,
                        issued0: seq<Action>, failed0: bool, ghost done: seq<Action>)
    returns (issued: seq<Action>, failed: bool, added: nat)
    requires issued0 == Issue(done, failAt) && failed0 == Fails(done, failAt)
    ensures issued == Issue(done + Rows(AnnotationSection(hasUi, hasClass), table, rows), failAt)
    ensures failed == Fails(done + Rows(AnnotationSection(hasUi, hasClass), table, rows), failAt)
    ensures !failed ==> added == |Rows(AnnotationSection(hasUi, hasClass), table, rows)|
  {
    var section := AnnotationSection(hasUi, hasClass);
    issued, failed, added := issued0, failed0, 0;
    var i := 0;
    while i < |rows|
      invariant 0 <= i <= |rows|
      invariant issued == Issue(done + Rows(section, table, rows[..i]), failAt)
      invariant failed == Fails(done + Rows(section, table, rows[..i]), failAt)
      invariant !failed ==> added == |Rows(section, table, rows[..i])|
    {
      ghost var prev := Rows(section, table, rows[..i]);
      var failedNow, n;
      issued, failedNow, n := AnnotateRow(table, rows[i], hasUi, hasClass, failAt, issued, failed, done + prev);
      Advance(done, prev, Step(section, table, rows[i]), failAt, failed, added, failedNow, n);
      RowsSnoc(section, table, rows, i);
      failed := failedNow;
      if !failed {
        added := added + n;
      }
      i := i + 1;
    }
    assert rows[..i] == rows;
  }

  /** The body of the annotation loop: a `UI_Display` and then a `Classification` annotation, each when the editor has the column and the row a value. */
  method AnnotateRow(table: string, row: Row, hasUi: bool, hasClass: bool, failAt: Option<nat>,
                     issued0: seq<Action>, failed0: bool, ghost done: seq<Action>)
    returns (issued: seq<Action>, failed: bool, added: nat)
    requires issued0 == Issue(done, failAt) && failed0 == Fails(done, failAt)
    ensures issued == Issue(done + Step(AnnotationSection(hasUi, hasClass), table, row), failAt)
    ensures failed == Fails(done + Step(AnnotationSection(hasUi, hasClass), table, row), failAt)
    ensures !failed ==> added == |Step(AnnotationSection(hasUi, hasClass), table, row)|
  {
    issued, failed, added := issued0, failed0, 0;
    ghost var first: seq<Action> := [];
    if hasUi && HasText(row.uiDisplay) {
      var a := UpdateColumnAnnotation(table, row.columnName, "UI_Display", row.uiDisplay);
      first := [a];
      issued, failed := Attempt(issued, failed, a, failAt, done);
      added := 1;
    } else {
      assert done + [] == done;
    }
    ghost var second: seq<Action> := [];
    if hasClass && HasText(row.classification) {
      var a := UpdateColumnAnnotation(table, row.columnName, "Classification", row.classification);
      second := [a];
      issued, failed := Attempt(issued, failed, a, failAt, done + first);
      added := added + 1;
    } else {
      assert done + first + [] == done + first;
    }
    assert Step(AnnotationSection(hasUi, hasClass), table, row) == first + second;
    Assoc(done, first, second);
  }

  /** Regrouping the calls made so far and the next ones. */
  lemma Assoc(a: seq<Action>, b: seq<Action>, c: seq<Action>)
    ensures a + (b + c) == a + b + c
  {
  }

  /** The key-column loop. */
  method CollectPkColumns(rows: seq<Row>) returns (pk: seq<string>)
    ensures pk == PkColumns(rows)
  {
    pk := [];
    var i := 0;
    while i < |rows|
      invariant 0 <= i <= |rows|
      invariant pk == PkColumns(rows[..i])
    {
      assert rows[..i + 1][..i] == rows[..i];
      if rows[i].primaryKey {
        pk := pk + [rows[i].columnName];
      }
      i := i + 1;
    }
    assert rows[..i] == rows;
  }

  /** The comments, when the editor is present and has rows. */
  method ApplyComments(table: string, editor: Option<Editor>, failAt: Option<nat>,
                       issued0: seq<Action>, failed0: bool, ghost done: seq<Action>)
    returns (issued: seq<Action>, failed: bool, added: nat)
    requires issued0 == Issue(done, failAt) && failed0 == Fails(done, failAt)
    ensures issued == Issue(done + CommentPart(table, editor), failAt)
    ensures failed == Fails(done + CommentPart(table, editor), failAt)
    ensures !failed ==> added == |CommentPart(table, editor)|
  {
    if Present(editor) {
      issued, failed, added := RunComments(table, editor.value.rows, failAt, issued0, failed0, done);
    } else {
      issued, failed, added := issued0, failed0, 0;
      assert done + [] == done;
    }
  }

  /** The column annotations, when the editor is present and has rows. */
  method ApplyAnnotations(table: string, editor: Option<Editor>, failAt: Option<nat>,
                          issued0: seq<Action>, failed0: bool, ghost done: seq<Action>)
    returns (issued: seq<Action>, failed: bool, added: nat)
    requires issued0 == Issue(done, failAt) && failed0 == Fails(done, failAt)
    ensures issued == Issue(done + AnnotationPart(table, editor), failAt)
    ensures failed == Fails(done + AnnotationPart(table, editor), failAt)
    ensures !failed ==> added == |AnnotationPart(table, editor)|
  {
    if Present(editor) {
      issued, failed, added := RunAnnotations(table, editor.value.rows,
        "UI_Display" in editor.value.columns, "Classification" in editor.value.columns, failAt, issued0, failed0, done);
    } else {
      issued, failed, added := issued0, failed0, 0;
      assert done + [] == done;
    }
  }

  /** The table annotation from the description. */
  method ApplyDescription(table: string, description: Option<string>, failAt: Option<nat>,
                          issued0: seq<Action>, failed0: bool, ghost done: seq<Action>)
    returns (issued: seq<Action>, failed: bool)
    requires issued0 == Issue(done, failAt) && failed0 == Fails(done, failAt)
    ensures issued == Issue(done + DescriptionPart(table, description), failAt)
    ensures failed == Fails(done + DescriptionPart(table, description), failAt)
  {
    if description.Some? && HasText(description.value) {
      issued, failed := Attempt(issued0, failed0, UpdateTableAnnotation(table, "UI_Display", description.value), failAt, done);
    } else {
      issued, failed := issued0, failed0;
      assert done + [] == done;
    }
  }

  /** The primary key, from the rows marked in the editor. */
  method ApplyKey(table: string, editor: Option<Editor>, failAt: Option<nat>,
                  issued0: seq<Action>, failed0: bool, ghost done: seq<Action>)
    returns (issued: seq<Action>, failed: bool)
    requires issued0 == Issue(done, failAt) && failed0 == Fails(done, failAt)
    ensures issued == Issue(done + KeyPart(table, editor), failAt)
    ensures failed == Fails(done + KeyPart(table, editor), failAt)
  {
    issued, failed := issued0, failed0;
    if Present(editor) && "Primary Key" in editor.value.columns {
      var pk := CollectPkColumns(editor.value.rows);
      if pk != [] {
        issued, failed := Attempt(issued0, failed0, AddPrimaryKey(table, pk), failAt, done);
      } else {
        assert done + [] == done;
      }
    } else {
      assert done + [] == done;
    }
  }

  /** The profile, then the refreshed table cache. */
  method ApplyProfile(credential: Option<string>, userId: int, failAt: Option<nat>,
                      issued0: seq<Action>, failed0: bool, ghost done: seq<Action>)
    returns (issued: seq<Action>, failed: bool)
    requires issued0 == Issue(done, failAt) && failed0 == Fails(done, failAt)
    ensures issued == Issue(done + ProfilePart(credential, userId), failAt)
    ensures failed == Fails(done + ProfilePart(credential, userId), failAt)
  {
    var profile := Profile(credential, userId);
    issued, failed := Attempt(issued0, failed0, CreateProfile(profile, userId), failAt, done);
    issued, failed := Attempt(issued, failed, RefreshTables(userId), failAt, done + [CreateProfile(profile, userId)]);
    assert done + [CreateProfile(profile, userId)] + [RefreshTables(userId)] == done + ProfilePart(credential, userId);
  }

  /**
   * `create`: the calls made are the plan up to the one that raises; the
   * result is the module message exactly when none raises. The two counters
   * decide the "added" notices and count the calls of their loops.
   */
  method Create(userId: int, objectUri: string, table: string, editor: Option<Editor>,
                description: Option<string>, credential: Option<string>, failAt: Option<nat>)
    returns (result: Option<string>, issued: seq<Action>, commentsAdded: nat, annotationsAdded: nat)
    ensures issued == Issue(CreatePlan(userId, objectUri, table, editor, description, credential), failAt)
    ensures result.Some? <==> !Fails(CreatePlan(userId, objectUri, table, editor, description, credential), failAt)
    ensures result.Some? ==> result.value == ModuleMessage
    ensures result.Some? ==> commentsAdded == |CommentPart(table, editor)| && annotationsAdded == |AnnotationPart(table, editor)|
  {
    var failed: bool;
    ghost var p0 := [CreateTableFromCsv(objectUri, table)];
    issued, failed := Attempt([], false, CreateTableFromCsv(objectUri, table), failAt, []);
    issued, failed, commentsAdded, annotationsAdded := ApplyColumns(table, editor, failAt, issued, failed, p0);
    ghost var p1 := p0 + ColumnsPart(table, editor);
    ghost var f1 := failed;
    issued, failed := ApplyRest(table, editor, description, credential, userId, failAt, issued, failed, p1);
    assert p1 + RestPart(table, editor, description, credential, userId) == CreatePlan(userId, objectUri, table, editor, description, credential);
    assert !failed ==> !f1;
    result := if failed then None else Some(ModuleMessage);
  }

  /** The comment loop and then the annotation loop, with both counters. */
  method ApplyColumns(table: string, editor: Option<Editor>, failAt: Option<nat>,
                      issued0: seq<Action>, failed0: bool, ghost done: seq<Action>)
    returns (issued: seq<Action>, failed: bool, commentsAdded: nat, annotationsAdded: nat)
    requires issued0 == Issue(done, failAt) && failed0 == Fails(done, failAt)
    ensures issued == Issue(done + ColumnsPart(table, editor), failAt)
    ensures failed == Fails(done + ColumnsPart(table, editor), failAt)
    ensures !failed ==> commentsAdded == |CommentPart(table, editor)| && annotationsAdded == |AnnotationPart(table, editor)|
  {
    issued, failed, commentsAdded := ApplyComments(table, editor, failAt, issued0, failed0, done);
    ghost var f1 := failed;
    issued, failed, annotationsAdded := ApplyAnnotations(table, editor, failAt, issued, failed, done + CommentPart(table, editor));
    Assoc(done, CommentPart(table, editor), AnnotationPart(table, editor));
    assert !failed ==> !f1;
  }

  /** The table annotation, the primary key and the profile, in that order. */
  method ApplyRest(table: string, editor: Option<Editor>, description: Option<string>, credential: Option<string>,
                   userId: int, failAt: Option<nat>, issued0: seq<Action>, failed0: bool, ghost done: seq<Action>)
    returns (issued: seq<Action>, failed: bool)
    requires issued0 == Issue(done, failAt) && failed0 == Fails(done, failAt)
    ensures issued == Issue(done + RestPart(table, editor, description, credential, userId), failAt)
    ensures failed == Fails(done + RestPart(table, editor, description, credential, userId), failAt)
  {
    var d := DescriptionPart(table, description);
    var k := KeyPart(table, editor);
    issued, failed := ApplyDescription(table, description, failAt, issued0, failed0, done);
    issued, failed := ApplyKey(table, editor, failAt, issued, failed, done + d);
    issued, failed := ApplyProfile(credential, userId, failAt, issued, failed, done + d + k);
    Assoc(done, d + k, ProfilePart(credential, userId));
    Assoc(done, d, k);
  }
}
