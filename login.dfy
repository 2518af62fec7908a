/**
 * The login component: parsing the user's module list, the sidebar menu it
 * decides, the message chosen for the login language, and the session state
 * that signing in, checking the login and signing out read and write.
 */
module Login {
  import opened Wrappers
  import opened Strings
  import opened PyJson

  // ---------------------------------------------------------------------
  // parse_modules

  const Brackets: set<char> := {'[', ']'}
  const Quote: set<char> := {'"'}

  /** One item of the fallback: `m.strip().strip('"')`. */
  function CleanItem(m: string): string {
    StripChars(Strip(m), Quote)
  }

  /** The fallback of `parse_modules`: brackets stripped off the ends, split at commas, each item cleaned. */
  function ParseModulesFallback(modules: string): (r: seq<string>)
    ensures var parts := Split(StripChars(modules, Brackets), ',');
      |r| == |parts| && forall i :: 0 <= i < |r| ==> r[i] == CleanItem(parts[i])
  {
    var parts := Split(StripChars(modules, Brackets), ',');
    seq(|parts|, i requires 0 <= i < |parts| => CleanItem(parts[i]))
  }

  /**
   * `parse_modules`: what `ast.literal_eval` made of the text when it
   * parsed it as a list of names, and the fallback when it raised.
   */
  function ParseModules(modules: string, literal: Option<seq<string>>): (r: seq<string>)
    ensures literal.Some? ==> r == literal.value
    ensures literal.None? ==> r == ParseModulesFallback(modules)
  {
    match literal
    case Some(names) => names
    case None => ParseModulesFallback(modules)
  }

  /** The characters the fallback strips off the ends of the text or of an item. */
  const EndChars: set<char> := Whitespace + Quote + Brackets

  /** A module name the fallback reads back as it is: no comma, and neither end is whitespace, a quote or a bracket. */
  predicate CleanName(n: string) {
    ',' !in n && (n != [] ==> n[0] !in EndChars && n[|n| - 1] !in EndChars)
  }

  /** Names joined by commas are read back by the fallback. */
  lemma FallbackRoundTrip(names: seq<string>)
    requires |names| > 0 && forall i :: 0 <= i < |names| ==> CleanName(names[i])
    ensures ParseModulesFallback(Join(names, ",")) == names
  {
    JoinUnstripped(names);
    JoinSplitsBack(names);
    forall i | 0 <= i < |names| ensures CleanItem(names[i]) == names[i] {
      CleanItemOfCleanName(names[i]);
    }
  }

  /** Stripping brackets off a join of clean names leaves it as it is. */
  lemma JoinUnstripped(names: seq<string>)
    requires |names| > 0 && CleanName(names[0]) && CleanName(names[|names| - 1])
    ensures StripChars(Join(names, ","), Brackets) == Join(names, ",")
  {
    JoinEndsClean(names);
    StripNothing(Join(names, ","), Brackets);
  }

  /** Splitting a join of clean names at its commas gives the names. */
  lemma JoinSplitsBack(names: seq<string>)
    requires |names| > 0 && forall i :: 0 <= i < |names| ==> CleanName(names[i])
    ensures Split(Join(names, ","), ',') == names
  {
    SplitJoin(names, ',');
    assert Join(names, [',']) == Join(names, ",");
  }

  /** The same list in brackets, as `str` of a list without its quotes reads, is read back too. */
  lemma FallbackRoundTripBracketed(names: seq<string>)
    requires |names| > 0 && forall i :: 0 <= i < |names| ==> CleanName(names[i])
    ensures ParseModulesFallback("[" + Join(names, ",") + "]") == names
  {
    BracketsUnwrapped(names);
    JoinUnstripped(names);
    FallbackRoundTrip(names);
  }

  /** The brackets around a join of clean names are all that stripping takes off. */
  lemma BracketsUnwrapped(names: seq<string>)
    requires |names| > 0 && CleanName(names[0]) && CleanName(names[|names| - 1])
    ensures StripChars("[" + Join(names, ",") + "]", Brackets) == Join(names, ",")
  {
    var text := Join(names, ",");
    JoinEndsClean(names);
    assert "[" + text + "]" == ['['] + text + [']'];
    StripWrapped('[', text, ']', Brackets);
  }

  /** Neither end of a join of clean names is a bracket. */
  lemma JoinEndsClean(names: seq<string>)
    requires |names| > 0 && CleanName(names[0]) && CleanName(names[|names| - 1])
    ensures var t := Join(names, ","); t != [] ==> t[0] !in Brackets && t[|t| - 1] !in Brackets
  {
    JoinHead(names);
    JoinTail(names);
  }

  /** A clean name is its own cleaned item. */
  lemma CleanItemOfCleanName(n: string)
    requires CleanName(n)
    ensures CleanItem(n) == n
  {
    StripNothing(n, Whitespace);
    StripNothing(n, Quote);
  }

  /** The first character of a join is the first name's, or a comma when that name is empty. */
  lemma JoinHead(names: seq<string>)
    requires |names| > 0
    ensures var t := Join(names, ",");
      t != [] ==> (names[0] != [] && t[0] == names[0][0]) || t[0] == ','
  {
    if |names| > 1 {
      assert Join(names, ",") == names[0] + "," + Join(names[1..], ",");
    }
  }

  /** The last character of a join is the last name's, or a comma when that name is empty. */
  lemma JoinTail(names: seq<string>)
    requires |names| > 0
    ensures var t := Join(names, ","); var last := names[|names| - 1];
      t != [] ==> (last != [] && t[|t| - 1] == last[|last| - 1]) || t[|t| - 1] == ','
  {
    if |names| > 1 {
      JoinLast(names, ",");
    }
  }

  /** Every item of the fallback is free of commas and of surrounding quotes. */
  lemma FallbackItems(modules: string)
    ensures var r := ParseModulesFallback(modules);
      forall i :: 0 <= i < |r| ==> ',' !in r[i] && StripChars(r[i], Quote) == r[i]
  {
    var parts := Split(StripChars(modules, Brackets), ',');
    var r := ParseModulesFallback(modules);
    forall i | 0 <= i < |r| ensures ',' !in r[i] && StripChars(r[i], Quote) == r[i] {
      CleanItemShape(parts[i]);
    }
  }

  /** Cleaning an item adds no comma, and leaves no quote at either end. */
  lemma CleanItemShape(m: string)
    ensures ',' !in m ==> ',' !in CleanItem(m)
    ensures StripChars(CleanItem(m), Quote) == CleanItem(m)
  {
    var s := Strip(m);
    if ',' !in m {
      StripCharsKeepsOut(m, Whitespace, ',');
      StripCharsKeepsOut(s, Quote, ',');
    }
    StripCharsIdempotent(s, Quote);
  }

  // ---------------------------------------------------------------------
  // The sidebar menu

  /** `st.page_link(page, label=…, icon=…)`, the label as `caption`. */
  datatype PageLink = PageLink(caption: string, page: string, icon: string)

  const AiDemos: seq<PageLink> := [
    PageLink("AI Speech Real-Time", "pages/app_speech.py", ":material/mic:"),
    PageLink("Select AI", "pages/app_chat_01.py", ":material/smart_toy:"),
    PageLink("Select AI RAG", "pages/app_chat_02.py", ":material/plagiarism:"),
    PageLink("Vector Database", "pages/app_chat_03.py", ":material/network_intelligence:")
  ]

  /** The links shown to everyone before the demos. */
  const AlwaysShown: seq<PageLink> := [
    PageLink("Knowledge", "app.py", ":material/book_ribbon:"),
    PageLink("Agents", "pages/app_agents.py", ":material/smart_toy:"),
    PageLink("Agent Builder", "pages/app_agent_builder.py", ":material/flowchart:")
  ]

  const AdminLinks: seq<PageLink> := [
    PageLink("Users", "pages/app_users.py", ":material/settings_account_box:"),
    PageLink("User Group", "pages/app_user_group.py", ":material/group:")
  ]

  const ProfileLink := PageLink("Profile", "pages/app_profile.py", ":material/manage_accounts:")

  /** `[demo for demo in demos if demo[0] in module_list]`. */
  function Available(demos: seq<PageLink>, moduleList: seq<string>): (r: seq<PageLink>)
    ensures |r| <= |demos|
  {
    if demos == [] then []
    else
      var last := demos[|demos| - 1];
      Available(demos[..|demos| - 1], moduleList) + (if last.caption in moduleList then [last] else [])
  }

  /** A demo is offered exactly when its label is one of the user's modules. */
  lemma {:induction false} AvailableExact(demos: seq<PageLink>, moduleList: seq<string>)
    ensures forall d :: d in Available(demos, moduleList) <==> d in demos && d.caption in moduleList
  {
    if demos != [] {
      var init := demos[..|demos| - 1];
      AvailableExact(init, moduleList);
      assert demos == init + [demos[|demos| - 1]];
    }
  }

  /** Demos keep their order: filtering a concatenation filters each part. */
  lemma {:induction false} AvailableInOrder(a: seq<PageLink>, b: seq<PageLink>, moduleList: seq<string>)
    ensures Available(a + b, moduleList) == Available(a, moduleList) + Available(b, moduleList)
  {
    if b != [] {
      AvailableInOrder(a, b[..|b| - 1], moduleList);
      assert (a + b)[..|a + b| - 1] == a + b[..|b| - 1];
    } else {
      assert a + b == a;
    }
  }

  /** With every demo among the modules, all of them are offered; with none, none is. */
  lemma {:induction false} AvailableAllOrNone(demos: seq<PageLink>, moduleList: seq<string>)
    ensures (forall i :: 0 <= i < |demos| ==> demos[i].caption in moduleList) ==> Available(demos, moduleList) == demos
    ensures (forall i :: 0 <= i < |demos| ==> demos[i].caption !in moduleList) ==> Available(demos, moduleList) == []
  {
    if demos != [] {
      var init := demos[..|demos| - 1];
      AvailableAllOrNone(init, moduleList);
      assert demos == init + [demos[|demos| - 1]];
    }
  }

  /** The page links of the sidebar, in the order they appear. */
  function Menu(moduleList: seq<string>): (r: seq<PageLink>)
    ensures |r| >= 4 && r[..3] == AlwaysShown && r[|r| - 1] == ProfileLink
  {
    AlwaysShown + Available(AiDemos, moduleList) +
    (if "Administrator" in moduleList then AdminLinks else []) + [ProfileLink]
  }

  /** The user administration links appear exactly for administrators. */
  lemma AdminMenu(moduleList: seq<string>)
    ensures AdminLinks[0] in Menu(moduleList) <==> "Administrator" in moduleList
    ensures AdminLinks[1] in Menu(moduleList) <==> "Administrator" in moduleList
  {
    var r := Menu(moduleList);
    var demos := Available(AiDemos, moduleList);
    AvailableExact(AiDemos, moduleList);
    if "Administrator" in moduleList {
      assert r == AlwaysShown + demos + AdminLinks + [ProfileLink];
      assert r[|AlwaysShown| + |demos|] == AdminLinks[0];
      assert r[|AlwaysShown| + |demos| + 1] == AdminLinks[1];
    } else {
      assert r == AlwaysShown + demos + [ProfileLink];
      forall d | d in r ensures d != AdminLinks[0] && d != AdminLinks[1] {
        assert d in AlwaysShown || d in demos || d == ProfileLink;
      }
    }
  }

  // ---------------------------------------------------------------------
  // The login form

  /** The "no information" answer in the language chosen at login, `None` for any other value; the accented letters are kept as the source file spells them, UTF-8 read twice. */
  function LanguageMessage(language: string): (r: Option<string>)
    ensures r.Some? <==> language in {"Spanish", "Portuguese", "English"}
  {
    match language
    case "Spanish" => Some("No tengo esa informaciÃ³n.")
    case "Portuguese" => Some("NÃ£o tenho essa informaÃ§Ã£o.")
    case "English" => Some("I don't have that information.")
    case _ => None
  }

  /** The three languages have three different messages. */
  lemma LanguageMessagesDiffer()
    ensures LanguageMessage("Spanish") != LanguageMessage("Portuguese")
    ensures LanguageMessage("Spanish") != LanguageMessage("English")
    ensures LanguageMessage("Portuguese") != LanguageMessage("English")
  {
    assert LanguageMessage("Spanish").value[1] == 'o' && LanguageMessage("Spanish").value[0] == 'N';
    assert LanguageMessage("Portuguese").value[1] == 'Ã' && LanguageMessage("Portuguese").value[0] == 'N';
    assert LanguageMessage("English").value[0] == 'I';
  }

  /** The first row `get_access` found for the user name and password. */
  datatype Access = Access(userId: int, userGroupId: int, moduleNames: string, username: string,
                           name: string, lastName: string, userState: int)

  /** What the form shows after the button is pressed. */
  datatype LoginOutcome = SignedIn | Deactivated | InvalidCredentials

  /** The keys `get_login` needs to find to consider the user signed in. */
  const LoginKeys: seq<string> := ["username", "user", "user_id", "modules", "chat-history", "chat-save"]

  /** `f"{name}, {last_name}"`. */
  function DisplayName(a: Access): string {
    a.name + ", " + a.lastName
  }

  /** The entries a successful login writes. */
  function LoginEntries(a: Access, language: string): (r: map<string, PyVal>)
    ensures forall k :: k in LoginKeys ==> k in r
    ensures r["user_id"] == PInt(a.userId) && r["modules"] == PStr(a.moduleNames)
    ensures r["username"] == PStr(a.username) && r["user"] == PStr(DisplayName(a))
  {
    map[
      "page" := PStr("app.py"),
      "user_id" := PInt(a.userId),
      "user_group_id" := PInt(a.userGroupId),
      "modules" := PStr(a.moduleNames),
      "username" := PStr(a.username),
      "user" := PStr(DisplayName(a)),
      "language" := PStr(language),
      "language-message" := (match LanguageMessage(language) case Some(m) => PStr(m) case None => PNone),
      "chat-select-ai" := PList([]),
      "chat-select-ai-rag" := PList([]),
      "chat-docs" := PList([]),
      "chat-save" := PList([]),
      "chat-modules" := PList([]),
      "chat-objects" := PList([]),
      "chat-agent" := PInt(0),
      "chat-history" := PList([]),
      "ai-agent" := PNone
    ]
  }

  /** `st.session_state` as the login component reads and writes it. */
  class LoginSession {
    var state: map<string, PyVal>

    /** The check at the top of `get_login`: all six keys are there. */
    predicate SignedInState()
      reads this
    {
      forall k :: k in LoginKeys ==> k in state
    }

    /** A fresh browser session. */
    constructor ()
      ensures state == map[] && !SignedInState()
    {
      state := map[];
      new;
      assert LoginKeys[0] !in state;
    }

    /** `get_login`'s answer: it renders the menu and returns true exactly when the six keys are there. */
    method GetLogin() returns (signedIn: bool)
      ensures signedIn <==> SignedInState()
    {
      signedIn := "username" in state && "user" in state && "user_id" in state &&
                  "modules" in state && "chat-history" in state && "chat-save" in state;
    }

    /**
     * Pressing the login button: a found, active user (`USER_STATE == 1`)
     * gets the session entries and is signed in; a found user in any other
     * state is told the account is deactivated, and an unknown one that the
     * credentials are invalid, both with the session untouched.
     */
    method SubmitLogin(access: Option<Access>, language: string) returns (outcome: LoginOutcome)
      modifies this
      ensures access.Some? && access.value.userState == 1 ==>
        outcome == SignedIn && state == old(state) + LoginEntries(access.value, language)
      ensures access.Some? && access.value.userState != 1 ==> outcome == Deactivated && state == old(state)
      ensures access.None? ==> outcome == InvalidCredentials && state == old(state)
      ensures outcome == SignedIn ==> SignedInState()
    {
      match access
      case None =>
        outcome := InvalidCredentials;
      case Some(a) =>
        if a.userState == 1 {
          state := state + LoginEntries(a, language);
          outcome := SignedIn;
        } else {
          outcome := Deactivated;
        }
    }

    /** The sign-out button: the whole session is cleared, so the next check finds no login. */
    method SignOut()
      modifies this
      ensures state == map[] && !SignedInState()
    {
      state := map[];
      assert LoginKeys[0] !in state;
    }
  }
}
