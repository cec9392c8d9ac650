/** Prompt templates: the one-pass `${NAME}` language, what admission checks about a
    template, and what rendering then needs. */
module Templates {
  import opened Basics

  // ------------------------------------------------------------ the language

  datatype Token = Plain(text: string) | Hole(name: string)

  /** `str::find("${")`, or the length when there is none. */
  function FindOpen(s: string): (i: nat)
    ensures i <= |s|
    ensures i < |s| ==> i + 1 < |s| && s[i] == '$' && s[i + 1] == '{'
    ensures forall j :: 0 <= j < i && j + 1 < |s| ==> !(s[j] == '$' && s[j + 1] == '{')
  {
    if s == "" then 0
    else if |s| >= 2 && s[0] == '$' && s[1] == '{' then 0
    else
      var i := FindOpen(s[1..]);
      1 + i
  }

  /** `str::find('}')`, or the length when there is none. */
  function FindClose(s: string): (i: nat)
    ensures i <= |s| && (i < |s| ==> s[i] == '}') && forall j :: 0 <= j < i ==> s[j] != '}'
  {
    if s == "" || s[0] == '}' then 0 else 1 + FindClose(s[1..])
  }

  /** The next placeholder: `${` at `open`, its `}` at `close`. */
  datatype Next = NoMore | Unclosed | Found(open: nat, close: nat)

  function FindNext(s: string): (n: Next)
    ensures n.Found? ==> n.open + 2 <= n.close < |s|
  {
    var start := FindOpen(s);
    if start == |s| then NoMore
    else
      var offset := FindClose(s[start + 2..]);
      if offset == |s| - (start + 2) then Unclosed else Found(start, start + 2 + offset)
  }

  function Behind(before: string, name: string, after: Option<seq<Token>>): Option<seq<Token>> {
    match after
    case None => None
    case Some(tokens) => Some([Plain(before), Hole(name)] + tokens)
  }

  /** The template read left to right; nothing when a placeholder is never closed. */
  function Scan(s: string): Option<seq<Token>>
    decreases |s|
  {
    match FindNext(s)
    case NoMore => Some([Plain(s)])
    case Unclosed => None
    case Found(open, close) => Behind(s[..open], s[open + 2..close], Scan(s[close + 1..]))
  }

  function Names(tokens: seq<Token>): set<string> {
    set i | 0 <= i < |tokens| && tokens[i].Hole? :: tokens[i].name
  }

  /** Replacement text is appended as data, never scanned. */
  function Expand(tokens: seq<Token>, values: map<string, string>): string {
    if tokens == [] then ""
    else
      (match tokens[0]
       case Plain(t) => t
       case Hole(name) => if name in values then values[name] else "")
      + Expand(tokens[1..], values)
  }

  predicate IsNameChar(c: char) { 'A' <= c <= 'Z' || IsDigit(c) || c == '_' }

  predicate IsName(s: string) { 0 < |s| <= 64 && forall i :: 0 <= i < |s| ==> IsNameChar(s[i]) }

  // --------------------------------------------------------------- admission

  datatype Role = ProductResearch | Engineering | Quality

  /** `allowed_placeholders`; the mission has no role. */
  function Allowed(role: Option<Role>): set<string> {
    {"ASSIGNMENT_ID", "MISSION", "TARGET"}
    + (match role
       case Some(Engineering) => {"TICKET_ID", "TICKET_REVISION_ID", "REGRESSION_COMMAND", "REGRESSION_EXPECTED_FAILURE"}
       case Some(Quality) => {"TICKET_ID", "TICKET_REVISION_ID", "CANDIDATE_ID", "VALIDATION_ID"}
       case _ => {})
  }

  datatype TemplateError =
    | InvalidSyntax | InvalidPlaceholder | MissingPlaceholder | UnavailablePlaceholder | UndeclaredValue | NulInValue
    | ByteLimitExceeded

  predicate Admissible(name: string, declared: set<string>, allowed: set<string>) {
    IsName(name) && name in declared && name in allowed
  }

  /** What admission answers for the rest of a template, given the names already found:
      the first fault in reading order decides. */
  function Verdict(s: string, declared: set<string>, allowed: set<string>,
                   found: set<string>): Result<set<string>, TemplateError>
    decreases |s|
  {
    match FindNext(s)
    case NoMore => if found == declared then Ok(found) else Err(MissingPlaceholder)
    case Unclosed => Err(InvalidSyntax)
    case Found(open, close) =>
      if !Admissible(s[open + 2..close], declared, allowed) then Err(InvalidPlaceholder)
      else Verdict(s[close + 1..], declared, allowed, found + {s[open + 2..close]})
  }

  /** The scanned placeholders are exactly the declared ones, and all of them allowed. */
  predicate Admits(s: string, declared: set<string>, allowed: set<string>) {
    && Scan(s).Some? && Names(Scan(s).value) == declared && declared <= allowed && forall n :: n in declared ==>
          IsName(n)
  }

  lemma NamesOfHole(before: string, name: string, tokens: seq<Token>)
    ensures Names([Plain(before), Hole(name)] + tokens) == {name} + Names(tokens)
  {
    var all := [Plain(before), Hole(name)] + tokens;
    assert all[1] == Hole(name);
    forall n
      ensures n in Names(all) <==> n in {name} + Names(tokens)
    {
      if n in Names(tokens) {
        var i :| 0 <= i < |tokens| && tokens[i].Hole? && tokens[i].name == n;
        assert all[i + 2] == tokens[i];
      }
    }
  }

  lemma ScanHole(s: string)
    requires FindNext(s).Found?
    ensures Scan(s) == Behind(s[..FindNext(s).open], s[FindNext(s).open + 2..FindNext(s).close],
                              Scan(s[FindNext(s).close + 1..]))
  {
  }

  predicate AllAdmissible(names: set<string>, declared: set<string>, allowed: set<string>) {
    forall n :: n in names ==> Admissible(n, declared, allowed)
  }

  lemma AdmissibleWith(name: string, names: set<string>, declared: set<string>, allowed: set<string>)
    ensures AllAdmissible({name} + names, declared, allowed) <==>
              Admissible(name, declared, allowed) && AllAdmissible(names, declared, allowed)
  {
  }

  lemma {:induction false} VerdictMeansAdmits(s: string, declared: set<string>, allowed: set<string>,
                                              found: set<string>)
    ensures Verdict(s, declared, allowed, found).Ok? <==>
              Scan(s).Some? && found + Names(Scan(s).value) == declared
              && AllAdmissible(Names(Scan(s).value), declared, allowed)
    decreases |s|
  {
    hide FindNext, Names, Admissible, AllAdmissible;
    var next := FindNext(s);
    if next.NoMore? {
      PlainOnly(s, declared, map[]);
      assert found + {} == found;
      assert AllAdmissible({}, declared, allowed) by { NoneInadmissible(declared, allowed); }
    } else if next.Found? {
      var name, after := s[next.open + 2..next.close], s[next.close + 1..];
      ScanHole(s);
      VerdictMeansAdmits(after, declared, allowed, found + {name});
      if Scan(after).Some? {
        var names := Names(Scan(after).value);
        NamesOfHole(s[..next.open], name, Scan(after).value);
        AdmissibleWith(name, names, declared, allowed);
        assert found + ({name} + names) == (found + {name}) + names;
      }
      hide Scan;
    }
  }

  lemma NoneInadmissible(declared: set<string>, allowed: set<string>)
    ensures AllAdmissible({}, declared, allowed)
  {
  }

  /** Admission accepts exactly the templates whose scanned placeholders are the declared
      ones and all allowed for the role. */
  lemma AdmissionIsExact(s: string, declared: set<string>, allowed: set<string>)
    ensures Verdict(s, declared, allowed, {}).Ok? <==> Admits(s, declared, allowed)
  {
    VerdictMeansAdmits(s, declared, allowed, {});
    if Scan(s).Some? {
      assert {} + Names(Scan(s).value) == Names(Scan(s).value);
    }
    hide Scan, Names, IsName, Verdict;
  }

  /** A placeholder found from `cursor` on, in the whole template's positions. */
  lemma PlaceholderAt(source: string, cursor: nat)
    requires cursor <= |source| && FindNext(source[cursor..]).Found?
    ensures var next := FindNext(source[cursor..]);
            && source[cursor..][next.open + 2..next.close] == source[cursor + next.open + 2..cursor + next.close]
            && source[cursor..][next.close + 1..] == source[cursor + next.close + 1..]
            && source[cursor..][..next.open] == source[cursor..cursor + next.open]
  {
    hide FindNext;
  }

  /** `validate_template_bytes` over valid UTF-8. */
  method ValidateTemplate(source: string, declared: set<string>, role: Option<Role>)
    returns (verdict: Result<(), TemplateError>)
    ensures verdict.Ok? <==> Admits(source, declared, Allowed(role))
    ensures verdict.Err? ==> Verdict(source, declared, Allowed(role), {}) == Err(verdict.error)
  {
    hide Allowed, Names, IsName, FindNext, Admits, Scan;
    AdmissionIsExact(source, declared, Allowed(role));
    var allowed := Allowed(role);
    var found: set<string> := {};
    var cursor := 0;
    assert source[0..] == source;
    var next := FindNext(source);
    while !next.NoMore?
      invariant 0 <= cursor <= |source| && found <= declared && next == FindNext(source[cursor..])
      invariant Verdict(source, declared, allowed, {}) == Verdict(source[cursor..], declared, allowed, found)
      decreases |source| - cursor
    {
      if next.Unclosed? { return Err(InvalidSyntax); }
      PlaceholderAt(source, cursor);
      var name := source[cursor + next.open + 2..cursor + next.close];
      if !Admissible(name, declared, allowed) { return Err(InvalidPlaceholder); }
      found := found + {name};
      cursor := cursor + next.close + 1;
      next := FindNext(source[cursor..]);
    }
    if |found| != |declared| {
      return Err(MissingPlaceholder);
    }
    EqualByCount(found, declared);
    verdict := Ok(());
  }

  lemma EqualByCount(a: set<string>, b: set<string>)
    requires a <= b && |a| == |b|
    ensures a == b
  {
    if a != b {
      var x :| x in b && x !in a;
      assert a <= b - {x};
      SubsetCount(a, b - {x});
    }
  }

  lemma {:induction false} SubsetCount(a: set<string>, b: set<string>)
    requires a <= b
    ensures |a| <= |b|
    decreases a
  {
    if a != {} {
      var x :| x in a;
      SubsetCount(a - {x}, b - {x});
    }
  }

  // --------------------------------------------------------------- rendering

  predicate HasNul(s: string) { exists i :: 0 <= i < |s| && s[i] == 0 as char }

  /** `render_template_v2` for values of declared placeholders only. */
  predicate Renders(source: string, declared: set<string>, values: map<string, string>, limit: nat) {
    && values.Keys <= declared && (forall n :: n in values ==> !HasNul(values[n]))
    && Scan(source).Some? && Names(Scan(source).value) == declared
    && (forall n :: n in declared ==> IsName(n) && n in values)
    && |Expand(Scan(source).value, values)| <= limit
  }

  /** What the loop appends from here on and which names it finds, unless it meets a fault. */
  function Rest(s: string, declared: set<string>, values: map<string, string>): Option<(string, set<string>)>
    decreases |s|
  {
    match FindNext(s)
    case NoMore => Some((s, {}))
    case Unclosed => None
    case Found(open, close) =>
      var name := s[open + 2..close];
      if !IsName(name) || name !in declared || name !in values then None
      else
        match Rest(s[close + 1..], declared, values)
        case None => None
        case Some((text, found)) => Some((s[..open] + (values[name] + text), {name} + found))
  }

  predicate Usable(names: set<string>, declared: set<string>, values: map<string, string>) {
    forall n :: n in names ==> IsName(n) && n in declared && n in values
  }

  lemma UsableWith(name: string, names: set<string>, declared: set<string>, values: map<string, string>)
    ensures Usable({name} + names, declared, values) <==>
              IsName(name) && name in declared && name in values && Usable(names, declared, values)
  {
  }

  lemma {:induction false} RestIsExpansion(s: string, declared: set<string>, values: map<string, string>)
    ensures Rest(s, declared, values).Some? <==> Scan(s).Some? && Usable(Names(Scan(s).value), declared, values)
    ensures Rest(s, declared, values).Some? ==>
              Rest(s, declared, values).value == (Expand(Scan(s).value, values), Names(Scan(s).value))
    decreases |s|
  {
    hide FindNext, Names, IsName, Usable, Expand;
    var next := FindNext(s);
    if next.NoMore? {
      PlainOnly(s, declared, values);
    } else if next.Found? {
      var name, after := s[next.open + 2..next.close], s[next.close + 1..];
      RestIsExpansion(after, declared, values);
      ScanHole(s);
      if Scan(after).Some? {
        NamesOfHole(s[..next.open], name, Scan(after).value);
        ExpandHole(s[..next.open], name, Scan(after).value, values);
        UsableWith(name, Names(Scan(after).value), declared, values);
      }
      hide Scan;
    }
  }

  lemma PlainOnly(s: string, declared: set<string>, values: map<string, string>)
    ensures Names([Plain(s)]) == {} && Expand([Plain(s)], values) == s && Usable({}, declared, values)
  {
    assert [Plain(s)][1..] == [];
  }

  lemma ExpandHole(before: string, name: string, tokens: seq<Token>, values: map<string, string>)
    ensures Expand([Plain(before), Hole(name)] + tokens, values)
         == before + ((if name in values then values[name] else "") + Expand(tokens, values))
  {
    var all := [Plain(before), Hole(name)] + tokens;
    assert all[1..] == [Hole(name)] + tokens;
    assert ([Hole(name)] + tokens)[1..] == tokens;
  }

  /** `render_template_v2`: succeeds exactly when every declared placeholder occurs and
      has a value within the limits, and then gives the one-pass expansion. */
  method RenderTemplate(source: string, declared: set<string>, values: map<string, string>, limit: nat)
    returns (rendered: Result<string, TemplateError>)
    ensures rendered.Ok? <==> Renders(source, declared, values, limit)
    ensures rendered.Ok? ==> rendered.value == Expand(Scan(source).value, values)
  {
    hide Names, IsName, HasNul, FindNext, Scan, Expand;
    if !(values.Keys <= declared) { return Err(UndeclaredValue); }
    if exists n :: n in values && HasNul(values[n]) { return Err(NulInValue); }
    RestIsExpansion(source, declared, values);
    var found: set<string>, text := {}, "";
    var cursor := 0;
    assert source[0..] == source;
    ContinuesFromStart(source, declared, values);
    var next := FindNext(source);
    while !next.NoMore?
      invariant 0 <= cursor <= |source| && next == FindNext(source[cursor..])
      invariant Continues(source, cursor, declared, values, text, found)
      decreases |source| - cursor
    {
      if next.Unclosed? { return Err(InvalidSyntax); }
      PlaceholderAt(source, cursor);
      var name := source[cursor + next.open + 2..cursor + next.close];
      if !IsName(name) || name !in declared { return Err(InvalidPlaceholder); }
      if name !in values { return Err(UnavailablePlaceholder); }
      ContinuesPast(source, cursor, declared, values, text, found);
      text := text + source[cursor..cursor + next.open] + values[name];
      found := found + {name};
      cursor := cursor + next.close + 1;
      next := FindNext(source[cursor..]);
    }
    text := text + source[cursor..];
    assert found + {} == found;
    if exists n :: n in declared && n !in found { return Err(MissingPlaceholder); }
    if |text| > limit { return Err(ByteLimitExceeded); }
    rendered := Ok(text);
  }

  /** The text and names so far, with the rest from `cursor`, make up the whole. */
  ghost predicate Continues(source: string, cursor: nat, declared: set<string>, values: map<string, string>,
                            text: string, found: set<string>)
    requires cursor <= |source|
  {
    var whole, rest := Rest(source, declared, values), Rest(source[cursor..], declared, values);
    && (whole.Some? <==> rest.Some?)
    && (whole.Some? ==> whole.value == (text + rest.value.0, found + rest.value.1))
  }

  lemma ContinuesFromStart(source: string, declared: set<string>, values: map<string, string>)
    ensures Continues(source, 0, declared, values, "", {})
  {
    assert source[0..] == source;
    var whole := Rest(source, declared, values);
    if whole.Some? {
      assert "" + whole.value.0 == whole.value.0;
      assert {} + whole.value.1 == whole.value.1;
    }
  }

  lemma ContinuesPast(source: string, cursor: nat, declared: set<string>, values: map<string, string>, text: string,
                      found: set<string>)
    requires cursor <= |source| && Continues(source, cursor, declared, values, text, found)
    requires FindNext(source[cursor..]).Found?
    requires var next := FindNext(source[cursor..]);
             var name := source[cursor + next.open + 2..cursor + next.close];
             IsName(name) && name in declared && name in values
    ensures var next := FindNext(source[cursor..]);
            var name := source[cursor + next.open + 2..cursor + next.close];
            Continues(source, cursor + next.close + 1, declared, values,
                      text + source[cursor..cursor + next.open] + values[name], found + {name})
  {
    hide IsName, FindNext;
    PlaceholderAt(source, cursor);
    var next := FindNext(source[cursor..]);
    var name := source[cursor + next.open + 2..cursor + next.close];
    var before := source[cursor..cursor + next.open];
    var later := Rest(source[cursor + next.close + 1..], declared, values);
    if later.Some? {
      Associate(text, before, values[name] + later.value.0);
      Associate(text + before, values[name], later.value.0);
      assert found + ({name} + later.value.1) == (found + {name}) + later.value.1;
    }
  }

  // ------------------------------------------- admitted templates can be used

  /** What the durable facts of an assignment's target provide. */
  datatype Facts =
    | ProductFacts
    | EngineeringFacts(ticket: nat, ticketRevision: nat, regressionCommand: string, expectedFailure: string)
    | QualityFacts(ticket: nat, ticketRevision: nat, candidate: nat, validation: nat)

  /** `office_for_target` */
  function RoleOf(f: Facts): Role {
    match f case ProductFacts => ProductResearch case EngineeringFacts(_, _, _, _) => Engineering case QualityFacts(_, _, _, _) => Quality
  }

  /** `prompt_values` */
  function PromptValues(assignment: nat, target: string, mission: string, f: Facts): map<string, string> {
    map["ASSIGNMENT_ID" := Decimal(assignment), "MISSION" := mission, "TARGET" := target]
    + (match f
       case ProductFacts => map[]
       case EngineeringFacts(t, r, command, failure) =>
         map["TICKET_ID" := Decimal(t), "TICKET_REVISION_ID" := Decimal(r), "REGRESSION_COMMAND" := command,
             "REGRESSION_EXPECTED_FAILURE" := failure]
       case QualityFacts(t, r, k, v) =>
         map["TICKET_ID" := Decimal(t), "TICKET_REVISION_ID" := Decimal(r), "CANDIDATE_ID" := Decimal(k), "VALIDATION_ID" := Decimal(v)])
  }

  lemma ValuesCoverAllowed(assignment: nat, target: string, mission: string, f: Facts)
    ensures PromptValues(assignment, target, mission, f).Keys == Allowed(Some(RoleOf(f)))
  {
  }

  /** The values passed on: those of the declared placeholders. */
  function Selected(values: map<string, string>, declared: set<string>): map<string, string> {
    map n | n in declared && n in values :: values[n]
  }

  /** `render_declared_template` */
  method RenderDeclared(source: string, declared: set<string>, values: map<string, string>, limit: nat)
    returns (rendered: Result<string, TemplateError>)
    ensures rendered.Ok? <==> declared <= values.Keys && Renders(source, declared, Selected(values, declared), limit)
    ensures rendered.Ok? ==> rendered.value == Expand(Scan(source).value, Selected(values, declared))
  {
    if !(declared <= values.Keys) { return Err(UnavailablePlaceholder); }
    rendered := RenderTemplate(source, declared, Selected(values, declared), limit);
  }

  /** A template admitted for a role always renders for a target of that role, up to a
      NUL in a used value and the byte limit: no placeholder can be missing. */
  lemma AdmittedTemplatesRender(source: string, declared: set<string>, limit: nat, assignment: nat, target: string,
                                mission: string, f: Facts)
    requires Admits(source, declared, Allowed(Some(RoleOf(f))))
    ensures var values := PromptValues(assignment, target, mission, f);
            && declared <= values.Keys
            && (Renders(source, declared, Selected(values, declared), limit) <==>
                  (forall n :: n in declared ==> !HasNul(values[n]))
                  && |Expand(Scan(source).value, Selected(values, declared))| <= limit)
  {
    ValuesCoverAllowed(assignment, target, mission, f);
    var values := PromptValues(assignment, target, mission, f);
    assert Selected(values, declared).Keys == declared;
    hide Allowed, PromptValues, Names, HasNul, Expand, Scan;
  }

  lemma HoleHasName(s: string)
    requires FindNext(s).Found? && Scan(s).Some?
    ensures Names(Scan(s).value) != {}
  {
    hide FindNext, Names, Scan;
    ScanHole(s);
    var next := FindNext(s);
    NamesOfHole(s[..next.open], s[next.open + 2..next.close], Scan(s[next.close + 1..]).value);
    assert s[next.open + 2..next.close] in Names(Scan(s).value);
  }

  lemma ExpandPlain(s: string, values: map<string, string>)
    ensures Expand([Plain(s)], values) == s
  {
    hide Scan, FindNext;
    assert [Plain(s)][1..] == [];
  }

  lemma NoHolesExpandPlainly(s: string, values: map<string, string>)
    requires Scan(s).Some? && Names(Scan(s).value) == {}
    ensures Scan(s).value == [Plain(s)] && Expand(Scan(s).value, values) == s
  {
    hide FindNext, Expand, Names;
    if FindNext(s).Found? {
      HoleHasName(s);
    }
    ExpandPlain(s, values);
  }

  const NO_VALUES: map<string, string> := map[]

  /** The mission is admitted like any template but rendered with no values at all, so it
      can be used exactly when it declares no placeholder. */
  lemma MissionRendersExactly(source: string, declared: set<string>, limit: nat)
    requires Admits(source, declared, Allowed(None))
    ensures declared <= NO_VALUES.Keys && Renders(source, declared, Selected(NO_VALUES, declared), limit) <==>
              declared == {} && |source| <= limit
  {
    if declared == {} {
      NoHolesExpandPlainly(source, Selected(NO_VALUES, declared));
    }
  }

  lemma NextOfTarget()
    ensures FindNext("${TARGET}") == Found(0, 8) && FindNext("") == NoMore
  {
    var s := "${TARGET}";
    assert FindOpen(s) == 0;
    var rest := "TARGET}";
    assert s[2..] == rest;
    assert rest[6] == '}' && forall j :: 0 <= j < 6 ==> rest[j] != '}';
    assert FindClose(rest) == 6;
  }

  /** One admitted mission that no assignment can use. */
  lemma MissionWithPlaceholder()
    ensures Admits("${TARGET}", {"TARGET"}, Allowed(None))
    ensures !({"TARGET"} <= NO_VALUES.Keys)
  {
    var s := "${TARGET}";
    NextOfTarget();
    hide FindNext;
    assert s[2..8] == "TARGET" && s[9..] == "" && s[..0] == "";
    ScanHole(s);
    assert Scan("") == Some([Plain("")]);
    NamesOfHole("", "TARGET", [Plain("")]);
    PlainOnly("", {"TARGET"}, NO_VALUES);
    hide Scan;
    assert "TARGET" in {"TARGET"};
  }
}
