// From the text fields of the client dialogs to stored metadata, and back.
module ClientMetadata {
  import opened Common
  import opened Text

  const CODE := "code"
  const AUTHORIZATION_CODE := "authorization_code"
  const REFRESH_TOKEN := "refresh_token"
  const METHOD_NONE := "none"
  const METHOD_BASIC := "client_secret_basic"
  const METHOD_POST := "client_secret_post"
  const GRANTS: set<string> := {AUTHORIZATION_CODE, REFRESH_TOKEN}
  const RESPONSES: set<string> := {CODE}
  const SCOPES: set<string> := {"openid", "profile", "email"}
  const METHODS: set<string> := {METHOD_NONE, METHOD_BASIC, METHOD_POST}

  // The fields of the dialog as submitted; None is a missing value.
  datatype Form = Form(
    name: Option<string>, uri: Option<string>, scope: Option<string>, redirects: Option<string>,
    grants: Option<string>, responses: Option<string>, authMethod: Option<string>)

  datatype Metadata = Metadata(
    name: string, uri: string, grants: seq<string>, redirects: seq<string>,
    responses: seq<string>, scope: string, authMethod: string)

  function OrEmpty(v: Option<string>): string {
    if v.Some? then v.value else ""
  }

  function ParseMultiline(v: Option<string>): seq<string> {
    ParseLines(OrEmpty(v))
  }

  function ParseScope(v: Option<string>): string {
    Join(" ", Dedup(SplitWords(OrEmpty(v))))
  }

  function MethodOrBasic(v: string): string {
    if v == "" then METHOD_BASIC else v
  }

  // The values that are checked and, if they pass, stored.
  function Normalize(f: Form): Metadata {
    Metadata(Strip(OrEmpty(f.name)), Strip(OrEmpty(f.uri)), ParseMultiline(f.grants), ParseMultiline(f.redirects),
             ParseMultiline(f.responses), ParseScope(f.scope), MethodOrBasic(OrEmpty(f.authMethod)))
  }

  // The edit dialog's fields for stored metadata.
  function Render(m: Metadata): Form {
    Form(Some(m.name), Some(m.uri), Some(m.scope), Some(Join("\n", m.redirects)),
         Some(Join("\n", m.grants)), Some(Join("\n", m.responses)), Some(MethodOrBasic(m.authMethod)))
  }

  // ---------------------------------------------------------------- sorted(set(values) - supported)

  predicate Less(a: string, b: string) {
    if b == "" then false
    else if a == "" then true
    else if a[0] != b[0] then a[0] < b[0]
    else Less(a[1..], b[1..])
  }

  function Insert(x: string, xs: seq<string>): seq<string> {
    if |xs| == 0 then [x]
    else if x == xs[0] then xs
    else if Less(x, xs[0]) then [x] + xs
    else [xs[0]] + Insert(x, xs[1..])
  }

  function Unsupported(values: seq<string>, supported: set<string>): seq<string> {
    if |values| == 0 then []
    else
      var rest := Unsupported(values[1..], supported);
      if values[0] in supported then rest else Insert(values[0], rest)
  }

  ghost predicate Ascending(xs: seq<string>) {
    forall i, j :: 0 <= i < j < |xs| ==> Less(xs[i], xs[j])
  }

  lemma {:induction false} LessIsTransitive(a: string, b: string, c: string)
    requires Less(a, b) && Less(b, c)
    ensures Less(a, c)
  {
    if a != "" && a[0] == b[0] && b[0] == c[0] { LessIsTransitive(a[1..], b[1..], c[1..]); }
  }

  lemma {:induction false} LessIsTotal(a: string, b: string)
    ensures a == b || Less(a, b) || Less(b, a)
  {
    if a != "" && b != "" && a[0] == b[0] {
      LessIsTotal(a[1..], b[1..]);
      if a[1..] == b[1..] { assert a == [a[0]] + a[1..] == b; }
    }
  }

  lemma {:induction false} InsertLaw(x: string, xs: seq<string>)
    requires Ascending(xs)
    ensures Ascending(Insert(x, xs))
    ensures forall y :: y in Insert(x, xs) <==> y == x || y in xs
  {
    if |xs| > 0 && x != xs[0] {
      LessIsTotal(x, xs[0]);
      if Less(x, xs[0]) {
        forall j | 0 < j < |xs| ensures Less(x, xs[j]) { LessIsTransitive(x, xs[0], xs[j]); }
      } else {
        InsertLaw(x, xs[1..]);
        var rest := Insert(x, xs[1..]);
        forall j | 0 <= j < |rest| ensures Less(xs[0], rest[j]) {
          assert rest[j] == x || rest[j] in xs[1..];
        }
      }
    }
  }

  // Exactly the values outside the supported set, each once, in ascending order.
  lemma {:induction false} UnsupportedLaw(values: seq<string>, supported: set<string>)
    ensures Ascending(Unsupported(values, supported))
    ensures forall y :: y in Unsupported(values, supported) <==> y in values && y !in supported
  {
    if |values| == 0 {
    } else {
      UnsupportedLaw(values[1..], supported);
      InsertLaw(values[0], Unsupported(values[1..], supported));
    }
  }

  // ---------------------------------------------------------------- validation

  function RedirectErrors(redirects: seq<string>, isUrl: string -> bool): seq<string> {
    if |redirects| == 0 then []
    else
      var last := redirects[|redirects| - 1];
      RedirectErrors(redirects[..|redirects| - 1], isUrl) +
      (if isUrl(last) then [] else ["Redirect URI must be an absolute HTTP(S) URL: " + last])
  }

  // errors.append(message) under a condition.
  function Note(errors: seq<string>, bad: bool, message: string): seq<string> {
    if bad then errors + [message] else errors
  }

  function IdentityErrors(m: Metadata, isUrl: string -> bool): seq<string> {
    var e1 := Note([], m.name == "", "Client name is required.");
    var e2 := Note(e1, m.uri != "" && !isUrl(m.uri), "Client URI must be an absolute HTTP(S) URL.");
    var e3 := Note(e2, m.redirects == [], "At least one redirect URI is required.");
    e3 + RedirectErrors(m.redirects, isUrl)
  }

  function ListErrors(e0: seq<string>, m: Metadata, grants: seq<string>, responses: seq<string>): seq<string> {
    var e1 := Note(e0, m.grants == [], "At least one grant type is required.");
    var e2 := Note(e1, grants != [], "Unsupported grant types: " + Join(", ", grants));
    var e3 := Note(e2, m.responses == [], "At least one response type is required.");
    Note(e3, responses != [], "Unsupported response types: " + Join(", ", responses))
  }

  function OtherErrors(e0: seq<string>, m: Metadata, scopes: seq<string>): seq<string> {
    var e1 := Note(e0, CODE in m.responses && AUTHORIZATION_CODE !in m.grants,
                   "The code response type requires the authorization_code grant.");
    var e2 := Note(e1, m.scope == "", "At least one scope is required.");
    var e3 := Note(e2, scopes != [], "Unsupported scopes: " + Join(", ", scopes));
    Note(e3, m.authMethod !in METHODS, "Unsupported token endpoint auth method: " + m.authMethod)
  }

  function Errors(m: Metadata, isUrl: string -> bool): seq<string> {
    var lists := ListErrors(IdentityErrors(m, isUrl), m, Unsupported(m.grants, GRANTS),
                           Unsupported(m.responses, RESPONSES));
    OtherErrors(lists, m, Unsupported(SplitWords(m.scope), SCOPES))
  }

  function Build(f: Form, isUrl: string -> bool): Result<Metadata, seq<string>> {
    var errors := Errors(Normalize(f), isUrl);
    if errors != [] then Err(errors) else Ok(Normalize(f))
  }

  // What acceptance means, said without the messages.
  predicate Acceptable(m: Metadata, isUrl: string -> bool) {
    && m.name != ""
    && (m.uri == "" || isUrl(m.uri))
    && m.redirects != [] && (forall r :: r in m.redirects ==> isUrl(r))
    && m.grants != [] && (forall g :: g in m.grants ==> g in GRANTS)
    && m.responses != [] && (forall r :: r in m.responses ==> r in RESPONSES)
    && AUTHORIZATION_CODE in m.grants
    && m.scope != "" && (forall s :: s in SplitWords(m.scope) ==> s in SCOPES)
    && m.authMethod in METHODS
  }

  lemma {:induction false} RedirectErrorsLaw(redirects: seq<string>, isUrl: string -> bool)
    ensures RedirectErrors(redirects, isUrl) == [] <==> forall r :: r in redirects ==> isUrl(r)
  {
    if |redirects| == 0 {
    } else {
      var n := |redirects| - 1;
      RedirectErrorsLaw(redirects[..n], isUrl);
      assert redirects == redirects[..n] + [redirects[n]];
    }
  }

  lemma {:induction false} NoneUnsupported(values: seq<string>, supported: set<string>)
    ensures Unsupported(values, supported) == [] <==> forall v :: v in values ==> v in supported
  {
    UnsupportedLaw(values, supported);
    var bad := Unsupported(values, supported);
    if bad != [] { assert bad[0] in bad; }
  }

  // A form is accepted exactly when its normalized values are acceptable, and what is stored
  // are those values; otherwise there is at least one message.
  lemma {:induction false} BuildAcceptsExactly(f: Form, isUrl: string -> bool)
    ensures Build(f, isUrl).Ok? <==> Acceptable(Normalize(f), isUrl)
    ensures Build(f, isUrl).Err? ==> |Build(f, isUrl).error| > 0
  {
    var m := Normalize(f);
    RedirectErrorsLaw(m.redirects, isUrl);
    NoneUnsupported(m.grants, GRANTS);
    NoneUnsupported(m.responses, RESPONSES);
    NoneUnsupported(SplitWords(m.scope), SCOPES);
    ErrorsEmpty(m, isUrl);
    SupportedResponsesHaveCode(m.responses);
  }

  lemma {:induction false} SupportedResponsesHaveCode(responses: seq<string>)
    ensures responses != [] && (forall r :: r in responses ==> r in RESPONSES) ==> CODE in responses
  {
    if responses != [] { assert responses[0] in responses; }
  }

  lemma {:induction false} ErrorsEmpty(m: Metadata, isUrl: string -> bool)
    ensures Errors(m, isUrl) == [] <==>
            && m.name != "" && (m.uri == "" || isUrl(m.uri))
            && m.redirects != [] && RedirectErrors(m.redirects, isUrl) == []
            && m.grants != [] && Unsupported(m.grants, GRANTS) == []
            && m.responses != [] && Unsupported(m.responses, RESPONSES) == []
            && (CODE in m.responses ==> AUTHORIZATION_CODE in m.grants)
            && m.scope != "" && Unsupported(SplitWords(m.scope), SCOPES) == []
            && m.authMethod in METHODS
  {
    var grants, responses := Unsupported(m.grants, GRANTS), Unsupported(m.responses, RESPONSES);
    IdentityErrorsEmpty(m, isUrl);
    ListErrorsEmpty(IdentityErrors(m, isUrl), m, grants, responses);
    OtherErrorsEmpty(ListErrors(IdentityErrors(m, isUrl), m, grants, responses),
                     m, Unsupported(SplitWords(m.scope), SCOPES));
  }

  lemma {:induction false} IdentityErrorsEmpty(m: Metadata, isUrl: string -> bool)
    ensures IdentityErrors(m, isUrl) == [] <==>
            && m.name != "" && (m.uri == "" || isUrl(m.uri))
            && m.redirects != [] && RedirectErrors(m.redirects, isUrl) == []
  {
  }

  lemma {:induction false} ListErrorsEmpty(e0: seq<string>, m: Metadata, grants: seq<string>, responses: seq<string>)
    ensures ListErrors(e0, m, grants, responses) == [] <==>
            e0 == [] && m.grants != [] && grants == [] && m.responses != [] && responses == []
  {
  }

  lemma {:induction false} OtherErrorsEmpty(e0: seq<string>, m: Metadata, scopes: seq<string>)
    ensures OtherErrors(e0, m, scopes) == [] <==>
            && e0 == [] && (CODE in m.responses ==> AUTHORIZATION_CODE in m.grants)
            && m.scope != "" && scopes == [] && m.authMethod in METHODS
  {
  }

  // ---------------------------------------------------------------- which messages a form gets

  function One(bad: bool): nat {
    if bad then 1 else 0
  }

  // The redirects that are no absolute URLs, with repetitions.
  function BadRedirects(redirects: seq<string>, isUrl: string -> bool): nat {
    if |redirects| == 0 then 0
    else BadRedirects(redirects[..|redirects| - 1], isUrl) + One(!isUrl(redirects[|redirects| - 1]))
  }

  // A broken rule and its message, if it is broken.
  predicate Says(errors: seq<string>, bad: bool, message: string) {
    bad ==> message in errors
  }

  lemma {:induction false} RedirectMessages(redirects: seq<string>, isUrl: string -> bool)
    ensures |RedirectErrors(redirects, isUrl)| == BadRedirects(redirects, isUrl)
    ensures forall i :: 0 <= i < |redirects| && !isUrl(redirects[i]) ==>
              "Redirect URI must be an absolute HTTP(S) URL: " + redirects[i] in RedirectErrors(redirects, isUrl)
  {
    if |redirects| == 0 {
    } else {
      var n := |redirects| - 1;
      RedirectMessages(redirects[..n], isUrl);
      assert forall i :: 0 <= i < n ==> redirects[..n][i] == redirects[i];
    }
  }

  lemma {:induction false} IdentityMessages(m: Metadata, isUrl: string -> bool)
    ensures var e := IdentityErrors(m, isUrl);
            && |e| == One(m.name == "") + One(m.uri != "" && !isUrl(m.uri)) + One(m.redirects == [])
                      + BadRedirects(m.redirects, isUrl)
            && Says(e, m.name == "", "Client name is required.")
            && Says(e, m.uri != "" && !isUrl(m.uri), "Client URI must be an absolute HTTP(S) URL.")
            && Says(e, m.redirects == [], "At least one redirect URI is required.")
            && forall i :: 0 <= i < |m.redirects| && !isUrl(m.redirects[i]) ==>
                 "Redirect URI must be an absolute HTTP(S) URL: " + m.redirects[i] in e
  {
    RedirectMessages(m.redirects, isUrl);
  }

  lemma {:induction false} ListMessages(e0: seq<string>, m: Metadata, grants: seq<string>, responses: seq<string>)
    ensures var e := ListErrors(e0, m, grants, responses);
            && |e| == |e0| + One(m.grants == []) + One(grants != []) + One(m.responses == []) + One(responses != [])
            && e[..|e0|] == e0
            && Says(e, m.grants == [], "At least one grant type is required.")
            && Says(e, grants != [], "Unsupported grant types: " + Join(", ", grants))
            && Says(e, m.responses == [], "At least one response type is required.")
            && Says(e, responses != [], "Unsupported response types: " + Join(", ", responses))
  {
  }

  lemma {:induction false} OtherMessages(e0: seq<string>, m: Metadata, scopes: seq<string>)
    ensures var e := OtherErrors(e0, m, scopes);
            && |e| == |e0| + One("code" in m.responses && "authorization_code" !in m.grants) + One(m.scope == "")
                      + One(scopes != []) + One(m.authMethod !in METHODS)
            && e[..|e0|] == e0
            && Says(e, "code" in m.responses && "authorization_code" !in m.grants,
                    "The code response type requires the authorization_code grant.")
            && Says(e, m.scope == "", "At least one scope is required.")
            && Says(e, scopes != [], "Unsupported scopes: " + Join(", ", scopes))
            && Says(e, m.authMethod !in METHODS, "Unsupported token endpoint auth method: " + m.authMethod)
  {
  }

  // Every broken rule has its message, those of the earlier rules first, and there are no others.
  lemma {:induction false} MessagesExactly(f: Form, isUrl: string -> bool)
    requires Build(f, isUrl).Err?
    ensures var m, e := Normalize(f), Build(f, isUrl).error;
            var grants, responses := Unsupported(m.grants, GRANTS), Unsupported(m.responses, RESPONSES);
            var identity := IdentityErrors(m, isUrl);
            var lists := ListErrors(identity, m, grants, responses);
            && |identity| <= |lists| <= |e| && lists[..|identity|] == identity && e[..|lists|] == lists
            && |e| == One(m.name == "") + One(m.uri != "" && !isUrl(m.uri)) + One(m.redirects == [])
                      + BadRedirects(m.redirects, isUrl) + One(m.grants == []) + One(grants != [])
                      + One(m.responses == []) + One(responses != [])
                      + One("code" in m.responses && "authorization_code" !in m.grants) + One(m.scope == "")
                      + One(Unsupported(SplitWords(m.scope), SCOPES) != []) + One(m.authMethod !in METHODS)
  {
    var m := Normalize(f);
    var grants, responses := Unsupported(m.grants, GRANTS), Unsupported(m.responses, RESPONSES);
    IdentityMessages(m, isUrl);
    ListMessages(IdentityErrors(m, isUrl), m, grants, responses);
    OtherMessages(ListErrors(IdentityErrors(m, isUrl), m, grants, responses),
                  m, Unsupported(SplitWords(m.scope), SCOPES));
  }

  // The function as the program runs it: one list of messages, appended to check by check.
  method BuildClientMetadata(f: Form, isUrl: string -> bool) returns (r: Result<Metadata, seq<string>>)
    ensures r == Build(f, isUrl)
  {
    var m := Normalize(f);
    var grants, responses := Unsupported(m.grants, GRANTS), Unsupported(m.responses, RESPONSES);
    var scopes := Unsupported(SplitWords(m.scope), SCOPES);
    var errors := CheckIdentity(m, isUrl);
    errors := CheckLists(errors, m, grants, responses);
    errors := CheckOthers(errors, m, scopes);
    if errors != [] {
      return Err(errors);
    }
    return Ok(m);
  }

  method CheckIdentity(m: Metadata, isUrl: string -> bool) returns (errors: seq<string>)
    ensures errors == IdentityErrors(m, isUrl)
  {
    errors := [];
    if m.name == "" { errors := errors + ["Client name is required."]; }
    if m.uri != "" && !isUrl(m.uri) { errors := errors + ["Client URI must be an absolute HTTP(S) URL."]; }
    if m.redirects == [] { errors := errors + ["At least one redirect URI is required."]; }
    errors := CheckRedirects(errors, m.redirects, isUrl);
  }

  method CheckRedirects(found: seq<string>, redirects: seq<string>, isUrl: string -> bool) returns (errors: seq<string>)
    ensures errors == found + RedirectErrors(redirects, isUrl)
  {
    errors := found;
    for i := 0 to |redirects|
      invariant errors == found + RedirectErrors(redirects[..i], isUrl)
    {
      assert redirects[..i + 1][..i] == redirects[..i];
      if !isUrl(redirects[i]) {
        errors := errors + ["Redirect URI must be an absolute HTTP(S) URL: " + redirects[i]];
      }
    }
    assert redirects[..|redirects|] == redirects;
  }

  method CheckLists(found: seq<string>, m: Metadata, grants: seq<string>, responses: seq<string>)
    returns (errors: seq<string>)
    ensures errors == ListErrors(found, m, grants, responses)
  {
    errors := found;
    if m.grants == [] { errors := errors + ["At least one grant type is required."]; }
    if grants != [] { errors := errors + ["Unsupported grant types: " + Join(", ", grants)]; }
    if m.responses == [] { errors := errors + ["At least one response type is required."]; }
    if responses != [] { errors := errors + ["Unsupported response types: " + Join(", ", responses)]; }
  }

  method CheckOthers(found: seq<string>, m: Metadata, scopes: seq<string>) returns (errors: seq<string>)
    ensures errors == OtherErrors(found, m, scopes)
  {
    errors := found;
    if CODE in m.responses && AUTHORIZATION_CODE !in m.grants {
      errors := errors + ["The code response type requires the authorization_code grant."];
    }
    if m.scope == "" { errors := errors + ["At least one scope is required."]; }
    if scopes != [] { errors := errors + ["Unsupported scopes: " + Join(", ", scopes)]; }
    if m.authMethod !in METHODS { errors := errors + ["Unsupported token endpoint auth method: " + m.authMethod]; }
  }

  // ---------------------------------------------------------------- the round trip

  lemma {:induction false} ScopeIsIdempotent(v: Option<string>)
    ensures ParseScope(Some(ParseScope(v))) == ParseScope(v)
    ensures SplitWords(ParseScope(v)) == Dedup(SplitWords(OrEmpty(v)))
  {
    var words := SplitWords(OrEmpty(v));
    SplitWordsAreWords(OrEmpty(v));
    DedupLaw(words);
    SplitJoinedWords(Dedup(words));
    DedupFixed(Dedup(words));
  }

  // The printed form of the values, said of the metadata alone.
  ghost predicate Canonical(m: Metadata) {
    && Strip(m.name) == m.name && Strip(m.uri) == m.uri
    && EachClean(m.redirects) && EachClean(m.grants) && EachClean(m.responses)
    && NoRepeats(SplitWords(m.scope)) && Join(" ", SplitWords(m.scope)) == m.scope
  }

  lemma {:induction false} NormalizedIsCanonical(f: Form)
    ensures Canonical(Normalize(f))
  {
    StripIsStripped(OrEmpty(f.name));
    StripFixed(Strip(OrEmpty(f.name)));
    StripIsStripped(OrEmpty(f.uri));
    StripFixed(Strip(OrEmpty(f.uri)));
    ParsedLinesAreClean(OrEmpty(f.redirects));
    ParsedLinesAreClean(OrEmpty(f.grants));
    ParsedLinesAreClean(OrEmpty(f.responses));
    ScopeIsIdempotent(f.scope);
    DedupLaw(SplitWords(OrEmpty(f.scope)));
  }

  lemma {:induction false} CanonicalIsItsOwnNormalForm(m: Metadata)
    requires Canonical(m) && m.authMethod != ""
    ensures Normalize(Render(m)) == m
  {
    ParseJoinedLines(m.redirects);
    ParseJoinedLines(m.grants);
    ParseJoinedLines(m.responses);
    DedupFixed(SplitWords(m.scope));
  }

  // Each field of a form is read into its own field of the metadata; a missing one counts as empty,
  // and an empty method as client_secret_basic.
  lemma {:induction false} FieldsAreRead(m: Metadata)
    requires Canonical(m)
    ensures Normalize(Form(Some(m.name), Some(m.uri), Some(m.scope), Some(Join("\n", m.redirects)),
                           Some(Join("\n", m.grants)), Some(Join("\n", m.responses)), Some(m.authMethod))) ==
            m.(authMethod := if m.authMethod == "" then "client_secret_basic" else m.authMethod)
    ensures Normalize(Form(None, None, None, None, None, None, None)) ==
            Metadata("", "", [], [], [], "", "client_secret_basic")
  {
    ParseJoinedLines(m.redirects);
    ParseJoinedLines(m.grants);
    ParseJoinedLines(m.responses);
    DedupFixed(SplitWords(m.scope));
    ParseEmptyLine();
  }

  // Rendering stored values into the dialog and reading the dialog back changes nothing.
  lemma {:induction false} DialogShowsWhatIsStored(f: Form)
    ensures Normalize(Render(Normalize(f))) == Normalize(f)
  {
    NormalizedIsCanonical(f);
    CanonicalIsItsOwnNormalForm(Normalize(f));
  }

  // Saving the edit dialog untouched stores the same metadata.
  lemma {:induction false} EditRoundTrip(f: Form, isUrl: string -> bool)
    requires Build(f, isUrl).Ok?
    ensures Build(Render(Build(f, isUrl).value), isUrl) == Build(f, isUrl)
  {
    DialogShowsWhatIsStored(f);
  }

  // Metadata can result from some form exactly when it is acceptable and canonical: nothing else
  // is ever stored, and everything of that kind can be.
  lemma {:induction false} StorableExactly(m: Metadata, isUrl: string -> bool)
    ensures (exists f :: Build(f, isUrl) == Ok(m)) <==> Acceptable(m, isUrl) && Canonical(m)
  {
    forall f | Build(f, isUrl) == Ok(m) ensures Acceptable(m, isUrl) && Canonical(m) {
      BuildAcceptsExactly(f, isUrl);
      NormalizedIsCanonical(f);
    }
    if Acceptable(m, isUrl) && Canonical(m) {
      CanonicalIsItsOwnNormalForm(m);
      BuildAcceptsExactly(Render(m), isUrl);
      assert Build(Render(m), isUrl) == Ok(m);
    }
  }
}
