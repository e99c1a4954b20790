// The request payload: query parameters overlaid by the cached body, read by two loops.
module Payload {
  import opened Common

  // A value as a body delivers it: a list, or anything else.
  datatype Value = Atom(text: string) | List(items: seq<Value>)

  // A parsed form: distinct keys in order, each with its values.
  type Multimap = m: seq<(string, seq<string>)> | forall i, j :: 0 <= i < j < |m| ==> m[i].0 != m[j].0

  // What the request holds. form and json are the parsed body under either reading.
  datatype Request = Request(
    method_: string,
    query: seq<(string, string)>,
    hasBody: bool,
    isForm: bool,
    isJson: bool,
    form: Multimap,
    json: Option<map<string, Value>>)

  datatype Loaded = Loaded(data: map<string, Option<Value>>, lists: map<string, seq<Value>>)

  function Atoms(texts: seq<string>): (r: seq<Value>)
    ensures |r| == |texts| && forall i :: 0 <= i < |texts| ==> r[i] == Atom(texts[i])
  {
    seq(|texts|, i requires 0 <= i < |texts| => Atom(texts[i]))
  }

  // getlist: the values of one key, in order.
  function GetList(query: seq<(string, string)>, key: string): seq<string> {
    if |query| == 0 then []
    else
      var n := |query| - 1;
      GetList(query[..n], key) + if query[n].0 == key then [query[n].1] else []
  }

  // The values of a key, in the order of the query, and no others.
  lemma {:induction false} GetListLaw(first: seq<(string, string)>, second: seq<(string, string)>, key: string)
    ensures GetList(first + second, key) == GetList(first, key) + GetList(second, key)
    decreases |second|
  {
    if |second| == 0 {
      assert first + second == first;
    } else {
      var n := |second| - 1;
      GetListLaw(first, second[..n], key);
      assert (first + second)[..|first + second| - 1] == first + second[..n];
    }
  }

  lemma {:induction false} GetListOfOne(key: string, value: string, other: string)
    ensures GetList([(key, value)], other) == if other == key then [value] else []
  {
    assert [(key, value)][..0] == [];
  }

  // The distinct keys, in the order of their first occurrence.
  function QueryKeys(query: seq<(string, string)>): seq<string> {
    if |query| == 0 then []
    else
      var n := |query| - 1;
      var before := QueryKeys(query[..n]);
      if query[n].0 in before then before else before + [query[n].0]
  }

  lemma {:induction false} QueryKeysLaw(query: seq<(string, string)>, key: string)
    ensures key in QueryKeys(query) <==> GetList(query, key) != []
    ensures key in QueryKeys(query) <==> exists i :: 0 <= i < |query| && query[i].0 == key
  {
    if |query| == 0 {
    } else {
      var n := |query| - 1;
      QueryKeysLaw(query[..n], key);
      assert forall i :: 0 <= i < n ==> query[..n][i] == query[i];
    }
  }

  // ---------------------------------------------------------------- the two flattenings

  // A single value stands for itself, several become a list.
  function Flatten(values: seq<string>): Value
    requires values != []
  {
    if |values| == 1 then Atom(values[0]) else List(Atoms(values))
  }

  // The list a loaded value stands for.
  function Unflatten(v: Value): seq<Value> {
    match v
    case Atom(_) => [v]
    case List(items) => items
  }

  function FormValues(form: Multimap, key: string): seq<string> {
    if key in Keys(form) then form[IndexOf(form, key)].1 else []
  }

  function Keys(form: Multimap): set<string> {
    set i | 0 <= i < |form| :: form[i].0
  }

  function IndexOf(form: seq<(string, seq<string>)>, key: string): (i: nat)
    requires exists j :: 0 <= j < |form| && form[j].0 == key
    ensures i < |form| && form[i].0 == key
  {
    if form[0].0 == key then 0 else 1 + IndexOf(form[1..], key)
  }

  // _parse_cached_form: keys without values are skipped.
  method ParseCachedForm(r: Request) returns (out: map<string, Value>)
    ensures out == FormBody(r)
  {
    out := map[];
    if !r.hasBody || !r.isForm {
      return;
    }
    for i := 0 to |r.form|
      invariant forall k :: k in out <==> exists j :: 0 <= j < i && r.form[j].0 == k && r.form[j].1 != []
      invariant forall j :: 0 <= j < i && r.form[j].1 != [] ==> out[r.form[j].0] == Flatten(r.form[j].1)
    {
      var k, v := r.form[i].0, r.form[i].1;
      if v != [] {
        out := out[k := if |v| == 1 then Atom(v[0]) else List(Atoms(v))];
      }
    }
    LoopYieldsFormBody(r, out);
  }

  lemma {:induction false} LoopYieldsFormBody(r: Request, out: map<string, Value>)
    requires r.hasBody && r.isForm
    requires forall k :: k in out <==> exists j :: 0 <= j < |r.form| && r.form[j].0 == k && r.form[j].1 != []
    requires forall j :: 0 <= j < |r.form| && r.form[j].1 != [] ==> out[r.form[j].0] == Flatten(r.form[j].1)
    ensures out == FormBody(r)
  {
    forall k ensures k in out <==> k in FormBody(r) {
      if k in FormBody(r) {
        var j := IndexOf(r.form, k);
        assert r.form[j].0 == k && r.form[j].1 != [];
      }
      if k in out {
        var j :| 0 <= j < |r.form| && r.form[j].0 == k && r.form[j].1 != [];
        assert k in Keys(r.form) && IndexOf(r.form, k) == j;
      }
    }
    forall k | k in out ensures out[k] == FormBody(r)[k] {
      var j := IndexOf(r.form, k);
      assert out[r.form[j].0] == Flatten(r.form[j].1);
    }
  }

  function FormBody(r: Request): map<string, Value> {
    if !r.hasBody || !r.isForm then map[]
    else map k | k in Keys(r.form) && FormValues(r.form, k) != [] :: Flatten(FormValues(r.form, k))
  }

  // Each pair of the form gives its key's values: one value as itself, several as a list of them,
  // none as nothing; a key without a pair has no values.
  lemma {:induction false} FormBodyLaw(r: Request, i: nat, other: string)
    requires r.hasBody && r.isForm && i < |r.form|
    requires forall j :: 0 <= j < |r.form| ==> r.form[j].0 != other
    ensures var (key, values) := r.form[i];
            && FormValues(r.form, key) == values
            && (key in FormBody(r) <==> values != [])
            && (|values| == 1 ==> FormBody(r)[key] == Atom(values[0]))
            && (|values| > 1 ==> FormBody(r)[key].List? && |FormBody(r)[key].items| == |values| &&
                                 forall n :: 0 <= n < |values| ==> FormBody(r)[key].items[n] == Atom(values[n]))
    ensures FormValues(r.form, other) == [] && other !in FormBody(r)
  {
    var j := IndexOf(r.form, r.form[i].0);
    assert r.form[i].0 in Keys(r.form);
    assert j == i;
  }

  // _parse_cached_json: anything but an object counts as nothing.
  function JsonBody(r: Request): map<string, Value> {
    if !r.hasBody || !r.isJson || r.json.None? then map[] else r.json.value
  }

  // Flattening a form and unflattening it in the loader gives back every key's values.
  lemma {:induction false} FormRoundTrip(r: Request, key: string)
    requires r.hasBody && r.isForm
    ensures key in FormBody(r) <==> FormValues(r.form, key) != []
    ensures key in FormBody(r) ==> Unflatten(FormBody(r)[key]) == Atoms(FormValues(r.form, key))
  {
    if key in FormBody(r) {
      var values := FormValues(r.form, key);
      if |values| == 1 { assert Atoms(values) == [Atom(values[0])]; }
    }
  }

  // ---------------------------------------------------------------- the loader

  // str.upper on the letters that matter for the comparison with GET.
  function Upper(s: string): string {
    if s == "" then "" else [if 'a' <= s[0] <= 'z' then s[0] - 'a' + 'A' else s[0]] + Upper(s[1..])
  }

  function Body(r: Request): map<string, Value> {
    if Upper(r.method_) == "GET" then map[]
    else if FormBody(r) != map[] then FormBody(r)
    else JsonBody(r)
  }

  // One key at a time: the body's list if the body has the key, the query's otherwise.
  function ListFor(r: Request, key: string): seq<Value> {
    if key in Body(r) then Unflatten(Body(r)[key]) else Atoms(GetList(r.query, key))
  }

  predicate HasKey(r: Request, key: string) {
    key in Body(r) || GetList(r.query, key) != []
  }

  function Head(values: seq<Value>): Option<Value> {
    if values == [] then None else Some(values[0])
  }

  // What the loader promises of both its dictionaries.
  ghost predicate Refines(r: Request, l: Loaded) {
    forall key ::
      && (key in l.data <==> HasKey(r, key)) && (key in l.lists <==> HasKey(r, key))
      && (HasKey(r, key) ==>
            && l.lists[key] == ListFor(r, key)
            && l.data[key] == if ListFor(r, key) == [] then None else Some(ListFor(r, key)[0]))
  }

  ghost predicate QueryLoaded(query: seq<(string, string)>, l: Loaded) {
    forall key ::
      && (key in l.data <==> GetList(query, key) != []) && (key in l.lists <==> GetList(query, key) != [])
      && (key in l.data ==> l.lists[key] == Atoms(GetList(query, key)) && l.data[key] == Head(l.lists[key]))
  }

  // The body's entries over what was there before.
  ghost predicate Overlaid(l: Loaded, body: map<string, Value>, out: Loaded)
    requires l.data.Keys == l.lists.Keys
  {
    && out.data.Keys == l.data.Keys + body.Keys && out.lists.Keys == l.data.Keys + body.Keys
    && (forall key :: key in body ==>
          out.lists[key] == Unflatten(body[key]) && out.data[key] == Head(Unflatten(body[key])))
    && (forall key :: key in l.data && key !in body ==>
          out.lists[key] == l.lists[key] && out.data[key] == l.data[key])
  }

  method LoadQuery(query: seq<(string, string)>) returns (l: Loaded)
    ensures QueryLoaded(query, l)
  {
    var keys := QueryKeys(query);
    var data: map<string, Option<Value>>, lists: map<string, seq<Value>> := map[], map[];
    for i := 0 to |keys|
      invariant forall key :: (key in data <==> key in keys[..i]) && (key in lists <==> key in keys[..i])
      invariant forall key :: key in data ==> lists[key] == Atoms(GetList(query, key)) && data[key] == Head(lists[key])
    {
      var k := keys[i];
      var values := GetList(query, k);
      QueryKeysLaw(query, k);
      assert keys[..i + 1] == keys[..i] + [k];
      data := data[k := Some(Atom(values[0]))];
      lists := lists[k := Atoms(values)];
    }
    assert keys[..|keys|] == keys;
    forall key ensures key in keys <==> GetList(query, key) != [] {
      QueryKeysLaw(query, key);
    }
    return Loaded(data, lists);
  }

  // The body's entries are taken in any order; each one replaces what the query had.
  method Overlay(l: Loaded, body: map<string, Value>) returns (out: Loaded)
    requires l.data.Keys == l.lists.Keys
    ensures Overlaid(l, body, out)
  {
    var data, lists := l.data, l.lists;
    var todo := body.Keys;
    while todo != {}
      invariant todo <= body.Keys
      invariant data.Keys == l.data.Keys + (body.Keys - todo) && lists.Keys == l.data.Keys + (body.Keys - todo)
      invariant forall key :: key in body && key !in todo ==>
                  lists[key] == Unflatten(body[key]) && data[key] == Head(Unflatten(body[key]))
      invariant forall key :: key in l.data && (key !in body || key in todo) ==>
                  lists[key] == l.lists[key] && data[key] == l.data[key]
      decreases todo
    {
      var k :| k in todo;
      match body[k] {
        case List(items) =>
          lists := lists[k := items];
          data := data[k := if items != [] then Some(items[0]) else None];
        case Atom(_) =>
          lists := lists[k := [body[k]]];
          data := data[k := Some(body[k])];
      }
      todo := todo - {k};
    }
    return Loaded(data, lists);
  }

  method Load(r: Request) returns (l: Loaded)
    ensures Refines(r, l)
  {
    var q := LoadQuery(r.query);
    if Upper(r.method_) == "GET" {
      return q;
    }
    var body := ParseCachedForm(r);
    if body == map[] {
      body := JsonBody(r);
    }
    assert body == Body(r);
    assert q.data.Keys == q.lists.Keys;
    l := Overlay(q, body);
    OverlayRefines(r, q, l);
  }

  lemma {:induction false} OverlayRefines(r: Request, q: Loaded, l: Loaded)
    requires QueryLoaded(r.query, q) && q.data.Keys == q.lists.Keys && Overlaid(q, Body(r), l)
    ensures Refines(r, l)
  {
    var body := Body(r);
    forall key
      ensures (key in l.data <==> HasKey(r, key)) && (key in l.lists <==> HasKey(r, key))
      ensures HasKey(r, key) ==> l.lists[key] == ListFor(r, key) && l.data[key] == Head(ListFor(r, key)) {
      assert key in l.data <==> key in q.data || key in body;
    }
  }

  // For a form request the whole pipeline restores the multimap over the query: the lists are the
  // form's values where the form has the key, the query's elsewhere. (Only a body that also counts
  // as JSON and yields no form values is read a second time.)
  lemma {:induction false} FormWinsOverQuery(r: Request, key: string)
    requires r.hasBody && r.isForm && (!r.isJson || FormBody(r) != map[])
    ensures ListFor(r, key) ==
            Atoms(if !IsGet(r.method_) && FormValues(r.form, key) != [] then FormValues(r.form, key)
                  else GetList(r.query, key))
  {
    UpperIsGet(r.method_);
    FormRoundTrip(r, key);
  }

  // GET in whatever case it is written.
  predicate IsGet(method_: string) {
    |method_| == 3 && method_[0] in {'G', 'g'} && method_[1] in {'E', 'e'} && method_[2] in {'T', 't'}
  }

  lemma {:induction false} UpperIsGet(method_: string)
    ensures Upper(method_) == "GET" <==> IsGet(method_)
  {
    UpperLaw(method_);
    var u := Upper(method_);
    assert u == "GET" <==> |u| == 3 && u[0] == 'G' && u[1] == 'E' && u[2] == 'T';
  }

  // Letter by letter.
  lemma {:induction false} UpperLaw(s: string)
    ensures |Upper(s)| == |s|
    ensures forall i :: 0 <= i < |s| ==> Upper(s)[i] == if 'a' <= s[i] <= 'z' then s[i] - 'a' + 'A' else s[i]
  {
    if s == "" {
    } else {
      UpperLaw(s[1..]);
    }
  }

  // A JSON object replaces the query key by key: a list stands for its items, anything else for
  // itself. Without an object, and for every GET, the query stays.
  lemma {:induction false} JsonWinsOverQuery(r: Request, key: string)
    requires r.hasBody && !r.isForm && r.isJson
    ensures ListFor(r, key) ==
            if !IsGet(r.method_) && r.json.Some? && key in r.json.value then
              (match r.json.value[key] case Atom(text) => [Atom(text)] case List(items) => items)
            else Atoms(GetList(r.query, key))
  {
    UpperIsGet(r.method_);
  }
}
