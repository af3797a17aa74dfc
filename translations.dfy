/** The lookup function `useT(namespace)` returns
    (src/hooks/use-translations.ts): walk the message tree along the dotted
    namespace and then the dotted key; answer the key itself when a step is
    missing or the value found is not a string; otherwise substitute each
    parameter for its `{name}` placeholders, parameter by parameter in
    order. Parameters arrive already rendered as strings. */
module Translations {
  import opened Values
  import opened Text

  /** One step of the walk: an object that has the key. */
  predicate HasStep(scope: Json, part: string) {
    scope.Obj? && part in scope.fields
  }

  /** Where the walk along `parts` from `scope` ends, or `None`. */
  function Walk(scope: Json, parts: seq<string>): Option<Json> {
    if parts == [] then Some(scope)
    else if HasStep(scope, parts[0]) then Walk(scope.fields[parts[0]], parts[1..])
    else None
  }

  /** `{name}` */
  function Placeholder(name: string): string {
    "{" + name + "}"
  }

  /** The replacement loop over the parameters. */
  function Substitute(s: string, params: seq<(string, string)>): string {
    if params == [] then s
    else
      var (name, value) := params[|params| - 1];
      ReplaceAll(Substitute(s, params[..|params| - 1]), Placeholder(name), value)
  }

  /** The scope the key is looked up in: the messages themselves without a
      (non-empty) namespace. */
  function Scope(messages: Json, namespace: Option<string>): Option<Json> {
    if namespace.Some? && namespace.value != "" then Walk(messages, Split(namespace.value, '.')) else Some(messages)
  }

  /** The string the walk finds for `key`, if it finds one. */
  function Found(messages: Json, namespace: Option<string>, key: string): Option<string> {
    var scope := Scope(messages, namespace);
    if scope.None? then None
    else
      var value := Walk(scope.value, Split(key, '.'));
      if value.None? || !value.value.Str? then None else Some(value.value.s)
  }

  /** `t(key, params)` */
  function Translation(messages: Json, namespace: Option<string>, key: string, params: Option<seq<(string, string)>>): string {
    var found := Found(messages, namespace, key);
    if found.None? then key
    else if params.Some? then Substitute(found.value, params.value)
    else found.value
  }

  /** The walk as the loop writes it. */
  method WalkLoop(root: Json, parts: seq<string>) returns (found: Option<Json>)
    ensures found == Walk(root, parts)
  {
    var scope := root;
    for i := 0 to |parts|
      invariant Walk(root, parts) == Walk(scope, parts[i..])
    {
      assert parts[i..][1..] == parts[i + 1..];
      if !HasStep(scope, parts[i]) {
        return None;
      }
      scope := scope.fields[parts[i]];
    }
    return Some(scope);
  }

  /** `t(key, params)` as the hook runs it. */
  method T(messages: Json, namespace: Option<string>, key: string, params: Option<seq<(string, string)>>) returns (r: string)
    ensures r == Translation(messages, namespace, key, params)
  {
    var scope := Some(messages);
    if namespace.Some? && namespace.value != "" {
      scope := WalkLoop(messages, Split(namespace.value, '.'));
      if scope.None? {
        return key;
      }
    }
    var value := WalkLoop(scope.value, Split(key, '.'));
    if value.None? || !value.value.Str? {
      return key;
    }
    if params.Some? {
      var result := value.value.s;
      var ps := params.value;
      for i := 0 to |ps|
        invariant result == Substitute(value.value.s, ps[..i])
      {
        assert ps[..i + 1][..i] == ps[..i];
        result := ReplaceAll(result, Placeholder(ps[i].0), ps[i].1);
      }
      assert ps[..|ps|] == ps;
      return result;
    }
    return value.value.s;
  }

  lemma {:induction false} WalkAppend(scope: Json, a: seq<string>, b: seq<string>)
    ensures Walk(scope, a + b) == if Walk(scope, a).None? then None else Walk(Walk(scope, a).value, b)
  {
    if a != [] {
      assert (a + b)[0] == a[0] && (a + b)[1..] == a[1..] + b;
      if HasStep(scope, a[0]) {
        WalkAppend(scope.fields[a[0]], a[1..], b);
      }
    } else {
      assert a + b == b;
    }
  }

  /** A namespace is a key prefix: `useT("a")("b.c")` finds what
      `useT()("a.b.c")` finds. */
  lemma NamespaceIsPrefix(messages: Json, namespace: string, key: string)
    requires namespace != ""
    ensures Found(messages, Some(namespace), key) == Found(messages, None, namespace + "." + key)
  {
    var full := namespace + "." + key;
    SplitAppend(namespace, '.', key);
    assert full == namespace + ['.'] + key;
    WalkAppend(messages, Split(namespace, '.'), Split(key, '.'));
  }

  /** A key whose walk stops early, or ends on something that is not a
      string, reads as the key itself. */
  lemma MissingFallsBack(messages: Json, namespace: Option<string>, key: string, params: Option<seq<(string, string)>>)
    requires Scope(messages, namespace).Some?
    requires var v := Walk(Scope(messages, namespace).value, Split(key, '.')); v.None? || !v.value.Str?
    ensures Found(messages, namespace, key).None?
    ensures Translation(messages, namespace, key, params) == key
  {
  }

  /** A missing namespace reads as the key too. */
  lemma MissingNamespace(messages: Json, namespace: string, key: string, params: Option<seq<(string, string)>>)
    requires namespace != "" && Walk(messages, Split(namespace, '.')).None?
    ensures Translation(messages, Some(namespace), key, params) == key
  {
  }

  /** A one-part namespace and a one-part key read the entry
      `messages[namespace][key]`. */
  lemma NestedEntry(ns: map<string, Json>, namespace: string, key: string, inner: map<string, Json>, text: string)
    requires '.' !in namespace && '.' !in key && namespace != ""
    requires namespace in ns && ns[namespace] == Obj(inner) && key in inner && inner[key] == Str(text)
    ensures Translation(Obj(ns), Some(namespace), key, None) == text
  {
    SplitNoSep(namespace, '.');
    SplitNoSep(key, '.');
    assert [namespace][1..] == [] && [key][1..] == [];
    assert Walk(Obj(ns), [namespace]) == Walk(Obj(inner), []);
    assert Walk(Obj(inner), [key]) == Walk(Str(text), []);
  }

  /** Parameters whose placeholders do not occur leave the text as it is. */
  lemma {:induction false} SubstituteAbsent(s: string, params: seq<(string, string)>)
    requires forall i :: 0 <= i < |params| ==> !Contains(s, Placeholder(params[i].0))
    ensures Substitute(s, params) == s
  {
    if params != [] {
      var init := params[..|params| - 1];
      assert forall i :: 0 <= i < |init| ==> init[i] == params[i];
      SubstituteAbsent(s, init);
      ReplaceAllAbsent(s, Placeholder(params[|params| - 1].0), params[|params| - 1].1);
    }
  }
}
