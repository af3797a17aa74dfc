/** `mergeProps(slotProps, childProps)` of the `asChild` slot
    (src/lib/slot.tsx): the child's props win, except that event handlers
    named `on` plus an upper-case letter are chained (the child's first),
    `style` objects are merged with the child's entries winning, and
    `className`s are joined with a space. A prop value is one of the kinds
    below; a handler is the list of the actions it performs, in order. */
module Slot {
  import opened Text

  datatype Prop =
    | Undefined
    | Str(s: string)
    | Flag(b: bool)
    | Handler(actions: seq<string>)
    | Style(entries: map<string, string>)

  /** JavaScript truthiness of a prop value. */
  predicate Truthy(v: Prop) {
    match v
    case Undefined => false
    case Str(s) => s != ""
    case Flag(b) => b
    case Handler(_) => true
    case Style(_) => true
  }

  /** `/^on[A-Z]/` */
  predicate IsHandlerName(name: string) {
    |name| >= 3 && name[0] == 'o' && name[1] == 'n' && 'A' <= name[2] <= 'Z'
  }

  function PropOf(props: map<string, Prop>, name: string): Prop {
    if name in props then props[name] else Undefined
  }

  /** The actions a value performs when called; only handlers are called. */
  function Actions(v: Prop): seq<string> {
    if v.Handler? then v.actions else []
  }

  /** What spreading a value into an object contributes. */
  function Entries(v: Prop): map<string, string> {
    if v.Style? then v.entries else map[]
  }

  /** `String(v)` of a truthy class-name value. */
  function ClassText(v: Prop): string {
    match v
    case Str(s) => s
    case Flag(b) => if b then "true" else "false"
    case Undefined => "undefined"
    case Handler(_) => "function"
    case Style(_) => "[object Object]"
  }

  /** `[slot, child].filter(Boolean).join(" ")` */
  function JoinClasses(slot: Prop, child: Prop): string {
    Join((if Truthy(slot) then [ClassText(slot)] else []) + (if Truthy(child) then [ClassText(child)] else []), " ")
  }

  /** The value the loop leaves in `overrideProps` for a child prop. */
  function Override(name: string, slot: Prop, child: Prop): Prop {
    if IsHandlerName(name) then
      if Truthy(slot) && Truthy(child) then Handler(Actions(child) + Actions(slot))
      else if Truthy(slot) then slot
      else child
    else if name == "style" then Style(Entries(slot) + Entries(child))
    else if name == "className" then Str(JoinClasses(slot, child))
    else child
  }

  /** `{ ...slotProps, ...overrideProps }` */
  function Merged(slot: map<string, Prop>, child: map<string, Prop>): map<string, Prop> {
    map name | name in slot.Keys + child.Keys ::
      if name in child then Override(name, PropOf(slot, name), child[name]) else slot[name]
  }

  /** The loop over the child's props, then the spread. */
  method MergeProps(slot: map<string, Prop>, child: map<string, Prop>) returns (r: map<string, Prop>)
    ensures r == Merged(slot, child)
  {
    var overrides := child;
    var todo := child.Keys;
    while todo != {}
      invariant todo <= child.Keys && overrides.Keys == child.Keys
      invariant forall name :: name in child ==>
        overrides[name] == if name in todo then child[name] else Override(name, PropOf(slot, name), child[name])
      decreases |todo|
    {
      var name :| name in todo;
      overrides := overrides[name := Override(name, PropOf(slot, name), child[name])];
      todo := todo - {name};
    }
    SpreadOverrides(slot, child, overrides);
    r := slot + overrides;
  }

  /** Spreading the finished overrides over the slot's props is the merge. */
  lemma SpreadOverrides(slot: map<string, Prop>, child: map<string, Prop>, overrides: map<string, Prop>)
    requires overrides.Keys == child.Keys
    requires forall name :: name in child ==> overrides[name] == Override(name, PropOf(slot, name), child[name])
    ensures slot + overrides == Merged(slot, child)
  {
    var m := Merged(slot, child);
    assert (slot + overrides).Keys == m.Keys;
    forall name | name in m ensures (slot + overrides)[name] == m[name] {
    }
  }

  /** Every prop of either side is kept; a plain prop of the child wins, and
      a prop only the slot has stays as it is. */
  lemma PlainProps(slot: map<string, Prop>, child: map<string, Prop>, name: string)
    ensures name in Merged(slot, child) <==> name in slot || name in child
    ensures name in child && !IsHandlerName(name) && name != "style" && name != "className" ==>
      Merged(slot, child)[name] == child[name]
    ensures name in slot && name !in child ==> Merged(slot, child)[name] == slot[name]
  {
  }

  /** Two handlers are chained: the child's actions run first, then the
      slot's. A handler on one side only is that handler. */
  lemma HandlersChain(slot: map<string, Prop>, child: map<string, Prop>, name: string, a: seq<string>, b: seq<string>)
    requires IsHandlerName(name)
    ensures Merged(slot[name := Handler(b)], child[name := Handler(a)])[name] == Handler(a + b)
    ensures name !in child ==> Merged(slot[name := Handler(b)], child)[name] == Handler(b)
    ensures name !in slot ==> Merged(slot, child[name := Handler(a)])[name] == Handler(a)
  {
  }

  /** Styles merge entry by entry, the child's entries winning. */
  lemma StylesMerge(slot: map<string, Prop>, child: map<string, Prop>, s: map<string, string>, c: map<string, string>, key: string)
    ensures var m := Merged(slot["style" := Style(s)], child["style" := Style(c)])["style"];
      && m.Style?
      && (key in m.entries <==> key in s || key in c)
      && (key in c ==> m.entries[key] == c[key])
      && (key in s && key !in c ==> m.entries[key] == s[key])
  {
  }

  /** Class names are joined with one space; an empty one is dropped. */
  lemma ClassNamesJoin(slot: map<string, Prop>, child: map<string, Prop>, s: string, c: string)
    ensures s != "" && c != "" ==>
      Merged(slot["className" := Str(s)], child["className" := Str(c)])["className"] == Str(s + " " + c)
    ensures s == "" ==> Merged(slot["className" := Str(s)], child["className" := Str(c)])["className"] == Str(c)
    ensures c == "" ==> Merged(slot["className" := Str(s)], child["className" := Str(c)])["className"] == Str(s)
  {
    assert [] + [c] == [c] && [s] + [] == [s];
    assert ([s] + [c])[1..] == [c];
    assert Join([s] + [c], " ") == s + " " + Join([c], " ");
  }
}
