/**
  JSON values as the program handles them after `r.json()`, with the two JavaScript
  operators the extraction is written in: optional chaining (`?.`, `?.[i]`) and
  nullish coalescing (`??`). A JavaScript `undefined` is `None`.
 */
module JsonValue {
  import opened Wrappers
  import opened JsText

  datatype Json =
    | JNull
    | JBool(b: bool)
    | JNum(n: int)
    | JStr(s: JsString)
    | JArr(items: seq<Json>)
    | JObj(fields: map<JsString, Json>)

  /** One link of an optional chain: `?.name` or `?.[i]`. */
  datatype Step = Key(name: JsString) | Index(i: nat)

  /**
    `v?.name`: undefined when `v` is undefined or null; a property of an object
    otherwise. The names looked up by the program are no built-in property of
    strings, numbers, booleans or arrays, so on those the lookup is undefined too.
   */
  function Member(v: Option<Json>, name: JsString): Option<Json> {
    match v
    case Some(JObj(fields)) => if name in fields then Some(fields[name]) else None
    case _ => None
  }

  /**
    `v?.[i]`: an array element, the property named by the numeral of `i` on an
    object, or the one-code-unit string at position `i` of a string.
   */
  function Element(v: Option<Json>, i: nat): Option<Json> {
    match v
    case Some(JArr(items)) => if i < |items| then Some(items[i]) else None
    case Some(JObj(fields)) => if Decimal(i) in fields then Some(fields[Decimal(i)]) else None
    case Some(JStr(s)) => if i < |s| then Some(JStr([s[i]])) else None
    case _ => None
  }

  function Apply(v: Option<Json>, step: Step): Option<Json> {
    match step
    case Key(name) => Member(v, name)
    case Index(i) => Element(v, i)
  }

  /** A whole optional chain `v?.s0?.s1...`, applied link by link. */
  function Follow(v: Option<Json>, path: seq<Step>): Option<Json>
    decreases |path|
  {
    if path == [] then v else Follow(Apply(v, path[0]), path[1..])
  }

  /** Optional chaining short-circuits: once a link is undefined, so is the rest of the chain. */
  lemma {:induction false} FollowNone(path: seq<Step>)
    ensures Follow(None, path) == None
    decreases |path|
  {
    if path != [] {
      FollowNone(path[1..]);
    }
  }

  /** A chain may be split anywhere: `v?.p?.q` is `(v?.p)?.q`. */
  lemma {:induction false} FollowAppend(v: Option<Json>, p: seq<Step>, q: seq<Step>)
    ensures Follow(v, p + q) == Follow(Follow(v, p), q)
    decreases |p|
  {
    if p == [] {
      assert p + q == q;
    } else {
      assert (p + q)[0] == p[0];
      assert (p + q)[1..] == p[1..] + q;
      FollowAppend(Apply(v, p[0]), p[1..], q);
    }
  }

  /** Not `null` and not `undefined`: what `??` keeps. */
  predicate Present(v: Option<Json>) {
    v.Some? && !v.value.JNull?
  }

  /** `a ?? b`. */
  function Coalesce(a: Option<Json>, b: Option<Json>): Option<Json> {
    if Present(a) then a else b
  }

  /** `(a ?? b) ?? c` is `a ?? (b ?? c)`: a run of `??` is one ladder, read left to right. */
  lemma CoalesceAssociative(a: Option<Json>, b: Option<Json>, c: Option<Json>)
    ensures Coalesce(Coalesce(a, b), c) == Coalesce(a, Coalesce(b, c))
  {
  }

  /** `a ?? b` is neither null nor undefined exactly when one of its operands is not. */
  lemma CoalescePresent(a: Option<Json>, b: Option<Json>)
    ensures Present(Coalesce(a, b)) <==> Present(a) || Present(b)
  {
  }

  /** Through a property the object has, a chain continues from that property's value. */
  lemma {:induction false} FollowKey(fields: map<JsString, Json>, name: JsString, path: seq<Step>)
    requires name in fields
    ensures Follow(Some(JObj(fields)), [Key(name)] + path) == Follow(Some(fields[name]), path)
  {
    assert ([Key(name)] + path)[1..] == path;
  }

  /** Through an in-range array element, a chain continues from that element. */
  lemma {:induction false} FollowIndex(items: seq<Json>, i: nat, path: seq<Step>)
    requires i < |items|
    ensures Follow(Some(JArr(items)), [Index(i)] + path) == Follow(Some(items[i]), path)
  {
    assert ([Index(i)] + path)[1..] == path;
  }

  /** Past the end of an array, a chain is undefined whatever follows. */
  lemma {:induction false} FollowIndexOutOfRange(items: seq<Json>, i: nat, path: seq<Step>)
    requires |items| <= i
    ensures Follow(Some(JArr(items)), [Index(i)] + path) == None
  {
    assert ([Index(i)] + path)[1..] == path;
    FollowNone(path);
  }

  /**
    A non-empty chain applied to null, a number or a boolean is undefined: none of
    them has properties or elements the program can reach.
   */
  lemma {:induction false} FollowScalar(v: Json, path: seq<Step>)
    requires v.JNull? || v.JNum? || v.JBool?
    requires path != []
    ensures Follow(Some(v), path) == None
  {
    FollowNone(path[1..]);
  }

  /** A non-empty chain whose first link names a property the object lacks is undefined. */
  lemma {:induction false} FollowMissingKey(fields: map<JsString, Json>, name: JsString, path: seq<Step>)
    requires name !in fields
    ensures Follow(Some(JObj(fields)), [Key(name)] + path) == None
  {
    assert ([Key(name)] + path)[1..] == path;
    FollowNone(path);
  }

  /** The property name `content`, used both by request messages and by reply items. */
  const ContentKey: JsString := Lit("content")
}
