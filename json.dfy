/** JSON documents as jsoncpp's Json::Value holds them, and the accessors the
    program uses. Parsing and printing JSON text are not modelled: documents
    are trees, and a reply is the tree jsoncpp parsed from the body. */
module JsonTree {
  import opened Basics
  import Strings

  /** A JSON value. Numbers are integers: jsoncpp's real values are not
      modelled. Objects are maps, as jsoncpp keeps its members in a std::map. */
  datatype Json =
    | JNull
    | JBool(b: bool)
    | JNum(n: int)
    | JStr(s: string)
    | JArr(elems: seq<Json>)
    | JObj(members: map<string, Json>)

  /** `value[key]` on a non-const Json::Value: a null value reads as an empty
      object and a missing member as null; any other kind of value throws. */
  function Key(j: Json, key: string): (r: Access<Json>)
    ensures r.Ok? <==> j.JNull? || j.JObj?
    ensures r.Ok? ==> r.value == if j.JObj? && key in j.members then j.members[key] else JNull
  {
    match j
    case JNull => Ok(JNull)
    case JObj(m) => Ok(if key in m then m[key] else JNull)
    case _ => Throws
  }

  /** `value[i]` on a non-const Json::Value: a null value reads as an empty
      array and an element past the end as null; any other kind throws. */
  function At(j: Json, i: nat): (r: Access<Json>)
    ensures r.Ok? <==> j.JNull? || j.JArr?
    ensures r.Ok? ==> r.value == if j.JArr? && i < |j.elems| then j.elems[i] else JNull
  {
    match j
    case JNull => Ok(JNull)
    case JArr(s) => Ok(if i < |s| then s[i] else JNull)
    case _ => Throws
  }

  /** Json::Value::size(): the number of elements of an array or members of an
      object, and 0 for every other kind of value. */
  function Size(j: Json): nat
  {
    match j
    case JArr(s) => |s|
    case JObj(m) => |m|
    case _ => 0
  }

  /** Json::Value::asString(): null reads as "", booleans as "true"/"false",
      integers in decimal; arrays and objects throw (None). */
  function AsString(j: Json): (r: Option<string>)
    ensures r.None? <==> j.JArr? || j.JObj?
    ensures j.JStr? ==> r == Some(j.s)
    ensures r == Some("") ==> j.JNull? || j == JStr("")
  {
    match j
    case JNull => Some("")
    case JBool(b) => Some(if b then "true" else "false")
    case JNum(n) => Some(Strings.IntToString(n))
    case JStr(s) => Some(s)
    case _ => None
  }

  /** One step of a chain of subscripts: `[key]` or `[index]`. */
  datatype Step = Member(key: string) | Element(index: nat)

  /** The node a chain of subscripts reaches, if every step exists. */
  function Get(j: Json, p: seq<Step>): Option<Json>
    decreases |p|
  {
    if p == [] then Some(j)
    else match p[0]
      case Member(k) => if j.JObj? && k in j.members then Get(j.members[k], p[1..]) else None
      case Element(i) => if j.JArr? && i < |j.elems| then Get(j.elems[i], p[1..]) else None
  }

  /** `j[..]...[..] = v` along a chain of subscripts that exists in `j`. */
  function Put(j: Json, p: seq<Step>, v: Json): Json
    requires Get(j, p).Some?
    decreases |p|
  {
    if p == [] then v
    else match p[0]
      case Member(k) => JObj(j.members[k := Put(j.members[k], p[1..], v)])
      case Element(i) => JArr(j.elems[i := Put(j.elems[i], p[1..], v)])
  }

  /** Two chains of subscripts part ways: neither is a prefix of the other. */
  predicate Diverge(p: seq<Step>, q: seq<Step>)
    decreases |p|
  {
    |p| > 0 && |q| > 0 && (p[0] != q[0] || Diverge(p[1..], q[1..]))
  }

  /** After an assignment the assigned chain reads back the assigned value. */
  lemma {:induction false} PutGet(j: Json, p: seq<Step>, v: Json)
    requires Get(j, p).Some?
    ensures Get(Put(j, p, v), p) == Some(v)
    decreases |p|
  {
    if p != [] {
      match p[0]
      case Member(k) => PutGet(j.members[k], p[1..], v);
      case Element(i) => PutGet(j.elems[i], p[1..], v);
    }
  }

  /** An assignment changes nothing reached by a chain that parts ways with
      the assigned one. */
  lemma {:induction false} PutFrame(j: Json, p: seq<Step>, v: Json, q: seq<Step>)
    requires Get(j, p).Some?
    requires Diverge(p, q)
    ensures Get(Put(j, p, v), q) == Get(j, q)
    decreases |p|
  {
    if p[0] == q[0] {
      match p[0]
      case Member(k) => PutFrame(j.members[k], p[1..], v, q[1..]);
      case Element(i) => PutFrame(j.elems[i], p[1..], v, q[1..]);
    }
  }
}
