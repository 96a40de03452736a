/** The few Python value semantics the HeliaLux client relies on: the values that
    `parse_status_vars` produces and the dictionaries built from them, indexing,
    `in`, `.index`, `dict.get` with a default, and truthiness. */
module PyValues {
  import opened Wrappers

  /** The exceptions the modelled code can raise; RequestError stands for an
      HTTP library exception that no handler catches. */
  datatype Error = KeyError(key: string) | IndexError | TypeError | ValueError | RequestError

  /** A Python value as it occurs in the client's dictionaries. Integers are
      non-negative: every integer comes from an unsigned literal or a constant. */
  datatype Value =
    | VInt(n: nat)
    | VStr(s: string)
    | VBool(b: bool)
    | VList(items: seq<Value>)

  /** Python truthiness. */
  predicate Truthy(v: Value) {
    match v
    case VInt(n) => n != 0
    case VStr(s) => s != ""
    case VBool(b) => b
    case VList(xs) => xs != []
  }

  /** `d[key]`. */
  function Lookup(d: map<string, Value>, key: string): (r: Result<Value, Error>)
    ensures r.Success? <==> key in d
    ensures r.Success? ==> r.value == d[key]
    ensures r.Failure? ==> r.error == KeyError(key)
  {
    if key in d then Success(d[key]) else Failure(KeyError(key))
  }

  /** `d.get(key, default)`. */
  function Get(d: map<string, Value>, key: string, default: Value): (r: Value)
    ensures key in d ==> r == d[key]
    ensures key !in d ==> r == default
  {
    if key in d then d[key] else default
  }

  /** `v[k]` for a non-negative index: lists give an element, strings a
      one-character string, numbers and booleans are not subscriptable. */
  function GetItem(v: Value, k: nat): (r: Result<Value, Error>)
    ensures v.VList? && k < |v.items| ==> r == Success(v.items[k])
    ensures v.VStr? && k < |v.s| ==> r == Success(VStr([v.s[k]]))
    ensures (v.VInt? || v.VBool?) ==> r == Failure(TypeError)
    ensures r.Failure? && (v.VList? || v.VStr?) ==> r.error == IndexError
  {
    match v
    case VList(xs) => if k < |xs| then Success(xs[k]) else Failure(IndexError)
    case VStr(s) => if k < |s| then Success(VStr([s[k]])) else Failure(IndexError)
    case _ => Failure(TypeError)
  }

  /** `s` occurs in `t` starting at position `i`. */
  predicate OccursAt(s: string, t: string, i: nat) {
    i + |s| <= |t| && t[i..i + |s|] == s
  }

  /** The first position at which `s` occurs in `t`, as `str.find` computes it. */
  function FindFrom(s: string, t: string, from: nat): (r: Option<nat>)
    requires from <= |t| + 1
    ensures r.Some? ==> from <= r.value && OccursAt(s, t, r.value)
    ensures r.Some? ==> forall j :: from <= j < r.value ==> !OccursAt(s, t, j)
    ensures r.None? ==> forall j :: from <= j ==> !OccursAt(s, t, j)
    decreases |t| + 1 - from
  {
    if |t| < from + |s| then None
    else if OccursAt(s, t, from) then Some(from)
    else FindFrom(s, t, from + 1)
  }

  /** The first index of `x` in `xs`. */
  function FirstIndex(xs: seq<Value>, x: Value): (r: Option<nat>)
    ensures r.Some? ==> r.value < |xs| && xs[r.value] == x
    ensures r.Some? ==> forall j :: 0 <= j < r.value ==> xs[j] != x
    ensures r.None? <==> x !in xs
  {
    if xs == [] then None
    else if xs[0] == x then Some(0)
    else match FirstIndex(xs[1..], x)
      case None => None
      case Some(i) => Some(i + 1)
  }

  /** `x in container` for a string `x`: membership for a list, substring
      search for a string, a TypeError for the rest. */
  function Contains(container: Value, x: string): (r: Result<bool, Error>)
    ensures container.VList? ==> r == Success(VStr(x) in container.items)
    ensures container.VStr? ==> r.Success? && (r.value <==> exists j :: 0 <= j <= |container.s| && OccursAt(x, container.s, j))
    ensures (container.VInt? || container.VBool?) ==> r == Failure(TypeError)
  {
    match container
    case VList(xs) => Success(VStr(x) in xs)
    case VStr(t) =>
      var f := FindFrom(x, t, 0);
      if f.Some? then Success(true)
      else
        assert forall j :: 0 <= j <= |t| ==> !OccursAt(x, t, j);
        Success(false)
    case _ => Failure(TypeError)
  }

  /** `container.index(x)`: the first position of `x`, a ValueError when it is
      absent, and an AttributeError (modelled as TypeError) on numbers and booleans. */
  function IndexOf(container: Value, x: string): (r: Result<nat, Error>)
    ensures container.VList? && r.Success? ==> r.value < |container.items| && container.items[r.value] == VStr(x)
    ensures container.VList? && r.Success? ==> forall j :: 0 <= j < r.value ==> container.items[j] != VStr(x)
    ensures container.VList? ==> (r.Failure? <==> VStr(x) !in container.items)
    ensures container.VStr? && r.Success? ==> OccursAt(x, container.s, r.value)
    ensures container.VStr? && r.Success? ==> forall j :: 0 <= j < r.value ==> !OccursAt(x, container.s, j)
    ensures r.Failure? && (container.VList? || container.VStr?) ==> r.error == ValueError
  {
    match container
    case VList(xs) =>
      (match FirstIndex(xs, VStr(x))
       case Some(i) => Success(i)
       case None => Failure(ValueError))
    case VStr(t) =>
      (match FindFrom(x, t, 0)
       case Some(i) => Success(i)
       case None => Failure(ValueError))
    case _ => Failure(TypeError)
  }

  /** Whenever `x in container` holds, `container.index(x)` succeeds. */
  lemma ContainsThenIndexOf(container: Value, x: string)
    requires Contains(container, x) == Success(true)
    ensures IndexOf(container, x).Success?
  {
    if container.VStr? {
      var t := container.s;
      var j :| 0 <= j <= |t| && OccursAt(x, t, j);
      assert FindFrom(x, t, 0).Some?;
    }
  }
}
