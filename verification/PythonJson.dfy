/** JSON values as Python's `json` module delivers them, and the coercions the
    FFU validators apply to them. */
module PythonJson {
  import opened Base

  /** `Infinite` is what an overflowing number literal such as 1e999 becomes. */
  datatype Json =
    | Null
    | Bool(b: bool)
    | Int(n: int)
    | Real(r: real)
    | Infinite
    | Str(s: string)
    | List(items: seq<Json>)
    | Obj(members: map<Key, Json>)

  type Record = map<Key, Json>

  /** A member name, by number. */
  newtype Key = int

  /** A validation step: a value, a `ValueError`, or an exception the callers do
      not catch. */
  datatype Got<+T> = Value(value: T) | Rejected | Escaped
  {
    predicate IsFailure() { !Value? }

    function PropagateFailure<U>(): (r: Got<U>)
      requires !Value?
    {
      if Rejected? then Rejected else Escaped
    }

    function Extract(): T
      requires Value?
    {
      value
    }
  }

  function Need(condition: bool): (r: Got<()>)
    ensures r.Value? <==> condition
    ensures !r.Escaped?
  {
    if condition then Value(()) else Rejected
  }

  /** Where values are copied: when a restore reproduces its review, when an
      accepted review is kept, and when a restore starts from it. */
  datatype Site = Reproducing | Keeping | Starting

  /** The interpreter's own conversions: `str` of a value that is not a string,
      `int` of a string, lexical path normality, the UTC time pattern, and the
      SHA-256 hex digest of a string; and how many levels of nesting
      `copy.deepcopy` can descend at each place before it runs out of stack. */
  datatype Python = Python(
    repr: Json -> string, intOf: string -> Option<int>, isNormalPath: string -> bool, isUtcTime: string -> bool,
    sha256: string -> string, copyLimit: Site -> nat)

  /** The value has at most `n` levels of nesting, itself counted. */
  predicate Within(a: Json, n: nat)
    decreases a
  {
    n > 0
    && match a
       case List(items) => forall i :: 0 <= i < |items| ==> Within(items[i], n - 1)
       case Obj(members) => forall key :: key in members ==> Within(members[key], n - 1)
       case _ => true
  }

  /** `copy.deepcopy`: the copy is the value itself, or a `RecursionError`, which
      the callers do not catch. */
  function Copied(py: Python, site: Site, a: Json): (r: Got<()>)
    ensures r.Value? <==> Within(a, py.copyLimit(site))
    ensures !r.Rejected?
  {
    if Within(a, py.copyLimit(site)) then Value(()) else Escaped
  }

  function Get(m: Record, key: Key): Json {
    if key in m then m[key] else Null
  }

  /** `==`: numbers and booleans compare by value at every depth. */
  predicate PyEq(a: Json, b: Json)
    decreases a
  {
    match (a, b)
    case (Obj(m), Obj(n)) => m.Keys == n.Keys && forall k :: k in m ==> PyEq(m[k], n[k])
    case (List(m), List(n)) => |m| == |n| && forall i :: 0 <= i < |m| ==> PyEq(m[i], n[i])
    case _ => a == b || (Numeric(a).Some? && Numeric(a) == Numeric(b))
  }

  /** Every value equals itself at every depth. */
  lemma {:induction false} EqualsItself(a: Json)
    ensures PyEq(a, a)
    decreases a
  {
    match a
    case Obj(m) =>
      forall k | k in m ensures PyEq(m[k], m[k]) { EqualsItself(m[k]); }
    case List(items) =>
      forall i | 0 <= i < |items| ensures PyEq(items[i], items[i]) { EqualsItself(items[i]); }
    case _ =>
  }

  function Numeric(a: Json): Option<real> {
    match a
    case Bool(b) => Some(if b then 1.0 else 0.0)
    case Int(n) => Some(n as real)
    case Real(r) => Some(r)
    case _ => None
  }

  predicate Truthy(a: Json) {
    match a
    case Null => false
    case Bool(b) => b
    case Int(n) => n != 0
    case Real(r) => r != 0.0
    case Infinite => true
    case Str(s) => s != ""
    case List(items) => items != []
    case Obj(members) => members != map[]
  }

  /** Stripped text has no blanks left to strip. */
  lemma TextIsStripped(py: Python, a: Json)
    ensures Text(py, Str(Text(py, a))) == Text(py, a)
  {
    if Truthy(a) {
      var s := if a.Str? then a.s else py.repr(a);
      StripTwice(s);
    }
  }

  /** `str(value or "").strip()`. */
  function Text(py: Python, a: Json): string {
    if !Truthy(a) then "" else Strip(if a.Str? then a.s else py.repr(a))
  }

  predicate IsDigest(s: string) {
    |s| == 64 && forall c :: c in s ==> '0' <= c <= '9' || 'a' <= c <= 'f'
  }

  /** `_ffu_sha256`. */
  function Sha(py: Python, a: Json): (r: Got<string>)
    ensures r.Value? ==> r.value == Text(py, a) && IsDigest(r.value)
    ensures !r.Escaped?
  {
    var s := Text(py, a);
    if IsDigest(s) then Value(s) else Rejected
  }

  /** `_ffu_absolute_path`. */
  function Path(py: Python, a: Json, device: bool): (r: Got<string>)
    ensures r.Value? ==> r.value == Text(py, a) && r.value != ""
    ensures !r.Escaped?
  {
    var s := Text(py, a);
    if s == "" || s[0] != '/' || !py.isNormalPath(s) then Rejected
    else if device && (!("/dev/" <= s) || s == "/dev/") then Rejected
    else Value(s)
  }

  function Truncate(r: real): int {
    if r >= 0.0 then r.Floor else -((-r).Floor)
  }

  /** `_ffu_positive_int`: converting an infinity raises an overflow error,
      which is neither a `TypeError` nor a `ValueError`. */
  function PositiveInt(py: Python, m: Record, key: Key, allowZero: bool): (r: Got<int>)
    ensures r.Escaped? <==> Get(m, key) == Infinite
    ensures r.Value? ==> r.value > 0 || (allowZero && r.value == 0)
    ensures Get(m, key).Int? && Get(m, key).n >= (if allowZero then 0 else 1) ==> r == Value(Get(m, key).n)
  {
    var number := match Get(m, key)
      case Int(n) => Value(n)
      case Real(x) => Value(Truncate(x))
      case Infinite => Escaped
      case Str(s) => (match py.intOf(s) case Some(n) => Value(n) case None => Rejected)
      case _ => Rejected;
    if number.Value? && (number.value < 0 || (number.value == 0 && !allowZero)) then Rejected else number
  }

  /** A non-empty text, as the formatting contracts demand. */
  function NeedText(py: Python, a: Json): (r: Got<string>)
    ensures r.Value? ==> r.value == Text(py, a) != ""
    ensures !r.Escaped?
  {
    if Text(py, a) == "" then Rejected else Value(Text(py, a))
  }

  /** An exact integer of at least `least`: booleans and reals are refused. */
  function Exact(a: Json, least: int): (r: Got<int>)
    ensures r.Value? <==> a.Int? && a.n >= least
    ensures r.Value? ==> a == Int(r.value)
    ensures !r.Escaped?
  {
    if a.Int? && a.n >= least then Value(a.n) else Rejected
  }

  function Mapping(a: Json): (r: Got<Record>)
    ensures r.Value? <==> a.Obj?
    ensures r.Value? ==> a == Obj(r.value)
    ensures !r.Escaped?
  {
    if a.Obj? then Value(a.members) else Rejected
  }

  /** `mapping.get(key) is flag`. */
  predicate Is(m: Record, key: Key, flag: bool) {
    Get(m, key) == Bool(flag)
  }

  // ----------------------------------------------- duplicate members

  /** Name/value pairs of one object in document order. */
  type Pairs = seq<(Key, Json)>

  /** `_reject_duplicate_members`. */
  method RejectDuplicateMembers(pairs: Pairs) returns (result: Got<Record>)
    ensures result.Value? <==> forall i, j :: 0 <= i < j < |pairs| ==> pairs[i].0 != pairs[j].0
    ensures result.Value? ==> |result.value| == |pairs|
    ensures result.Value? ==> forall i :: 0 <= i < |pairs| ==> Get(result.value, pairs[i].0) == pairs[i].1
    ensures result.Value? ==> forall key :: key in result.value <==> exists i :: 0 <= i < |pairs| && pairs[i].0 == key
    ensures !result.Escaped?
  {
    var members: Record := map[];
    var i := 0;
    while i < |pairs|
      invariant 0 <= i <= |pairs| && |members| == i
      invariant forall a, b :: 0 <= a < b < i ==> pairs[a].0 != pairs[b].0
      invariant forall a :: 0 <= a < i ==> pairs[a].0 in members && members[pairs[a].0] == pairs[a].1
      invariant forall key :: key in members ==> exists a :: 0 <= a < i && pairs[a].0 == key
    {
      var key, value := pairs[i].0, pairs[i].1;
      if key in members {
        ghost var a :| 0 <= a < i && pairs[a].0 == key;
        return Rejected;
      }
      members := members[key := value];
      i := i + 1;
    }
    return Value(members);
  }
}
