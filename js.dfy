/**
 * JavaScript runtime values as they cross the plugin core: hook arguments,
 * callback outcomes, and the exceptions the registries catch or propagate.
 */
module Js {

  datatype Option<T> = None | Some(value: T)

  /** The outcome of a JavaScript operation that may throw. */
  datatype Result<T> = Ok(value: T) | Thrown

  /** A void JavaScript operation that may throw. */
  datatype Outcome = Pass | Fail

  /** Callbacks (functions, bound methods) are known only by identity. */
  type CallbackId = nat

  /**
   * A JavaScript value passed to or returned by a hook callback.
   * Objects the model tracks (a toolbar button descriptor) are held by
   * reference; host objects such as the editor adapter by an identity and
   * the set of methods they carry.
   */
  datatype Value =
    | Undefined
    | Null
    | Bool(b: bool)
    | Num(n: int)
    | Str(s: string)
    | Ref(o: object)
    | Host(id: nat, methods: set<string>)

  /** JavaScript truthiness (NaN and fractional numbers are not modelled). */
  predicate Truthy(v: Value)
  {
    match v
    case Undefined => false
    case Null => false
    case Bool(b) => b
    case Num(n) => n != 0
    case Str(s) => s != ""
    case Ref(_) => true
    case Host(_, _) => true
  }

  /** `v && v.m`: the value is an object that carries method `m`. */
  predicate HasMethod(v: Value, m: string)
  {
    v.Host? && m in v.methods
  }

  /** What one invocation of a callback did. */
  datatype CallResult = Returned(v: Value) | Threw

  /**
   * The behaviour table of all callbacks: what callback `cb` does when it is
   * invoked with `args`. Side effects of callbacks beyond their outcome are
   * not modelled.
   */
  type Behaviour = (CallbackId, seq<Value>) -> CallResult

  /** One invocation made by a dispatch, with its outcome. */
  datatype Call = Call(callback: CallbackId, args: seq<Value>, result: CallResult)

  /** A request, made by a plugin, to trigger a hook with the given arguments. */
  datatype Trigger = Trigger(hook: string, args: seq<Value>)

  predicate Distinct<T(==)>(s: seq<T>)
  {
    forall i, j :: 0 <= i < j < |s| ==> s[i] != s[j]
  }

  /** A Map's key order after `delete(x)`: `x` taken out, the rest in order. */
  function Without<T(==,!new)>(s: seq<T>, x: T): (r: seq<T>)
    ensures forall y :: y in r <==> y in s && y != x
    ensures Distinct(s) ==> Distinct(r)
    ensures x !in s ==> r == s
  {
    if s == [] then []
    else if s[0] == x then Without(s[1..], x)
    else
      var t := Without(s[1..], x);
      assert Distinct(s) ==> s[0] !in t && Distinct(s[1..]);
      [s[0]] + t
  }
}
