/**
 * The Python runtime values the pipeline inspects (parsed YAML/JSON documents,
 * keyword dictionaries) and the exceptions it raises and catches.
 */
module PyValue {
  import opened Optional
  import Strings

  /** A Python value as produced by a YAML or JSON parser. Dict keys are strings. */
  datatype Value =
    | Null
    | Bool(b: bool)
    | Int(i: int)
    | Float(f: real)
    | Str(s: string)
    | List(items: seq<Value>)
    | Dict(entries: map<string, Value>)

  /** `type(v).__name__`. */
  function TypeName(v: Value): string {
    match v
    case Null => "NoneType"
    case Bool(_) => "bool"
    case Int(_) => "int"
    case Float(_) => "float"
    case Str(_) => "str"
    case List(_) => "list"
    case Dict(_) => "dict"
  }

  /** Python truthiness: `bool(v)`. */
  predicate Truthy(v: Value) {
    match v
    case Null => false
    case Bool(b) => b
    case Int(i) => i != 0
    case Float(f) => f != 0.0
    case Str(s) => s != []
    case List(items) => items != []
    case Dict(entries) => entries != map[]
  }

  /** `isinstance(v, (int, float))`; `bool` is a subclass of `int`. */
  predicate IsNumber(v: Value) {
    v.Bool? || v.Int? || v.Float?
  }

  /** The numeric value of a number, with `True == 1` and `False == 0`. */
  function NumValue(v: Value): real
    requires IsNumber(v)
  {
    match v
    case Bool(b) => if b then 1.0 else 0.0
    case Int(i) => i as real
    case Float(f) => f
  }

  /** The Python exception classes the pipeline raises or catches. */
  datatype Kind =
    | BaseException
    | KeyboardInterrupt
    | Exception
    | OSError
    | ConnectionError
    | TimeoutError
    | FileNotFoundError
    | PermissionError
    | ValueError
    | TypeError
    | AttributeError
    | LookupError
    | KeyError
    | RuntimeError
    | NotImplementedError
    | ImportError
    | ArithmeticError
    | ZeroDivisionError
    | CircuitBreakerError
    | Other(name: string)  // a library exception derived directly from Exception

  /** Distance from `BaseException` in the class hierarchy. */
  function Depth(k: Kind): nat {
    match k
    case BaseException => 0
    case KeyboardInterrupt => 1
    case Exception => 1
    case ConnectionError => 3
    case TimeoutError => 3
    case FileNotFoundError => 3
    case PermissionError => 3
    case KeyError => 3
    case NotImplementedError => 3
    case ZeroDivisionError => 3
    case _ => 2
  }

  /** The direct base class (`BaseException` is its own root). */
  function Parent(k: Kind): (p: Kind)
    ensures k != BaseException ==> Depth(p) + 1 == Depth(k)
  {
    match k
    case BaseException => BaseException
    case KeyboardInterrupt => BaseException
    case Exception => BaseException
    case ConnectionError => OSError
    case TimeoutError => OSError
    case FileNotFoundError => OSError
    case PermissionError => OSError
    case KeyError => LookupError
    case NotImplementedError => RuntimeError
    case ZeroDivisionError => ArithmeticError
    case _ => Exception
  }

  /** `issubclass(k, base)`. */
  predicate IsSubclass(k: Kind, base: Kind)
    decreases Depth(k)
  {
    k == base || (k != BaseException && IsSubclass(Parent(k), base))
  }

  /** `issubclass` is transitive. */
  lemma {:induction false} SubclassTransitive(k: Kind, mid: Kind, base: Kind)
    requires IsSubclass(k, mid) && IsSubclass(mid, base)
    ensures IsSubclass(k, base)
    decreases Depth(k)
  {
    if k != mid {
      SubclassTransitive(Parent(k), mid, base);
    }
  }

  /** `isinstance(e, classes)` for a tuple of classes. */
  predicate IsInstanceAny(k: Kind, classes: seq<Kind>) {
    exists i :: 0 <= i < |classes| && IsSubclass(k, classes[i])
  }

  /** Every class except `BaseException` and `KeyboardInterrupt` is caught by `except Exception`. */
  lemma ExceptionCatchesAllButInterrupts(k: Kind)
    ensures IsSubclass(k, Exception) <==> k != BaseException && k != KeyboardInterrupt
  {
  }

  /** `type(e).__name__`. */
  function KindName(k: Kind): string {
    match k
    case BaseException => "BaseException"
    case KeyboardInterrupt => "KeyboardInterrupt"
    case Exception => "Exception"
    case OSError => "OSError"
    case ConnectionError => "ConnectionError"
    case TimeoutError => "TimeoutError"
    case FileNotFoundError => "FileNotFoundError"
    case PermissionError => "PermissionError"
    case ValueError => "ValueError"
    case TypeError => "TypeError"
    case AttributeError => "AttributeError"
    case LookupError => "LookupError"
    case KeyError => "KeyError"
    case RuntimeError => "RuntimeError"
    case NotImplementedError => "NotImplementedError"
    case ImportError => "ImportError"
    case ArithmeticError => "ArithmeticError"
    case ZeroDivisionError => "ZeroDivisionError"
    case CircuitBreakerError => "CircuitBreakerError"
    case Other(name) => name
  }

  /**
   * A raised exception: its class, its message (`str(e)`) and, for HTTP client
   * errors, the `e.response.status_code` it carries.
   */
  datatype Exc = Exc(kind: Kind, message: string, status: Option<int>)

  function Error(kind: Kind, message: string): Exc {
    Exc(kind, message, None)
  }

  /** The result of running Python code: a value, or an exception propagating out. */
  datatype Outcome<+T> = Ok(value: T) | Raised(exc: Exc)

  /** `key in v` for a string `key`; a non-container raises `TypeError`. */
  function In(key: string, v: Value): (r: Outcome<bool>)
    ensures r.Raised? <==> !(v.Dict? || v.List? || v.Str?)
    ensures v.Dict? ==> r == Ok(key in v.entries)
    ensures v.List? ==> r == Ok(Str(key) in v.items)
  {
    match v
    case Dict(entries) => Ok(key in entries)
    case List(items) => Ok(Str(key) in items)
    case Str(s) => Ok(Strings.Contains(s, key))
    case _ => Raised(Error(TypeError, "argument of type '" + TypeName(v) + "' is not iterable"))
  }

  /** `v[key]` for a string `key`; only a dict holding `key` yields a value. */
  function Subscript(v: Value, key: string): (r: Outcome<Value>)
    ensures r.Ok? <==> v.Dict? && key in v.entries
    ensures r.Ok? ==> r.value == v.entries[key]
    ensures (v.Str? || v.List?) ==> r.Raised? && r.exc.kind == TypeError
  {
    match v
    case Dict(entries) =>
      if key in entries then Ok(entries[key]) else Raised(Error(KeyError, "'" + key + "'"))
    case Str(_) => Raised(Error(TypeError, "string indices must be integers, not 'str'"))
    case List(_) => Raised(Error(TypeError, "list indices must be integers or slices, not str"))
    case _ => Raised(Error(TypeError, "'" + TypeName(v) + "' object is not subscriptable"))
  }

  /** `v.get(key, default)`; only dicts have `get`. */
  function Get(v: Value, key: string, default: Value): (r: Outcome<Value>)
    ensures r.Ok? <==> v.Dict?
    ensures v.Dict? && key in v.entries ==> r == Ok(v.entries[key])
    ensures v.Dict? && key !in v.entries ==> r == Ok(default)
    ensures r.Raised? ==> r.exc.kind == AttributeError
  {
    match v
    case Dict(entries) => Ok(if key in entries then entries[key] else default)
    case _ => Raised(Error(AttributeError, "'" + TypeName(v) + "' object has no attribute 'get'"))
  }

  /** `len(v)`; only strings, lists and dicts have a length. */
  function Len(v: Value): (r: Outcome<nat>)
    ensures r.Ok? <==> (v.Str? || v.List? || v.Dict?)
    ensures v.List? ==> r == Ok(|v.items|)
    ensures r.Raised? ==> r.exc.kind == TypeError
  {
    match v
    case Str(s) => Ok(|s|)
    case List(items) => Ok(|items|)
    case Dict(entries) => Ok(|entries|)
    case _ => Raised(Error(TypeError, "object of type '" + TypeName(v) + "' has no len()"))
  }
}
