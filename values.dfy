/** Values shared by the whole model: the PHP values that travel in request
    bags and configuration arrays, the optional/result wrappers, and what a
    PHP `throw` carries. */
module Values {

  datatype Option<+T> = None | Some(value: T)

  datatype Result<+T, +E> = Ok(value: T) | Err(error: E) {
    predicate IsFailure() { Err? }

    function PropagateFailure<U>(): Result<U, E>
      requires Err?
    {
      Err(error)
    }

    function Extract(): T
      requires Ok?
    {
      value
    }
  }

  /** A scalar held by a PHP array or a request's input bag. */
  datatype Value = VNull | VBool(b: bool) | VInt(i: int) | VStr(s: string)

  /** What a PHP `throw` carries. An `Exception` (including the
      ErrorException Laravel raises for a read of an undefined array key) is
      caught by `catch (Exception $e)`. `TypeError` stands for any PHP
      `Error` (a TypeError from a `string` parameter given null, or an `Error`
      such as a ValueError thrown inside a foreign call): none is caught. */
  datatype Thrown = Exception(message: string) | TypeError

  /** A PHP associative array with string keys. */
  type Config = map<string, Value>

  /** PHP truthiness of a scalar, as used by `if ($x ?? false)`. */
  predicate Truthy(v: Value)
  {
    match v
    case VNull => false
    case VBool(b) => b
    case VInt(i) => i != 0
    case VStr(s) => s != "" && s != "0"
  }

  /** `isset($a[$k])`: the key is present and its value is not null. */
  predicate IsSet(a: Config, k: string)
  {
    k in a && a[k] != VNull
  }

  /** `$a[$k] ?? false` followed by a truthiness test. */
  predicate FlagOn(a: Config, k: string)
  {
    k in a && Truthy(a[k])
  }
}
