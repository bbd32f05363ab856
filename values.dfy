/**
 * The dynamically typed scalars that flow through the generators: the JSON
 * values a resume record or an AI answer can hold, with Python's truthiness
 * and str() on them.
 */
module Values {
  import opened Decimal

  datatype Option<T> = None | Some(value: T)
  {
    function GetOr(default: T): T
    {
      if Some? then value else default
    }
  }

  /** The outcome of an operation that can raise: its value, or the exception it raises. */
  datatype Result<T> = Success(value: T) | Failure(error: string)

  datatype Value = Str(s: string) | Int(i: int) | Bool(b: bool) | Null

  /** Python truthiness: empty strings, 0, False and None are false. */
  predicate Truthy(v: Value)
  {
    match v
    case Str(s) => s != []
    case Int(i) => i != 0
    case Bool(b) => b
    case Null => false
  }

  /** Python's str() on a scalar. */
  function ToStr(v: Value): string
  {
    match v
    case Str(s) => s
    case Int(i) => IntToString(i)
    case Bool(b) => if b then "True" else "False"
    case Null => "None"
  }

  /** str() gives the empty text only for the empty string: 0, False and None all render as words. */
  lemma ToStrEmpty(v: Value)
    ensures ToStr(v) == [] <==> v == Str([])
  {
    if v.Int? && v.i < 0 {
      assert ToStr(v)[0] == '-';
    }
  }

  /** A non-negative count renders as decimal digits that read back as the count. */
  lemma ToStrIntRoundTrip(i: int)
    requires i >= 0
    ensures forall k | 0 <= k < |ToStr(Int(i))| :: IsDigitChar(ToStr(Int(i))[k])
    ensures DigitsValue(ToStr(Int(i))) == i
  {
    NatToStringRoundTrip(i);
  }
}
