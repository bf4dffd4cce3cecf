/**
 * The JSON values an upstream price service can answer with, and the three
 * JavaScript operations the price service applies to them: truthiness,
 * `Number(v)` and property access.
 */
module Json {
  import opened JsNumber
  import StringToNumber

  datatype Value =
    | Undefined
    | Null
    | Bool(b: bool)
    | Number(n: Num)
    | Str(s: string)
    | Object(fields: map<string, Value>)
  {
    /** `null` and `undefined`, on which reading a property throws a TypeError. */
    predicate Nullish() {
      Undefined? || Null?
    }

    /** JavaScript truthiness. */
    predicate Truthy()
      ensures Nullish() ==> !Truthy()
      ensures !Str? && !Object? ==> (Truthy() <==> ToNumber().Truthy())
    {
      match this
      case Undefined => false
      case Null => false
      case Bool(b) => b
      case Number(n) => n.Truthy()
      case Str(s) => s != []
      case Object(_) => true
    }

    /** `Number(v)`: a plain object is NaN, `null` is 0, a string is parsed. */
    function ToNumber(): Num {
      match this
      case Undefined => NaN
      case Null => Finite(0.0)
      case Bool(b) => Finite(if b then 1.0 else 0.0)
      case Number(n) => n
      case Str(s) => StringToNumber.ToNumber(s)
      case Object(_) => NaN
    }

    /**
     * `v.key` on a value that is not nullish. The keys read here (`unit`,
     * `price`, `price_per_gram`, `rates`, `XAU`) are not properties of any
     * primitive, so reading them off a primitive gives `undefined`.
     */
    function Get(key: string): (r: Value)
      requires !Nullish()
      ensures Object? && key in fields ==> r == fields[key]
      ensures !(Object? && key in fields) ==> r == Undefined
    {
      if Object? && key in fields then fields[key] else Undefined
    }
  }

  /** The message of the TypeError thrown by reading `key` off a nullish value. */
  function CannotRead(v: Value, key: string): string
    requires v.Nullish()
  {
    "Cannot read properties of " + (if v.Null? then "null" else "undefined") + " (reading '" + key + "')"
  }
}
