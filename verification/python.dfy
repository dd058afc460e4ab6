/**
 * The Python built-ins the fetch and the prediction mappers apply to decoded
 * JSON values: iteration, star-unpacking, `float()` and
 * `datetime.utcfromtimestamp()`.
 *
 * Reading a decimal string as a float and turning a number of seconds into a
 * calendar instant are not modelled; they are the two fields of `Builtins`, partial
 * functions supplied by the caller. Everything around them (which argument types
 * are accepted at all, bool counting as an int, iteration over strings and
 * dicts) is written out.
 */
module Python {

  import opened Wrappers
  import opened Json

  datatype Builtins = Builtins(
    /** `float(s)` on a str: the parsed value, or None when it raises ValueError. */
    parseFloat: string -> Option<real>,
    /** `datetime.utcfromtimestamp(x)` on a number: an instant (ordered like the
        datetimes it stands for), or None when x is out of the platform's range. */
    fromTimestamp: real -> Option<int>
  )

  /** The numeric value of an int, float or bool; None for every other type. */
  function NumberValue(v: Value): (r: Option<real>)
    ensures r.Some? <==> IsNumber(v)
  {
    match v
    case Bool(b) => Some(if b then 1.0 else 0.0)
    case Int(i) => Some(i as real)
    case Float(x) => Some(x)
    case _ => None
  }

  /** `float(v)`, with the text of the exception when it raises. */
  function ToFloat(py: Builtins, v: Value): (r: Result<real>)
    ensures IsNumber(v) ==> r == Ok(NumberValue(v).value)
    ensures v.Null? || v.List? || v.Obj? ==> r.Err?
    ensures v.Str? ==> (r.Ok? <==> py.parseFloat(v.s).Some?)
    ensures v.Str? && r.Ok? ==> r.value == py.parseFloat(v.s).value
  {
    if IsNumber(v) then Ok(NumberValue(v).value)
    else match v
      case Str(s) =>
        (match py.parseFloat(s)
         case Some(x) => Ok(x)
         case None => Err("could not convert string to float: '" + s + "'"))
      case _ => Err("float() argument must be a string or a real number, not '" + TypeName(v) + "'")
  }

  /** `datetime.utcfromtimestamp(v)`: only an int, float or bool is accepted. */
  function UtcFromTimestamp(py: Builtins, v: Value): (r: Option<int>)
    ensures r.Some? ==> IsNumber(v)
    ensures IsNumber(v) ==> r == py.fromTimestamp(NumberValue(v).value)
  {
    match NumberValue(v)
    case Some(x) => py.fromTimestamp(x)
    case None => None
  }

  /** `for x in v`: a list yields its items, a str its one-character strings, a
      dict its keys; any other value raises TypeError. */
  function Iterate(v: Value): (r: Option<seq<Value>>)
    ensures v.List? ==> r == Some(v.items)
    ensures r.None? <==> !(v.List? || v.Str? || v.Obj?)
    ensures v.Str? ==> |r.value| == |v.s| && forall i :: 0 <= i < |v.s| ==> r.value[i] == Str([v.s[i]])
    ensures v.Obj? ==> |r.value| == |Keys(v.members)|
                       && forall i :: 0 <= i < |Keys(v.members)| ==> r.value[i] == Str(Keys(v.members)[i])
  {
    match v
    case List(items) => Some(items)
    case Str(s) => Some(seq(|s|, i requires 0 <= i < |s| => Str([s[i]])))
    case Obj(members) =>
      var ks := Keys(members);
      Some(seq(|ks|, i requires 0 <= i < |ks| => Str(ks[i])))
    case _ => None
  }

  /** `ts, o, h, l, c, *_ = v`: the items of v, which must be iterable and yield
      at least five of them (ValueError otherwise). */
  function UnpackFive(v: Value): (r: Option<seq<Value>>)
    ensures r.Some? ==> |r.value| >= 5
    ensures v.List? ==> (r.Some? <==> |v.items| >= 5)
    ensures r.Some? && v.List? ==> r.value == v.items
    ensures !(v.List? || v.Str? || v.Obj?) ==> r.None?
    ensures v.Str? ==> (r.Some? <==> |v.s| >= 5)
    ensures v.Obj? ==> (r.Some? <==> |Keys(v.members)| >= 5)
  {
    match Iterate(v)
    case Some(items) => if |items| >= 5 then Some(items) else None
    case None => None
  }
}
