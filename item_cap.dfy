/**
 * `maxItemsCheck`: once the number of items reaches `maxItems`, the process
 * exits (with the default exit code 0). The comparison `itemCount >= maxItems`
 * converts `maxItems` to a number: `undefined` becomes NaN and never compares,
 * while `null`, `false` and `""` become 0.
 */
module ItemCap {
  import opened Wrappers
  import opened JsValues
  import opened InputValidation

  datatype Decision = Continue | Halt

  /** ToNumber of a value that input validation lets through for `maxItems`; `None` is NaN. */
  function ToNumber(v: Value): Option<int>
    requires NumberOrFalsy(v)
  {
    match v
    case Num(n) => Some(n)
    case Undefined => None
    case _ => Some(0)
  }

  /** `maxItemsCheck(maxItems, itemCount)`. */
  function MaxItemsCheck(maxItems: Value, itemCount: nat): (d: Decision)
    requires NumberOrFalsy(maxItems)
    ensures maxItems == Undefined ==> d == Continue
    ensures maxItems.Num? ==> (d == Halt <==> itemCount >= maxItems.n)
    ensures maxItems == Null || maxItems == Bool(false) || maxItems == Str("") ==> d == Halt
  {
    var limit := ToNumber(maxItems);
    if limit.Some? && itemCount >= limit.value then Halt else Continue
  }
}
