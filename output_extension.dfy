/**
 * The result check and merge of `applyFunction`: the user's function is
 * awaited on the page handle; a throw falls back to `{}`, a result that is
 * not a plain object ends the process with exit code 1, and a plain object
 * is spread over the scraped item.
 */
module OutputExtension {
  import opened JsValues

  /** How `await evaledFunc($)` ended. */
  datatype UserOutcome = Throws | Returns(value: Value)

  /** The extended item, or `process.exit(code)`. */
  datatype Extended = Extended(item: map<string, Value>) | FatalExit(code: int)

  /** `isObject(val)`: `typeof` says "object", and it is neither `null` nor an array. */
  predicate IsObject(v: Value)
    ensures IsObject(v) <==> v.Obj?
  {
    TypeOf(v) == "object" && v != Null && !v.Arr?
  }

  /** `{ ...item, ...extra }`: every key of either, the value from `extra` where both have it. */
  function Spread(item: map<string, Value>, extra: map<string, Value>): (r: map<string, Value>)
    ensures r.Keys == item.Keys + extra.Keys
    ensures forall k | k in extra :: r[k] == extra[k]
    ensures forall k | k in item && k !in extra :: r[k] == item[k]
  {
    item + extra
  }

  /** `applyFunction($, evaledFunc, item)`, given how the call to `evaledFunc` ended. */
  function ApplyFunction(item: map<string, Value>, outcome: UserOutcome): (r: Extended)
    ensures outcome == Throws ==> r == Extended(item)
    ensures outcome.Returns? ==> (r.FatalExit? <==> !outcome.value.Obj?)
    ensures r.FatalExit? ==> r.code == 1
    ensures outcome.Returns? && outcome.value.Obj? ==>
      var extra := outcome.value.props;
      r.Extended? && r.item.Keys == item.Keys + extra.Keys &&
      (forall k | k in extra :: r.item[k] == extra[k]) &&
      (forall k | k in item && k !in extra :: r.item[k] == item[k])
  {
    var userResult := if outcome.Returns? then outcome.value else Obj(map[]);
    if !IsObject(userResult) then FatalExit(1)
    else
      assert outcome == Throws ==> Spread(item, userResult.props) == item;
      Extended(Spread(item, userResult.props))
  }

  /** `{ price: 10 }` returned for `{ name: "x" }` gives `{ name: "x", price: 10 }`. */
  lemma MergeExample()
    ensures ApplyFunction(map["name" := Str("x")], Returns(Obj(map["price" := Num(10)])))
            == Extended(map["name" := Str("x"), "price" := Num(10)])
  {
  }
}
