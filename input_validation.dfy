/**
 * `validateInput`: a chain of guards over the actor's raw input that throws
 * on the first one that fails. Each guard keeps JavaScript's own semantics:
 * a type check runs only on a truthy value, `typeof` reports arrays and
 * `null` as "object", and the `startUrls` presence check evaluates
 * `.length` exactly when `startUrls` is falsy.
 */
module InputValidation {
  import opened JsValues

  /** The errors `validateInput` can throw. */
  datatype ValidationError =
    | InputMissing                         // "INPUT is missing."
    | StartUrlsRequired                    // the "startUrls" property is required
    | ShouldBe(key: string, expected: string)  // "Value of <key> should be <expected>"
    | LengthOfNullish                      // TypeError: reading `.length` of undefined or null

  datatype Outcome = Pass | Fail(error: ValidationError)

  /**
   * `!startUrls && startUrls.length <= 0`: false for a truthy value; for a
   * falsy one `.length` is read, which throws on `undefined` and `null`, is 0
   * for `""`, and is `undefined` (so the comparison is false) for `0` and `false`.
   */
  function StartUrlsMissing(startUrls: Value): Outcome {
    if Truthy(startUrls) then Pass
    else match startUrls
      case Undefined => Fail(LengthOfNullish)
      case Null => Fail(LengthOfNullish)
      case Str(s) => if |s| <= 0 then Fail(StartUrlsRequired) else Pass
      case _ => Pass
  }

  /** The inner `validate(inputKey, type)` closure, with `expected` for its `type`. */
  function Validate(input: Value, key: string, expected: string): Outcome
    requires !input.IsNullish()
  {
    var value := Get(input, key);
    if expected == "array" then
      if value.Arr? then Pass else Fail(ShouldBe(key, expected))
    else if Truthy(value) && TypeOf(value) != expected then Fail(ShouldBe(key, expected))
    else Pass
  }

  /** What the "number" check lets through: every number, and the falsy values of the other kinds. */
  predicate NumberOrFalsy(v: Value) {
    v.Num? || v == Undefined || v == Null || v == Bool(false) || v == Str("")
  }

  /** What the "string" check lets through: every string, and the falsy values of the other kinds. */
  predicate StringOrFalsy(v: Value) {
    v.Str? || v == Undefined || v == Null || v == Bool(false) || v == Num(0)
  }

  /** What the "object" check lets through: objects, arrays, and every falsy value. */
  predicate ObjectOrFalsy(v: Value) {
    v.Obj? || v.Arr? || v == Undefined || v == Null || v == Bool(false) || v == Num(0) || v == Str("")
  }

  /** The inputs `validateInput` accepts, field by field. */
  predicate Acceptable(input: Value) {
    Truthy(input) &&
    Get(input, "startUrls").Arr? &&
    NumberOrFalsy(Get(input, "maxItems")) &&
    StringOrFalsy(Get(input, "extendOutputFunction")) &&
    ObjectOrFalsy(Get(input, "proxyConfiguration"))
  }

  /** `validateInput(input)`: `Pass` when it returns, `Fail(e)` when it throws `e`. */
  function ValidateInput(input: Value): (r: Outcome)
    ensures r.Pass? <==> Acceptable(input)
    ensures !Truthy(input) ==> r == Fail(InputMissing)
    ensures Truthy(input) ==>
      var urls := Get(input, "startUrls");
      var maxItems := Get(input, "maxItems");
      var extend := Get(input, "extendOutputFunction");
      var proxy := Get(input, "proxyConfiguration");
      (urls.IsNullish() ==> r == Fail(LengthOfNullish)) &&
      (urls == Str("") ==> r == Fail(StartUrlsRequired)) &&
      (!urls.Arr? && !urls.IsNullish() && urls != Str("") ==> r == Fail(ShouldBe("startUrls", "array"))) &&
      (urls.Arr? && !NumberOrFalsy(maxItems) ==> r == Fail(ShouldBe("maxItems", "number"))) &&
      (urls.Arr? && NumberOrFalsy(maxItems) && !StringOrFalsy(extend) ==>
         r == Fail(ShouldBe("extendOutputFunction", "string"))) &&
      (urls.Arr? && NumberOrFalsy(maxItems) && StringOrFalsy(extend) && !ObjectOrFalsy(proxy) ==>
         r == Fail(ShouldBe("proxyConfiguration", "object")))
  {
    if !Truthy(input) then Fail(InputMissing)
    else if StartUrlsMissing(Get(input, "startUrls")).Fail? then StartUrlsMissing(Get(input, "startUrls"))
    else if Validate(input, "startUrls", "array").Fail? then Validate(input, "startUrls", "array")
    else if Validate(input, "maxItems", "number").Fail? then Validate(input, "maxItems", "number")
    else if Validate(input, "extendOutputFunction", "string").Fail? then Validate(input, "extendOutputFunction", "string")
    else Validate(input, "proxyConfiguration", "object")
  }

  /** An input holding only `startUrls: []` passes: the presence check never rejects an empty array. */
  lemma EmptyStartUrlsPass()
    ensures ValidateInput(Obj(map["startUrls" := Arr([])])) == Pass
  {
    var input := Obj(map["startUrls" := Arr([])]);
    assert Get(input, "maxItems") == Undefined;
    assert Get(input, "extendOutputFunction") == Undefined;
    assert Get(input, "proxyConfiguration") == Undefined;
  }

  /** A numeric string for `maxItems` fails, while `0` and `""` pass because they are falsy. */
  lemma MaxItemsChecks(urls: seq<Value>)
    ensures ValidateInput(Obj(map["startUrls" := Arr(urls), "maxItems" := Str("5")]))
              == Fail(ShouldBe("maxItems", "number"))
    ensures ValidateInput(Obj(map["startUrls" := Arr(urls), "maxItems" := Num(0)])) == Pass
    ensures ValidateInput(Obj(map["startUrls" := Arr(urls), "maxItems" := Str("")])) == Pass
  {
    var m := map["startUrls" := Arr(urls)];
    assert Get(Obj(m["maxItems" := Str("5")]), "extendOutputFunction") == Undefined;
    assert Get(Obj(m["maxItems" := Num(0)]), "extendOutputFunction") == Undefined;
    assert Get(Obj(m["maxItems" := Str("")]), "extendOutputFunction") == Undefined;
    assert Get(Obj(m["maxItems" := Num(0)]), "proxyConfiguration") == Undefined;
    assert Get(Obj(m["maxItems" := Str("")]), "proxyConfiguration") == Undefined;
  }

  /** An array for `proxyConfiguration` passes, because `typeof` of an array is "object". */
  lemma ArrayProxyConfigurationPasses(urls: seq<Value>, pc: seq<Value>)
    ensures ValidateInput(Obj(map["startUrls" := Arr(urls), "proxyConfiguration" := Arr(pc)])) == Pass
  {
    var input := Obj(map["startUrls" := Arr(urls), "proxyConfiguration" := Arr(pc)]);
    assert Get(input, "maxItems") == Undefined;
    assert Get(input, "extendOutputFunction") == Undefined;
  }
}
