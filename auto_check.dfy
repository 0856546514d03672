/** Automatic checklist verification: an item's `autoCheck` names one or two
    telemetry variables and the values they must have; the evaluator turns the
    current telemetry into ok / fail / unknown, and the counter tallies a whole
    list of items. */
module AutoCheck {
  import opened Common
  import opened TimeText

  /** JavaScript values as they appear in telemetry and in checklist data. */
  datatype JsValue = Undefined | Null | Bool(b: bool) | Num(n: real) | Str(s: string)

  /** Telemetry: a variable absent from the map reads as `undefined`. */
  type Telemetry = map<string, JsValue>

  datatype Check = Check(
    simVar: string,
    expectedValue: JsValue,
    simVar2: Option<string>,
    expectedValue2: JsValue,
    logic: Option<string>,
    comparison: Option<string>,
    optional: bool)

  datatype Status = Ok | Fail | Unknown

  datatype Observed = NoValue | One(v: JsValue) | Two(var1: string, v1: JsValue, var2: string, v2: JsValue)

  datatype Evaluation = Evaluation(status: Status, value: Observed)

  /** `10^k`. */
  function Pow10(k: nat): (r: nat)
    ensures r >= 1
  {
    if k == 0 then 1 else 10 * Pow10(k - 1)
  }

  /** The value of an unsigned decimal numeral: digits, optionally followed by
      a point and more digits, with at least one digit in all; nothing (NaN)
      for anything else. */
  function DecimalValue(body: string): (r: Option<real>)
    ensures r.Some? ==> r.value >= 0.0
  {
    var n := SpanDigits(body);
    var intPart := DigitsValue(body[..n]) as real;
    var rest := body[n..];
    if rest == [] then (if n > 0 then Some(intPart) else None)
    else if rest[0] != '.' then None
    else
      var frac := rest[1..];
      if SpanDigits(frac) != |frac| || (n == 0 && frac == []) then None
      else Some(intPart + DigitsValue(frac) as real / Pow10(|frac|) as real)
  }

  /** `Number(s)` for decimal text: surrounding white space is ignored, blank
      text is 0, an optional sign precedes a decimal numeral; any other text
      is NaN (nothing). */
  function StringToNumber(s: string): (r: Option<real>)
    ensures AllWhiteSpace(s) ==> r == Some(0.0)
  {
    var t := Trim(s);
    if t == [] then Some(0.0)
    else
      var neg := t[0] == '-';
      var body := if t[0] == '-' || t[0] == '+' then t[1..] else t;
      match DecimalValue(body)
      case None => None
      case Some(v) => Some(if neg then -v else v)
  }

  /** Numeric conversion for relational comparison: booleans count as 0/1,
      null as 0 and text as `Number` reads it; `undefined` has none (it
      compares as NaN). */
  function ToNumber(v: JsValue): Option<real> {
    match v
    case Num(n) => Some(n)
    case Bool(b) => Some(if b then 1.0 else 0.0)
    case Null => Some(0.0)
    case Str(s) => StringToNumber(s)
    case Undefined => None
  }

  /** A printed whole number reads back as that number. */
  lemma StringToNumberOfNat(n: nat)
    ensures StringToNumber(NatToString(n)) == Some(n as real)
  {
    var s := NatToString(n);
    TrimOfUntrimmed(s);
    assert !IsWhiteSpace(s[0]) && !IsWhiteSpace(s[|s| - 1]);
    SpanDigitsOfDigits(s, "");
    assert s + "" == s;
    assert s[..|s|] == s;
    NatToStringValue(n);
  }

  /** Text that holds a number compares as that number against a number, as
      JavaScript's relational operators coerce it; blank text compares as 0. */
  lemma NumericTextComparesAsNumber(x: real, n: nat, blank: string)
    requires AllWhiteSpace(blank)
    ensures JsLessEq(Num(x), Str(NatToString(n))) <==> x <= n as real
    ensures JsLess(Num(x), Str(NatToString(n))) <==> x < n as real
    ensures JsLessEq(Str(NatToString(n)), Num(x)) <==> n as real <= x
    ensures JsLessEq(Num(0.0), Str(blank)) && JsLessEq(Str(blank), Num(0.0))
  {
    StringToNumberOfNat(n);
  }

  /** Lexicographic order on strings, character by character. */
  predicate StrLess(a: string, b: string)
    decreases |a|
  {
    if a == [] then b != []
    else if b == [] then false
    else if a[0] != b[0] then a[0] < b[0]
    else StrLess(a[1..], b[1..])
  }

  /** `a < b`: two strings compare lexicographically, anything else
      numerically; a comparison with no number is false. */
  predicate JsLess(a: JsValue, b: JsValue) {
    if a.Str? && b.Str? then StrLess(a.s, b.s)
    else ToNumber(a).Some? && ToNumber(b).Some? && ToNumber(a).value < ToNumber(b).value
  }

  /** `a <= b`. */
  predicate JsLessEq(a: JsValue, b: JsValue) {
    if a.Str? && b.Str? then !StrLess(b.s, a.s)
    else ToNumber(a).Some? && ToNumber(b).Some? && ToNumber(a).value <= ToNumber(b).value
  }

  /** The first variable's test: the named comparison, strict equality for any
      other comparison name. */
  predicate FirstHolds(c: Check, v1: JsValue) {
    if c.comparison == Some("gte") then JsLessEq(c.expectedValue, v1)
    else if c.comparison == Some("lte") then JsLessEq(v1, c.expectedValue)
    else if c.comparison == Some("gt") then JsLess(c.expectedValue, v1)
    else if c.comparison == Some("lt") then JsLess(v1, c.expectedValue)
    else v1 == c.expectedValue
  }

  /** A second variable is configured when `simVar2` is a non-empty string. */
  predicate HasSecond(c: Check) { c.simVar2.Some? && c.simVar2.value != "" }

  predicate Defined(t: Telemetry, name: string) { name in t && t[name] != Undefined }

  function Evaluate(autoCheck: Option<Check>, simData: Option<Telemetry>): (r: Evaluation)
    ensures autoCheck.None? || simData.None? ==> r == Evaluation(Unknown, NoValue)
    ensures autoCheck.Some? && simData.Some? && !Defined(simData.value, autoCheck.value.simVar)
      ==> r == Evaluation(Unknown, NoValue)
    // the single-variable case
    ensures autoCheck.Some? && simData.Some? && Defined(simData.value, autoCheck.value.simVar) && !HasSecond(autoCheck.value) ==>
      var c := autoCheck.value;
      var v1 := simData.value[c.simVar];
      r.value == One(v1)
      && (r.status == Ok <==> FirstHolds(c, v1))
      && (r.status == Unknown <==> c.optional && !FirstHolds(c, v1))
    // the two-variable case: the second variable is always compared by strict equality
    ensures autoCheck.Some? && simData.Some? && Defined(simData.value, autoCheck.value.simVar) && HasSecond(autoCheck.value) ==>
      var c := autoCheck.value;
      var t := simData.value;
      var v1 := t[c.simVar];
      if !Defined(t, c.simVar2.value) then r == Evaluation(Unknown, NoValue)
      else
        var second := t[c.simVar2.value] == c.expectedValue2;
        r.value == Two(c.simVar, v1, c.simVar2.value, t[c.simVar2.value])
        && r.status != Unknown
        && (r.status == Ok <==> if c.logic == Some("or") then FirstHolds(c, v1) || second else FirstHolds(c, v1) && second)
  {
    if autoCheck.None? || simData.None? then Evaluation(Unknown, NoValue)
    else
      var c := autoCheck.value;
      var t := simData.value;
      if !Defined(t, c.simVar) then Evaluation(Unknown, NoValue)
      else
        var v1 := t[c.simVar];
        var result1 := FirstHolds(c, v1);
        if !HasSecond(c) then
          if c.optional && !result1 then Evaluation(Unknown, One(v1))
          else Evaluation(if result1 then Ok else Fail, One(v1))
        else if !Defined(t, c.simVar2.value) then Evaluation(Unknown, NoValue)
        else
          var v2 := t[c.simVar2.value];
          var result2 := v2 == c.expectedValue2;
          var final := if c.logic == Some("or") then result1 || result2 else result1 && result2;
          Evaluation(if final then Ok else Fail, Two(c.simVar, v1, c.simVar2.value, v2))
  }

  /** An optional single-variable check is never reported as failed. */
  lemma OptionalNeverFails(c: Check, t: Telemetry)
    requires c.optional && !HasSecond(c)
    ensures Evaluate(Some(c), Some(t)).status != Fail
  {
  }

  /** Switching a two-variable check from "and" to "or" can only turn a failure
      into a success, never the other way round. */
  lemma OrIsWeakerThanAnd(c: Check, t: Telemetry)
    requires HasSecond(c)
    ensures Evaluate(Some(c.(logic := Some("and"))), Some(t)).status == Ok
        ==> Evaluate(Some(c.(logic := Some("or"))), Some(t)).status == Ok
  {
  }

  /** The counters of a status summary. */
  datatype Tally = Tally(total: nat, ok: nat, fail: nat, unknown: nat)

  datatype Item = Item(autoCheck: Option<Check>)

  function CountChecked(items: seq<Item>): (n: nat)
    ensures n <= |items|
  {
    if items == [] then 0
    else CountChecked(items[..|items| - 1]) + (if items[|items| - 1].autoCheck.Some? then 1 else 0)
  }

  function Bump(t: Tally, s: Status): Tally {
    match s
    case Ok => t.(total := t.total + 1, ok := t.ok + 1)
    case Fail => t.(total := t.total + 1, fail := t.fail + 1)
    case Unknown => t.(total := t.total + 1, unknown := t.unknown + 1)
  }

  /** The number of items with an `autoCheck` that evaluates to `s`. */
  function CountStatus(items: seq<Item>, t: Telemetry, s: Status): (n: nat)
    ensures n <= CountChecked(items)
  {
    if items == [] then 0
    else
      var last := items[|items| - 1];
      CountStatus(items[..|items| - 1], t, s)
      + (if last.autoCheck.Some? && Evaluate(last.autoCheck, Some(t)).status == s then 1 else 0)
  }

  /** The summary of a list: every item with an `autoCheck` is counted once,
      under the status it evaluates to. */
  function TallyOf(items: seq<Item>, t: Telemetry): (r: Tally)
    ensures r.total == r.ok + r.fail + r.unknown
    ensures r.total == CountChecked(items)
    ensures r.ok == CountStatus(items, t, Ok) && r.fail == CountStatus(items, t, Fail)
    ensures r.unknown == CountStatus(items, t, Unknown)
  {
    if items == [] then Tally(0, 0, 0, 0)
    else
      var before := TallyOf(items[..|items| - 1], t);
      var last := items[|items| - 1];
      if last.autoCheck.Some? then Bump(before, Evaluate(last.autoCheck, Some(t)).status) else before
  }

  /** Summarises the automatic checks of a list; no list or no telemetry gives
      all zeros. */
  method CheckAllAutoStatus(items: Option<seq<Item>>, simData: Option<Telemetry>) returns (result: Tally)
    ensures items.None? || simData.None? ==> result == Tally(0, 0, 0, 0)
    ensures items.Some? && simData.Some? ==> result == TallyOf(items.value, simData.value)
    ensures result.total == result.ok + result.fail + result.unknown
  {
    result := Tally(0, 0, 0, 0);
    if items.None? || simData.None? {
      return;
    }
    var list := items.value;
    var i := 0;
    while i < |list|
      invariant 0 <= i <= |list|
      invariant result == TallyOf(list[..i], simData.value)
    {
      assert list[..i + 1][..i] == list[..i];
      var item := list[i];
      if item.autoCheck.Some? {
        var status := Evaluate(item.autoCheck, simData).status;
        result := Bump(result, status);
      }
      i := i + 1;
    }
    assert list[..|list|] == list;
  }

  /** Items without an automatic check do not affect the summary. */
  lemma {:induction false} UncheckedItemsIgnored(items: seq<Item>, t: Telemetry)
    ensures TallyOf(items + [Item(None)], t) == TallyOf(items, t)
  {
    assert (items + [Item(None)])[..|items|] == items;
  }

  /** All-ok summaries: every counted item evaluates to ok exactly when the
      `ok` counter equals the total. */
  lemma {:induction false} AllOkIffOkEqualsTotal(items: seq<Item>, t: Telemetry)
    ensures TallyOf(items, t).ok == TallyOf(items, t).total
        <==> forall i :: 0 <= i < |items| && items[i].autoCheck.Some? ==> Evaluate(items[i].autoCheck, Some(t)).status == Ok
    decreases |items|
  {
    if items != [] {
      var init := items[..|items| - 1];
      AllOkIffOkEqualsTotal(init, t);
      var before := TallyOf(init, t);
      assert before.ok <= before.total;
      forall i | 0 <= i < |init|
        ensures init[i] == items[i]
      {
      }
    }
  }
}
