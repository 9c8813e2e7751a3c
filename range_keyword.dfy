/**
 The `range` keyword: its value is an array of exactly two numbers `[min, max]`,
 and a document value passes when it lies between them, both ends included.
 */
module RangeKeyword {
  import opened Wrappers
  import opened JsonValues
  import opened CustomKeywords

  /** The one message every malformed `range` value is rejected with. */
  const RangeShapeMessage: string := "range must be an array containing exactly 2 numbers"

  /** The unrendered template of a range violation. */
  const RangeMessageTemplate: string := "must be between {{.min}} and {{.max}}"

  /** The `range` keyword value `[lo, hi]` as it is written in a schema. */
  function Declaration(lo: real, hi: real): Json
  {
    Arr([Num(lo), Num(hi)])
  }

  /** The keyword's name. */
  function GetKeyword(): (name: string)
    ensures name == "range"
  {
    "range"
  }

  /**
   The schema-time shape check: accepts exactly the declarations `[lo, hi]`
   of two numbers, whatever their order, and rejects everything else with
   one fixed message.
   */
  function ValidateSchema(keywordValue: Json): (err: Option<string>)
    ensures err.None? <==> exists lo: real, hi: real :: keywordValue == Declaration(lo, hi)
    ensures err.Some? ==> err.value == RangeShapeMessage
  {
    if !keywordValue.Arr? || |keywordValue.elems| != 2 then
      Some(RangeShapeMessage)
    else if !keywordValue.elems[0].Num? then
      Some(RangeShapeMessage)
    else if !keywordValue.elems[1].Num? then
      Some(RangeShapeMessage)
    else
      assert keywordValue == Declaration(keywordValue.elems[0].n, keywordValue.elems[1].n);
      None
  }

  /** The declared bounds of an accepted keyword value, first element then second. */
  function Bounds(keywordValue: Json): (b: (real, real))
    requires ValidateSchema(keywordValue).None?
    ensures keywordValue == Declaration(b.0, b.1)
  {
    (keywordValue.elems[0].n, keywordValue.elems[1].n)
  }

  /**
   The number a document value is read as: its own value when it is a number,
   and zero otherwise, because the failed type assertion and the failed parse
   of the resulting empty number token are both ignored.
   */
  function DocumentNumber(documentValue: Json): (value: real)
    ensures documentValue.Num? ==> value == documentValue.n
    ensures !documentValue.Num? ==> value == 0.0
  {
    if documentValue.Num? then documentValue.n else 0.0
  }

  /**
   The document-time check: passes with `(None, None)` exactly when the
   document's number lies in the closed interval of the declared bounds;
   otherwise fails with the range error and the bounds as details.
   */
  function Validate(keywordValue: Json, documentValue: Json): (r: (Option<CustomKeywordError>, Option<ErrorDetails>))
    requires ValidateSchema(keywordValue).None?
    ensures r.0.None? <==> Bounds(keywordValue).0 <= DocumentNumber(documentValue) <= Bounds(keywordValue).1
    ensures r.0.None? ==> r.1.None?
    ensures r.0.Some? ==>
      && r.0.value == NewCustomKeywordError(GetKeyword(), RangeMessageTemplate)
      && r.1 == Some(map["min" := Bounds(keywordValue).0, "max" := Bounds(keywordValue).1])
  {
    var value := DocumentNumber(documentValue);
    var (min, max) := Bounds(keywordValue);
    var details: ErrorDetails := map["min" := min, "max" := max];
    if value < min || value > max then
      (Some(NewCustomKeywordError("range", RangeMessageTemplate)), Some(details))
    else
      (None, None)
  }

  /** The range keyword as a handler of the custom keyword capability. */
  const TestRangeKeyword: CustomKeyword :=
    CustomKeyword(
      () => GetKeyword(),
      (kv, dv) requires ValidateSchema(kv).None? => Validate(kv, dv),
      kv => ValidateSchema(kv))

  /**
   The range keyword honours the handler protocol: every value its schema
   check accepts can be checked against documents, and the record's
   operations are the ones above.
   */
  lemma RangeKeywordConforms(kv: Json, dv: Json)
    ensures Conforms(TestRangeKeyword)
    ensures TestRangeKeyword.GetKeyword() == "range"
    ensures TestRangeKeyword.ValidateSchema(kv) == ValidateSchema(kv)
    ensures ValidateSchema(kv).None? ==> TestRangeKeyword.Validate(kv, dv) == Validate(kv, dv)
  {
  }

  /** The malformed value of the invalid-schema scenario is rejected with the fixed message. */
  lemma InvalidDeclarationMessage()
    ensures ValidateSchema(Str("invalid")) == Some(RangeShapeMessage)
    ensures ValidateSchema(Arr([Num(1.0)])) == Some(RangeShapeMessage)
    ensures ValidateSchema(Arr([Num(1.0), Num(2.0), Num(3.0)])) == Some(RangeShapeMessage)
    ensures ValidateSchema(Arr([Str("10"), Num(20.0)])) == Some(RangeShapeMessage)
    ensures ValidateSchema(Arr([Num(10.0), Null])) == Some(RangeShapeMessage)
  {
  }

  /** Encoding bounds as a declaration and reading them back gives the same bounds. */
  lemma DeclarationRoundTrip(lo: real, hi: real)
    ensures ValidateSchema(Declaration(lo, hi)).None?
    ensures Bounds(Declaration(lo, hi)) == (lo, hi)
  {
  }

  /** A document number passes exactly when it lies in [lo, hi], both bounds included. */
  lemma ValidateInclusive(lo: real, hi: real, v: real)
    ensures ValidateSchema(Declaration(lo, hi)).None?
    ensures Validate(Declaration(lo, hi), Num(v)) == (None, None) <==> lo <= v <= hi
    ensures lo <= hi ==> Validate(Declaration(lo, hi), Num(lo)) == (None, None)
    ensures lo <= hi ==> Validate(Declaration(lo, hi), Num(hi)) == (None, None)
  {
  }

  /**
   Every failure reports the range error with its fields at their zero value
   and details holding exactly `min` and `max`, bound to the first and the
   second declared element.
   */
  lemma FailureReport(keywordValue: Json, documentValue: Json)
    requires ValidateSchema(keywordValue).None?
    requires Validate(keywordValue, documentValue).0.Some?
    ensures var (err, details) := Validate(keywordValue, documentValue);
      && err.value.keyword == TestRangeKeyword.GetKeyword()
      && err.value.localeStr == RangeMessageTemplate
      && err.value.fields == ZeroResultErrorFields
      && details.Some?
      && details.value.Keys == {"min", "max"}
      && details.value["min"] == keywordValue.elems[0].n
      && details.value["max"] == keywordValue.elems[1].n
  {
  }

  /** A document value that is not a number is checked as if it were zero. */
  lemma NonNumberReadAsZero(keywordValue: Json, documentValue: Json)
    requires ValidateSchema(keywordValue).None?
    requires !documentValue.Num?
    ensures Validate(keywordValue, documentValue) == Validate(keywordValue, Num(0.0))
    ensures Validate(keywordValue, documentValue).0.None? <==>
      keywordValue.elems[0].n <= 0.0 <= keywordValue.elems[1].n
  {
  }

  /**
   The schema check does not order the bounds: a declaration whose first
   element exceeds its second is accepted, and then rejects every document value.
   */
  lemma InvertedBoundsRejectAll(lo: real, hi: real, documentValue: Json)
    requires hi < lo
    ensures ValidateSchema(Declaration(lo, hi)).None?
    ensures Validate(Declaration(lo, hi), documentValue).0.Some?
  {
  }

  /** Every accepted declaration rejects some document value. */
  lemma EveryRangeRejectsSomeValue(keywordValue: Json)
    requires ValidateSchema(keywordValue).None?
    ensures exists dv: Json :: Validate(keywordValue, dv).0.Some?
  {
    var above := Num(Bounds(keywordValue).1 + 1.0);
    assert Validate(keywordValue, above).0.Some?;
  }

  /** A declaration with ordered bounds accepts some document value. */
  lemma OrderedRangeAcceptsSomeValue(lo: real, hi: real)
    requires lo <= hi
    ensures exists dv: Json :: Validate(Declaration(lo, hi), dv).0.None?
  {
    DeclarationRoundTrip(lo, hi);
    assert Validate(Declaration(lo, hi), Num(lo)).0.None?;
  }

  /**
   The handler-level outcome for each number in the documents the keyword is
   exercised with: `num` in [10, 20] and `num2` in [20, 30] at top level, and
   `c` in [10, 20] and `d` in [20, 30] in the nested schema.
   */
  lemma ExercisedOutcomes()
    ensures Validate(Declaration(10.0, 20.0), Num(15.0)) == (None, None)
    ensures Validate(Declaration(20.0, 30.0), Num(25.0)) == (None, None)
    ensures Validate(Declaration(10.0, 20.0), Num(1.0)) ==
      (Some(NewCustomKeywordError("range", RangeMessageTemplate)), Some(map["min" := 10.0, "max" := 20.0]))
    ensures Validate(Declaration(20.0, 30.0), Num(100.0)) ==
      (Some(NewCustomKeywordError("range", RangeMessageTemplate)), Some(map["min" := 20.0, "max" := 30.0]))
    ensures Validate(Declaration(20.0, 30.0), Num(50.0)).0.Some?
  {
  }
}
