/**
 The plug-in seam for custom schema keywords: the capability a keyword handler
 offers, the record binding a handler to the value found in one schema node,
 and the error a handler reports when a document value violates the keyword.
 */
module CustomKeywords {
  import opened Wrappers
  import opened JsonValues

  /**
   The result-error fields embedded in every custom keyword error (context,
   path, offending value, description and so on). Their definition lives
   outside this model; a value records which of them have been set, by
   name, so the zero value is the record with nothing set.
   */
  datatype ResultErrorFields = ResultErrorFields(setFields: map<string, Json>)

  /** The zero value of the embedded fields: nothing set. */
  const ZeroResultErrorFields: ResultErrorFields := ResultErrorFields(map[])

  /** The error a handler returns when a document value violates its keyword. */
  datatype CustomKeywordError = CustomKeywordError(
    keyword: string,
    localeStr: string,  // message template, e.g. with `{{.min}}` placeholders, kept unrendered
    fields: ResultErrorFields)

  /** Substitution values for the placeholders of an error's template. */
  type ErrorDetails = map<string, real>

  /**
   Builds an error from a keyword name and a message template only; the
   embedded result fields stay at their zero value for the dispatcher to fill.
   */
  function NewCustomKeywordError(keyword: string, localeStr: string): (e: CustomKeywordError)
    ensures e.keyword == keyword
    ensures e.localeStr == localeStr
    ensures e.fields == ZeroResultErrorFields
  {
    CustomKeywordError(keyword, localeStr, ZeroResultErrorFields)
  }

  /** Two constructed errors are equal exactly when they were built from equal arguments. */
  lemma NewCustomKeywordErrorInjective(k1: string, s1: string, k2: string, s2: string)
    ensures NewCustomKeywordError(k1, s1) == NewCustomKeywordError(k2, s2) <==> k1 == k2 && s1 == s2
  {
  }

  /**
   The capability a custom keyword handler implements:
   - `GetKeyword` names the keyword;
   - `ValidateSchema` checks a keyword value when the schema is compiled and
     returns `None` to accept it or `Some(message)` to reject it;
   - `Validate` checks a document value against an accepted keyword value and
     returns `(None, None)` on success or an error with optional details.
   `Validate` is a partial function: a handler may rely on being called only
   with keyword values its own `ValidateSchema` accepted.
   */
  datatype CustomKeyword = CustomKeyword(
    GetKeyword: () -> string,
    Validate: (Json, Json) --> (Option<CustomKeywordError>, Option<ErrorDetails>),
    ValidateSchema: Json -> Option<string>)

  /**
   The protocol between a handler and the validator: every keyword value that
   `ValidateSchema` accepts can be handed to `Validate` with any document value.
   */
  ghost predicate Conforms(k: CustomKeyword)
  {
    forall kv: Json, dv: Json {:trigger k.Validate.requires(kv, dv)} ::
      k.ValidateSchema(kv).None? ==> k.Validate.requires(kv, dv)
  }

  /** One keyword value found in a schema node, paired with the handler of that keyword. */
  datatype CustomKeywordValue = CustomKeywordValue(value: Json, customKeyword: CustomKeyword)

  /**
   A binding stores exactly the value and the handler it was built from, and
   once its value has passed the handler's schema check (as it has for every
   binding stored on a compiled schema), the handler can check any document
   value against it.
   */
  lemma BindingStoresExactly(value: Json, k: CustomKeyword, dv: Json)
    ensures CustomKeywordValue(value, k).value == value
    ensures CustomKeywordValue(value, k).customKeyword == k
    ensures Conforms(k) && k.ValidateSchema(value).None? ==>
      CustomKeywordValue(value, k).customKeyword.Validate.requires(CustomKeywordValue(value, k).value, dv)
  {
  }
}
