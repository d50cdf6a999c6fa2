/** Optional values and the outcomes the request handlers report. */
module Outcomes {

  /** A request field that may be absent from the JSON body, or a value that may be missing. */
  datatype Option<+T> = None | Some(value: T)

  /** The failures the handlers answer with. HTTP status codes and message texts are not modelled. */
  datatype Error =
    | InvalidParameters    // a required request field is absent or falsy
    | CustomerNotFound
    | LoanNotFound
    | AlreadyPaidOff
    | OverpaymentRejected
    | NoLoansFound

  datatype Result<+T> = Ok(value: T) | Err(error: Error)

  /** JavaScript truthiness of a numeric field: `!x` holds for an absent field and for 0. */
  predicate GivenNumber(x: Option<real>)
    ensures GivenNumber(x) ==> x.Some?
    ensures x == None || x == Some(0.0) ==> !GivenNumber(x)
  {
    x.Some? && x.value != 0.0
  }

  /** JavaScript truthiness of a text field: `!s` holds for an absent field and for "". */
  predicate GivenText(s: Option<string>)
    ensures GivenText(s) ==> s.Some?
    ensures s == None || s == Some("") ==> !GivenText(s)
  {
    s.Some? && s.value != ""
  }
}
