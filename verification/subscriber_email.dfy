/** `SubscriberEmail::parse` (src/domain/subscriber_email.rs). Whether a
    string is a valid address is decided by a library; the model receives
    that decision as the predicate `validEmail`. */
module SubscriberEmails {
  import opened Wrappers

  datatype SubscriberEmail = SubscriberEmail(email: string) {
    function AsRef(): string { email }
  }

  /** `SubscriberEmail::parse`. */
  function Parse(email: string, validEmail: string -> bool): (r: Result<SubscriberEmail, string>)
    ensures r.Success? <==> validEmail(email)
    ensures r.Success? ==> r.value.AsRef() == email
    ensures r.Failure? ==> r.error == email + " is not a valid subscriber email"
  {
    if validEmail(email) then Success(SubscriberEmail(email))
    else Failure(email + " is not a valid subscriber email")
  }
}
