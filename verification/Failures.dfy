/** Classification of payment failures: the documented table, the message classifier and the Paystack map. */
module Failures {
  import opened Json

  datatype Code =
    | MissingBankDetails | InvalidAccount | InsufficientBalance | DuplicateReference
    | ProviderUnavailable | ProviderRejected | ProviderMisconfigured

  /** The public table: which failures are worth retrying automatically. */
  predicate WorthRetrying(code: Code) {
    code == InsufficientBalance || code == ProviderUnavailable || code == DuplicateReference
  }

  /**
   * A CashbackPaymentError; code and flag are set independently wherever one is constructed. None stands for
   * undefined, which is falsy and which a save leaves out.
   */
  datatype Failure = Failure(message: string, code: Option<Code>, retryable: Option<bool>)

  predicate Soft(f: Failure) {
    f.retryable == Some(true)
  }

  /** There is a code, and the flag is what the public table says about it. */
  predicate Consistent(f: Failure) {
    f.code.Some? && f.retryable == Some(WorthRetrying(f.code.value))
  }

  /** Anything a try block can catch. */
  datatype Error = PaymentError(failure: Failure) | Plain(message: string)

  /** The regular expressions, as arbitrary predicates on the message. */
  datatype Patterns = Patterns(
    insufficient: string -> bool, invalidAccount: string -> bool,
    duplicateReference: string -> bool, unavailable: string -> bool)

  /** classifyCashbackFailure */
  function Classify(p: Patterns, e: Error): (f: Failure) {
    match e
    case PaymentError(failure) => failure
    case Plain(m) =>
      if p.insufficient(m) then Failure(m, Some(InsufficientBalance), Some(true))
      else if p.invalidAccount(m) then Failure(m, Some(InvalidAccount), Some(false))
      else if p.duplicateReference(m) then Failure(m, Some(DuplicateReference), Some(true))
      else if p.unavailable(m) then Failure(m, Some(ProviderUnavailable), Some(true))
      else Failure(m, Some(ProviderRejected), Some(false))
  }

  datatype Entry = Entry(code: Option<Code>, retryable: Option<bool>)

  function Known(code: Code, retryable: bool): (e: Entry) {
    Entry(Some(code), Some(retryable))
  }

  /** Keys every plain object inherits that are all lower case: the lookup finds them, without code or flag. */
  predicate InheritedKey(code: string) {
    code == "constructor" || code == "__proto__"
  }

  /** A lookup in PAYSTACK_ERROR_CODE_MAP, a plain object. */
  function PaystackCode(code: string): (r: Option<Entry>) {
    if code == "insufficient_balance" then Some(Known(InsufficientBalance, true))
    else if code == "invalid_bank_code" then Some(Known(InvalidAccount, false))
    else if code == "invalid_account_number" then Some(Known(InvalidAccount, false))
    else if code == "invalid_transfer_recipient" then Some(Known(InvalidAccount, false))
    else if code == "duplicate_transfer_reference" then Some(Known(DuplicateReference, true))
    else if code == "invalid_key" then Some(Known(ProviderMisconfigured, false))
    else if code == "missing_params" then Some(Known(ProviderRejected, false))
    else if code == "invalid_params" then Some(Known(ProviderRejected, false))
    else if code == "invalid_amount" then Some(Known(ProviderRejected, false))
    else if InheritedKey(code) then Some(Entry(None, None))
    else None
  }

  /** What comes back from an HTTP call to Paystack; code is already lower case. */
  datatype Reply =
    | Unreachable(reason: string)
    | NotAnObject(reason: string)
    | Body(status: int, ok: bool, accepted: bool, code: Option<string>, message: Option<string>, hasData: bool)

  datatype Sent = Data | Throws(error: Error)

  /** A refusal that is neither a rate limit nor a server error: its error code is looked up. */
  predicate LooksUpCode(reply: Reply) {
    reply.Body? && !(reply.ok && reply.accepted) && reply.status != 429 && reply.status < 500
  }

  /** postToPaystack: the order in which its checks are made decides the classification. */
  function PostToPaystack(p: Patterns, reply: Reply): (r: Sent) {
    match reply
    case Unreachable(reason) =>
      Throws(PaymentError(Failure("Could not reach Paystack: " + reason, Some(ProviderUnavailable), Some(true))))
    case NotAnObject(reason) => Throws(Plain(reason))
    case Body(status, ok, accepted, code, message, hasData) =>
      var text := if message.Some? then message.value else "Paystack request failed";
      if !ok || !accepted then
        if status == 429 || status >= 500 then
          Throws(PaymentError(Failure(text, Some(ProviderUnavailable), Some(true))))
        else if code.Some? && code.value != "" && PaystackCode(code.value).Some? then
          var entry := PaystackCode(code.value).value;
          Throws(PaymentError(Failure(text, entry.code, entry.retryable)))
        else Throws(PaymentError(Classify(p, Plain(text))))
      else if hasData then Data
      else Throws(Plain("Paystack response is missing data"))
  }

  /** Why a payment attempt threw: every payment error that is constructed, and anything else. */
  datatype Cause =
    | Other(message: string)
    | NoBankDetails(message: string)    // MissingBankDetailsError
    | Paystack(reply: Reply)

  predicate Throwing(p: Patterns, cause: Cause) {
    cause.Paystack? ==> PostToPaystack(p, cause.reply).Throws?
  }

  /** The failure the catch block works with. */
  function Caught(p: Patterns, cause: Cause): (f: Failure)
    requires Throwing(p, cause)
  {
    match cause
    case Other(message) => Classify(p, Plain(message))
    case NoBankDetails(message) => Classify(p, PaymentError(Failure(message, Some(MissingBankDetails), Some(false))))
    case Paystack(reply) => Classify(p, PostToPaystack(p, reply).error)
  }

  /** The reply's error code names an inherited key, and is looked up. */
  predicate HitsInherited(cause: Cause) {
    cause.Paystack? && LooksUpCode(cause.reply) && cause.reply.code.Some? && InheritedKey(cause.reply.code.value)
  }

  lemma ClassifyConsistent(p: Patterns, e: Error)
    requires e.PaymentError? ==> Consistent(e.failure)
    ensures Consistent(Classify(p, e))
  {
  }

  lemma KnownCodesAreConsistent(code: string)
    requires PaystackCode(code).Some? && !InheritedKey(code)
    ensures var e := PaystackCode(code).value; e.code.Some? && e.retryable == Some(WorthRetrying(e.code.value))
  {
  }

  /** The failing reply: an error code of "constructor" yields a failure with neither code nor flag. */
  lemma InheritedKeyHasNoCode(p: Patterns)
    ensures var cause := Paystack(Body(400, false, false, Some("constructor"), None, false));
            Throwing(p, cause) && HitsInherited(cause) && Caught(p, cause).code == None &&
              Caught(p, cause).retryable == None
  {
    assert PaystackCode("constructor") == Some(Entry(None, None));
  }

  /**
   * Whatever is thrown, the failure recorded agrees with the public table if and only if no inherited key was
   * looked up; and a rate limit or server error is retryable even when the body names a hard error code.
   */
  lemma FailuresAreConsistentIff(p: Patterns, cause: Cause)
    requires Throwing(p, cause)
    ensures Consistent(Caught(p, cause)) <==> !HitsInherited(cause)
    ensures HitsInherited(cause) ==> Caught(p, cause).code == None && Caught(p, cause).retryable == None
    ensures cause.Paystack? && cause.reply.Body? && !LooksUpCode(cause.reply) &&
            !(cause.reply.ok && cause.reply.accepted) ==>
              Caught(p, cause).code == Some(ProviderUnavailable) && Soft(Caught(p, cause))
  {
    if cause.Paystack? && LooksUpCode(cause.reply) && cause.reply.code.Some? {
      var code := cause.reply.code.value;
      if PaystackCode(code).Some? && !InheritedKey(code) {
        KnownCodesAreConsistent(code);
      }
    }
  }

  // ---------------------------------------------------------------- which code an error gets

  function FailureOf(message: string, code: Code, retryable: bool): (f: Failure) {
    Failure(message, Some(code), Some(retryable))
  }

  /** The first pattern that matches a plain error decides; a payment error comes back as it is. */
  lemma FirstMatchDecides(p: Patterns, m: string, known: Failure)
    ensures Classify(p, PaymentError(known)) == known
    ensures p.insufficient(m) ==> Classify(p, Plain(m)) == FailureOf(m, InsufficientBalance, true)
    ensures !p.insufficient(m) && p.invalidAccount(m) ==> Classify(p, Plain(m)) == FailureOf(m, InvalidAccount, false)
    ensures !p.insufficient(m) && !p.invalidAccount(m) && p.duplicateReference(m) ==>
              Classify(p, Plain(m)) == FailureOf(m, DuplicateReference, true)
    ensures !p.insufficient(m) && !p.invalidAccount(m) && !p.duplicateReference(m) && p.unavailable(m) ==>
              Classify(p, Plain(m)) == FailureOf(m, ProviderUnavailable, true)
    ensures !p.insufficient(m) && !p.invalidAccount(m) && !p.duplicateReference(m) && !p.unavailable(m) ==>
              Classify(p, Plain(m)) == FailureOf(m, ProviderRejected, false)
  {
  }

  /** What a cause leads to when nothing about it is looked up in a reply. */
  lemma PlainCauses(p: Patterns, m: string)
    ensures Caught(p, Other(m)) == Classify(p, Plain(m))
    ensures Caught(p, NoBankDetails(m)) == FailureOf(m, MissingBankDetails, false)
    ensures Caught(p, Paystack(Unreachable(m))) ==
            FailureOf("Could not reach Paystack: " + m, ProviderUnavailable, true)
    ensures Caught(p, Paystack(NotAnObject(m))) == Classify(p, Plain(m))
  {
  }

  function TextOf(message: Option<string>): (m: string) {
    if message.Some? then message.value else "Paystack request failed"
  }

  /** Status 429 and every 5xx come before anything the body says. */
  lemma OutagesComeFirst(p: Patterns, status: int, ok: bool, accepted: bool, code: Option<string>,
                         message: Option<string>, hasData: bool)
    requires !(ok && accepted) && (status == 429 || status >= 500)
    ensures Caught(p, Paystack(Body(status, ok, accepted, code, message, hasData))) ==
            FailureOf(TextOf(message), ProviderUnavailable, true)
  {
  }

  predicate Refused(reply: Reply, code: string) {
    LooksUpCode(reply) && reply.code == Some(code)
  }

  /** The documented error codes decide before the message text does. */
  lemma KnownCodesDecide(p: Patterns, reply: Reply)
    requires LooksUpCode(reply)
    ensures var f, m := Caught(p, Paystack(reply)), TextOf(reply.message);
      && (Refused(reply, "insufficient_balance") ==> f == FailureOf(m, InsufficientBalance, true))
      && (Refused(reply, "invalid_bank_code") ==> f == FailureOf(m, InvalidAccount, false))
      && (Refused(reply, "invalid_account_number") ==> f == FailureOf(m, InvalidAccount, false))
      && (Refused(reply, "invalid_transfer_recipient") ==> f == FailureOf(m, InvalidAccount, false))
      && (Refused(reply, "duplicate_transfer_reference") ==> f == FailureOf(m, DuplicateReference, true))
      && (Refused(reply, "invalid_key") ==> f == FailureOf(m, ProviderMisconfigured, false))
      && (Refused(reply, "missing_params") ==> f == FailureOf(m, ProviderRejected, false))
      && (Refused(reply, "invalid_params") ==> f == FailureOf(m, ProviderRejected, false))
      && (Refused(reply, "invalid_amount") ==> f == FailureOf(m, ProviderRejected, false))
  {
  }

  const DocumentedCodes := {
    "insufficient_balance", "invalid_bank_code", "invalid_account_number", "invalid_transfer_recipient",
    "duplicate_transfer_reference", "invalid_key", "missing_params", "invalid_params", "invalid_amount" }

  /** Without a documented or inherited code the message text decides, as for any other error. */
  lemma OtherwiseTheMessageDecides(p: Patterns, reply: Reply)
    requires LooksUpCode(reply)
    requires reply.code.Some? ==> reply.code.value !in DocumentedCodes && !InheritedKey(reply.code.value)
    ensures Caught(p, Paystack(reply)) == Classify(p, Plain(TextOf(reply.message)))
  {
  }

  /** An accepted request throws exactly when its data is missing. */
  lemma AcceptedThrowsIffNoData(p: Patterns, reply: Reply)
    requires reply.Body? && reply.ok && reply.accepted
    ensures PostToPaystack(p, reply).Throws? <==> !reply.hasData
    ensures !reply.hasData ==> Caught(p, Paystack(reply)) == Classify(p, Plain("Paystack response is missing data"))
  {
  }
}
