/**
 * The failure classification of the `catch` block of `generateCaptions`
 * (src/services/openaiService.ts:84-116): an ordered chain that picks one
 * user-facing message from the error's optional `code` and `message`.
 */
module Failures {
  import opened Wrappers

  /** What the catch block reads of the thrown value: `error?.code` and `error?.message`. */
  datatype CallError = CallError(code: Option<string>, message: Option<string>)

  /** Every way `generateCaptions` can fail, the response shape check included. */
  datatype FailureClass =
    | ShapeViolation
    | CorsOrNetworkBlocked
    | NotAuthenticated
    | QuotaExceeded
    | ServiceInternalError
    | UnclassifiedWithMessage
    | UnclassifiedGeneric

  const InvalidResponseNotice := "Invalid response from caption generator. Please try again."
  const CorsNotice := "Connection blocked by browser security. Please try: 1) Refreshing the page, 2) Using a different browser, or 3) Contacting support with error code: CORS-ERROR"
  const LoginNotice := "You must be logged in to generate captions."
  const PlanLimitNotice := "You've reached your plan limit. Please upgrade or buy a Flex pack."
  const ServiceErrorNotice := "Caption generation service error. Please try again later."
  const GenericNotice := "Failed to generate captions. Please try again."

  /** `s.includes(sub)`. */
  predicate Contains(s: string, sub: string)
    decreases |s|
  {
    |sub| <= |s| && (s[..|sub|] == sub || Contains(s[1..], sub))
  }

  /** `error?.code === c`. */
  predicate CodeIs(e: CallError, c: string) {
    e.code == Some(c)
  }

  /** `error?.message?.includes(sub)`. */
  predicate MessageIncludes(e: CallError, sub: string) {
    e.message.Some? && Contains(e.message.value, sub)
  }

  /** `error?.message` is truthy: present and non-empty. */
  predicate HasMessage(e: CallError) {
    e.message.Some? && e.message.value != ""
  }

  /**
   * The if/else-if chain of lines 84-116, condition by condition as written.
   * The `internal` test of line 110 can never be reached, since line 89
   * already sends `internal` to the CORS branch.
   */
  function Classify(e: CallError): (cls: FailureClass)
    ensures cls != ShapeViolation
    ensures cls != ServiceInternalError
  {
    if || CodeIs(e, "functions/cors-error")
       || MessageIncludes(e, "CORS")
       || MessageIncludes(e, "blocked by CORS policy")
       || CodeIs(e, "unavailable")
       || CodeIs(e, "internal")
    then CorsOrNetworkBlocked
    else if CodeIs(e, "unauthenticated") then NotAuthenticated
    else if CodeIs(e, "resource-exhausted") || (HasMessage(e) && Contains(e.message.value, "limit_reached"))
    then QuotaExceeded
    else if CodeIs(e, "internal") then ServiceInternalError
    else if HasMessage(e) then UnclassifiedWithMessage
    else UnclassifiedGeneric
  }

  /** The text handed to `toast.error` for a failure of class `cls`. */
  function Notice(cls: FailureClass, e: CallError): (text: string)
    requires cls == UnclassifiedWithMessage ==> HasMessage(e)
    ensures text != ""
  {
    match cls
    case ShapeViolation => InvalidResponseNotice
    case CorsOrNetworkBlocked => CorsNotice
    case NotAuthenticated => LoginNotice
    case QuotaExceeded => PlanLimitNotice
    case ServiceInternalError => ServiceErrorNotice
    case UnclassifiedWithMessage => "Error: " + e.message.value
    case UnclassifiedGeneric => GenericNotice
  }

  // ----- The decision table, stated row by row -----

  /** Position of a class in the priority order of the chain (first branch first). */
  function Rank(cls: FailureClass): nat {
    match cls
    case ShapeViolation => 0
    case CorsOrNetworkBlocked => 1
    case NotAuthenticated => 2
    case QuotaExceeded => 3
    case ServiceInternalError => 4
    case UnclassifiedWithMessage => 5
    case UnclassifiedGeneric => 6
  }

  /** The match condition of each row of the table, independent of the chain above. */
  predicate Matches(cls: FailureClass, e: CallError) {
    match cls
    case ShapeViolation => false
    case CorsOrNetworkBlocked =>
      e.code in {Some("functions/cors-error"), Some("unavailable"), Some("internal")}
      || MessageIncludes(e, "CORS")
    case NotAuthenticated => e.code == Some("unauthenticated")
    case QuotaExceeded => e.code == Some("resource-exhausted") || MessageIncludes(e, "limit_reached")
    case ServiceInternalError => e.code == Some("internal")
    case UnclassifiedWithMessage => HasMessage(e)
    case UnclassifiedGeneric => true
  }

  lemma {:induction false} ContainsAt(s: string, sub: string, i: nat)
    requires i + |sub| <= |s| && s[i..i + |sub|] == sub
    ensures Contains(s, sub)
    decreases i
  {
    if i > 0 {
      assert s[1..][i - 1..i - 1 + |sub|] == s[i..i + |sub|];
      ContainsAt(s[1..], sub, i - 1);
    }
  }

  /** A string without the first character of `sub` cannot contain `sub`. */
  lemma {:induction false} FirstCharAbsent(s: string, sub: string)
    requires sub != [] && sub[0] !in s
    ensures !Contains(s, sub)
    decreases |s|
  {
    if |sub| <= |s| {
      assert s[0] != sub[0];
      assert forall c :: c in s[1..] ==> c in s;
      FirstCharAbsent(s[1..], sub);
    }
  }

  /** The test of line 87 adds nothing to the test of line 86. */
  lemma {:induction false} CorsPolicyMentionsCors(s: string)
    requires Contains(s, "blocked by CORS policy")
    ensures Contains(s, "CORS")
    decreases |s|
  {
    var phrase := "blocked by CORS policy";
    if s[..|phrase|] == phrase {
      assert s[11..15] == phrase[11..15] == "CORS";
      ContainsAt(s, "CORS", 11);
    } else {
      CorsPolicyMentionsCors(s[1..]);
    }
  }

  /**
   * The chain is a total first-match table: the class it picks matches, and
   * no row of higher priority does.
   */
  lemma ClassifyIsFirstMatch(e: CallError)
    ensures Matches(Classify(e), e)
    ensures forall cls :: Rank(cls) < Rank(Classify(e)) ==> !Matches(cls, e)
  {
    if MessageIncludes(e, "blocked by CORS policy") {
      CorsPolicyMentionsCors(e.message.value);
    }
  }

  /** One of the codes the chain tests for. */
  predicate KnownCode(e: CallError) {
    e.code in {Some("functions/cors-error"), Some("unavailable"), Some("internal"),
               Some("unauthenticated"), Some("resource-exhausted")}
  }

  /**
   * A thrown error with no code the chain knows and a non-empty message that
   * mentions neither marker is shown as `"Error: " + message`.
   */
  lemma UnmatchedMessageIsEchoed(e: CallError)
    requires !KnownCode(e) && !MessageIncludes(e, "CORS") && !MessageIncludes(e, "limit_reached")
    requires HasMessage(e)
    ensures Classify(e) == UnclassifiedWithMessage
    ensures Notice(Classify(e), e) == "Error: " + e.message.value
  {
    if MessageIncludes(e, "blocked by CORS policy") {
      CorsPolicyMentionsCors(e.message.value);
    }
  }

  /** With no code the chain knows and an absent or empty message the generic text is shown. */
  lemma NothingMatchedIsGeneric(e: CallError)
    requires !KnownCode(e) && !HasMessage(e)
    ensures Classify(e) == UnclassifiedGeneric
    ensures Notice(Classify(e), e) == GenericNotice
  {
  }

  /** Priority example: `unavailable` with a `limit_reached` message is a CORS failure, not a plan limit. */
  lemma UnavailableOutranksLimit(msg: string)
    requires Contains(msg, "limit_reached")
    ensures Classify(CallError(Some("unavailable"), Some(msg))) == CorsOrNetworkBlocked
    ensures Matches(QuotaExceeded, CallError(Some("unavailable"), Some(msg)))
  {
  }
}
