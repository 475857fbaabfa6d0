// The guard, error classification and retry loop around the report
// generator's remote calls. The calls themselves are not modelled: an
// operation is given by what each attempt of it yields.
module AIService {
  import opened Base
  import Text

  /** `retryCount`: the number of attempts in all. */
  const RetryCount: nat := 3

  /** `retryDelay`, in milliseconds. */
  const RetryDelay: nat := 1000

  /** What a constructed service holds besides the client. */
  datatype Service = Service(retryCount: nat, retryDelay: nat)

  const MissingKeyMessage := "Google AI API key is required"

  /** The constructor: it refuses an empty API key. */
  function CreateService(apiKey: string): (r: Result<Service, string>)
    ensures r.Err? <==> apiKey == ""
    ensures r.Err? ==> r.error == MissingKeyMessage
    ensures r.Ok? ==> r.value == Service(RetryCount, RetryDelay)
  {
    if apiKey == "" then Err(MissingKeyMessage) else Ok(Service(RetryCount, RetryDelay))
  }

  datatype ErrorType = Network | RateLimit | InvalidKey | ParseFailure | Unknown

  /** `APIError`. */
  datatype APIError = APIError(kind: ErrorType, message: string, retryable: bool)

  /** A thrown value: its `message` property, if any, and its `String(error)` text. */
  datatype Thrown = Thrown(message: Option<string>, text: string)

  /** `error?.message || String(error)`. */
  function MessageOf(e: Thrown): string
  {
    if e.message.Some? && e.message.value != "" then e.message.value else e.text
  }

  const RateLimitError := APIError(RateLimit, "API rate limit exceeded. Please try again later.", true)
  const InvalidKeyError := APIError(InvalidKey, "Invalid API key. Please check your configuration.", false)
  const NetworkError := APIError(Network, "Network error. Please check your connection.", true)
  const UnknownError := APIError(Unknown, "An unexpected error occurred.", false)

  predicate MentionsRate(m: string)
  {
    Text.Contains(m, "quota") || Text.Contains(m, "rate")
  }

  predicate MentionsKey(m: string)
  {
    Text.Contains(m, "key") || Text.Contains(m, "authentication")
  }

  predicate MentionsNetwork(m: string)
  {
    Text.Contains(m, "network") || Text.Contains(m, "fetch")
  }

  /** `parseError`: the first matching rule decides. */
  function ParseError(e: Thrown): APIError
  {
    var m := MessageOf(e);
    if MentionsRate(m) then RateLimitError
    else if MentionsKey(m) then InvalidKeyError
    else if MentionsNetwork(m) then NetworkError
    else UnknownError
  }

  /**
   * Exactly rate-limit and network errors are retried, and the classifier
   * never answers `parse_error`: that type is only ever thrown by the
   * operation, never returned.
   */
  lemma RetryableKinds(e: Thrown)
    ensures ParseError(e).retryable <==> ParseError(e).kind == RateLimit || ParseError(e).kind == Network
    ensures ParseError(e).kind != ParseFailure
    ensures ParseError(e).kind == RateLimit <==> MentionsRate(MessageOf(e))
    ensures ParseError(e).kind == InvalidKey <==> !MentionsRate(MessageOf(e)) && MentionsKey(MessageOf(e))
    ensures ParseError(e).kind == Network <==>
      !MentionsRate(MessageOf(e)) && !MentionsKey(MessageOf(e)) && MentionsNetwork(MessageOf(e))
  {
  }

  /** A message about a rate limit and a key is a rate-limit error: the rules are tried in order. */
  lemma RateRuleComesFirst(e: Thrown)
    requires Text.Contains(MessageOf(e), "quota") && Text.Contains(MessageOf(e), "key")
    ensures ParseError(e) == RateLimitError
  {
  }

  /** A message that does not contain `p` as text, checked position by position. */
  lemma NotContainsByPair(s: string, p: string)
    requires |p| >= 2
    requires forall i :: 0 <= i < |s| - 1 ==> !(s[i] == p[0] && s[i + 1] == p[1])
    ensures !Text.Contains(s, p)
  {
    Text.ContainsPairOf(s, p);
  }

  /** A message lacking one character of `p` does not contain `p`. */
  lemma NotContainsByChar(s: string, p: string, k: int)
    requires 0 <= k < |p| && p[k] !in s
    ensures !Text.Contains(s, p)
  {
    Text.ContainsCharOf(s, p, k);
  }

  /** What the operation throws when the answer is not JSON. */
  const ParseFailureMessage := "Failed to parse AI response."
  const ParseFailureThrown := Thrown(Some(ParseFailureMessage), "[object Object]")

  /** A reply that does not parse is classified as an unknown error, and so is not retried. */
  lemma ParseFailureNotRetried()
    ensures ParseError(ParseFailureThrown) == UnknownError
    ensures !ParseError(ParseFailureThrown).retryable
  {
    assert MessageOf(ParseFailureThrown) == ParseFailureMessage;
    ParseFailureNoRate();
    ParseFailureNoKey();
    ParseFailureNoNetwork();
  }

  lemma ParseFailureNoRate()
    ensures !MentionsRate(ParseFailureMessage)
  {
    NotContainsByChar(ParseFailureMessage, "quota", 0);
    NotContainsByPair(ParseFailureMessage, "rate");
  }

  lemma ParseFailureNoKey()
    ensures !MentionsKey(ParseFailureMessage)
  {
    NotContainsByChar(ParseFailureMessage, "key", 0);
    NotContainsByChar(ParseFailureMessage, "authentication", 3);
  }

  lemma ParseFailureNoNetwork()
    ensures !MentionsNetwork(ParseFailureMessage)
  {
    NotContainsByChar(ParseFailureMessage, "network", 3);
    NotContainsByChar(ParseFailureMessage, "fetch", 4);
  }

  /** "rate" is matched inside other words: a message about generating content is taken for a rate limit and retried. */
  lemma GenerateReadsAsRateLimit(e: Thrown)
    requires MessageOf(e) == "Failed to generate content"
    ensures ParseError(e) == RateLimitError
  {
    assert Text.OccursAt(MessageOf(e), "rate", 14);
  }

  /** What one attempt of the operation yields. */
  datatype Outcome<T> = Succeeded(value: T) | Failed(error: Thrown)

  /**
   * `retryOperation`, its recursion written as a loop: attempt n yields
   * `outcomes(n)`; a failure that is not retryable, or the failure of the
   * last attempt, is thrown as its classification; otherwise the loop waits
   * `retryDelay * n` milliseconds and tries again. `waits` lists the waits.
   */
  method RetryOperation<T>(outcomes: nat -> Outcome<T>) returns (r: Result<T, APIError>, attempts: nat, waits: seq<nat>)
    ensures 1 <= attempts <= RetryCount
    ensures |waits| == attempts - 1 && forall i :: 0 <= i < |waits| ==> waits[i] == RetryDelay * (i + 1)
    ensures forall n :: 1 <= n < attempts ==> outcomes(n).Failed? && ParseError(outcomes(n).error).retryable
    ensures r.Ok? <==> outcomes(attempts).Succeeded?
    ensures r.Ok? ==> r.value == outcomes(attempts).value
    ensures r.Err? ==>
      r.error == ParseError(outcomes(attempts).error) && (!r.error.retryable || attempts == RetryCount)
    ensures outcomes(1).Succeeded? ==> attempts == 1 && waits == [] && r == Ok(outcomes(1).value)
  {
    attempts := 1;
    waits := [];
    while true
      invariant 1 <= attempts <= RetryCount
      invariant |waits| == attempts - 1 && forall i :: 0 <= i < |waits| ==> waits[i] == RetryDelay * (i + 1)
      invariant forall n :: 1 <= n < attempts ==> outcomes(n).Failed? && ParseError(outcomes(n).error).retryable
      decreases RetryCount - attempts
    {
      match outcomes(attempts) {
        case Succeeded(v) =>
          r := Ok(v);
          return;
        case Failed(e) =>
          var apiError := ParseError(e);
          if !apiError.retryable || attempts >= RetryCount {
            r := Err(apiError);
            return;
          }
          waits := waits + [RetryDelay * attempts];
          attempts := attempts + 1;
      }
    }
  }
}
