/** The answer relay: askSupportBrain, which posts a question to the SupportBrain worker's /ask
    endpoint and turns the worker's response into an answer or a thrown error. */
module Relay {
  import opened Wrappers
  import opened Decimal

  /** The reply used when the worker's JSON carries no usable answer. */
  const Fallback := "Geen antwoord gevonden."

  /** The endpoint path appended to the worker's base URL. */
  const AskPath := "/ask"

  /** The fixed text before the status in the error thrown for a non-OK response. */
  const ErrorPrefix := "Worker /ask error "

  // ---------------------------------------------------------------------------------------------
  // Base URL normalisation: `(SUPPORTBRAIN_WORKER_URL || "").replace(/\/+$/, "")`

  predicate AllSlashes(s: string) {
    forall i :: 0 <= i < |s| ==> s[i] == '/'
  }

  /** Removes the run of `/` at the end of `s`, as the regular expression `/\/+$/` replaced by ""
      does: the result is a prefix of `s`, what is removed is only `/`, and the result does not end
      with `/`. */
  function StripTrailingSlashes(s: string): (r: string)
    ensures |r| <= |s| && r == s[..|r|]
    ensures AllSlashes(s[|r|..])
    ensures r == [] || r[|r| - 1] != '/'
  {
    if s != [] && s[|s| - 1] == '/' then StripTrailingSlashes(s[..|s| - 1]) else s
  }

  /** Normalising is determined by its meaning: a string without a trailing `/`, followed by only
      `/`, normalises to that string. */
  lemma {:induction false} StripTrailingSlashesUnique(p: string, q: string)
    requires p == [] || p[|p| - 1] != '/'
    requires AllSlashes(q)
    ensures StripTrailingSlashes(p + q) == p
    decreases |q|
  {
    if q == [] {
      assert p + q == p;
    } else {
      assert (p + q)[..|p + q| - 1] == p + q[..|q| - 1];
      StripTrailingSlashesUnique(p, q[..|q| - 1]);
    }
  }

  /** Normalising twice is normalising once. */
  lemma StripTrailingSlashesIdempotent(s: string)
    ensures StripTrailingSlashes(StripTrailingSlashes(s)) == StripTrailingSlashes(s)
  {
  }

  /** The worker base URL: the configured value, unset or empty meaning "", without trailing `/`. */
  function BaseUrl(configured: Option<string>): (r: string)
    ensures r == [] || r[|r| - 1] != '/'
    ensures configured.Some? ==> r <= configured.value && AllSlashes(configured.value[|r|..])
    ensures configured.None? ==> r == []
  {
    StripTrailingSlashes(configured.GetOr(""))
  }

  /** The URL `fetch` is called with: the base URL followed by "/ask". */
  function AskUrl(configured: Option<string>): (r: string)
    ensures |AskPath| <= |r| && r[|r| - |AskPath|..] == AskPath
    ensures var base := r[..|r| - |AskPath|]; base == [] || base[|base| - 1] != '/'
    ensures var base := r[..|r| - |AskPath|];
      configured.Some? ==> base <= configured.value && AllSlashes(configured.value[|base|..])
    ensures configured.None? ==> r == AskPath
  {
    BaseUrl(configured) + AskPath
  }

  /** With no worker URL configured, or an empty one, the URL `fetch` is called with is "/ask". */
  lemma AskUrlUnset()
    ensures AskUrl(None) == "/ask" && AskUrl(Some("")) == "/ask"
  {
  }

  /** Any number of trailing `/` in the configured URL leads to the same request URL. */
  lemma {:induction false} AskUrlIgnoresTrailingSlashes(url: string, slashes: string)
    requires AllSlashes(slashes)
    ensures AskUrl(Some(url + slashes)) == AskUrl(Some(url))
  {
    var r := StripTrailingSlashes(url);
    var q := url[|r|..];
    assert url == r + q;
    assert url + slashes == r + (q + slashes);
    StripTrailingSlashesUnique(r, q + slashes);
  }

  // ---------------------------------------------------------------------------------------------
  // The worker's response

  /** What the JSON body of an OK response yields: `res.json()` either rejects, or gives `data` whose
      `data?.answer` is a string or absent (a missing key, a null answer or a null `data`). */
  datatype JsonBody = Malformed | Parsed(answer: Option<string>)

  /** The outcome of `fetch`: it rejects when the worker cannot be reached, otherwise it gives a
      response with its status, its body as text and its body as JSON. */
  datatype FetchOutcome =
    | Unreachable
    | Response(status: nat, bodyText: string, json: JsonBody)

  /** The errors askSupportBrain throws. */
  datatype RelayError =
    | NetworkError                 // fetch rejected
    | WorkerError(message: string) // the Error thrown for a non-OK status
    | JsonError                    // res.json() rejected

  /** `res.ok`: the status is in the range 200 to 299 (Fetch standard). */
  predicate IsOkStatus(status: nat) {
    200 <= status <= 299
  }

  /** The message of the Error thrown for a non-OK response: the status, then the body text. */
  function WorkerErrorMessage(status: nat, bodyText: string): (m: string)
    ensures ErrorPrefix <= m
    ensures |bodyText| <= |m| && m[|m| - |bodyText|..] == bodyText
  {
    ErrorPrefix + NatToString(status) + ": " + bodyText
  }

  /** Reads the status and body text back out of a worker error message. */
  function ParseWorkerErrorMessage(m: string): Option<(nat, string)> {
    if |m| < |ErrorPrefix| || m[..|ErrorPrefix|] != ErrorPrefix then None
    else
      var rest := m[|ErrorPrefix|..];
      var k := LeadingDigits(rest);
      if k == 0 || |rest| < k + 2 || rest[k..k + 2] != ": " then None
      else Some((ParseNat(rest[..k]), rest[k + 2..]))
  }

  /** The error message carries the status and the body text: both can be read back from it. */
  lemma WorkerErrorMessageRoundTrip(status: nat, bodyText: string)
    ensures ParseWorkerErrorMessage(WorkerErrorMessage(status, bodyText)) == Some((status, bodyText))
  {
    var digits := NatToString(status);
    var m := WorkerErrorMessage(status, bodyText);
    var rest := m[|ErrorPrefix|..];
    assert rest == digits + (": " + bodyText);
    LeadingDigitsOfConcat(digits, ": " + bodyText);
    assert rest[..|digits|] == digits;
    assert rest[|digits|..|digits| + 2] == ": ";
    assert rest[|digits| + 2..] == bodyText;
    ParseNatToString(status);
  }

  /** `data?.answer || "Geen antwoord gevonden."`: a non-empty answer as it is, otherwise the
      fallback. */
  function AnswerOrFallback(answer: Option<string>): (r: string)
    ensures r != []
    ensures answer.Some? && answer.value != [] ==> r == answer.value
    ensures answer.None? || answer.value == [] ==> r == Fallback
  {
    if answer.Some? && answer.value != [] then answer.value else Fallback
  }

  /** What askSupportBrain makes of the worker's reply: an answer, or the error it throws. */
  function InterpretResponse(reply: FetchOutcome): (r: Result<string, RelayError>)
    ensures r.Success? <==> reply.Response? && IsOkStatus(reply.status) && reply.json.Parsed?
    ensures r.Success? ==> r.value != []
    ensures reply.Response? && !IsOkStatus(reply.status) ==> r.Failure? && r.error.WorkerError?
  {
    match reply
    case Unreachable => Failure(NetworkError)
    case Response(status, bodyText, json) =>
      if !IsOkStatus(status) then Failure(WorkerError(WorkerErrorMessage(status, bodyText)))
      else
        match json
        case Malformed => Failure(JsonError)
        case Parsed(answer) => Success(AnswerOrFallback(answer))
  }

  /** An answer comes out exactly for an OK response whose body parses, and it is never empty: the
      worker's non-empty answer unchanged, or the fallback. Every other reply is an error: the network
      error, the JSON error, or the worker error for a non-OK status. */
  lemma InterpretResponseOutcomes(reply: FetchOutcome)
    ensures var r := InterpretResponse(reply);
      && (r.Success? <==> reply.Response? && IsOkStatus(reply.status) && reply.json.Parsed?)
      && (r.Success? ==> r.value != [])
      && (r.Success? && reply.json.answer.Some? && reply.json.answer.value != [] ==> r.value == reply.json.answer.value)
      && (r.Success? && (reply.json.answer.None? || reply.json.answer.value == []) ==> r.value == Fallback)
      && (reply.Unreachable? ==> r == Failure(NetworkError))
      && (reply.Response? && IsOkStatus(reply.status) && reply.json.Malformed? ==> r == Failure(JsonError))
  {
  }

  /** A non-OK status fails with an error from whose message that status and body text are read
      back; no answer comes out. */
  lemma NonOkResponseFails(status: nat, bodyText: string, json: JsonBody)
    requires !IsOkStatus(status)
    ensures var r := InterpretResponse(Response(status, bodyText, json));
      && r.Failure? && r.error.WorkerError?
      && ParseWorkerErrorMessage(r.error.message) == Some((status, bodyText))
  {
    WorkerErrorMessageRoundTrip(status, bodyText);
  }

  // ---------------------------------------------------------------------------------------------
  // The effectful call

  /** One `fetch` call towards the worker: its URL and the question in its JSON body. */
  datatype RelayCall = RelayCall(url: string, question: string)

  /** The SupportBrain worker as seen from the adapter: every `fetch` call made towards it so far. */
  class Worker {
    var calls: seq<RelayCall>

    constructor ()
      ensures calls == []
    {
      calls := [];
    }

    /** `fetch(url, { method: "POST", body: JSON.stringify({ question }) })`; what the network
        delivers is the parameter `reply`. */
    method Post(url: string, question: string, reply: FetchOutcome) returns (res: FetchOutcome)
      modifies this
      ensures calls == old(calls) + [RelayCall(url, question)]
      ensures res == reply
    {
      calls := calls + [RelayCall(url, question)];
      res := reply;
    }
  }

  /** askSupportBrain: exactly one call to the worker at the normalised URL with the question, then
      the answer or the thrown error as InterpretResponse says. */
  method AskSupportBrain(worker: Worker, configured: Option<string>, question: string, reply: FetchOutcome)
    returns (r: Result<string, RelayError>)
    modifies worker
    ensures worker.calls == old(worker.calls) + [RelayCall(AskUrl(configured), question)]
    ensures r == InterpretResponse(reply)
  {
    var base := BaseUrl(configured);
    var res := worker.Post(base + AskPath, question, reply);
    if res.Unreachable? {
      return Failure(NetworkError);
    }
    if !IsOkStatus(res.status) {
      return Failure(WorkerError(WorkerErrorMessage(res.status, res.bodyText)));
    }
    if res.json.Malformed? {
      return Failure(JsonError);
    }
    r := Success(AnswerOrFallback(res.json.answer));
  }
}
