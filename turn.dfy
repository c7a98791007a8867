/** The turn-processing pipeline of POST /api/messages: the adapter authenticates the request, runs
    the turn handler on the activity, and on any error thrown during the turn runs onTurnError,
    which tries once to send an apology. */
module Turn {
  import opened Wrappers
  import opened JsString
  import opened Relay

  /** The fixed apology onTurnError tries to send. */
  const Apology := "Er ging iets mis. Probeer het nog eens."

  /** The activity type the handler answers; every other type is ignored. */
  const MessageType := "message"

  /** An inbound activity: its type tag and its optional text. */
  datatype Activity = Activity(activityType: string, text: Option<string>)

  /** What the adapter's request authentication yields: a rejection, in which case the handler does
      not run, or the authenticated activity. */
  datatype AuthOutcome = Rejected | Authenticated(activity: Activity)

  /** Whether the channel accepted a `sendActivity`; an undeliverable send rejects. */
  datatype SendOutcome = Delivered | Undeliverable

  /** One attempted reply into the conversation and how it went. */
  datatype Send = Send(text: string, outcome: SendOutcome)

  /** The errors that can escape the turn handler. */
  datatype TurnError = RelayFailed(cause: RelayError) | SendFailed

  /** The observable effects of a request: calls made to the worker and replies attempted, in order. */
  datatype Effects = Effects(calls: seq<RelayCall>, sends: seq<Send>)

  /** The effects of the turn handler and the error it throws, if any. */
  datatype HandlerRun = HandlerRun(effects: Effects, raised: Option<TurnError>)

  // ---------------------------------------------------------------------------------------------
  // Specification of one turn

  /** `(context.activity.text || "")`: a missing text reads as the empty string. */
  function TextOrEmpty(a: Activity): string {
    a.text.GetOr("")
  }

  /** The question the handler relays for an activity: the trimmed text of a message activity, and
      nothing for other types or for text that is missing or only whitespace. */
  function Question(a: Activity): (r: Option<string>)
    ensures r.Some? ==> a.activityType == MessageType && r.value != [] && IsTrimmed(r.value)
  {
    if a.activityType != MessageType then None
    else
      var text := Trim(TextOrEmpty(a));
      if text == [] then None else Some(text)
  }

  /** A question exists exactly for a message activity whose text is not blank, and it is that text
      without whitespace at either end, never empty. */
  lemma QuestionIsTrimmedText(a: Activity)
    ensures Question(a).Some? <==> a.activityType == MessageType && !AllWs(TextOrEmpty(a))
    ensures Question(a).Some? ==>
              Question(a).value != [] && IsTrimmed(Question(a).value) && Question(a).value == Trim(TextOrEmpty(a))
  {
    TrimFacts(TextOrEmpty(a));
  }

  /** The turn handler passed to adapter.process: ignore all but non-blank messages, relay the
      question once, and send the answer back once. */
  function HandlerSpec(a: Activity, configured: Option<string>, reply: FetchOutcome, answerDelivery: SendOutcome)
    : (r: HandlerRun)
    ensures |r.effects.calls| <= 1 && |r.effects.sends| <= 1
    ensures r.effects.calls == [] ==> r.effects.sends == [] && r.raised.None?
    ensures r.effects.sends != [] ==> (r.raised.None? <==> r.effects.sends[0].outcome == Delivered)
    ensures Question(a).Some? && InterpretResponse(reply).Success? ==>
              r.effects.sends == [Send(InterpretResponse(reply).value, answerDelivery)]
  {
    match Question(a)
    case None => HandlerRun(Effects([], []), None)
    case Some(q) =>
      var calls := [RelayCall(AskUrl(configured), q)];
      match InterpretResponse(reply)
      case Failure(e) => HandlerRun(Effects(calls, []), Some(RelayFailed(e)))
      case Success(answer) =>
        var raised := if answerDelivery == Delivered then None else Some(SendFailed);
        HandlerRun(Effects(calls, [Send(answer, answerDelivery)]), raised)
  }

  /** A whole authenticated or rejected request: the handler's effects, followed by one apology
      attempt exactly when the handler threw. */
  function RequestSpec(auth: AuthOutcome, configured: Option<string>, reply: FetchOutcome,
                       answerDelivery: SendOutcome, apologyDelivery: SendOutcome): (r: Effects)
    ensures auth.Rejected? ==> r == Effects([], [])
    ensures |r.calls| <= 1 && |r.sends| <= 2
    ensures r.calls == [] ==> r.sends == []
  {
    match auth
    case Rejected => Effects([], [])
    case Authenticated(a) =>
      var run := HandlerSpec(a, configured, reply, answerDelivery);
      if run.raised.Some? then Effects(run.effects.calls, run.effects.sends + [Send(Apology, apologyDelivery)])
      else run.effects
  }

  // ---------------------------------------------------------------------------------------------
  // Properties of a request

  /** A rejected request never reaches the handler: no call to the worker, no reply. */
  lemma RejectedRequestHasNoEffects(configured: Option<string>, reply: FetchOutcome,
                                    answerDelivery: SendOutcome, apologyDelivery: SendOutcome)
    ensures RequestSpec(Rejected, configured, reply, answerDelivery, apologyDelivery) == Effects([], [])
  {
  }

  /** An activity whose type is not "message" makes no call to the worker and sends no reply. */
  lemma NonMessageIsIgnored(a: Activity, configured: Option<string>, reply: FetchOutcome,
                            answerDelivery: SendOutcome, apologyDelivery: SendOutcome)
    requires a.activityType != MessageType
    ensures RequestSpec(Authenticated(a), configured, reply, answerDelivery, apologyDelivery) == Effects([], [])
  {
  }

  /** A message whose text is missing, empty or only whitespace makes no call and sends no reply. */
  lemma BlankMessageIsIgnored(a: Activity, configured: Option<string>, reply: FetchOutcome,
                              answerDelivery: SendOutcome, apologyDelivery: SendOutcome)
    requires AllWs(TextOrEmpty(a))
    ensures RequestSpec(Authenticated(a), configured, reply, answerDelivery, apologyDelivery) == Effects([], [])
  {
    QuestionIsTrimmedText(a);
  }

  /** The worker is called at most once per request, and called exactly when the request is an
      authenticated message with non-blank text; the question is the trimmed text, and the call is
      made with the normalised URL. */
  lemma RelayCalledOnceForQuestions(auth: AuthOutcome, configured: Option<string>, reply: FetchOutcome,
                                    answerDelivery: SendOutcome, apologyDelivery: SendOutcome)
    ensures var e := RequestSpec(auth, configured, reply, answerDelivery, apologyDelivery);
      && |e.calls| <= 1
      && (e.calls != [] <==> auth.Authenticated? && auth.activity.activityType == MessageType
                             && !AllWs(TextOrEmpty(auth.activity)))
      && (e.calls != [] ==> e.calls == [RelayCall(AskUrl(configured), Trim(TextOrEmpty(auth.activity)))])
  {
    if auth.Authenticated? {
      QuestionIsTrimmedText(auth.activity);
      var run := HandlerSpec(auth.activity, configured, reply, answerDelivery);
      assert RequestSpec(auth, configured, reply, answerDelivery, apologyDelivery).calls == run.effects.calls;
    }
  }

  /** When the worker answers and the channel accepts the reply, the only reply is that answer. */
  lemma AnswerIsTheOnlyReply(a: Activity, configured: Option<string>, reply: FetchOutcome,
                             apologyDelivery: SendOutcome)
    requires Question(a).Some?
    requires InterpretResponse(reply).Success?
    ensures RequestSpec(Authenticated(a), configured, reply, Delivered, apologyDelivery).sends
            == [Send(InterpretResponse(reply).value, Delivered)]
  {
  }

  /** When the relay fails, no answer is sent: the only reply attempted is the apology. */
  lemma FailedRelaySendsOnlyApology(a: Activity, configured: Option<string>, reply: FetchOutcome,
                                    answerDelivery: SendOutcome, apologyDelivery: SendOutcome)
    requires Question(a).Some?
    requires InterpretResponse(reply).Failure?
    ensures RequestSpec(Authenticated(a), configured, reply, answerDelivery, apologyDelivery).sends
            == [Send(Apology, apologyDelivery)]
  {
  }

  /** When the worker answers but the channel refuses the answer, the handler throws and the error
      boundary follows the undelivered answer with the apology. */
  lemma UndeliveredAnswerGetsApology(a: Activity, configured: Option<string>, reply: FetchOutcome,
                                     apologyDelivery: SendOutcome)
    requires Question(a).Some?
    requires InterpretResponse(reply).Success?
    ensures RequestSpec(Authenticated(a), configured, reply, Undeliverable, apologyDelivery).sends
            == [Send(InterpretResponse(reply).value, Undeliverable), Send(Apology, apologyDelivery)]
  {
  }

  /** Every relayed question ends in a reply: either the worker's answer, delivered, is the only
      reply, or the last reply attempted is the apology. */
  lemma EveryQuestionGetsAReply(a: Activity, configured: Option<string>, reply: FetchOutcome,
                                answerDelivery: SendOutcome, apologyDelivery: SendOutcome)
    requires Question(a).Some?
    ensures var e := RequestSpec(Authenticated(a), configured, reply, answerDelivery, apologyDelivery);
      && e.sends != []
      && (e.sends[|e.sends| - 1] == Send(Apology, apologyDelivery)
          || (InterpretResponse(reply).Success? && e.sends == [Send(InterpretResponse(reply).value, Delivered)]))
  {
  }

  /** A non-OK worker status reaches the error boundary as an error whose message carries that
      status and body text, and no answer reply is sent. */
  lemma NonOkStatusRaisesWorkerError(a: Activity, configured: Option<string>, status: nat, bodyText: string,
                                     json: JsonBody, answerDelivery: SendOutcome)
    requires Question(a).Some?
    requires !IsOkStatus(status)
    ensures var run := HandlerSpec(a, configured, Response(status, bodyText, json), answerDelivery);
      && run.effects.sends == []
      && run.raised.Some? && run.raised.value.RelayFailed? && run.raised.value.cause.WorkerError?
      && ParseWorkerErrorMessage(run.raised.value.cause.message) == Some((status, bodyText))
  {
    NonOkResponseFails(status, bodyText, json);
  }

  /** The error boundary: the request's replies are the handler's, followed by exactly one apology
      attempt when and only when the handler threw; an apology that cannot be delivered changes
      nothing else. On the success path there is at most one reply and it is delivered. */
  lemma ApologyExactlyAfterError(a: Activity, configured: Option<string>, reply: FetchOutcome,
                                 answerDelivery: SendOutcome, apologyDelivery: SendOutcome)
    ensures var run := HandlerSpec(a, configured, reply, answerDelivery);
      var e := RequestSpec(Authenticated(a), configured, reply, answerDelivery, apologyDelivery);
      && e.calls == run.effects.calls
      && (run.raised.Some? ==> e.sends == run.effects.sends + [Send(Apology, apologyDelivery)])
      && (run.raised.None? ==> e.sends == run.effects.sends && |e.sends| <= 1
                               && forall i :: 0 <= i < |e.sends| ==> e.sends[i].outcome == Delivered)
  {
  }

  /** Every request attempts at most two replies: the answer, the apology, or the answer and then the
      apology when the answer could not be delivered. */
  lemma AtMostTwoReplies(auth: AuthOutcome, configured: Option<string>, reply: FetchOutcome,
                         answerDelivery: SendOutcome, apologyDelivery: SendOutcome)
    ensures var e := RequestSpec(auth, configured, reply, answerDelivery, apologyDelivery);
      && |e.sends| <= 2
      && (|e.sends| == 2 ==>
            InterpretResponse(reply) == Success(e.sends[0].text) && e.sends[0].outcome == Undeliverable
            && e.sends[1] == Send(Apology, apologyDelivery))
  {
  }

  /** The trimmed text of "  hello  " is "hello". */
  lemma HelloQuestion()
    ensures Question(Activity(MessageType, Some("  hello  "))) == Some("hello")
  {
    assert "  hello  " == "  " + "hello" + "  ";
    assert AllWs("  ") by { assert IsWs("  "[0]) && IsWs("  "[1]); }
    TrimUnique("  ", "hello", "  ");
  }

  /** A message "  hello  " whose answer from the worker is "hi" gets exactly the reply "hi", after
      one call asking "hello". */
  lemma HelloScenario(configured: Option<string>, apologyDelivery: SendOutcome)
    ensures var e := RequestSpec(Authenticated(Activity(MessageType, Some("  hello  "))), configured,
                                 Response(200, "{\"answer\":\"hi\"}", Parsed(Some("hi"))), Delivered,
                                 apologyDelivery);
      e == Effects([RelayCall(AskUrl(configured), "hello")], [Send("hi", Delivered)])
  {
    var a := Activity(MessageType, Some("  hello  "));
    var reply := Response(200, "{\"answer\":\"hi\"}", Parsed(Some("hi")));
    HelloQuestion();
    assert InterpretResponse(reply) == Success("hi");
    var run := HandlerSpec(a, configured, reply, Delivered);
    assert run == HandlerRun(Effects([RelayCall(AskUrl(configured), "hello")], [Send("hi", Delivered)]), None);
  }

  // ---------------------------------------------------------------------------------------------
  // The effectful pipeline

  /** The conversation the turn replies into: the `sendActivity` capability of the turn context, and
      the replies attempted through it. */
  class Conversation {
    var sends: seq<Send>

    constructor ()
      ensures sends == []
    {
      sends := [];
    }

    /** `context.sendActivity(text)`; the channel's answer is the parameter `delivery`. The result
        says whether the send threw. */
    method SendActivity(text: string, delivery: SendOutcome) returns (failed: bool)
      modifies this
      ensures sends == old(sends) + [Send(text, delivery)]
      ensures failed <==> delivery == Undeliverable
    {
      sends := sends + [Send(text, delivery)];
      failed := delivery == Undeliverable;
    }
  }

  /** The turn handler closure passed to adapter.process. */
  method HandleTurn(activity: Activity, conversation: Conversation, worker: Worker, configured: Option<string>,
                    reply: FetchOutcome, answerDelivery: SendOutcome)
    returns (raised: Option<TurnError>)
    modifies conversation, worker
    ensures worker.calls == old(worker.calls) + HandlerSpec(activity, configured, reply, answerDelivery).effects.calls
    ensures conversation.sends == old(conversation.sends) + HandlerSpec(activity, configured, reply, answerDelivery).effects.sends
    ensures raised == HandlerSpec(activity, configured, reply, answerDelivery).raised
  {
    if activity.activityType != MessageType {
      return None;
    }
    var text := Trim(TextOrEmpty(activity));
    if text == [] {
      return None;
    }
    var answer := AskSupportBrain(worker, configured, text, reply);
    if answer.Failure? {
      return Some(RelayFailed(answer.error));
    }
    var failed := conversation.SendActivity(answer.value, answerDelivery);
    raised := if failed then Some(SendFailed) else None;
  }

  /** adapter.onTurnError: one attempt to send the apology; a failure of that send is swallowed, so
      nothing escapes. */
  method OnTurnError(conversation: Conversation, error: TurnError, apologyDelivery: SendOutcome)
    modifies conversation
    ensures conversation.sends == old(conversation.sends) + [Send(Apology, apologyDelivery)]
  {
    // The failure of this send is swallowed: nothing escapes the boundary.
    var failed := conversation.SendActivity(Apology, apologyDelivery);
  }

  /** POST /api/messages: authentication, then the handler, then the error boundary if it threw. */
  method ProcessRequest(auth: AuthOutcome, conversation: Conversation, worker: Worker, configured: Option<string>,
                        reply: FetchOutcome, answerDelivery: SendOutcome, apologyDelivery: SendOutcome)
    modifies conversation, worker
    ensures worker.calls == old(worker.calls) + RequestSpec(auth, configured, reply, answerDelivery, apologyDelivery).calls
    ensures conversation.sends == old(conversation.sends) + RequestSpec(auth, configured, reply, answerDelivery, apologyDelivery).sends
  {
    if auth.Rejected? {
      return;
    }
    var raised := HandleTurn(auth.activity, conversation, worker, configured, reply, answerDelivery);
    if raised.Some? {
      OnTurnError(conversation, raised.value, apologyDelivery);
    }
  }
}
