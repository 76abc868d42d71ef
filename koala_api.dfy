/**
 * The `/ai/chat` handler end to end: build the dispatched list, hand it to
 * the completion service, and relay its answer or classify its failure.
 * The completion service is a parameter: a function from the model name and
 * the dispatched list to either the answer text or the text of the raised error.
 */
module KoalaApi {
  import opened Wrappers
  import opened Messages
  import opened ErrorMapping

  /** What the handler produces: a 200 body carrying the answer, or a raised HTTP error. */
  datatype Reply = Answered(answer: string) | Raised(error: HttpError)

  /** The model identifier every request is sent to. */
  const ModelName: string := "gpt-4.1-mini"

  /** The fixed body of `GET /health`. */
  function Health(): map<string, string>
  {
    map["status" := "ok", "service" := "koala-api"]
  }

  /** `POST /ai/chat`: dispatch the request and turn the service's outcome into a reply. */
  function AiChat(payload: ChatIn, complete: (string, seq<Msg>) -> Result<string, string>): (r: Reply)
    ensures r.Answered? <==> complete(ModelName, BuildDispatch(payload.text, payload.messages)).Success?
    ensures r.Answered? ==> r.answer == complete(ModelName, BuildDispatch(payload.text, payload.messages)).value
    ensures r.Raised? ==> r.error.status in {429, 401, 500}
    ensures r.Raised? ==>
      var failure := complete(ModelName, BuildDispatch(payload.text, payload.messages)).error;
      && (r.error.status == 429 <==> QuotaSignalled(failure))
      && (r.error.status == 401 <==> !QuotaSignalled(failure) && KeySignalled(failure))
      && (r.error.status == 429 ==> r.error.detail == QuotaDetail)
      && (r.error.status == 401 ==> r.error.detail == KeyDetail)
      && (r.error.status == 500 ==> r.error.detail == ServerPrefix + failure)
  {
    match complete(ModelName, BuildDispatch(payload.text, payload.messages))
    case Success(answer) => Answered(answer)
    case Failure(failure) => Raised(Classify(failure))
  }

  /**
   * For a fixed behaviour of the completion service, the reply to a request
   * with a non-empty history does not depend on its `text`.
   */
  lemma AiChatIgnoresTextWithTurns(t1: string, t2: string, ms: seq<ChatMsg>,
                                   complete: (string, seq<Msg>) -> Result<string, string>)
    requires ms != []
    ensures AiChat(ChatIn(t1, Some(ms)), complete) == AiChat(ChatIn(t2, Some(ms)), complete)
  {
  }

  /**
   * The worked example: `{"text": "Bonjour"}` sends the system entry and one
   * user turn, and a successful call relays the service's text unchanged.
   */
  lemma BonjourExample(complete: (string, seq<Msg>) -> Result<string, string>, answer: string)
    requires complete(ModelName, [SystemMsg, Msg("user", "Bonjour")]) == Success(answer)
    ensures AiChat(ChatIn("Bonjour", None), complete) == Answered(answer)
  {
    DispatchFallsBackToText("Bonjour", None);
  }

  /** A service failing with "timeout" yields a 500 quoting it. */
  lemma TimeoutExample(payload: ChatIn, complete: (string, seq<Msg>) -> Result<string, string>)
    requires complete(ModelName, BuildDispatch(payload.text, payload.messages)) == Failure("timeout")
    ensures AiChat(payload, complete) == Raised(HttpError(500, "Erreur serveur: timeout"))
  {
  }
}
