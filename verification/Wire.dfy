/** The JSON-RPC 2.0 messages a connection exchanges, how the reader tells
    requests from responses, and how a reply is built. */
module Wire {
  import opened Bags

  const CODE_METHOD_NOT_FOUND := -32601
  const CODE_INTERNAL_ERROR := -32603

  datatype ID = ID(name: string, number: int)
  datatype RpcError = RpcError(code: int, message: string)

  /** All fields of a request and of a response. Raw JSON is kept as text, and
      absent parameters are the text null. */
  datatype Message = Message(id: Option<ID>, methodName: string, params: string,
                             result: Option<string>, error: Option<RpcError>)

  datatype Route = ToHandlers | ToCaller | Ignored

  function RouteOf(m: Message): Route {
    if m.methodName != "" then ToHandlers
    else if m.id.Some? then ToCaller
    else Ignored
  }

  /** The error argument of Reply: none, a coded error (whose pointer may itself
      be nil), or any other error value. */
  datatype ErrorArg = NoError | Coded(error: Option<RpcError>) | Plain(text: string)

  datatype Author = Handler | Default | Fallback

  /** The arguments of one Reply; result is None when it cannot be marshalled. */
  datatype Answer = Answer(author: Author, result: Option<string>, err: ErrorArg)

  function BuildResponse(id: Option<ID>, a: Answer): Message {
    var raw := if a.err.NoError? then a.result else None;
    var err := if a.err.NoError? && a.result.None? then Plain("marshal failed") else a.err;
    var error :=
      match err
      case NoError => None
      case Coded(e) => e
      case Plain(text) => Some(RpcError(0, text));
    Message(id, "", "null", raw, error)
  }

  /** JSON null decodes into an absent result. */
  function AsRead(m: Message): Message {
    if m.result == Some("null") then m.(result := None) else m
  }

  datatype Outcome = Value(raw: string) | Failure(error: RpcError)

  /** What Call hands to its caller for a response. */
  function OutcomeOf(m: Message): Outcome {
    match m.error
    case Some(e) => Failure(e)
    case None => Value(match m.result case Some(raw) => raw case None => "null")
  }

  function MethodNotFound(methodName: string): ErrorArg {
    Coded(Some(RpcError(CODE_METHOD_NOT_FOUND, "method \"" + methodName + "\" not found")))
  }

  function DidNotReply(methodName: string): ErrorArg {
    Coded(Some(RpcError(CODE_INTERNAL_ERROR, "method \"" + methodName + "\" did not reply")))
  }

  /** What the caller gets of an answer, by its form. */
  lemma AnswerArrives(id: Option<ID>, a: Answer)
    ensures var got := OutcomeOf(AsRead(BuildResponse(id, a)));
            match a.err
            case NoError => if a.result.Some? then got == Value(a.result.value) else got.Failure?
            case Coded(None) => got == Value("null")
            case Coded(Some(e)) => got == Failure(e)
            case Plain(text) => got == Failure(RpcError(0, text))
  {
    var m := BuildResponse(id, a);
    if m.result == Some("null") {
      assert AsRead(m).result == None;
    }
  }

  /** A built response is always routed back to the caller it names, and it has
      exactly one of result and error, unless the handler passed a nil coded
      error: then it has neither, and the caller sees success with null. */
  lemma ResponseShape(id: Option<ID>, a: Answer)
    ensures var m := BuildResponse(id, a);
            && m.id == id
            && RouteOf(m) == (if id.Some? then ToCaller else Ignored)
            && !(m.result.Some? && m.error.Some?)
            && (m.result.Some? || m.error.Some? <==> a.err != Coded(None))
            && (a.err == Coded(None) ==> OutcomeOf(m) == Value("null"))
            && OutcomeOf(AsRead(m)) == OutcomeOf(m)
            && RouteOf(AsRead(m)) == RouteOf(m)
  {
    var m := BuildResponse(id, a);
    if m.result == Some("null") {
      assert AsRead(m).result == None;
    }
  }
}
