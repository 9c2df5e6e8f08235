/** The whole of `Pipe.pipe` (openwebui-1minai.py:34-63) with the HTTP call
    abstracted: `post` stands for `requests.post` followed by
    `raise_for_status`, and reports either the exception it raised or the
    response's lines and its JSON parse. */
module Pipe {
  import opened Wrappers
  import opened Catalogue
  import opened ModelId
  import opened Request

  /** What the provider call inside the `try` produced. `J` is the type of
      parsed JSON documents. */
  datatype Outcome<J> =
    | Raised(message: string)                               // post or raise_for_status failed
    | Delivered(lines: seq<string>, json: Result<J, string>) // the body as lines, and as JSON (or the parse error)

  /** What `pipe` returns to the host. */
  datatype Reply<J> = Lines(lines: seq<string>) | Json(value: J) | ErrorText(text: string)

  const ErrorPrefix: string := "Error: "

  /** `body.get("stream", False)`. */
  predicate Streaming(body: Body) {
    body.stream == Some(true)
  }

  /** Lines 57-63: stream the lines, or parse the JSON, and turn anything
      raised inside the `try` into an error string. */
  function SelectReply<J>(outcome: Outcome<J>, stream: bool): (reply: Reply<J>)
    ensures reply.Lines? <==> outcome.Delivered? && stream
    ensures reply.Json? <==> outcome.Delivered? && !stream && outcome.json.Success?
    ensures reply.Lines? ==> outcome.Delivered? && reply.lines == outcome.lines
    ensures reply.Json? ==> outcome.Delivered? && outcome.json == Success(reply.value)
    ensures outcome.Raised? ==> reply == ErrorText(ErrorPrefix + outcome.message)
    ensures outcome.Delivered? && !stream && outcome.json.Failure? ==>
              reply == ErrorText(ErrorPrefix + outcome.json.error)
  {
    match outcome
    case Raised(message) => ErrorText(ErrorPrefix + message)
    case Delivered(lines, json) =>
      if stream then Lines(lines)
      else
        match json
        case Success(doc) => Json(doc)
        case Failure(message) => ErrorText(ErrorPrefix + message)
  }

  /** Recovers the exception message from an error reply's text; the
      partner of the formatting in `SelectReply`. */
  function ErrorMessage(text: string): (message: Option<string>)
    ensures message.Some? <==> |text| >= |ErrorPrefix| && text[..|ErrorPrefix|] == ErrorPrefix
    ensures message.Some? ==> ErrorPrefix + message.value == text
  {
    if |text| >= |ErrorPrefix| && text[..|ErrorPrefix|] == ErrorPrefix then
      assert text == text[..|ErrorPrefix|] + text[|ErrorPrefix|..];
      Some(text[|ErrorPrefix|..])
    else
      None
  }

  /** Every error reply carries the message of the exception that caused it,
      and it can be read back. */
  lemma ErrorReplyRoundTrip<J>(outcome: Outcome<J>, stream: bool)
    requires SelectReply(outcome, stream).ErrorText?
    ensures outcome.Raised? ==> ErrorMessage(SelectReply(outcome, stream).text) == Some(outcome.message)
    ensures outcome.Delivered? ==>
              !stream && ErrorMessage(SelectReply(outcome, stream).text) == Some(outcome.json.error)
  {
    var text := SelectReply(outcome, stream).text;
    assert text[..|ErrorPrefix|] == ErrorPrefix;
    assert text[|ErrorPrefix|..] == if outcome.Raised? then outcome.message else outcome.json.error;
  }

  /** `Pipe.pipe`: `Failure` is an exception escaping to the host, `Success`
      a value returned to it. The provider is called with exactly the
      prepared request, and only when preparation succeeded. */
  function RunPipe<J>(v: Valves, body: Body, post: ProviderRequest -> Outcome<J>): (r: Result<Reply<J>, Fault>)
    ensures Prepare(v, body).Failure? ==> r == Failure(Prepare(v, body).error)
    ensures Prepare(v, body).Success? ==>
              var sent := post(Prepare(v, body).value);
              && r.Success?
              && (r.value.Lines? <==> sent.Delivered? && Streaming(body))
              && (r.value.Lines? ==> sent.Delivered? && r.value.lines == sent.lines)
              && (sent.Raised? ==> r.value == ErrorText(ErrorPrefix + sent.message))
              && (sent.Delivered? && !Streaming(body) && sent.json.Success? ==> r.value == Json(sent.json.value))
  {
    var request :- Prepare(v, body);
    Success(SelectReply(post(request), Streaming(body)))
  }

  /** A successfully prepared request is posted as it is, and its outcome
      alone decides the reply. */
  lemma RunPipeSends<J>(v: Valves, body: Body, sent: ProviderRequest, post: ProviderRequest -> Outcome<J>)
    requires Prepare(v, body) == Success(sent)
    ensures RunPipe(v, body, post) == Success(SelectReply(post(sent), Streaming(body)))
  {
  }

  /** A fault is raised before any request is made: the provider's behaviour
      cannot influence it. */
  lemma FaultPrecedesRequest<J>(v: Valves, body: Body, post1: ProviderRequest -> Outcome<J>, post2: ProviderRequest -> Outcome<J>)
    requires Prepare(v, body).Failure?
    ensures RunPipe(v, body, post1) == RunPipe(v, body, post2)
    ensures RunPipe(v, body, post1).Failure?
  {
  }

  /** Omitting "stream" behaves exactly like sending `false`. */
  lemma StreamDefaultsToFalse<J>(v: Valves, body: Body, post: ProviderRequest -> Outcome<J>)
    requires body.stream.None?
    ensures RunPipe(v, body, post) == RunPipe(v, body.(stream := Some(false)), post)
  {
  }

  /** With a key configured, a namespaced alias and two messages produce a
      request for the provider name carrying only the last message. */
  lemma ConfiguredExample<J>(v: Valves, body: Body, sent: ProviderRequest, post: ProviderRequest -> Outcome<J>)
    requires v.apiKey != ""
    requires body == Body(Some("pipe.GPT4o_MINI"), Some([Message(Some("a")), Message(Some("b"))]), None)
    requires sent == ProviderRequest(v.baseUrl, map[ApiKeyHeader := v.apiKey], Payload("gpt-4o-mini", ChatWithAi, "b"))
    ensures RunPipe(v, body, post) == Success(SelectReply(post(sent), false))
  {
    PrepareConfiguredExample(v, body, sent);
    RunPipeSends(v, body, sent, post);
  }

  /** The request prepared for the example above. */
  lemma PrepareConfiguredExample(v: Valves, body: Body, sent: ProviderRequest)
    requires v.apiKey != ""
    requires body == Body(Some("pipe.GPT4o_MINI"), Some([Message(Some("a")), Message(Some("b"))]), None)
    requires sent == ProviderRequest(v.baseUrl, map[ApiKeyHeader := v.apiKey], Payload("gpt-4o-mini", ChatWithAi, "b"))
    ensures Prepare(v, body) == Success(sent)
  {
    var model := "pipe.GPT4o_MINI";
    assert model == "pipe" + [Separator] + "GPT4o_MINI";
    ExtractIdAfterNamespace("pipe", "GPT4o_MINI");
    ConfiguredResolution(v);
    assert ResolveName(v, ExtractId(model)) == Success("gpt-4o-mini");
    assert BuildPayload("gpt-4o-mini", body.messages) == Success(Payload("gpt-4o-mini", ChatWithAi, "b"));
  }

  /** Without a key, asking for any provider alias, under any namespace,
      raises instead of returning an error string, whatever the messages. */
  lemma UnconfiguredRaises<J>(v: Valves, ns: string, i: int, body: Body, post: ProviderRequest -> Outcome<J>)
    requires v.apiKey == ""
    requires Separator !in ns
    requires 0 <= i < |ProviderModels|
    requires body.model == Some(ns + [Separator] + ProviderModels[i].id)
    ensures RunPipe(v, body, post) == Failure(UnboundModel(ProviderModels[i].id))
  {
    ExtractIdAfterNamespace(ns, ProviderModels[i].id);
    UnconfiguredResolution(v, ProviderModels[i].id);
  }
}
