/** The front half of `Pipe.pipe` (openwebui-1minai.py:34-48): from the
    host's request body to the request that would be posted to the provider.
    Every failure here happens before the `try` at line 49, so in the
    source it propagates as an exception; the model returns it as a
    `Fault` instead of an error string. */
module Request {
  import opened Wrappers
  import opened Catalogue
  import opened ModelId

  /** A chat message; only its "content" field is ever read. */
  datatype Message = Message(content: Option<string>)

  /** The host's request body: the keys the pipe reads, each possibly absent. */
  datatype Body = Body(model: Option<string>, messages: Option<seq<Message>>, stream: Option<bool>)

  /** The exceptions the front half can raise, in the order Python
      evaluates the expressions that raise them. */
  datatype Fault =
    | MissingModel           // KeyError: body["model"]
    | UnboundModel(id: string) // UnboundLocalError: `mod` never assigned
    | MissingMessages        // KeyError: body["messages"]
    | NoMessages             // IndexError: [-1] on an empty list
    | MissingContent         // KeyError: ["content"] on the last message

  /** The value of the payload's "type" field. */
  const ChatWithAi: string := "CHAT_WITH_AI"

  /** The name of the only header the pipe sends. */
  const ApiKeyHeader: string := "API-KEY"

  /** The JSON body posted to the provider. */
  datatype Payload = Payload(model: string, kind: string, prompt: string)

  /** Everything handed to the HTTP client. */
  datatype ProviderRequest = ProviderRequest(url: string, headers: map<string, string>, payload: Payload)

  /** The request headers: the configured key, verbatim, and nothing else. */
  function Headers(v: Valves): (h: map<string, string>)
    ensures h.Keys == {ApiKeyHeader}
    ensures h[ApiKeyHeader] == v.apiKey
  {
    map[ApiKeyHeader := v.apiKey]
  }

  /** The provider name for an extracted model id, looked up in the
      catalogue the current key selects; no match leaves `mod` unbound. */
  function ResolveName(v: Valves, id: string): (r: Result<string, Fault>)
    ensures r.Success? <==> HasId(Pipes(v), id)
    ensures r.Failure? ==> r.error == UnboundModel(id)
    ensures r.Success? ==> exists i :: 0 <= i < |Pipes(v)| && Pipes(v)[i] == ModelDescriptor(id, r.value)
  {
    LookupLastMatch(Pipes(v), id);
    match Lookup(Pipes(v), id)
    case Some(name) => Success(name)
    case None => Failure(UnboundModel(id))
  }

  /** `body["messages"][-1]["content"]`: the content of the last message. */
  function LastContent(messages: Option<seq<Message>>): (r: Result<string, Fault>)
    ensures messages.None? ==> r == Failure(MissingMessages)
    ensures messages == Some([]) ==> r == Failure(NoMessages)
    ensures messages.Some? && |messages.value| > 0 && messages.value[|messages.value| - 1].content.None? ==>
              r == Failure(MissingContent)
    ensures r.Success? <==>
              messages.Some? && |messages.value| > 0 && messages.value[|messages.value| - 1].content.Some?
    ensures r.Success? ==>
              messages.Some? && |messages.value| > 0 && messages.value[|messages.value| - 1].content == Some(r.value)
    ensures r.Failure? ==> r.error in {MissingMessages, NoMessages, MissingContent}
  {
    match messages
    case None => Failure(MissingMessages)
    case Some(ms) =>
      if |ms| == 0 then Failure(NoMessages)
      else
        match ms[|ms| - 1].content
        case None => Failure(MissingContent)
        case Some(c) => Success(c)
  }

  /** The payload dictionary of lines 44-48, for an already resolved name. */
  function BuildPayload(name: string, messages: Option<seq<Message>>): (r: Result<Payload, Fault>)
    ensures r.Success? <==> LastContent(messages).Success?
    ensures r.Success? ==>
              && r.value.model == name
              && r.value.kind == ChatWithAi
              && messages.Some? && |messages.value| > 0
              && messages.value[|messages.value| - 1].content == Some(r.value.prompt)
    ensures r.Failure? ==> LastContent(messages) == Failure(r.error)
  {
    var prompt :- LastContent(messages);
    Success(Payload(name, ChatWithAi, prompt))
  }

  /** Only the last message reaches the provider: any earlier history gives
      the same payload. */
  lemma PromptIgnoresHistory(name: string, earlier: seq<Message>, other: seq<Message>, last: Message)
    ensures BuildPayload(name, Some(earlier + [last])) == BuildPayload(name, Some(other + [last]))
  {
  }

  /** Lines 35-48: the request the pipe would post, or the exception raised
      before posting. The model key is read first, then the lookup's result,
      then the messages. */
  function Prepare(v: Valves, body: Body): (r: Result<ProviderRequest, Fault>)
    ensures body.model.None? ==> r == Failure(MissingModel)
    ensures body.model.Some? && !HasId(Pipes(v), ExtractId(body.model.value)) ==>
              r == Failure(UnboundModel(ExtractId(body.model.value)))
    ensures body.model.Some? && HasId(Pipes(v), ExtractId(body.model.value))
            && LastContent(body.messages).Failure? ==>
              r == Failure(LastContent(body.messages).error)
    ensures r.Success? <==>
              && body.model.Some?
              && HasId(Pipes(v), ExtractId(body.model.value))
              && LastContent(body.messages).Success?
    ensures r.Success? ==>
              && body.model.Some? && body.messages.Some? && |body.messages.value| > 0
              && r.value.url == v.baseUrl
              && r.value.headers == map[ApiKeyHeader := v.apiKey]
              && r.value.payload.kind == ChatWithAi
              && Lookup(Pipes(v), ExtractId(body.model.value)) == Some(r.value.payload.model)
              && body.messages.value[|body.messages.value| - 1].content == Some(r.value.payload.prompt)
  {
    var headers := Headers(v);
    match body.model
    case None => Failure(MissingModel)
    case Some(model) =>
      var name :- ResolveName(v, ExtractId(model));
      var payload :- BuildPayload(name, body.messages);
      Success(ProviderRequest(v.baseUrl, headers, payload))
  }

  /** An unresolvable model raises before the messages are even read, so a
      bad model hides any problem with the message list. */
  lemma UnresolvedModelFirst(v: Valves, model: string, messages: Option<seq<Message>>, stream: Option<bool>)
    requires !HasId(Pipes(v), ExtractId(model))
    ensures Prepare(v, Body(Some(model), messages, stream)) == Failure(UnboundModel(ExtractId(model)))
  {
  }

  /** The host's namespaced form and the bare alias select the same provider
      model. */
  lemma NamespaceIsIgnored(v: Valves, ns: string, id: string, messages: Option<seq<Message>>, stream: Option<bool>)
    requires Separator !in ns
    requires Separator !in id
    ensures Prepare(v, Body(Some(ns + [Separator] + id), messages, stream))
         == Prepare(v, Body(Some(id), messages, stream))
  {
    ExtractIdAfterNamespace(ns, id);
  }
}
