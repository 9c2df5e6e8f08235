# 1min.ai pipe for Open WebUI — Dafny model

This project models the request-translation logic of the Open WebUI "pipe"
(manifold plugin) in `openwebui-1minai.py`. The pipe advertises a catalogue
of provider models to the host and turns a host chat request into one POST
to the 1min.ai features endpoint. It has four parts:

- the model catalogue `Pipe.pipes`, which depends on whether an API key is
  configured;
- the extraction of the model id from the host's `<pipe>.<model>` string;
- the lookup of the provider model name in the catalogue;
- the construction of the JSON payload and headers, followed by the
  choice between streamed lines, parsed JSON and an `"Error: ..."` string.

Modules:

- `Wrappers`: `Option` and `Result`.
- `ModelId`: `Find`, which is Python's `str.find` for one character, and
  `ExtractId`.
- `Catalogue`: `Valves` (the configuration), `ModelDescriptor`, `Pipes`,
  and the lookup, given both as the reference function `Lookup` and as the
  loop `ScanCatalogue`.
- `Request`: message and body records, `Fault`, the payload, the headers
  and `Prepare`, which covers everything before the `try`.
- `Pipe`: the abstract provider `Outcome`, `SelectReply` and the whole call
  `RunPipe`.

The HTTP call is the parameter `post: ProviderRequest -> Outcome<J>`. An
`Outcome` is either the message of an exception raised by
`requests.post`/`raise_for_status`, or the response's lines together with
the result of parsing it as JSON. The JSON document type is the type
parameter `J`.

Only failures inside the `try` (lines 49-63) become `"Error: " + msg`.
These failures are raised as exceptions before any request is made:

- a missing `"model"` key;
- a model id that is not in the catalogue, which leaves `mod` unbound;
- a missing `"messages"` key;
- an empty message list;
- a last message without `"content"`.

`RunPipe` returns `Failure(fault)` for these exceptions and `Success(reply)`
for returned values. The pipe makes at most one POST per call, and none when a fault is raised
before the `try`; there is no retry on HTTP 429.

## Model

| member | source | states |
|---|---|---|
| ModelId.Find | openwebui-1minai.py:37 | `str.find`: the result is -1 exactly when the character is absent; otherwise it is an index holding the character with no earlier occurrence |
| ModelId.ExtractId | openwebui-1minai.py:37 | the id is a suffix of the model string; with no '.' it is the whole string; otherwise the string is a '.'-free namespace, one '.', then the id |
| ModelId.ExtractIdAfterNamespace | openwebui-1minai.py:37 | for a namespace without '.', stripping `ns + "." + id` gives back `id` exactly, even when `id` contains dots |
| ModelId.ExtractIdNotIdempotent | openwebui-1minai.py:37 | extraction is not idempotent: "a.b.c" gives "b.c", and extracting again gives "c" |
| Catalogue.Pipes | openwebui-1minai.py:19-32 | the catalogue `pipes()` returns; its properties are stated by `Catalogue.CatalogueShape` |
| Catalogue.CatalogueShape | openwebui-1minai.py:19-32 | the catalogue is never empty and its ids are distinct; it contains "error" exactly when the key is empty; an empty key gives only the sentinel, and a key gives the three provider pairs in fixed order |
| Catalogue.Lookup | openwebui-1minai.py:38-41 | the reference definition of the name the lookup loop binds; its meaning is stated by `Catalogue.LookupLastMatch`, and `Catalogue.ScanCatalogue` proves the loop equal to it |
| Catalogue.LookupLastMatch | openwebui-1minai.py:38-41 | the lookup yields nothing exactly when no entry has the id; otherwise it yields the name of the last matching entry |
| Catalogue.ScanCatalogue | openwebui-1minai.py:38-41 | the front-to-back loop that rebinds `mod` on every match, with no `break`, computes the same result as `Lookup` |
| Catalogue.LookupDistinct | openwebui-1minai.py:39-41 | when ids are distinct, looking up an entry's id yields that entry's name |
| Catalogue.CatalogueResolves | openwebui-1minai.py:19-41 | every advertised entry resolves to its own provider name |
| Catalogue.ConfiguredResolution | openwebui-1minai.py:20-25 | with a key, the three aliases resolve to gpt-4o-mini, claude-3-5-sonnet-20240620 and mistral-small-latest, and "error" does not resolve |
| Catalogue.UnconfiguredResolution | openwebui-1minai.py:26-32 | without a key, an id resolves exactly when it is "error", to "API Key not provided."; every provider alias fails to resolve |
| Catalogue.DefaultAdvertisesSentinel | openwebui-1minai.py:11-20 | a freshly constructed pipe (empty default key) advertises only the sentinel entry |
| Request.Headers | openwebui-1minai.py:35 | the only header is "API-KEY", and it carries the configured key verbatim |
| Request.ResolveName | openwebui-1minai.py:38-45 | resolution of an extracted id succeeds exactly when the id is in the key's catalogue, and the name comes from the entry with that id; otherwise it fails as an unbound `mod` for that id |
| Request.LastContent | openwebui-1minai.py:47 | a missing "messages" key, an empty list and a last message without content each fail with their own fault (`MissingMessages`, `NoMessages`, `MissingContent`); otherwise the result is the last message's content |
| Request.BuildPayload | openwebui-1minai.py:44-48 | the payload carries the resolved name, type "CHAT_WITH_AI" and the last message's content, and it fails exactly when reading that content fails |
| Request.PromptIgnoresHistory | openwebui-1minai.py:47 | earlier messages do not affect the payload: two histories with the same last message give equal payloads |
| Request.Prepare | openwebui-1minai.py:34-48 | faults come in Python's evaluation order: the model key, then the lookup, then the fault of reading the last message's content; on success the request goes to the base URL with the key header, the looked-up name and the last prompt |
| Request.UnresolvedModelFirst | openwebui-1minai.py:39-47 | an unresolvable model raises the unbound-`mod` fault whatever the messages are |
| Request.NamespaceIsIgnored | openwebui-1minai.py:37-41 | `ns.ALIAS` and the bare `ALIAS` prepare the same request |
| Pipe.Streaming | openwebui-1minai.py:58 | `body.get("stream", False)`; that an omitted flag means `false` is stated by `Pipe.StreamDefaultsToFalse` |
| Pipe.SelectReply | openwebui-1minai.py:57-63 | streaming gives the response lines; otherwise a successful parse gives the JSON; anything raised inside the `try` gives "Error: " followed by its message |
| Pipe.ErrorReplyRoundTrip | openwebui-1minai.py:62-63 | every error reply starts with "Error: ", and the exception's message can be read back from it |
| Pipe.RunPipe | openwebui-1minai.py:34-63 | the call raises exactly when preparation fails, and raises the same fault; otherwise it streams only when asked to, returns the parsed JSON when not streaming, and a failed post becomes an error string |
| Pipe.RunPipeSends | openwebui-1minai.py:49-63 | a prepared request is posted unchanged, and its outcome alone, with the stream flag, decides the reply |
| Pipe.FaultPrecedesRequest | openwebui-1minai.py:37-49 | a fault is raised before any request: the provider's behaviour cannot change it, and it never becomes an error string |
| Pipe.StreamDefaultsToFalse | openwebui-1minai.py:58 | omitting "stream" behaves exactly like `false` |
| Pipe.PrepareConfiguredExample | openwebui-1minai.py:35-48 | with a key, "pipe.GPT4o_MINI" with messages "a" then "b" prepares model gpt-4o-mini, type CHAT_WITH_AI and prompt "b", with the key header |
| Pipe.ConfiguredExample | openwebui-1minai.py:35-61 | with a key, "pipe.GPT4o_MINI" with messages "a" then "b" posts model gpt-4o-mini, type CHAT_WITH_AI and prompt "b" |
| Pipe.UnconfiguredRaises | openwebui-1minai.py:26-45 | under any configuration without a key, requesting any of the three provider aliases, under any '.'-free namespace, raises the unbound-`mod` fault for that alias instead of returning an error string |

## Left out

- The HTTP POST, `raise_for_status`, `iter_lines` and `r.json()` (lines 50-61) are network I/O. They are represented only by the abstract `Outcome` that the `post` parameter returns.
- `iter_lines` is lazy. An error raised while the host consumes the lines happens outside the `try`, and it is not modelled.
- The pydantic `Valves` field machinery (lines 6-17) is replaced by the plain record `Valves(baseUrl, apiKey)` and the constant `DefaultValves`.
- The `__user__` parameter is never read, so it is not modelled.
- Message values other than a string "content" are not modelled. This includes multi-part content and non-string types. The payload copies the content through unchanged.
- A non-string "model" value, and a "stream" value that is truthy but not a boolean, are not modelled. `Body.stream` is an `Option<bool>`.
- `Delivered.lines` is a `seq<string>`. `r.iter_lines()` yields bytes by default, and the model does not represent bytes or their decoding.
- `Payload(model, kind, prompt)` is a flat record. On the wire, `kind` is the key `"type"` and the prompt is nested as `"promptObject": {"prompt": …}`. The JSON serialisation is not modelled.
