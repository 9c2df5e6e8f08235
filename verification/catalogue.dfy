/** The pipe's configuration and the model catalogue it advertises to the
    host (`Pipe.Valves` and `Pipe.pipes`, openwebui-1minai.py:6-32), together
    with the name lookup that `Pipe.pipe` performs against that catalogue
    (openwebui-1minai.py:38-41). */
module Catalogue {
  import opened Wrappers

  /** The pipe's settings: the endpoint every request is posted to and the
      key sent with it. An empty key means "not configured". */
  datatype Valves = Valves(baseUrl: string, apiKey: string)

  const DefaultBaseUrl: string := "https://api.1min.ai/api/features?isStreaming=true"

  /** The settings a freshly constructed pipe starts with. */
  const DefaultValves: Valves := Valves(DefaultBaseUrl, "")

  /** One selectable model: the short alias the host sees, and the name the
      provider expects in a request. */
  datatype ModelDescriptor = ModelDescriptor(id: string, name: string)

  /** The models offered once a key is configured, in the order offered. */
  const ProviderModels: seq<ModelDescriptor> := [
    ModelDescriptor("GPT4o_MINI", "gpt-4o-mini"),
    ModelDescriptor("CLAUDE3_5_SONNET", "claude-3-5-sonnet-20240620"),
    ModelDescriptor("MISTRAL_SMALL", "mistral-small-latest")
  ]

  /** The single entry offered while no key is configured. */
  const MissingKeyEntry: ModelDescriptor := ModelDescriptor("error", "API Key not provided.")

  /** No two entries share an id. */
  predicate DistinctIds(models: seq<ModelDescriptor>) {
    forall i, j :: 0 <= i < j < |models| ==> models[i].id != models[j].id
  }

  /** Whether some entry has the given id. */
  predicate HasId(models: seq<ModelDescriptor>, id: string) {
    exists i :: 0 <= i < |models| && models[i].id == id
  }

  /** The catalogue advertised to the host. An empty key (Python falsy)
      degrades it to the single sentinel entry. */
  function Pipes(v: Valves): seq<ModelDescriptor> {
    if v.apiKey != "" then ProviderModels else [MissingKeyEntry]
  }

  /** Whatever the key, the catalogue is non-empty, its ids are distinct,
      and it offers the sentinel id exactly when no key is configured: then
      it is that single entry, and otherwise the three provider models in
      a fixed order. */
  lemma CatalogueShape(v: Valves)
    ensures |Pipes(v)| >= 1
    ensures DistinctIds(Pipes(v))
    ensures HasId(Pipes(v), "error") <==> v.apiKey == ""
    ensures v.apiKey == "" <==> Pipes(v) == [ModelDescriptor("error", "API Key not provided.")]
    ensures v.apiKey != "" ==>
              && |Pipes(v)| == 3
              && Pipes(v)[0] == ModelDescriptor("GPT4o_MINI", "gpt-4o-mini")
              && Pipes(v)[1] == ModelDescriptor("CLAUDE3_5_SONNET", "claude-3-5-sonnet-20240620")
              && Pipes(v)[2] == ModelDescriptor("MISTRAL_SMALL", "mistral-small-latest")
  {
    if v.apiKey == "" {
      assert Pipes(v)[0].id == "error";
    } else {
      var models := Pipes(v);
      forall i | 0 <= i < |models|
        ensures models[i].id != "error"
      {
        assert models[i] in ProviderModels;
      }
    }
  }

  /** Entry `i` is a match for `id` and no later entry is. */
  ghost predicate IsLastMatch(models: seq<ModelDescriptor>, id: string, i: int) {
    && 0 <= i < |models|
    && models[i].id == id
    && forall j :: i < j < |models| ==> models[j].id != id
  }

  /** The name bound by scanning `models` for `id` without breaking out of
      the loop: the last matching entry wins, and no match leaves nothing
      bound (`None`). */
  function Lookup(models: seq<ModelDescriptor>, id: string): Option<string>
    decreases |models|
  {
    if |models| == 0 then
      None
    else if models[|models| - 1].id == id then
      Some(models[|models| - 1].name)
    else
      Lookup(models[..|models| - 1], id)
  }

  /** The lookup yields nothing exactly when no entry has the id, and
      otherwise the name of the last entry that has it. */
  lemma {:induction false} LookupLastMatch(models: seq<ModelDescriptor>, id: string)
    ensures Lookup(models, id).None? <==> !HasId(models, id)
    ensures Lookup(models, id).Some? ==>
              exists i :: IsLastMatch(models, id, i) && models[i].name == Lookup(models, id).value
    decreases |models|
  {
    if |models| > 0 && models[|models| - 1].id != id {
      var front := models[..|models| - 1];
      LookupLastMatch(front, id);
      assert forall i :: 0 <= i < |front| ==> front[i] == models[i];
      if Lookup(front, id).Some? {
        var i :| IsLastMatch(front, id, i) && front[i].name == Lookup(front, id).value;
        assert IsLastMatch(models, id, i);
      }
    } else if |models| > 0 {
      assert IsLastMatch(models, id, |models| - 1);
    }
  }

  /** The lookup loop as written: walk the catalogue front to back and
      rebind `mod` on every match. */
  method ScanCatalogue(models: seq<ModelDescriptor>, id: string) returns (mod: Option<string>)
    ensures mod == Lookup(models, id)
  {
    mod := None;
    var k := 0;
    while k < |models|
      invariant 0 <= k <= |models|
      invariant mod == Lookup(models[..k], id)
    {
      assert models[..k + 1][..k] == models[..k];
      if models[k].id == id {
        mod := Some(models[k].name);
      }
      k := k + 1;
    }
    assert models[..|models|] == models;
  }

  /** When ids are distinct, the lookup finds exactly the entry with that id. */
  lemma LookupDistinct(models: seq<ModelDescriptor>, i: int)
    requires DistinctIds(models)
    requires 0 <= i < |models|
    ensures Lookup(models, models[i].id) == Some(models[i].name)
  {
    var r := Lookup(models, models[i].id);
    LookupLastMatch(models, models[i].id);
    assert HasId(models, models[i].id);
    var j :| IsLastMatch(models, models[i].id, j) && models[j].name == r.value;
    assert j == i;
  }

  /** Every advertised entry resolves to its own name. */
  lemma CatalogueResolves(v: Valves, i: int)
    requires 0 <= i < |Pipes(v)|
    ensures Lookup(Pipes(v), Pipes(v)[i].id) == Some(Pipes(v)[i].name)
  {
    CatalogueShape(v);
    LookupDistinct(Pipes(v), i);
  }

  /** With a key, the three provider aliases resolve to their provider names. */
  lemma ConfiguredResolution(v: Valves)
    requires v.apiKey != ""
    ensures Lookup(Pipes(v), "GPT4o_MINI") == Some("gpt-4o-mini")
    ensures Lookup(Pipes(v), "CLAUDE3_5_SONNET") == Some("claude-3-5-sonnet-20240620")
    ensures Lookup(Pipes(v), "MISTRAL_SMALL") == Some("mistral-small-latest")
    ensures Lookup(Pipes(v), "error") == None
  {
    CatalogueShape(v);
    CatalogueResolves(v, 0);
    CatalogueResolves(v, 1);
    CatalogueResolves(v, 2);
    LookupLastMatch(Pipes(v), "error");
  }

  /** Without a key only the sentinel id resolves, and every provider alias
      fails to resolve. */
  lemma UnconfiguredResolution(v: Valves, id: string)
    requires v.apiKey == ""
    ensures Lookup(Pipes(v), id).Some? <==> id == "error"
    ensures id == "error" ==> Lookup(Pipes(v), id) == Some("API Key not provided.")
    ensures (exists i :: 0 <= i < |ProviderModels| && ProviderModels[i].id == id)
              ==> Lookup(Pipes(v), id) == None
  {
    if id == "error" {
      CatalogueResolves(v, 0);
    }
  }

  /** A freshly constructed pipe has no key, so it advertises only the sentinel. */
  lemma DefaultAdvertisesSentinel()
    ensures Pipes(DefaultValves) == [ModelDescriptor("error", "API Key not provided.")]
  {
  }
}
