/** The host hands the pipe a model string of the form `<pipe id>.<model id>`;
    the pipe keeps only what follows the first '.' (openwebui-1minai.py:37). */
module ModelId {

  /** The character that separates the host's namespace from the model id. */
  const Separator: char := '.'

  /** Python's `str.find` for one character: the index of the first
      occurrence of `ch` in `text`, or -1 when `ch` does not occur. */
  function Find(text: string, ch: char): (index: int)
    ensures -1 <= index < |text|
    ensures index == -1 <==> ch !in text
    ensures 0 <= index ==> index < |text| && text[index] == ch && ch !in text[..index]
  {
    if |text| == 0 then -1
    else if text[0] == ch then 0
    else if Find(text[1..], ch) == -1 then -1
    else 1 + Find(text[1..], ch)
  }

  /** `model[model.find(".") + 1:]`: everything after the first separator,
      or the whole string when there is none (-1 + 1 == 0). */
  function ExtractId(model: string): (id: string)
    ensures |id| <= |model| && id == model[|model| - |id|..]
    ensures Separator !in model ==> id == model
    ensures Separator in model ==>
              && |id| < |model|
              && var ns := model[..|model| - |id| - 1];
                 Separator !in ns && model == ns + [Separator] + id
  {
    var k := Find(model, Separator);
    if k == -1 then model
    else
      assert model == model[..k] + [Separator] + model[k + 1..];
      model[k + 1..]
  }

  /** Stripping a namespace that contains no separator gives back exactly
      the id that followed it, whatever that id contains. */
  lemma ExtractIdAfterNamespace(ns: string, id: string)
    requires Separator !in ns
    ensures ExtractId(ns + [Separator] + id) == id
  {
    var s := ns + [Separator] + id;
    var k := Find(s, Separator);
    assert s[|ns|] == Separator;
    assert s[k + 1..] == id;
  }

  /** Extraction is not idempotent: only the first segment is removed, so
      a second extraction strips one more segment. */
  lemma ExtractIdNotIdempotent()
    ensures ExtractId("a.b.c") == "b.c"
    ensures ExtractId(ExtractId("a.b.c")) == "c"
    ensures ExtractId(ExtractId("a.b.c")) != ExtractId("a.b.c")
  {
    ExtractIdAfterNamespace("a", "b.c");
    ExtractIdAfterNamespace("b", "c");
  }
}
