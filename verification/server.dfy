/** The pure parts of the server's handlers (server.ts): the per-layer API key
    check, the choice of model, the parts of a reasoning request, and the cleanup
    of JSON text that a model may wrap in markdown fences. */
module Server {
  import opened Types
  import opened Text

  /** The four layers, each with its own API key. */
  datatype Layer = Perception | Interpretation | Reasoning | Chat

  function LayerName(l: Layer): string {
    match l
    case Perception => "PERCEPTION"
    case Interpretation => "INTERPRETATION"
    case Reasoning => "REASONING"
    case Chat => "CHAT"
  }

  /** The environment variable that holds a layer's key. */
  function KeyName(l: Layer): string {
    "EDUVANE_" + LayerName(l) + "_API_KEY"
  }

  /** Every layer reads its own variable. */
  lemma KeyNamesDistinct(l: Layer, m: Layer)
    ensures KeyName(l) == KeyName(m) <==> l == m
  {
    if KeyName(l) == KeyName(m) {
      assert |LayerName(l)| == |LayerName(m)|;
    }
  }

  function MissingKey(l: Layer): string {
    "Configuration Error: Missing API Key for " + LayerName(l) + " layer."
  }

  /** `getClient` (lines 14-20): the layer's key, or a configuration error naming
      the layer when the variable is unset or empty. */
  function GetClient(l: Layer, env: map<string, string>): (r: Result<string>)
    ensures r.Ok? <==> KeyName(l) in env && env[KeyName(l)] != ""
    ensures r.Ok? ==> r.value == env[KeyName(l)]
    ensures r.Err? ==> r.message == MissingKey(l) && Contains(r.message, LayerName(l))
  {
    var key := KeyName(l);
    if key in env && env[key] != "" then Ok(env[key])
    else
      ContainsInfix("Configuration Error: Missing API Key for ", LayerName(l), " layer.");
      Err(MissingKey(l))
  }

  // ---------------------------------------------------------------------------
  // Model selection and request parts
  // ---------------------------------------------------------------------------

  const FlashModel: string := "gemini-3-flash-preview"
  const ImageModel: string := "gemini-2.5-flash-image"
  const ProModel: string := "gemini-3-pro-preview"

  /** Line 32: PDFs go to the flash model, every other document to the image model. */
  function PerceptionModel(mimeType: string): (m: string)
    ensures m == FlashModel <==> mimeType == "application/pdf"
    ensures m == ImageModel <==> mimeType != "application/pdf"
  {
    if mimeType == "application/pdf" then FlashModel else ImageModel
  }

  /** Line 119: the fast mode uses the flash model, anything else the pro model. */
  function ReasoningModel(mode: string): (m: string)
    ensures m == FlashModel <==> mode == "fast"
    ensures m == ProModel <==> mode != "fast"
  {
    if mode == "fast" then FlashModel else ProModel
  }

  /** The mode the client sends picks the model: fast gives flash, deep gives pro. */
  lemma ModeSelectsModel(m: Mode)
    ensures ReasoningModel(ModeName(m)) == (if m == Fast then FlashModel else ProModel)
  {
  }

  /** A part of a request's contents. */
  datatype Part = InlineData(data: string, mimeType: string) | TextPart(text: string)

  /** Lines 121-124: the prompt, preceded by the image when both the image and its
      type are present and not empty. */
  function ReasoningParts(prompt: string, image: Option<string>, mimeType: Option<string>): (r: seq<Part>)
    ensures |r| > 0 && r[|r| - 1] == TextPart(prompt)
    ensures |r| == 2 <==> Truthy(image) && Truthy(mimeType)
    ensures |r| == 2 ==> r[0] == InlineData(image.value, mimeType.value)
    ensures |r| <= 2
  {
    var parts := [TextPart(prompt)];
    if Truthy(image) && Truthy(mimeType) then [InlineData(image.value, mimeType.value)] + parts else parts
  }

  /** What the model reads from a list of parts: the text of the last text part. */
  function PromptRead(parts: seq<Part>): (r: Option<string>)
    ensures r.Some? <==> exists i :: 0 <= i < |parts| && parts[i].TextPart?
  {
    if |parts| == 0 then None
    else if parts[|parts| - 1].TextPart? then Some(parts[|parts| - 1].text)
    else PromptRead(parts[..|parts| - 1])
  }

  /** The inline images in a list of parts, with their types, in order. */
  function ImagesRead(parts: seq<Part>): (r: seq<(string, string)>)
    ensures |r| <= |parts|
  {
    if |parts| == 0 then []
    else
      var first := if parts[0].InlineData? then [(parts[0].data, parts[0].mimeType)] else [];
      first + ImagesRead(parts[1..])
  }

  /** Reading the parts back gives the prompt, and the image with its type exactly
      when both were given and not empty. */
  lemma ReasoningPartsRead(prompt: string, image: Option<string>, mimeType: Option<string>)
    ensures PromptRead(ReasoningParts(prompt, image, mimeType)) == Some(prompt)
    ensures ImagesRead(ReasoningParts(prompt, image, mimeType))
      == if Truthy(image) && Truthy(mimeType) then [(image.value, mimeType.value)] else []
  {
  }

  // ---------------------------------------------------------------------------
  // JSON fence cleanup
  // ---------------------------------------------------------------------------

  const Fence: string := "```"
  const JsonFence: string := "```json"

  /** Lines 102 and 195: a missing or empty text stands for `{}`; every opening
      fence `json` and then every remaining fence is removed, and the rest trimmed. */
  function CleanJson(text: Option<string>): string {
    Trim(RemoveAll(RemoveAll(OrElse(text, "{}"), JsonFence), Fence))
  }

  /** A missing or empty reply reads as an empty object. */
  lemma CleanEmpty()
    ensures CleanJson(None) == "{}" && CleanJson(Some("")) == "{}"
  {
    var e := "{}";
    assert OrElse(None, e) == e && OrElse(Some(""), e) == e;
    RemoveAllAbsentShort(e, JsonFence);
    RemoveAllAbsentShort(e, Fence);
    assert Trim(e) == e by {
      assert !IsSpace(e[0]);
      assert TrimStart(e) == e;
      assert !IsSpace(e[1]);
    }
  }

  /** What the cleanup leaves has no fence in it: removing fences never joins the
      backticks around a removed fence into a new one. */
  lemma NoFenceLeft(text: Option<string>)
    ensures !Contains(CleanJson(text), Fence)
  {
    var stripped := RemoveAll(RemoveAll(OrElse(text, "{}"), JsonFence), Fence);
    RemoveAllFences(RemoveAll(OrElse(text, "{}"), JsonFence));
    ContainsTrim(stripped, Fence);
  }

  /** Cleaning a cleaned text changes nothing, unless the first cleaning left nothing. */
  lemma CleanIdempotent(text: Option<string>)
    requires CleanJson(text) != ""
    ensures CleanJson(Some(CleanJson(text))) == CleanJson(text)
  {
    var stripped := RemoveAll(RemoveAll(OrElse(text, "{}"), JsonFence), Fence);
    var c := Trim(stripped);
    assert OrElse(Some(c), "{}") == c;
    NoFenceLeft(text);
    if Contains(c, JsonFence) {
      assert JsonFence == Fence + "json";
      ContainsPrefix(c, Fence, "json");
    }
    RemoveAllAbsent(c, JsonFence);
    RemoveAllAbsent(c, Fence);
    TrimIdempotent(stripped);
  }

  /** A reply that is nothing but a fence cleans to the empty text, which the next
      cleaning would turn into `{}`: the cleanup is not idempotent on it. */
  lemma LoneFence()
    ensures CleanJson(Some(Fence)) == ""
    ensures CleanJson(Some(CleanJson(Some(Fence)))) == "{}"
  {
    assert !StartsWith(Fence, JsonFence);
    assert RemoveAll(Fence, JsonFence) == Fence by {
      RemoveAllAbsentShort(Fence, JsonFence);
    }
    assert StartsWith(Fence, Fence);
    assert RemoveAll(Fence, Fence) == RemoveAll("", Fence);
    CleanEmpty();
  }

  /** A text shorter than the pattern is left alone. */
  lemma RemoveAllAbsentShort(s: string, p: string)
    requires |p| > |s|
    ensures RemoveAll(s, p) == s
  {
    if Contains(s, p) {
      ContainsLength(s, p);
    }
    RemoveAllAbsent(s, p);
  }

  lemma {:induction false} ContainsLength(s: string, p: string)
    requires Contains(s, p)
    ensures |p| <= |s|
    decreases |s|
  {
    if !StartsWith(s, p) {
      ContainsLength(s[1..], p);
    }
  }

  /** Removing every fence leaves none. */
  lemma {:induction false} RemoveAllFences(s: string)
    ensures !Contains(RemoveAll(s, Fence), Fence)
    decreases |s|
  {
    if |s| > 0 {
      if StartsWith(s, Fence) {
        RemoveAllFences(s[|Fence|..]);
      } else {
        var rest := RemoveAll(s[1..], Fence);
        var r := [s[0]] + rest;
        assert RemoveAll(s, Fence) == r;
        RemoveAllFences(s[1..]);
        assert !StartsWith(r, Fence);
        assert r[1..] == rest;
      }
    }
  }
}
