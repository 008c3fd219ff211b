/**
 * How `generateImage` (services/imageGenerators.ts) chooses a generator for
 * a model id. Any id mentioning `gemini` goes to Gemini. Otherwise an id
 * mentioning `pollinations` becomes a Pollinations URL whose size follows the
 * aspect ratio. Otherwise the three Hugging Face families are used when a
 * token is present. Anything else is refused. The generators themselves
 * (the Gemini SDK, the HTTP fetch, the Hugging Face SDK, `FileReader`) are
 * outside the model; `Math.random()` and `encodeURIComponent` are parameters.
 */
module ImageRouting {
  import opened JsString

  const POLLINATIONS_BASE: string := "https://image.pollinations.ai/prompt/"
  const NEGATIVE_PROMPT: string := "blurry, bad quality, distorted"
  const DEFAULT_ASPECT_RATIO: string := "1:1"

  /** The image models the image panel offers (App.tsx). */
  const GEMINI_IMAGE_MODEL: string := "gemini-2.5-flash-image"
  const FLUX_SCHNELL: string := "black-forest-labs/FLUX.1-schnell"
  const SDXL: string := "stabilityai/stable-diffusion-xl-base-1.0"
  const SD_1_5: string := "runwayml/stable-diffusion-v1-5"
  const POLLINATIONS_FLUX: string := "pollinations/flux"
  const POLLINATIONS_TURBO: string := "pollinations/turbo"

  /** The generator a request goes to. */
  datatype ImageRoute =
    | GeminiImage(prompt: string, aspectRatio: string)
    | Pollinations(url: string)
    | HuggingFaceImage(model: string, inputs: string, negativePrompt: string)
    | Unsupported(message: string)

  /** `Math.floor(Math.random() * 1000000)`. */
  function Seed(random: real): (s: nat)
    requires 0.0 <= random < 1.0
    ensures s < 1000000
    ensures s as real <= random * 1000000.0 < s as real + 1.0
  {
    (random * 1000000.0).Floor
  }

  /** Width and height for an aspect ratio: landscape and portrait HD for
      `16:9` and `9:16`, a 1024 square for every other ratio. */
  function Dimensions(aspectRatio: string): (d: (nat, nat))
  {
    if aspectRatio == "16:9" then (1280, 720)
    else if aspectRatio == "9:16" then (720, 1280)
    else (1024, 1024)
  }

  /** `generateImage` without an aspect ratio makes a 1024 square. */
  lemma DefaultRatioSquare()
    ensures Dimensions(DEFAULT_ASPECT_RATIO) == (1024, 1024)
  {
  }

  /** The two named ratios are honoured exactly and are each other's
      rotation; any other ratio, `4:3` and `3:4` among them, gives a square. */
  lemma DimensionsFollowRatio(aspectRatio: string)
    ensures var (w, h) := Dimensions(aspectRatio);
      && (aspectRatio == "16:9" ==> w * 9 == h * 16 && w > h)
      && (aspectRatio == "9:16" ==> w * 16 == h * 9 && w < h)
      && (aspectRatio != "16:9" && aspectRatio != "9:16" ==> w == h == 1024)
    ensures Dimensions("16:9") == (Dimensions("9:16").1, Dimensions("9:16").0)
  {
  }

  /** `flux` when the id mentions it, `turbo` otherwise. */
  function PollinationsModel(modelId: string): (m: string)
    ensures m == "flux" || m == "turbo"
    ensures m == "flux" <==> Contains(modelId, "flux")
  {
    if Contains(modelId, "flux") then "flux" else "turbo"
  }

  /** The parameters of a Pollinations request, in the order of the URL. */
  function PollinationsParameters(width: nat, height: nat, seed: nat, model: string): seq<string> {
    ["width=" + NatToString(width), "height=" + NatToString(height), "seed=" + NatToString(seed),
     "model=" + model, "nologo=true"]
  }

  /** The query string: the parameters joined with `&`. */
  function PollinationsQuery(width: nat, height: nat, seed: nat, model: string): string {
    Join(PollinationsParameters(width, height, seed, model), '&')
  }

  function PollinationsUrl(encodedPrompt: string, width: nat, height: nat, seed: nat, model: string): string {
    POLLINATIONS_BASE + encodedPrompt + "?" + PollinationsQuery(width, height, seed, model)
  }

  /** The URL reads back: the encoded prompt is what precedes `?`, and the
      query splits at `&` into the five parameters in order. */
  lemma PollinationsUrlParts(encodedPrompt: string, width: nat, height: nat, seed: nat, model: string)
    requires '?' !in encodedPrompt && '?' !in model && '&' !in model
    ensures Split(PollinationsUrl(encodedPrompt, width, height, seed, model), '?')
         == [POLLINATIONS_BASE + encodedPrompt, PollinationsQuery(width, height, seed, model)]
    ensures Split(PollinationsQuery(width, height, seed, model), '&') == PollinationsParameters(width, height, seed, model)
  {
    var ps := PollinationsParameters(width, height, seed, model);
    ParametersClean(width, height, seed, model);
    JoinSplit(ps, '&');
    NoCharInJoin(ps, '&', '?');
    BaseHasNoQuestionMark();
    UrlSplits(POLLINATIONS_BASE, encodedPrompt, PollinationsQuery(width, height, seed, model));
  }

  /** No parameter holds `&` or `?`. */
  lemma ParametersClean(width: nat, height: nat, seed: nat, model: string)
    requires '?' !in model && '&' !in model
    ensures var ps := PollinationsParameters(width, height, seed, model);
      forall k :: 0 <= k < |ps| ==> '&' !in ps[k] && '?' !in ps[k]
  {
    var w, h, s := NatToString(width), NatToString(height), NatToString(seed);
    NoMarks(w);
    NoMarks(h);
    NoMarks(s);
    ParameterNames();
    NoMarkInJoin("width=", w, '&');
    NoMarkInJoin("height=", h, '&');
    NoMarkInJoin("seed=", s, '&');
    NoMarkInJoin("model=", model, '&');
    NoMarkInJoin("width=", w, '?');
    NoMarkInJoin("height=", h, '?');
    NoMarkInJoin("seed=", s, '?');
    NoMarkInJoin("model=", model, '?');
  }

  lemma ParameterNames()
    ensures '&' !in "width=" && '&' !in "height=" && '&' !in "seed=" && '&' !in "model=" && '&' !in "nologo=true"
    ensures '?' !in "width=" && '?' !in "height=" && '?' !in "seed=" && '?' !in "model=" && '?' !in "nologo=true"
  {
  }

  lemma BaseHasNoQuestionMark()
    ensures '?' !in POLLINATIONS_BASE
  {
    assert forall k :: 0 <= k < |POLLINATIONS_BASE| ==> POLLINATIONS_BASE[k] != '?';
  }

  lemma UrlSplits(base: string, encodedPrompt: string, query: string)
    requires '?' !in base && '?' !in encodedPrompt && '?' !in query
    ensures Split(base + encodedPrompt + "?" + query, '?') == [base + encodedPrompt, query]
  {
    var path := base + encodedPrompt;
    NoMarkInJoin(base, encodedPrompt, '?');
    assert path + "?" + query == path + ['?'] + query;
    SplitFirst(path, '?', query);
  }

  lemma NoMarkInJoin(a: string, b: string, c: char)
    requires c !in a && c !in b
    ensures c !in a + b
  {
  }

  /** Decimal digits hold neither `?` nor `&`. */
  lemma NoMarks(digits: string)
    requires forall k :: 0 <= k < |digits| ==> '0' <= digits[k] <= '9'
    ensures '?' !in digits && '&' !in digits
  {
  }

  /** The ids the Hugging Face generator accepts. */
  predicate HuggingFaceFamily(modelId: string) {
    StartsWith(modelId, "black-forest-labs") || StartsWith(modelId, "stabilityai") || StartsWith(modelId, "runwayml")
  }

  function UnsupportedError(modelId: string): string {
    "Model " + modelId + " not supported or key missing."
  }

  /** The Gemini image model's own id mentions `gemini`, so the first test
      of `generateImage` comes down to that mention. */
  lemma GeminiIdMentionsGemini()
    ensures Contains(GEMINI_IMAGE_MODEL, "gemini")
  {
    StartsWithContains(GEMINI_IMAGE_MODEL, "gemini");
  }

  /** The generator for a request, picked in the order `generateImage` checks the id. */
  function RouteImage(prompt: string, modelId: string, aspectRatio: string, hfToken: string,
                      random: real, encode: string -> string): (r: ImageRoute)
    requires 0.0 <= random < 1.0
    ensures r.GeminiImage? <==> Contains(modelId, "gemini")
    ensures r.GeminiImage? ==> r == GeminiImage(prompt, aspectRatio)
    ensures r.Pollinations? <==> !Contains(modelId, "gemini") && Contains(modelId, "pollinations")
    ensures r.Pollinations? ==> r.url == PollinationsUrl(encode(prompt), Dimensions(aspectRatio).0, Dimensions(aspectRatio).1,
                                                         Seed(random), PollinationsModel(modelId))
    ensures r.HuggingFaceImage? <==>
      !Contains(modelId, "gemini") && !Contains(modelId, "pollinations") && hfToken != "" && HuggingFaceFamily(modelId)
    ensures r.HuggingFaceImage? ==> r == HuggingFaceImage(modelId, prompt, NEGATIVE_PROMPT)
    ensures r.Unsupported? ==> r == Unsupported(UnsupportedError(modelId))
  {
    GeminiIdMentionsGemini();
    if modelId == GEMINI_IMAGE_MODEL || Contains(modelId, "gemini") then GeminiImage(prompt, aspectRatio)
    else if Contains(modelId, "pollinations") then
      var (width, height) := Dimensions(aspectRatio);
      Pollinations(PollinationsUrl(encode(prompt), width, height, Seed(random), PollinationsModel(modelId)))
    else if hfToken != "" && HuggingFaceFamily(modelId) then HuggingFaceImage(modelId, prompt, NEGATIVE_PROMPT)
    else Unsupported(UnsupportedError(modelId))
  }

  /** The offered Gemini model goes to Gemini. */
  lemma GeminiModelRouted(prompt: string, aspectRatio: string, hfToken: string, random: real, encode: string -> string)
    requires 0.0 <= random < 1.0
    ensures RouteImage(prompt, GEMINI_IMAGE_MODEL, aspectRatio, hfToken, random, encode) == GeminiImage(prompt, aspectRatio)
  {
    GeminiIdMentionsGemini();
  }

  /** An id of a Hugging Face family that mentions neither `gemini` nor
      `pollinations` goes to Hugging Face when there is a token and is
      refused without one. */
  lemma HuggingFaceRouted(id: string, prompt: string, aspectRatio: string, hfToken: string, random: real, encode: string -> string)
    requires 'g' !in id && 'p' !in id && HuggingFaceFamily(id) && 0.0 <= random < 1.0
    ensures RouteImage(prompt, id, aspectRatio, hfToken, random, encode)
         == if hfToken != "" then HuggingFaceImage(id, prompt, NEGATIVE_PROMPT) else Unsupported(UnsupportedError(id))
  {
    FirstCharMissing(id, "gemini");
    FirstCharMissing(id, "pollinations");
  }

  /** The three offered Hugging Face models are such ids. */
  lemma FluxSchnellId()
    ensures 'g' !in FLUX_SCHNELL && 'p' !in FLUX_SCHNELL && HuggingFaceFamily(FLUX_SCHNELL)
  {
    assert forall k :: 0 <= k < |FLUX_SCHNELL| ==> FLUX_SCHNELL[k] != 'g' && FLUX_SCHNELL[k] != 'p';
    assert forall k :: 0 <= k < 17 ==> FLUX_SCHNELL[k] == "black-forest-labs"[k];
  }

  lemma SdxlId()
    ensures 'g' !in SDXL && 'p' !in SDXL && HuggingFaceFamily(SDXL)
  {
    assert forall k :: 0 <= k < |SDXL| ==> SDXL[k] != 'g' && SDXL[k] != 'p';
    assert forall k :: 0 <= k < 11 ==> SDXL[k] == "stabilityai"[k];
  }

  lemma StableDiffusionId()
    ensures 'g' !in SD_1_5 && 'p' !in SD_1_5 && HuggingFaceFamily(SD_1_5)
  {
    assert forall k :: 0 <= k < |SD_1_5| ==> SD_1_5[k] != 'g' && SD_1_5[k] != 'p';
    assert forall k :: 0 <= k < 8 ==> SD_1_5[k] == "runwayml"[k];
  }

  /** An id that starts with `pollinations` and has no `g` goes to Pollinations. */
  lemma PollinationsRouted(id: string, prompt: string, aspectRatio: string, hfToken: string, random: real, encode: string -> string)
    requires 'g' !in id && StartsWith(id, "pollinations") && 0.0 <= random < 1.0
    ensures RouteImage(prompt, id, aspectRatio, hfToken, random, encode).Pollinations?
  {
    FirstCharMissing(id, "gemini");
    StartsWithContains(id, "pollinations");
  }

  /** The two offered Pollinations models are such ids, and ask for the
      `flux` and the `turbo` model. */
  lemma PollinationsFluxId()
    ensures 'g' !in POLLINATIONS_FLUX && StartsWith(POLLINATIONS_FLUX, "pollinations")
    ensures PollinationsModel(POLLINATIONS_FLUX) == "flux"
  {
    assert forall k :: 0 <= k < |POLLINATIONS_FLUX| ==> POLLINATIONS_FLUX[k] != 'g';
    assert forall k :: 0 <= k < 12 ==> POLLINATIONS_FLUX[k] == "pollinations"[k];
    assert forall k :: 0 <= k < 4 ==> POLLINATIONS_FLUX[13 + k] == "flux"[k];
    OccursAtContains(POLLINATIONS_FLUX, "flux", 13);
  }

  lemma PollinationsTurboId()
    ensures 'g' !in POLLINATIONS_TURBO && StartsWith(POLLINATIONS_TURBO, "pollinations")
  {
    assert forall k :: 0 <= k < |POLLINATIONS_TURBO| ==> POLLINATIONS_TURBO[k] != 'g';
    assert forall k :: 0 <= k < 12 ==> POLLINATIONS_TURBO[k] == "pollinations"[k];
  }

  lemma PollinationsTurboModel()
    ensures PollinationsModel(POLLINATIONS_TURBO) == "turbo"
  {
    assert forall k :: 0 <= k < |POLLINATIONS_TURBO| ==> POLLINATIONS_TURBO[k] != 'f';
    FirstCharMissing(POLLINATIONS_TURBO, "flux");
  }
}
