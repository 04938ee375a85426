/**
 * The argument shapes the pipeline sends to the fal.ai provider. A video
 * request is shaped by the model family: Sora models take a duration snapped
 * to 4, 8 or 12 seconds and a 9:16 or 16:9 frame; Kling models take a
 * duration clamped to 3..15 seconds and also accept 1:1; any other model
 * receives the requested duration and frame unchanged. An image request
 * always asks for one image with safety tolerance "4".
 *
 * The same shaping appears in the generation worker and in both post
 * generator tool sets; every copy uses the members defined here.
 */
module FalAiService {
  import opened Text
  import opened Docs

  /** The model ids taken from the settings. */
  datatype Settings = Settings(imageGenerationModel: string, videoGenerationModel: string)

  /** The provider arguments, one variant per argument shape. */
  datatype FalArgs =
    | SoraArgs(prompt: Value, duration: int, aspectRatio: Value)
    | KlingArgs(prompt: Value, duration: int, aspectRatio: Value)
    | PlainVideoArgs(prompt: Value, duration: int, aspectRatio: Value)
    | ImageArgs(prompt: Value, aspectRatio: Value, outputFormat: Value, resolution: Value)

  /** `min([d for d in [4, 8, 12] if d >= requested], default=12)`. */
  function SoraDuration(requested: int): (r: int)
    ensures r == 4 || r == 8 || r == 12
    ensures requested <= 12 ==> requested <= r
    ensures r > 4 ==> requested > 4
    ensures r > 8 ==> requested > 8
    ensures requested > 8 ==> r == 12
  {
    if requested <= 4 then 4 else if requested <= 8 then 8 else 12
  }

  /** `max(3, min(requested, 15))`. */
  function KlingDuration(requested: int): (r: int)
    ensures 3 <= r <= 15
    ensures 3 <= requested <= 15 ==> r == requested
    ensures requested < 3 ==> r == 3
    ensures requested > 15 ==> r == 15
  {
    var capped := if requested < 15 then requested else 15;
    if capped > 3 then capped else 3
  }

  /** Sora accepts a 9:16 or a 16:9 frame; anything else becomes 9:16. */
  function SoraAspect(a: Value): (r: Value)
    ensures r == Str("9:16") || r == Str("16:9")
    ensures r == a <==> a == Str("9:16") || a == Str("16:9")
  {
    if a == Str("9:16") || a == Str("16:9") then a else Str("9:16")
  }

  /** Kling also accepts 1:1; anything else becomes 9:16. */
  function KlingAspect(a: Value): (r: Value)
    ensures r == Str("9:16") || r == Str("16:9") || r == Str("1:1")
    ensures r == a <==> a == Str("9:16") || a == Str("16:9") || a == Str("1:1")
  {
    if a == Str("9:16") || a == Str("16:9") || a == Str("1:1") then a else Str("9:16")
  }

  /**
   * The video argument shape for a model whose (already normalised) id is
   * `modelKey`: Sora when it mentions "sora", else Kling when it mentions
   * "kling", else the plain shape.
   */
  function ShapeVideo(modelKey: string, prompt: Value, duration: int, aspect: Value): (r: FalArgs)
    ensures r.prompt == prompt && !r.ImageArgs?
    ensures r.SoraArgs? <==> Contains(modelKey, "sora")
    ensures r.KlingArgs? <==> !Contains(modelKey, "sora") && Contains(modelKey, "kling")
    ensures r.SoraArgs? ==> r.duration == 4 || r.duration == 8 || r.duration == 12
    ensures r.SoraArgs? ==> (duration <= 12 ==> duration <= r.duration)
    ensures r.SoraArgs? ==> r.aspectRatio == Str("9:16") || r.aspectRatio == Str("16:9")
    ensures r.KlingArgs? ==> 3 <= r.duration <= 15 && (3 <= duration <= 15 ==> r.duration == duration)
    ensures r.KlingArgs? ==> r.aspectRatio == Str("9:16") || r.aspectRatio == Str("16:9") || r.aspectRatio == Str("1:1")
    ensures r.PlainVideoArgs? ==> r.duration == duration && r.aspectRatio == aspect
  {
    if Contains(modelKey, "sora") then SoraArgs(prompt, SoraDuration(duration), SoraAspect(aspect))
    else if Contains(modelKey, "kling") then KlingArgs(prompt, KlingDuration(duration), KlingAspect(aspect))
    else PlainVideoArgs(prompt, duration, aspect)
  }

  /** The JSON dictionary passed as `arguments=`; durations travel as decimal text. */
  function Arguments(a: FalArgs): Doc
  {
    match a
    case SoraArgs(p, d, ar) =>
      map["prompt" := p, "duration" := Str(IntText(d)), "aspect_ratio" := ar,
          "resolution" := Str("720p"), "delete_video" := Bool(false)]
    case KlingArgs(p, d, ar) =>
      map["prompt" := p, "duration" := Str(IntText(d)), "aspect_ratio" := ar,
          "negative_prompt" := Str("blur, distort, and low quality"), "generate_audio" := Bool(true)]
    case PlainVideoArgs(p, d, ar) =>
      map["prompt" := p, "duration" := Str(IntText(d)), "aspect_ratio" := ar]
    case ImageArgs(p, ar, f, res) =>
      map["prompt" := p, "num_images" := Int(1), "aspect_ratio" := ar,
          "output_format" := f, "resolution" := res, "safety_tolerance" := Str("4")]
  }

  /**
   * The dictionary keeps every argument recoverable: the prompt and frame are
   * stored as given, the duration text reads back as the duration, and the
   * fixed provider options are present for each shape.
   */
  lemma ArgumentsFaithful(a: FalArgs)
    ensures "prompt" in Arguments(a) && Arguments(a)["prompt"] == a.prompt
    ensures "aspect_ratio" in Arguments(a) && Arguments(a)["aspect_ratio"] == a.aspectRatio
    ensures !a.ImageArgs? ==> "duration" in Arguments(a) && Arguments(a)["duration"] == Str(IntText(a.duration))
    ensures !a.ImageArgs? && a.duration >= 0 ==> ParseDigits(IntText(a.duration)) == a.duration
    ensures a.SoraArgs? ==> Arguments(a).Keys == {"prompt", "duration", "aspect_ratio", "resolution", "delete_video"}
    ensures a.KlingArgs? ==> Arguments(a).Keys == {"prompt", "duration", "aspect_ratio", "negative_prompt", "generate_audio"}
    ensures a.PlainVideoArgs? ==> Arguments(a).Keys == {"prompt", "duration", "aspect_ratio"}
    ensures a.ImageArgs? ==> "num_images" in Arguments(a) && Arguments(a)["num_images"] == Int(1)
    ensures a.ImageArgs? ==> "safety_tolerance" in Arguments(a) && Arguments(a)["safety_tolerance"] == Str("4")
  {
    if !a.ImageArgs? && a.duration >= 0 {
      NatTextRoundTrip(a.duration);
    }
  }

  /** `(model_id or VIDEO_GENERATION_MODEL).strip() or VIDEO_GENERATION_MODEL`; "" stands for None. */
  function SelectVideoModel(modelId: string, fallback: string): (r: string)
    ensures !IsBlank(modelId) ==> r == Strip(modelId)
    ensures modelId != [] && IsBlank(modelId) ==> r == fallback
    ensures modelId == [] ==> r == fallback || r == Strip(fallback)
    ensures r == [] ==> fallback == []
  {
    OrText(Strip(OrText(modelId, fallback)), fallback)
  }

  /**
   * `_build_video_arguments`: the selected model id (not lower-cased) and
   * the argument shape, detected on the lower-cased id.
   */
  function BuildVideoArguments(s: Settings, prompt: string, duration: int, aspect: string, modelId: string): (r: (string, FalArgs))
    ensures r.0 == SelectVideoModel(modelId, s.videoGenerationModel)
    ensures r.1.SoraArgs? <==> Contains(Lower(r.0), "sora")
    ensures r.1.KlingArgs? <==> !Contains(Lower(r.0), "sora") && Contains(Lower(r.0), "kling")
    ensures r.1.prompt == Str(prompt)
  {
    var selected := SelectVideoModel(modelId, s.videoGenerationModel);
    (selected, ShapeVideo(Lower(selected), Str(prompt), duration, Str(aspect)))
  }

  /** Upper- and lower-case spellings of the same model id get the same arguments. */
  lemma DetectionIgnoresCase(s: Settings, prompt: string, duration: int, aspect: string, m1: string, m2: string)
    requires Lower(m1) == Lower(m2)
    ensures BuildVideoArguments(s, prompt, duration, aspect, m1).1 == BuildVideoArguments(s, prompt, duration, aspect, m2).1
  {
    var f := s.videoGenerationModel;
    LowerUpperKeepSpace();
    assert IsBlank(m1) <==> IsBlank(m2) by {
      if IsBlank(m1) {
        forall i | 0 <= i < |m2| ensures IsSpace(m2[i]) { assert Lower(m1)[i] == Lower(m2)[i]; }
      }
      if IsBlank(m2) {
        forall i | 0 <= i < |m1| ensures IsSpace(m1[i]) { assert Lower(m1)[i] == Lower(m2)[i]; }
      }
    }
    if !IsBlank(m1) {
      LowerStripAgree(m1, m2);
    }
  }

  /** `model_id or IMAGE_GENERATION_MODEL`. */
  function SelectImageModel(s: Settings, modelId: string): (r: string)
    ensures modelId != [] ==> r == modelId
    ensures modelId == [] ==> r == s.imageGenerationModel
  {
    OrText(modelId, s.imageGenerationModel)
  }

  /** `submit_image_generation`: the model and the image arguments it submits. */
  function ImageRequest(s: Settings, prompt: string, aspect: string, outputFormat: string, resolution: string, modelId: string): (r: (string, FalArgs))
    ensures r.0 == SelectImageModel(s, modelId)
    ensures r.1 == ImageArgs(Str(prompt), Str(aspect), Str(outputFormat), Str(resolution))
  {
    (SelectImageModel(s, modelId), ImageArgs(Str(prompt), Str(aspect), Str(outputFormat), Str(resolution)))
  }

  /** The `{provider, mode, model_id, request_id}` summary either submit returns. */
  function SubmitSummary(modelId: string, requestId: string): (d: Doc)
    ensures d.Keys == {"provider", "mode", "model_id", "request_id"}
    ensures d["model_id"] == Str(modelId) && d["request_id"] == Str(requestId)
  {
    map["provider" := Str("fal"), "mode" := Str("async"), "model_id" := Str(modelId), "request_id" := Str(requestId)]
  }
}
