/**
 * The image generator front door: a configured model id starting with
 * "fal-ai/" (in any case) sends the request to fal.ai; any other id is an
 * Azure OpenAI DALL-E deployment, which takes a pixel size instead of an
 * aspect ratio.
 */
module ImageGeneratorService {
  import opened Text
  import opened Docs
  import FalAiService

  /** Where an image request goes and what it carries. */
  datatype ImageCall =
    | FalCall(modelId: string, args: FalAiService.FalArgs)
    | DalleCall(modelId: string, prompt: string, size: string, quality: string, style: string)

  /** `IMAGE_GENERATION_MODEL.strip() or AZURE_OPENAI_IMAGE_DEPLOYMENT`. */
  function ModelId(configured: string, deployment: string): (r: string)
    ensures !IsBlank(configured) ==> r == Strip(configured)
    ensures IsBlank(configured) ==> r == deployment
  {
    OrText(Strip(configured), deployment)
  }

  /** The size for an already trimmed aspect ratio. */
  function SizeFor(normalized: string): string
  {
    if normalized == "1:1" || normalized == "1x1" then "1024x1024"
    else if normalized == "9:16" || normalized == "portrait" then "1024x1792"
    else if normalized == "16:9" || normalized == "landscape" then "1792x1024"
    else if normalized == "4:5" then "1024x1792"
    else "1024x1024"
  }

  /** `_aspect_ratio_to_dalle_size`: the DALL-E size for an aspect ratio. */
  function DalleSize(aspect: string): (r: string)
    ensures r == "1024x1024" || r == "1024x1792" || r == "1792x1024"
    ensures r == "1792x1024" <==> Strip(aspect) == "16:9" || Strip(aspect) == "landscape"
    ensures r == "1024x1792" <==> Strip(aspect) == "9:16" || Strip(aspect) == "portrait" || Strip(aspect) == "4:5"
  {
    // `(aspect_ratio or "1:1").strip()`; "1:1" has no whitespace to strip.
    if aspect == [] then SizeFor("1:1") else SizeFor(Strip(aspect))
  }

  /** Surrounding whitespace never changes the size. */
  lemma DalleSizeTrimmed(aspect: string)
    ensures DalleSize(aspect) == DalleSize(Strip(aspect))
  {
    var t := Strip(aspect);
    if t != [] {
      StripStripped(t);
    }
  }

  /** `generate`: the call made for the configured model. */
  function Generate(s: FalAiService.Settings, deployment: string, prompt: string, aspect: string,
                    outputFormat: string, resolution: string): (r: ImageCall)
    ensures var id := ModelId(s.imageGenerationModel, deployment);
      r.modelId == id && (r.FalCall? <==> StartsWith(Lower(id), "fal-ai/"))
    ensures r.FalCall? ==> r.args == FalAiService.ImageArgs(Str(prompt), Str(aspect), Str(outputFormat), Str(resolution))
    ensures r.DalleCall? ==> r.prompt == prompt && r.size == DalleSize(aspect)
    ensures r.DalleCall? ==> r.quality == "standard" && r.style == "vivid"
  {
    var id := ModelId(s.imageGenerationModel, deployment);
    if StartsWith(Lower(id), "fal-ai/") then
      assert id != [];
      var call := FalAiService.ImageRequest(s, prompt, aspect, outputFormat, resolution, id);
      FalCall(call.0, call.1)
    else
      DalleCall(id, prompt, DalleSize(aspect), "standard", "vivid")
  }
}
