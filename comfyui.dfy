/** The pure parts of the ComfyUI client in src/image_generation/comfyui.py: the base URL
    taken from `COMFYUI_BASE_URL`, URL joining, the txt2img workflow graph, the check of
    the `prompt_id` in the queue response, the choice of the result image in a history
    entry, and the guard of `download_image`. The environment variable is a parameter
    (None when unset); HTTP requests and the polling clock are not modelled. */
module ComfyUi {
  import opened Wrappers
  import opened Text
  import opened PackSchema

  ////////////////////////////////////////////////////////////////////////////
  // The base URL.

  /** `s.rstrip(c)`: `s` without its trailing run of `c`. */
  function RStrip(s: string, c: char): (r: string)
    ensures |r| <= |s| && r == s[..|r|]
    ensures r == [] || r[|r| - 1] != c
    ensures forall k :: |r| <= k < |s| ==> s[k] == c
  {
    if s == [] || s[|s| - 1] != c then s else RStrip(s[..|s| - 1], c)
  }

  /** `_base_url()` as written: None when the variable is unset or empty, else the value
      without trailing slashes, which is empty when the value is all slashes. */
  function BaseUrlAsWritten(env: Option<string>): (r: Option<string>)
    ensures r.None? <==> env.None? || env.value == []
    ensures r.Some? ==> r.value == RStrip(env.value, '/')
  {
    if env.None? || env.value == [] then None else Some(RStrip(env.value, '/'))
  }

  /** `is_configured()` as written. */
  predicate IsConfiguredAsWritten(env: Option<string>) {
    BaseUrlAsWritten(env).Some?
  }

  /** `_base_url()` as evidently intended: a value of slashes only is no base URL either. */
  function BaseUrl(env: Option<string>): (r: Option<string>)
    ensures r.None? <==> env.None? || RStrip(env.value, '/') == []
    ensures r.Some? ==> r.value == RStrip(env.value, '/') && r.value != []
  {
    if env.None? then None
    else
      var b := RStrip(env.value, '/');
      if b == [] then None else Some(b)
  }

  /** `is_configured()` as evidently intended. */
  predicate IsConfigured(env: Option<string>) {
    BaseUrl(env).Some?
  }

  const NotSet: string := "COMFYUI_BASE_URL is not set"

  /** `_url(path)` given the base: the error `RuntimeError` carries when the base is None or
      empty, else base + path with a `/` put in front of a path that lacks one. */
  function UrlFrom(base: Option<string>, path: string): (r: Result<string, string>)
  {
    if base.None? || base.value == [] then Err(NotSet)
    else if |path| > 0 && path[0] == '/' then Ok(base.value + path)
    else Ok(base.value + "/" + path)
  }

  /** `_url(path)`. */
  function Url(env: Option<string>, path: string): Result<string, string> {
    UrlFrom(BaseUrl(env), path)
  }

  /** `_url` gives the same answer whichever `_base_url` it uses: its own check already
      treats the empty base as unset. */
  lemma UrlEitherBase(env: Option<string>, path: string)
    ensures UrlFrom(BaseUrlAsWritten(env), path) == Url(env, path)
  {
  }

  /** The environment variable is read as configured exactly when `_url` can build URLs. */
  lemma ConfiguredIffUrl(env: Option<string>, path: string)
    ensures IsConfigured(env) <==> Url(env, path).Ok?
    ensures !IsConfigured(env) ==> Url(env, path) == Err(NotSet)
  {
  }

  /** With a base, the URL is the base without trailing slashes, one `/`, and the path
      without its leading `/` if it had one. */
  lemma UrlShape(env: Option<string>, path: string)
    requires IsConfigured(env)
    ensures var base := BaseUrl(env).value;
      var rest := if |path| > 0 && path[0] == '/' then path[1..] else path;
      && Url(env, path) == Ok(base + "/" + rest)
      && base[|base| - 1] != '/'
      && base == env.value[..|base|]
  {
    var base := BaseUrl(env).value;
    if |path| > 0 && path[0] == '/' {
      assert path == "/" + path[1..];
      assert base + path == base + "/" + path[1..];
    }
  }

  /** As written, a variable holding only slashes counts as configured and yet every URL
      fails with "COMFYUI_BASE_URL is not set". */
  lemma SlashOnlyBaseAsWritten(path: string)
    ensures IsConfiguredAsWritten(Some("/"))
    ensures UrlFrom(BaseUrlAsWritten(Some("/")), path) == Err(NotSet)
    ensures !IsConfigured(Some("/"))
  {
    assert RStrip("/", '/') == [];
  }

  ////////////////////////////////////////////////////////////////////////////
  // The workflow graph.

  /** A node input: a literal, or `[node, slot]`, a link to an output of another node. */
  datatype Input = StrValue(s: string) | IntValue(i: int) | FloatValue(r: real) | Link(node: string, slot: nat)

  datatype Node = Node(classType: string, inputs: map<string, Input>)

  type Workflow = map<string, Node>

  /** Every link names a node of the workflow. */
  predicate LinksResolve(w: Workflow) {
    forall id, key :: id in w && key in w[id].inputs && w[id].inputs[key].Link? ==> w[id].inputs[key].node in w
  }

  /** The nodes of the txt2img graph, one function each. */
  function CheckpointNode(checkpoint: string): Node {
    Node("CheckpointLoaderSimple", map["ckpt_name" := StrValue(checkpoint)])
  }

  function LatentNode(width: int, height: int): Node {
    Node("EmptyLatentImage", map["width" := IntValue(width), "height" := IntValue(height), "batch_size" := IntValue(1)])
  }

  function PromptNode(text: string): Node {
    Node("CLIPTextEncode", map["text" := StrValue(text), "clip" := Link("4", 1)])
  }

  function SamplerNode(steps: int, cfg: real, seed: int, samplerName: string, scheduler: string): Node {
    Node("KSampler", map[
      "seed" := IntValue(seed), "steps" := IntValue(steps), "cfg" := FloatValue(cfg),
      "sampler_name" := StrValue(samplerName), "scheduler" := StrValue(scheduler), "denoise" := FloatValue(1.0),
      "model" := Link("4", 0), "positive" := Link("6", 0), "negative" := Link("7", 0), "latent_image" := Link("5", 0)])
  }

  function DecodeNode(): Node {
    Node("VAEDecode", map["samples" := Link("3", 0), "vae" := Link("4", 2)])
  }

  function SaveNode(filenamePrefix: string): Node {
    Node("SaveImage", map["filename_prefix" := StrValue(filenamePrefix), "images" := Link("8", 0)])
  }

  /** The links of a node's inputs. */
  function LinksOf(n: Node): set<string> {
    set key | key in n.inputs && n.inputs[key].Link? :: n.inputs[key].node
  }

  /** `build_txt2img_workflow(...)`: `cfg` is a float, and `sampler_name` and `scheduler`
      default to `euler` and `normal`. */
  function Txt2Img(positive: string, negative: string, checkpoint: string, width: int, height: int, steps: int,
                   cfg: real, seed: int, filenamePrefix: string, samplerName: string := "euler", scheduler: string := "normal"): (w: Workflow)
  {
    map[
      "4" := CheckpointNode(checkpoint),
      "5" := LatentNode(width, height),
      "6" := PromptNode(positive),
      "7" := PromptNode(negative),
      "3" := SamplerNode(steps, cfg, seed, samplerName, scheduler),
      "8" := DecodeNode(),
      "9" := SaveNode(filenamePrefix)]
  }

  /** The graph has exactly the nodes `3` to `9`, and every link names one of them. */
  lemma Txt2ImgCloses(positive: string, negative: string, checkpoint: string, width: int, height: int, steps: int,
                      cfg: real, seed: int, filenamePrefix: string, samplerName: string, scheduler: string)
    ensures var w := Txt2Img(positive, negative, checkpoint, width, height, steps, cfg, seed, filenamePrefix, samplerName, scheduler);
      w.Keys == {"3", "4", "5", "6", "7", "8", "9"} && LinksResolve(w)
  {
    var w := Txt2Img(positive, negative, checkpoint, width, height, steps, cfg, seed, filenamePrefix, samplerName, scheduler);
    SamplerLinks(steps, cfg, seed, samplerName, scheduler);
    forall id, key | id in w && key in w[id].inputs && w[id].inputs[key].Link? ensures w[id].inputs[key].node in w {
      assert w[id].inputs[key].node in LinksOf(w[id]);
    }
  }

  lemma SamplerLinks(steps: int, cfg: real, seed: int, samplerName: string, scheduler: string)
    ensures LinksOf(SamplerNode(steps, cfg, seed, samplerName, scheduler)) <= {"4", "5", "6", "7"}
  {
  }

  /** The arguments reach their inputs unchanged; the batch holds one image and the
      sampler denoises fully. */
  lemma Txt2ImgArguments(positive: string, negative: string, checkpoint: string, width: int, height: int, steps: int,
                         cfg: real, seed: int, filenamePrefix: string, samplerName: string, scheduler: string)
    ensures var w := Txt2Img(positive, negative, checkpoint, width, height, steps, cfg, seed, filenamePrefix, samplerName, scheduler);
      && w["4"].inputs["ckpt_name"] == StrValue(checkpoint)
      && w["5"].inputs["width"] == IntValue(width) && w["5"].inputs["height"] == IntValue(height)
      && w["5"].inputs["batch_size"] == IntValue(1)
      && w["6"].inputs["text"] == StrValue(positive) && w["7"].inputs["text"] == StrValue(negative)
      && w["9"].inputs["filename_prefix"] == StrValue(filenamePrefix)
  {
  }

  /** The sampler gets the seed, steps, guidance, sampler and scheduler as given, and
      denoises fully. */
  lemma SamplerArguments(steps: int, cfg: real, seed: int, samplerName: string, scheduler: string)
    ensures var n := SamplerNode(steps, cfg, seed, samplerName, scheduler);
      && n.inputs["seed"] == IntValue(seed) && n.inputs["steps"] == IntValue(steps) && n.inputs["cfg"] == FloatValue(cfg)
      && n.inputs["sampler_name"] == StrValue(samplerName) && n.inputs["scheduler"] == StrValue(scheduler)
      && n.inputs["denoise"] == FloatValue(1.0)
  {
  }

  /** The sampler takes the checkpoint's model (slot 0), both prompts and the empty latent. */
  lemma SamplerWiring(steps: int, cfg: real, seed: int, samplerName: string, scheduler: string)
    ensures var n := SamplerNode(steps, cfg, seed, samplerName, scheduler);
      && n.inputs["model"] == Link("4", 0) && n.inputs["positive"] == Link("6", 0)
      && n.inputs["negative"] == Link("7", 0) && n.inputs["latent_image"] == Link("5", 0)
  {
  }

  /** The nodes those links name: the checkpoint loader at `4`, whose CLIP (slot 1) feeds both
      prompt encoders and whose VAE (slot 2) feeds the decoder; the decoder reads the
      sampler and the saver reads the decoder; without the optional arguments the sampler
      is `euler` with the `normal` scheduler. */
  lemma Txt2ImgWiring(positive: string, negative: string, checkpoint: string, width: int, height: int, steps: int,
                      cfg: real, seed: int, filenamePrefix: string)
    ensures var w := Txt2Img(positive, negative, checkpoint, width, height, steps, cfg, seed, filenamePrefix);
      && w["3"] == SamplerNode(steps, cfg, seed, "euler", "normal")
      && w["4"].classType == "CheckpointLoaderSimple" && w["5"].classType == "EmptyLatentImage"
      && w["6"] == PromptNode(positive) && w["7"] == PromptNode(negative)
      && PromptNode(positive).inputs["clip"] == Link("4", 1)
      && w["8"].classType == "VAEDecode" && w["8"].inputs["samples"] == Link("3", 0) && w["8"].inputs["vae"] == Link("4", 2)
      && w["9"].classType == "SaveImage" && w["9"].inputs["images"] == Link("8", 0)
  {
  }

  ////////////////////////////////////////////////////////////////////////////
  // The queue response.

  /** `str(v)` of a JSON scalar; `floatRepr` is Python's shortest round-trip text of a
      finite float (`str(30.0) == "30.0"`), which is not modelled. A prompt id that is a
      list or an object is not modelled either. */
  function ScalarText(v: Scalar, floatRepr: real -> string): string {
    match v
    case Missing => "None"
    case Bool(b) => if b then "True" else "False"
    case Int(i) => IntToString(i)
    case Float(x) => floatRepr(x)
    case NaN => "nan"
    case Infinity(negative) => if negative then "-inf" else "inf"
    case Str(s) => s
  }

  /** The check in `queue_prompt`: `promptId` is `data.get("prompt_id")` and `shown` is
      how the response `data` prints. The `Missing` case of `ScalarText` is never reached
      here, since a missing id is falsy. */
  function PromptId(promptId: Scalar, shown: string, floatRepr: real -> string): (r: Result<string, string>)
    ensures r.Err? <==> !promptId.Truthy()
    ensures r.Err? ==> r.error == "Unexpected ComfyUI response: " + shown
  {
    if !promptId.Truthy() then Err("Unexpected ComfyUI response: " + shown) else Ok(ScalarText(promptId, floatRepr))
  }

  /** The id handed back is the one the server sent: a string unchanged, a number as the
      numeral that reads back as that number; the text is never empty, as Python's text
      of a float never is. */
  lemma PromptIdKept(promptId: Scalar, shown: string, floatRepr: real -> string)
    requires forall x :: floatRepr(x) != []
    ensures promptId.Str? && promptId.s != [] ==> PromptId(promptId, shown, floatRepr) == Ok(promptId.s)
    ensures promptId.Int? && promptId.i != 0 ==>
      PromptId(promptId, shown, floatRepr).Ok? && ParseInt(PromptId(promptId, shown, floatRepr).value) == Some(promptId.i)
    ensures promptId.Float? && promptId.x != 0.0 ==> PromptId(promptId, shown, floatRepr) == Ok(floatRepr(promptId.x))
    ensures PromptId(promptId, shown, floatRepr).Ok? ==> PromptId(promptId, shown, floatRepr).value != []
  {
    if promptId.Int? && promptId.i != 0 {
      ParseIntToString(promptId.i);
    }
  }

  ////////////////////////////////////////////////////////////////////////////
  // The result image.

  /** `ComfyUIImageRef`. */
  datatype ImageRef = ImageRef(filename: string, subfolder: string, kind: string)

  /** One value of a history entry's `outputs`: not an object, or an object whose
      `images` key holds a list of image objects (None when absent or null). */
  datatype Output = NotObject | Object(images: Option<seq<map<string, string>>>)

  /** `not images` fails for this output: it is an object with a non-empty image list. */
  predicate HasImages(o: Output) {
    o.Object? && o.images.Some? && o.images.value != []
  }

  /** `d.get(key, default)`. */
  function Get(d: map<string, string>, key: string, default: string): string {
    if key in d then d[key] else default
  }

  /** The reference built from `images[0]`. */
  function RefOf(img: map<string, string>): ImageRef {
    ImageRef(Get(img, "filename", ""), Get(img, "subfolder", ""), Get(img, "type", "output"))
  }

  /** The image the loop over `outputs.items()` returns, in the object's order, if any. */
  function SelectImage(outputs: seq<(string, Output)>): (r: Option<ImageRef>)
    decreases |outputs|
  {
    if outputs == [] then None
    else if HasImages(outputs[0].1) then Some(RefOf(outputs[0].1.images.value[0]))
    else SelectImage(outputs[1..])
  }

  /** The image chosen is the first image of the first output that has images, and there is
      one exactly when some output has images. */
  lemma {:induction false} SelectImageIsFirst(outputs: seq<(string, Output)>)
    ensures SelectImage(outputs).None? <==> forall k :: 0 <= k < |outputs| ==> !HasImages(outputs[k].1)
    ensures SelectImage(outputs).Some? ==> exists k :: (0 <= k < |outputs| && HasImages(outputs[k].1)
      && (forall j :: 0 <= j < k ==> !HasImages(outputs[j].1))
      && SelectImage(outputs).value == RefOf(outputs[k].1.images.value[0]))
    decreases |outputs|
  {
    if outputs != [] && !HasImages(outputs[0].1) {
      SelectImageIsFirst(outputs[1..]);
      if SelectImage(outputs).Some? {
        var k :| 0 <= k < |outputs[1..]| && HasImages(outputs[1..][k].1)
          && (forall j :: 0 <= j < k ==> !HasImages(outputs[1..][j].1))
          && SelectImage(outputs[1..]).value == RefOf(outputs[1..][k].1.images.value[0]);
        assert forall j :: 0 <= j < k + 1 ==> !HasImages(outputs[j].1) by {
          forall j | 0 <= j < k + 1 ensures !HasImages(outputs[j].1) {
            if j > 0 {
              assert outputs[j] == outputs[1..][j - 1];
            }
          }
        }
        assert outputs[k + 1] == outputs[1..][k];
      }
      forall k | 0 <= k < |outputs| && k > 0 ensures outputs[k] == outputs[1..][k - 1] {
      }
    }
  }

  /** Missing keys of the image object take their defaults. */
  lemma RefDefaults(img: map<string, string>)
    ensures "filename" !in img ==> RefOf(img).filename == ""
    ensures "subfolder" !in img ==> RefOf(img).subfolder == ""
    ensures "type" !in img ==> RefOf(img).kind == "output"
    ensures "filename" in img ==> RefOf(img).filename == img["filename"]
  {
  }

  /** The loop over `outputs.items()` inside `wait_for_result_image`. */
  method FindImage(outputs: seq<(string, Output)>) returns (r: Option<ImageRef>)
    ensures r == SelectImage(outputs)
  {
    var i := 0;
    while i < |outputs|
      invariant 0 <= i <= |outputs|
      invariant SelectImage(outputs) == SelectImage(outputs[i..])
    {
      var out := outputs[i].1;
      var images := if out.Object? then out.images else None;
      assert outputs[i..][1..] == outputs[i + 1..];
      if images.None? || images.value == [] {
        i := i + 1;
        continue;
      }
      var img := images.value[0];
      return Some(ImageRef(Get(img, "filename", ""), Get(img, "subfolder", ""), Get(img, "type", "output")));
    }
    return None;
  }

  /** One poll of the history: `hist` is the decoded response (None for a 404 or an empty
      object) and the entry of the prompt holds its outputs (no `outputs` key reads as an
      empty object). */
  function PollOnce(hist: Option<map<string, seq<(string, Output)>>>, promptId: string): (r: Option<ImageRef>)
    ensures r.Some? ==> hist.Some? && promptId in hist.value && SelectImage(hist.value[promptId]) == r
  {
    if hist.Some? && promptId in hist.value then SelectImage(hist.value[promptId]) else None
  }

  ////////////////////////////////////////////////////////////////////////////
  // Downloading the image.

  const MissingFilename: string := "ComfyUI image ref missing filename"

  /** The GET request `download_image` sends: the `/view` URL and its query parameters. */
  datatype ViewRequest = ViewRequest(url: string, filename: string, subfolder: string, kind: string)

  /** `download_image` up to the request: the filename guard comes first, then `_url`. */
  function Download(env: Option<string>, ref: ImageRef): (r: Result<ViewRequest, string>)
  {
    if ref.filename == [] then Err(MissingFilename)
    else
      match Url(env, "/view")
      case Err(e) => Err(e)
      case Ok(u) => Ok(ViewRequest(u, ref.filename, ref.subfolder, ref.kind))
  }

  /** An empty filename is refused whatever the configuration, before any URL is built; a
      named image with a configured base gets the `/view` request with its own fields. */
  lemma DownloadGuard(env: Option<string>, ref: ImageRef)
    ensures ref.filename == [] ==> Download(env, ref) == Err(MissingFilename)
    ensures ref.filename != [] && !IsConfigured(env) ==> Download(env, ref) == Err(NotSet)
    ensures ref.filename != [] && IsConfigured(env) ==>
      Download(env, ref) == Ok(ViewRequest(BaseUrl(env).value + "/view", ref.filename, ref.subfolder, ref.kind))
  {
  }
}
