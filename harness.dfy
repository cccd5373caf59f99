/**
 * The execution harness of the video page: it holds the frame size
 * (WIDTH, HEIGHT), the selected effect, the video frame texture, the active
 * pipeline, the render bind group and the canvas size, and rebuilds them when
 * the frame size or the effect changes. Each closure of the page is a method
 * of `Harness`, specified by a transition function on a `State` snapshot.
 * GPU objects are handles numbered in creation order; the output sizes of the
 * library's architectures are the parameter `outputSize`.
 */
module VideoUploading {
  import opened Wrappers
  import opened Pipeline
  import RestoreCNNUL
  import UpscaleCNN

  /** The effect names the GUI offers, in the order it lists them. */
  const EffectNames: seq<string> := [
    "Original",
    "Upscale-GANx3L", "Upscale-CNNx2UL", "Upscale-GANx4UUL",
    "Restore-CNNUL", "Restore-GANUUL",
    "CNN"
  ]

  /** The `switch` of `updatePipeline`: the architecture an effect name selects, if any. */
  function ArchOf(effect: string): (a: Option<Arch>)
    ensures a.Some? <==> effect in EffectNames
  {
    if effect == "Original" then Some(Original)
    else if effect == "Upscale-GANx3L" then Some(GANx3L)
    else if effect == "Upscale-CNNx2UL" then Some(CNNx2UL)
    else if effect == "Upscale-GANx4UUL" then Some(GANx4UUL)
    else if effect == "Restore-CNNUL" then Some(CNNUL)
    else if effect == "Restore-GANUUL" then Some(GANUUL)
    else if effect == "CNN" then Some(CNN)
    else None
  }

  /** Distinct recognised names select distinct architectures. */
  lemma ArchOfInjective(e1: string, e2: string)
    requires ArchOf(e1).Some? && ArchOf(e1) == ArchOf(e2)
    ensures e1 == e2
  {
  }

  /** A GPU texture: its creation handle and its size. */
  datatype Texture = Texture(handle: nat, size: Dims)

  /** A constructed pipeline object: its handle, its architecture and the texture it reads. */
  datatype Instance = Instance(handle: nat, arch: Arch, input: Texture)

  /** The render bind group: the pipeline whose output it samples, and the frame texture. */
  datatype BindGroup = BindGroup(handle: nat, output: Instance, frame: Texture)

  /** The output size of each library architecture over an input of a given size. */
  type OutputSizes = (Arch, Dims) -> Dims

  /**
   * The two architectures this model builds have the output size of their
   * last stage, the Overlay: CNN at twice the input, CNNUL at the input size.
   */
  ghost predicate ModelledSizes(outputSize: OutputSizes) {
    && (forall d :: outputSize(CNN, d) == UpscaleCNN.Wiring(d)[11].kind.size)
    && (forall d :: outputSize(CNNUL, d) == RestoreCNNUL.Wiring(d)[25].kind.size)
  }

  /**
   * A snapshot of the harness: the fields of `Harness`; `uploads` lists the
   * textures a video frame was copied into, `submitted` the pipeline whose
   * `pass` each submitted command buffer recorded.
   */
  datatype State = State(
    width: nat, height: nat, effect: string,
    texture: Texture, pipeline: Instance, bindGroup: BindGroup, canvas: Dims,
    nextHandle: nat, uploads: seq<Texture>, submitted: seq<Instance>)

  /** What holds between the callbacks of the page. */
  predicate ValidState(outputSize: OutputSizes, s: State) {
    && s.texture.size == Dims(s.width, s.height)
    && s.texture.handle < s.nextHandle
    && s.pipeline.handle < s.nextHandle
    && s.bindGroup.handle < s.nextHandle
    && s.bindGroup.output == s.pipeline
    && s.bindGroup.frame == s.texture
    && s.canvas == outputSize(s.pipeline.arch, s.pipeline.input.size)
    && (ArchOf(s.effect).Some? ==> s.pipeline.arch == ArchOf(s.effect).value && s.pipeline.input == s.texture)
  }

  /** `updatePipeline`: a recognised effect builds a new pipeline on the current texture; any other leaves it. */
  function UpdatedPipeline(s: State): (r: State)
    ensures ArchOf(s.effect).None? ==> r == s
    ensures ArchOf(s.effect).Some? ==> r == s.(pipeline := Instance(s.nextHandle, ArchOf(s.effect).value, s.texture), nextHandle := s.nextHandle + 1)
  {
    match ArchOf(s.effect)
    case Some(a) => s.(pipeline := Instance(s.nextHandle, a, s.texture), nextHandle := s.nextHandle + 1)
    case None => s
  }

  /** `updateRenderBindGroup`: a new bind group over the pipeline's output and the frame texture. */
  function UpdatedBindGroup(s: State): State {
    s.(bindGroup := BindGroup(s.nextHandle, s.pipeline, s.texture), nextHandle := s.nextHandle + 1)
  }

  /** `updateCanvasSize`: the canvas takes the size of the pipeline's output texture. */
  function UpdatedCanvasSize(outputSize: OutputSizes, s: State): State {
    s.(canvas := outputSize(s.pipeline.arch, s.pipeline.input.size))
  }

  /** `updateVideoFrameTexture` for a video reporting a frame of videoWidth x videoHeight. */
  function UpdatedFrameTexture(outputSize: OutputSizes, s: State, videoWidth: nat, videoHeight: nat): (r: State)
    requires ValidState(outputSize, s)
    ensures ValidState(outputSize, r)
    // an invalid frame is skipped with no change at all
    ensures videoWidth == 0 || videoHeight == 0 ==> r == s
    // a valid frame is uploaded into the (possibly new) frame texture, at the new size
    ensures videoWidth > 0 && videoHeight > 0 ==>
      && r.width == videoWidth && r.height == videoHeight
      && r.effect == s.effect && r.submitted == s.submitted
      && r.uploads == s.uploads + [r.texture]
    // a valid frame of the same size rebuilds nothing
    ensures videoWidth > 0 && videoHeight > 0 && videoWidth == s.width && videoHeight == s.height ==>
      r == s.(uploads := s.uploads + [s.texture])
    // a valid frame of a new size gets a new texture, and a recognised effect a new pipeline on it
    ensures videoWidth > 0 && videoHeight > 0 && (videoWidth != s.width || videoHeight != s.height) ==>
      && r.texture.handle >= s.nextHandle
      && r.bindGroup.handle >= s.nextHandle
      && (ArchOf(s.effect).Some? ==> r.pipeline.handle >= s.nextHandle && r.pipeline.input == r.texture)
      && (ArchOf(s.effect).None? ==> r.pipeline == s.pipeline)
  {
    if videoWidth == 0 || videoHeight == 0 then s
    else
      var s1 :=
        if videoWidth != s.width || videoHeight != s.height then
          var resized := s.(width := videoWidth, height := videoHeight,
                            texture := Texture(s.nextHandle, Dims(videoWidth, videoHeight)),
                            nextHandle := s.nextHandle + 1);
          UpdatedCanvasSize(outputSize, UpdatedBindGroup(UpdatedPipeline(resized)))
        else s;
      s1.(uploads := s1.uploads + [s1.texture])
  }

  /** `oneFrame`: nothing while the video plays; when paused, refresh the texture and submit one frame. */
  function AfterOneFrame(outputSize: OutputSizes, s: State, paused: bool, videoWidth: nat, videoHeight: nat): (r: State)
    requires ValidState(outputSize, s)
    ensures ValidState(outputSize, r)
    ensures !paused ==> r == s
    ensures paused ==> r.submitted == s.submitted + [r.pipeline]
  {
    if !paused then s
    else
      var s1 := UpdatedFrameTexture(outputSize, s, videoWidth, videoHeight);
      s1.(submitted := s1.submitted + [s1.pipeline])
  }

  /** `frame`: refresh the texture only while the video plays, and always submit one frame. */
  function AfterFrame(outputSize: OutputSizes, s: State, paused: bool, videoWidth: nat, videoHeight: nat): (r: State)
    requires ValidState(outputSize, s)
    ensures ValidState(outputSize, r)
    ensures paused ==> r == s.(submitted := s.submitted + [s.pipeline])
    ensures r.submitted == s.submitted + [r.pipeline]
  {
    var s1 := if !paused then UpdatedFrameTexture(outputSize, s, videoWidth, videoHeight) else s;
    s1.(submitted := s1.submitted + [s1.pipeline])
  }

  /** The effect controller's `onChange`: select the effect, rebuild, resize the canvas, and draw one frame. */
  function AfterEffectChange(outputSize: OutputSizes, s: State, effect: string, paused: bool,
                             videoWidth: nat, videoHeight: nat): (r: State)
    requires ValidState(outputSize, s)
    ensures ValidState(outputSize, r)
    ensures r.effect == effect
    // an unrecognised name keeps the previous pipeline
    ensures ArchOf(effect).None? ==> r.pipeline == s.pipeline
    // a recognised one builds a new pipeline of its architecture
    ensures ArchOf(effect).Some? ==> r.pipeline.arch == ArchOf(effect).value && r.pipeline.handle >= s.nextHandle
  {
    var s1 := UpdatedCanvasSize(outputSize, UpdatedBindGroup(UpdatedPipeline(s.(effect := effect))));
    AfterOneFrame(outputSize, s1, paused, videoWidth, videoHeight)
  }

  /** With "CNN" selected the canvas is twice the frame size; with "Restore-CNNUL" it is the frame size. */
  lemma CanvasOfModelledEffects(outputSize: OutputSizes, s: State)
    requires ModelledSizes(outputSize) && ValidState(outputSize, s)
    ensures s.effect == "CNN" ==> s.canvas == Dims(2 * s.width, 2 * s.height)
    ensures s.effect == "Restore-CNNUL" ==> s.canvas == Dims(s.width, s.height)
  {
    var size := Dims(s.width, s.height);
    if s.effect == "CNN" {
      UpscaleCNN.OutputDoublesInput(size);
    }
    if s.effect == "Restore-CNNUL" {
      RestoreCNNUL.TailInputs(size);
    }
  }

  /** The state `init` sets up for a video whose first frame is videoWidth x videoHeight. */
  function Initial(outputSize: OutputSizes, videoWidth: nat, videoHeight: nat): (r: State)
    ensures ValidState(outputSize, r)
    ensures r.effect == "Original" && r.pipeline.arch == Original
    ensures r.texture.size == Dims(videoWidth, videoHeight) && r.pipeline.input == r.texture
    ensures r.uploads == [] && r.submitted == []
  {
    var texture := Texture(0, Dims(videoWidth, videoHeight));
    var pipeline := Instance(1, Original, texture);
    State(videoWidth, videoHeight, "Original", texture, pipeline, BindGroup(2, pipeline, texture),
          outputSize(Original, texture.size), 3, [], [])
  }

  /** Repeated frames of an unchanged size keep the pipeline and the texture: no rebuild. */
  lemma {:induction false} SteadyFramesKeepPipeline(outputSize: OutputSizes, s: State, n: nat, videoWidth: nat, videoHeight: nat)
    requires ValidState(outputSize, s)
    requires videoWidth == s.width && videoHeight == s.height
    ensures var r := Frames(outputSize, s, n, videoWidth, videoHeight);
      && ValidState(outputSize, r)
      && r.pipeline == s.pipeline && r.texture == s.texture && r.bindGroup == s.bindGroup
      && r.width == s.width && r.height == s.height
      && |r.submitted| == |s.submitted| + n
  {
    if n > 0 {
      SteadyFramesKeepPipeline(outputSize, s, n - 1, videoWidth, videoHeight);
    }
  }

  /** n playing frames of the same reported size, one after the other. */
  function Frames(outputSize: OutputSizes, s: State, n: nat, videoWidth: nat, videoHeight: nat): (r: State)
    requires ValidState(outputSize, s)
    ensures ValidState(outputSize, r)
  {
    if n == 0 then s
    else AfterFrame(outputSize, Frames(outputSize, s, n - 1, videoWidth, videoHeight), false, videoWidth, videoHeight)
  }

  class Harness {
    const outputSize: OutputSizes
    var width: nat
    var height: nat
    var effect: string
    var texture: Texture
    var pipeline: Instance
    var bindGroup: BindGroup
    var canvas: Dims
    var nextHandle: nat
    var uploads: seq<Texture>
    var submitted: seq<Instance>

    function Snapshot(): State
      reads this
    {
      State(width, height, effect, texture, pipeline, bindGroup, canvas, nextHandle, uploads, submitted)
    }

    ghost predicate Valid()
      reads this
    {
      ModelledSizes(outputSize) && ValidState(outputSize, Snapshot())
    }

    /** `init` up to the first frame: the frame texture, the "Original" pipeline, the canvas size and the bind group. */
    constructor (outputSizes: OutputSizes, videoWidth: nat, videoHeight: nat)
      requires ModelledSizes(outputSizes)
      ensures outputSize == outputSizes
      ensures Snapshot() == Initial(outputSizes, videoWidth, videoHeight)
      ensures Valid()
    {
      outputSize := outputSizes;
      width, height := videoWidth, videoHeight;
      nextHandle := 0;
      texture := Texture(0, Dims(videoWidth, videoHeight));
      effect := "Original";
      // stand-ins until updatePipeline and updateRenderBindGroup assign them
      pipeline := Instance(0, Original, texture);
      bindGroup := BindGroup(0, pipeline, texture);
      canvas := Dims(0, 0);
      uploads, submitted := [], [];
      new;
      nextHandle := 1;
      UpdatePipeline();
      UpdateCanvasSize();
      UpdateRenderBindGroup();
    }

    method UpdatePipeline()
      modifies this`pipeline, this`nextHandle
      ensures Snapshot() == UpdatedPipeline(old(Snapshot()))
    {
      match ArchOf(effect)
      case Some(a) =>
        pipeline := Instance(nextHandle, a, texture);
        nextHandle := nextHandle + 1;
      case None =>
    }

    method UpdateRenderBindGroup()
      modifies this`bindGroup, this`nextHandle
      ensures Snapshot() == UpdatedBindGroup(old(Snapshot()))
    {
      bindGroup := BindGroup(nextHandle, pipeline, texture);
      nextHandle := nextHandle + 1;
    }

    method UpdateCanvasSize()
      modifies this`canvas
      ensures Snapshot() == UpdatedCanvasSize(outputSize, old(Snapshot()))
    {
      canvas := outputSize(pipeline.arch, pipeline.input.size);
    }

    method UpdateVideoFrameTexture(videoWidth: nat, videoHeight: nat)
      requires Valid()
      modifies this
      ensures Snapshot() == UpdatedFrameTexture(outputSize, old(Snapshot()), videoWidth, videoHeight)
      ensures Valid()
    {
      if videoWidth == 0 || videoHeight == 0 {
        return;
      }
      ghost var s := Snapshot();
      if videoWidth != width || videoHeight != height {
        width, height := videoWidth, videoHeight;
        texture := Texture(nextHandle, Dims(width, height));
        nextHandle := nextHandle + 1;
        ghost var resized := Snapshot();
        assert resized == s.(width := videoWidth, height := videoHeight,
                             texture := Texture(s.nextHandle, Dims(videoWidth, videoHeight)),
                             nextHandle := s.nextHandle + 1);
        UpdatePipeline();
        UpdateRenderBindGroup();
        UpdateCanvasSize();
        assert Snapshot() == UpdatedCanvasSize(outputSize, UpdatedBindGroup(UpdatedPipeline(resized)));
      }
      ghost var s1 := Snapshot();
      uploads := uploads + [texture];
      assert Snapshot() == s1.(uploads := s1.uploads + [s1.texture]);
    }

    method OneFrame(paused: bool, videoWidth: nat, videoHeight: nat)
      requires Valid()
      modifies this
      ensures Snapshot() == AfterOneFrame(outputSize, old(Snapshot()), paused, videoWidth, videoHeight)
      ensures Valid()
    {
      if !paused {
        return;
      }
      UpdateVideoFrameTexture(videoWidth, videoHeight);
      submitted := submitted + [pipeline];
    }

    method Frame(paused: bool, videoWidth: nat, videoHeight: nat)
      requires Valid()
      modifies this
      ensures Snapshot() == AfterFrame(outputSize, old(Snapshot()), paused, videoWidth, videoHeight)
      ensures Valid()
    {
      if !paused {
        UpdateVideoFrameTexture(videoWidth, videoHeight);
      }
      submitted := submitted + [pipeline];
    }

    /** The effect controller's `onChange`, after the GUI stored the chosen name in the settings. */
    method SelectEffect(name: string, paused: bool, videoWidth: nat, videoHeight: nat)
      requires Valid()
      modifies this
      ensures Snapshot() == AfterEffectChange(outputSize, old(Snapshot()), name, paused, videoWidth, videoHeight)
      ensures Valid()
      ensures name == "CNN" ==> canvas == Dims(2 * width, 2 * height)
      ensures name == "Restore-CNNUL" ==> canvas == Dims(width, height)
    {
      effect := name;
      UpdatePipeline();
      UpdateRenderBindGroup();
      UpdateCanvasSize();
      OneFrame(paused, videoWidth, videoHeight);
      CanvasOfModelledEffects(outputSize, Snapshot());
    }
  }
}
