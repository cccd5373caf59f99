# NeVES pipeline assembly, in Dafny

NeVES (WebGPU neural-enhanced video streaming) builds its image processing
out of stages: kernel wrappers (ClampHighlights, Downscale, Conv2d,
DepthToSpace, Overlay) and composite architectures made of them. Each stage
reads a list of textures and produces one output texture. This project
models how those stages are chosen, ordered and wired, and proves facts
about the result. It does not model what the GPU computes.

- `Pipeline` (`pipeline.dfy`): the stage abstraction. A stage is its kind
  and its ordered input list. `TexRef` is `Input` (the pipeline's input
  texture) or `Out(k)` (the output of stage k). `Chain` is a linear chain
  of stages. `Topological` says every stage reads only earlier outputs.
  `Encoder` records the stages whose `pass` was called, in call order.
- `Selector` (`selector.dfy`): the threshold decision that the ModeBB
  and ModeCA presets both make from the native and target dimensions. The
  thresholds 1.2, 2.0, 2.4 and 4.0 are exact rationals.
- `PresetModeBB`, `PresetModeCA` (`mode_bb.dfy`, `mode_ca.dfy`): the preset
  classes. Each constructor tracks `curWidth`/`curHeight` the same way the
  source does. It is proved to build `Plan(native, target)`, the chain
  whose stage kinds the decision fixes.
- `RestoreCNNUL`, `UpscaleCNN` (`cnnul.dfy`, `cnn.dfy`): the two composite
  architectures. Each is a class whose constructor pushes onto `pipelines`.
  It is proved to build exactly the graph `Wiring(inputSize)`, and lemmas
  state that graph's input lists, order and Overlay size.
- `VideoUploading` (`harness.dfy`): the state machine of the video page.
  It holds the frame size, the effect, the frame texture, the pipeline, the
  bind group and the canvas size. Each closure (`updateVideoFrameTexture`,
  `updatePipeline`, `updateRenderBindGroup`, `updateCanvasSize`,
  `oneFrame`, `frame`, the effect controller's `onChange`) is a method of
  `Harness`. Each method is proved equal to a transition function on a
  `State` snapshot. `Initial` establishes `ValidState`, and
  `UpdatedFrameTexture`, `AfterOneFrame`, `AfterFrame` and
  `AfterEffectChange` preserve it. The three single-closure steps
  `UpdatedPipeline`, `UpdatedBindGroup` and `UpdatedCanvasSize` keep it only
  when composed in the order the source calls them.
  GPU objects are handles numbered in creation order. The video element's
  frame size and paused flag are parameters. The output size of each
  architecture is the parameter `outputSize`. For CNN and CNNUL,
  `ModelledSizes` requires it to be the size of the last stage, the Overlay,
  of the graphs `UpscaleCNN.Wiring` and `RestoreCNNUL.Wiring`. For every
  other architecture it is unconstrained, because their source is not part
  of this model.
- `Controls` (`canvas_controls.dfy`): the `formatTime` "m:ss" formatter,
  with a decimal read-back that specifies it. The `CanvasControls` class
  holds the play/pause, fullscreen-wrapper and teardown state.

## Model

| member | source | states |
|---|---|---|
| Selector.Decide | webgpu-neural/src/pipelines/presets/ModeBB/index.ts:27-114 | The first upscale is taken iff the target exceeds 1.2x native in both dimensions, and then the tracked size doubles. A Downscale to exactly the target happens iff 1.2n < t < 2.0n, and the tracked size becomes the target. A Downscale to ceil(t/2) happens iff 2.4n < t < 4.0n. At most one Downscale is appended, and only after the first upscale. The second upscale is taken iff the target exceeds 1.2x the tracked size, so it requires the first and is never taken in the 1.2-2.0 band. |
| Selector.CeilHalf | webgpu-neural/src/pipelines/presets/ModeBB/index.ts:86-87 | Math.ceil(x / 2) on whole pixels: 2h - 1 <= x <= 2h. |
| Selector.QuarterBandReachesTarget | webgpu-neural/src/pipelines/presets/ModeBB/index.ts:78-114 | In the 2.4-4.0 band the second upscale is always taken. The final size is 2*ceil(t/2): the target, or one pixel more in an odd dimension. |
| Selector.SameSizeChoosesNothing | webgpu-neural/src/pipelines/presets/ModeBB/index.ts:27-114 | When target == native, no upscale and no Downscale are chosen, and the tracked size stays native. |
| Selector.ThreeTimesScenario | webgpu-neural/src/pipelines/presets/ModeBB/index.ts:27-114 | 640x360 to 1920x1080 gives: upscale, Downscale to 960x540, upscale, ending at 1920x1080. |
| PresetModeBB.DecisionTable | webgpu-neural/src/pipelines/presets/ModeBB/index.ts:32-114 | The four stage-kind sequences ModeBB can build, one per band of target relative to native. |
| PresetModeBB.PlanShape | webgpu-neural/src/pipelines/presets/ModeBB/index.ts:33-114 | The plan has 3 to 6 stages. ClampHighlights reads the input, then CNNSoftVL reads its output. Stage 2 is CNNx2VL iff the first-upscale condition holds. The plan is topologically ordered. |
| PresetModeBB.Scenarios | webgpu-neural/src/pipelines/presets/ModeBB/index.ts:27-114 | target == native gives [Clamp, CNNSoftVL, CNNSoftM]. 640x360 to 1920x1080 gives [Clamp, CNNSoftVL, CNNx2VL, Downscale 960x540, CNNSoftM, CNNx2M]. |
| PresetModeBB.ModeBB.constructor | webgpu-neural/src/pipelines/presets/ModeBB/index.ts:21-117 | Tracks curWidth/curHeight and the current texture step by step. It builds exactly Plan(native, target), and outputTexture is the last stage's output. |
| PresetModeBB.ModeBB.UpdateParam | webgpu-neural/src/pipelines/presets/ModeBB/index.ts:119-121 | Always fails with "Preset has no param". |
| PresetModeBB.ModeBB.Pass | webgpu-neural/src/pipelines/presets/ModeBB/index.ts:123-127 | The encoder receives every stage's pass, in append order, and nothing else. |
| PresetModeBB.ModeBB.GetOutputTexture | webgpu-neural/src/pipelines/presets/ModeBB/index.ts:116-131 | The output of the last appended stage. That stage is CNNx2M if the second upscale was taken, else CNNSoftM. |
| PresetModeCA.DecisionTable | webgpu-neural/src/pipelines/presets/ModeCA/index.ts:32-107 | The four stage-kind sequences ModeCA can build, one per band of target relative to native. |
| PresetModeCA.PlanShape | webgpu-neural/src/pipelines/presets/ModeCA/index.ts:33-107 | The plan has 2 to 5 stages, and ClampHighlights reads the input. Stage 1 is DenoiseCNNx2VL when upscaling, else CNNM, so no restore comes before the first upscale. Exactly one CNNM appears, at RestoreIndex, with no Downscale at or after it. The plan is topologically ordered. |
| PresetModeCA.Scenarios | webgpu-neural/src/pipelines/presets/ModeCA/index.ts:27-107 | target == native gives [Clamp, CNNM]. 640x360 to 1920x1080 gives [Clamp, DenoiseCNNx2VL, Downscale 960x540, CNNM, CNNx2M]. |
| PresetModeCA.ModeCA.constructor | webgpu-neural/src/pipelines/presets/ModeCA/index.ts:21-110 | Tracks curWidth/curHeight and the current texture. It builds exactly Plan(native, target), a function of the two dimensions alone, and outputTexture is the last stage's output. |
| PresetModeCA.ModeCA.UpdateParam | webgpu-neural/src/pipelines/presets/ModeCA/index.ts:112-114 | Always fails with "Preset has no param". |
| PresetModeCA.ModeCA.Pass | webgpu-neural/src/pipelines/presets/ModeCA/index.ts:116-120 | The encoder receives every stage's pass, in append order. |
| PresetModeCA.ModeCA.GetOutputTexture | webgpu-neural/src/pipelines/presets/ModeCA/index.ts:109-124 | The output of the last appended stage: CNNx2M or CNNM. |
| RestoreCNNUL.Wiring | webgpu-neural/src/pipelines/restore/CNNUL/index.ts:66-101 | The CNNUL graph has exactly 26 stages, each the one StageAt gives. |
| RestoreCNNUL.WiringTopological | webgpu-neural/src/pipelines/restore/CNNUL/index.ts:66-101 | Every CNNUL stage reads only the input or strictly earlier stages. |
| RestoreCNNUL.BlockInputs | webgpu-neural/src/pipelines/restore/CNNUL/index.ts:66-87 | Stages 0-2 read [input]. For block i in 1..7, stages 3i..3i+2 read the outputs of 3(i-1)..3(i-1)+2, in order. |
| RestoreCNNUL.TailInputs | webgpu-neural/src/pipelines/restore/CNNUL/index.ts:89-101 | The output convolution reads the 15 outputs of stages 9..23. The Overlay reads [input, stage 24] at the input's size. |
| RestoreCNNUL.CNNUL.constructor | webgpu-neural/src/pipelines/restore/CNNUL/index.ts:52-102 | The nested loops, with the shared list cleared before each refill, build exactly Wiring(inputSize). |
| RestoreCNNUL.CNNUL.FillOutputTextures | webgpu-neural/src/pipelines/restore/CNNUL/index.ts:104-108 | Appends exactly count entries: the outputs of stages from..from+count-1, in order. |
| RestoreCNNUL.CNNUL.UpdateParam | webgpu-neural/src/pipelines/restore/CNNUL/index.ts:111-113 | Always fails with "CNNUL has no param". |
| RestoreCNNUL.CNNUL.GetOutputTexture | webgpu-neural/src/pipelines/restore/CNNUL/index.ts:115-117 | The last stage's output, Out(25). That stage is the Overlay at the input size. |
| RestoreCNNUL.CNNUL.Pass | webgpu-neural/src/pipelines/restore/CNNUL/index.ts:119-123 | The encoder receives stages 0..25 in order. |
| UpscaleCNN.Wiring | webgpu-neural/src/pipelines/upscale/CNN/index.ts:54-159 | The CNN graph has exactly 12 stages, each the one StageAt gives. |
| UpscaleCNN.WiringShape | webgpu-neural/src/pipelines/upscale/CNN/index.ts:54-159 | 10 Conv2d, then one DepthToSpace, then one Overlay, in topological order. |
| UpscaleCNN.FanIn | webgpu-neural/src/pipelines/upscale/CNN/index.ts:54-159 | Stage 0 reads [input], and stages 1..6 read their predecessor. Stages 7, 8 and 9 read outputs 0..6 in order. DepthToSpace reads 7, 8, 9. The Overlay reads [input, stage 10]. |
| UpscaleCNN.OutputDoublesInput | webgpu-neural/src/pipelines/upscale/CNN/index.ts:155-159 | The Overlay's output size is exactly (2w, 2h) of the input. |
| UpscaleCNN.UpdateParamErrorAsWritten | webgpu-neural/src/pipelines/upscale/CNN/index.ts:164-166 | The message as written is built from the constructor name of the global `self`. |
| UpscaleCNN.AsWrittenMessageNamesTheWindow | webgpu-neural/src/pipelines/upscale/CNN/index.ts:164-166 | In a page, the message as written is not "CNN has no param". |
| UpscaleCNN.CNN.constructor | webgpu-neural/src/pipelines/upscale/CNN/index.ts:37-160 | The straight-line pushes, with the outputTextures_k lists, build exactly Wiring(inputSize). |
| UpscaleCNN.CNN.UpdateParam | webgpu-neural/src/pipelines/upscale/CNN/index.ts:164-166 | Always fails, with the message naming the class: "CNN has no param". |
| UpscaleCNN.CNN.GetOutputTexture | webgpu-neural/src/pipelines/upscale/CNN/index.ts:168-170 | The last stage's output, Out(11). That stage is the Overlay at twice the input size. |
| UpscaleCNN.CNN.Pass | webgpu-neural/src/pipelines/upscale/CNN/index.ts:172-176 | The encoder receives stages 0..11 in order. |
| VideoUploading.ArchOf | src/components/videoUploading/main.ts:161-224 | A name selects an architecture iff it is one of the seven names the GUI offers. |
| VideoUploading.ArchOfInjective | src/components/videoUploading/main.ts:161-188 | Distinct recognised names select distinct architectures. |
| VideoUploading.UpdatedPipeline | src/components/videoUploading/main.ts:156-189 | A recognised effect gets a new pipeline of its architecture on the current texture. Any other name leaves the pipeline as it was. |
| VideoUploading.UpdatedFrameTexture | src/components/videoUploading/main.ts:101-133 | A zero-sized frame changes nothing. A same-sized frame only uploads into the current texture. A new size sets WIDTH/HEIGHT, makes a new texture, rebuilds the pipeline and bind group, and resizes the canvas. Every case preserves ValidState, which includes canvas = output size of the pipeline. |
| VideoUploading.AfterOneFrame | src/components/videoUploading/main.ts:380-409 | While the video plays nothing happens. When paused, the texture is refreshed and one pass of the pipeline is submitted. |
| VideoUploading.AfterFrame | src/components/videoUploading/main.ts:411-445 | The texture is refreshed only while playing. One submission of the pipeline always happens. |
| VideoUploading.AfterEffectChange | src/components/videoUploading/main.ts:367-374 | The effect is stored. A recognised effect builds a new pipeline of its architecture, and an unknown one keeps the old pipeline. The result satisfies ValidState. |
| VideoUploading.CanvasOfModelledEffects | src/components/videoUploading/main.ts:192-195 | With "CNN" selected the canvas is 2*WIDTH x 2*HEIGHT. With "Restore-CNNUL" it is WIDTH x HEIGHT. Both follow from the Overlay sizes proved for the two graphs. |
| VideoUploading.Initial | src/components/videoUploading/main.ts:85-365 | The first texture is at the video size. Then the "Original" pipeline reads it, the canvas takes its output size, and the bind group is created. |
| VideoUploading.SteadyFramesKeepPipeline | src/components/videoUploading/main.ts:411-445 | Any number of playing frames of unchanged size keep the pipeline, texture, bind group and size, and submit once per frame. |
| VideoUploading.Harness.constructor | src/components/videoUploading/main.ts:85-365 | Given output sizes that agree with the modelled CNN and CNNUL graphs (ModelledSizes), the harness starts in Initial(...). |
| VideoUploading.Harness.UpdatePipeline | src/components/videoUploading/main.ts:156-189 | The new state is UpdatedPipeline of the old. |
| VideoUploading.Harness.UpdateRenderBindGroup | src/components/videoUploading/main.ts:333-363 | A new bind group over the pipeline's output and the frame texture. |
| VideoUploading.Harness.UpdateCanvasSize | src/components/videoUploading/main.ts:192-200 | The canvas takes the output size of the pipeline. |
| VideoUploading.Harness.UpdateVideoFrameTexture | src/components/videoUploading/main.ts:101-133 | The new state is UpdatedFrameTexture of the old, and Valid is kept. |
| VideoUploading.Harness.OneFrame | src/components/videoUploading/main.ts:380-409 | The new state is AfterOneFrame of the old. |
| VideoUploading.Harness.Frame | src/components/videoUploading/main.ts:411-445 | The new state is AfterFrame of the old. |
| VideoUploading.Harness.SelectEffect | src/components/videoUploading/main.ts:367-374 | The new state is AfterEffectChange of the old. Selecting "CNN" leaves a canvas of twice the frame size, and selecting "Restore-CNNUL" one of the frame size. |
| Controls.Decimal | src/components/CanvasControls.ts:135 | JavaScript's rendering of a whole number: only digits, reads back to n, and no leading zero except "0". |
| Controls.FormatTime | src/components/CanvasControls.ts:132-136 | "m:ss": the minutes field reads back to floor(s/60). The seconds field is two digits reading back to s mod 60, which is below 60. It has a leading '0' iff that value is below 10. |
| Controls.FormatTimeInjective | src/components/CanvasControls.ts:132-136 | Different seconds give different texts. |
| Controls.FormatTimeExamples | src/components/CanvasControls.ts:132-136 | 0 to "0:00", 75 to "1:15", 605 to "10:05". |
| Controls.TimeText | src/components/CanvasControls.ts:138-142 | A missing duration shows as "0:00". |
| Controls.InitialTimeText | src/components/CanvasControls.ts:104-142 | The initial text "0:00 / 0:00" is what the display shows at time 0 with no duration. |
| Controls.CanvasControls.constructor | src/components/CanvasControls.ts:12-130 | The controls start playing, labelled 'Pause', with no wrapper, the listener registered and the time text "0:00 / 0:00". |
| Controls.CanvasControls.TogglePlayPause | src/components/CanvasControls.ts:36-45 | isPlaying flips. The label is 'Pause' iff playing, and a play or pause request that matches the new state is issued. |
| Controls.CanvasControls.OnFullscreenChange | src/components/CanvasControls.ts:55-90 | On entry a fresh wrapper is attached to the body and remembered. On exit the remembered wrapper, if any, is detached and forgotten. Other wrappers are untouched. |
| Controls.CanvasControls.UpdateTimeDisplay | src/components/CanvasControls.ts:138-142 | The text is TimeText(current, duration). |
| Controls.CanvasControls.Destroy | src/components/CanvasControls.ts:148-164 | isPlaying is false and the wrapper is detached and forgotten. The listener is removed and the container is gone. |

## Left out

- WebGPU: adapter and device setup, texture, bind-group and pipeline creation, command encoders, `queue.submit`, `copyExternalImageToTexture`. Textures, pipelines and bind groups are abstract handles. A frame upload is an entry in `uploads`, a submission an entry in `submitted`.
- The WGSL shaders and the internals of Conv2d, DepthToSpace, Downscale, ClampHighlights and Overlay. Conv2d and DepthToSpace output sizes are not claimed. Only the Overlay's explicit output size and the presets' size bookkeeping are modelled.
- The internals of the catalogue architectures the presets and the page instantiate (CNNSoftVL, CNNSoftM, CNNM, CNNx2VL, CNNx2M, DenoiseCNNx2VL, GANx3L, CNNx2UL, GANx4UUL, GANUUL, Original). Each is one `Composite` stage in a preset. In the page, their output sizes are the `outputSize` parameter.
- Dimensions are whole, non-negative pixel counts (`nat`). The source's widths and heights are JavaScript numbers, which could in principle be fractional or negative.
- VideoUploading.UpdatedPipeline: the `console.log('Invalid selection')` of the `default` branch, and the page's other console logging ("Found invalid frame", "Resolution updated"), are not modelled. An unknown effect only leaves the pipeline unchanged.
- Selector.Decide: compares exact rationals. JavaScript computes `1.2 * curWidth` in double precision, which can differ only when the target lies exactly on a threshold.
- RestoreCNNUL.CNNUL.constructor: the single `outputTextures` array is shared by reference among the Conv2d stages of a block and then cleared. Each stage's input list is modelled as the array's value when that stage was constructed. This assumes that Conv2d reads its input list only in its constructor. The Conv2d helper is not part of this model, so this is an assumption, not a proved fact. The aliasing itself is not modelled.
- Controls.FormatTime: works on whole, non-negative seconds. The floor of a fractional time, NaN and Infinity are not modelled. In `updateTimeDisplay`, a missing or NaN duration is `None`.
- dash.js streaming, `video.play`, `requestVideoFrameCallback` scheduling, the dat.gui folder wiring, the compare and split-ratio uniform buffers, and the canvas download. These are I/O and UI plumbing; the video's frame size and paused flag are parameters of the harness methods.
- `fitToCanvasSize`, canvas and control styles, the fullscreen request and the progress slider's input, timeupdate and loadedmetadata listeners in CanvasControls. These are DOM styling and event registration; Destroy only records that the listener and container are gone.
- src/components/SampleLayout.tsx (React layout) and webgpu-neural/src/pipelines/interfaces.ts (type declarations only; it gives the shape of `Stage` and the descriptors) are not part of this model.

## Findings

| source | as written | input that shows it | evidently intended | confidence | as-written member | corrected member |
|---|---|---|---|---|---|---|
| webgpu-neural/src/pipelines/upscale/CNN/index.ts:165 | `updateParam` builds its message from `self.constructor.name`, the constructor of the global object | any call to `updateParam` in a browser page: the message is "Window has no param" | "CNN has no param", naming the class as CNNUL does with `this.constructor.name` | not executed | UpscaleCNN.AsWrittenMessageNamesTheWindow | UpscaleCNN.CNN.UpdateParam |
