/**
 * The ModeBB preset: ClampHighlights, restore CNNSoftVL, an optional x2
 * upscale CNNx2VL, at most one Downscale, restore CNNSoftM, and an optional
 * second x2 upscale CNNx2M, chained one after the other.
 */
module PresetModeBB {
  import opened Wrappers
  import opened Pipeline
  import opened Selector

  /** The stage kinds ModeBB appends for a decision, in append order. */
  function Kinds(d: Decision): seq<Kind> {
    [ClampHighlights, Composite(CNNSoftVL)]
    + (if d.upscale1 then [Composite(CNNx2VL)] else [])
    + DownscaleKinds(d.downscales)
    + [Composite(CNNSoftM)]
    + (if d.upscale2 then [Composite(CNNx2M)] else [])
  }

  /** The stages the ModeBB constructor builds for (native, target). */
  function Plan(native: Dims, target: Dims): seq<Stage> {
    Chain(Kinds(Decide(native, target)))
  }

  /**
   * The decision table: the four shapes a ModeBB pipeline can take, by the
   * band the target falls in relative to the native size.
   */
  lemma DecisionTable(native: Dims, target: Dims)
    ensures var ks := Kinds(Decide(native, target));
      && (!Exceeds(target, native) ==>
            ks == [ClampHighlights, Composite(CNNSoftVL), Composite(CNNSoftM)])
      && (InHalfBand(native, target) ==>
            ks == [ClampHighlights, Composite(CNNSoftVL), Composite(CNNx2VL), Downscale(target), Composite(CNNSoftM)])
      && (InQuarterBand(native, target) ==>
            ks == [ClampHighlights, Composite(CNNSoftVL), Composite(CNNx2VL), Downscale(CeilHalf(target)),
                   Composite(CNNSoftM), Composite(CNNx2M)])
      && (Exceeds(target, native) && !InHalfBand(native, target) && !InQuarterBand(native, target) ==>
            ks == [ClampHighlights, Composite(CNNSoftVL), Composite(CNNx2VL), Composite(CNNSoftM)]
                  + (if Exceeds(target, Double(native)) then [Composite(CNNx2M)] else []))
  {
    var d := Decide(native, target);
    if InQuarterBand(native, target) {
      QuarterBandReachesTarget(native, target);
    }
    if d.downscales != [] {
      assert DownscaleKinds(d.downscales) == [Downscale(d.downscales[0])];
    }
  }

  /**
   * The shape every ModeBB pipeline has: a chain of three to six stages, the
   * first ClampHighlights reading the input and the second CNNSoftVL reading
   * the first's output.
   */
  lemma PlanShape(native: Dims, target: Dims)
    ensures var p := Plan(native, target);
      && 3 <= |p| <= 6
      && p[0] == Stage(ClampHighlights, [Input])
      && p[1] == Stage(Composite(CNNSoftVL), [Out(0)])
      && (p[2].kind == Composite(CNNx2VL) <==> Exceeds(target, native))
      && Topological(p)
  {
    DecisionTable(native, target);
    ChainTopological(Kinds(Decide(native, target)));
  }

  /** The two boundary scenarios: target equal to native, and native 640x360 with target 1920x1080. */
  lemma Scenarios()
    ensures Plan(Dims(640, 360), Dims(640, 360))
         == Chain([ClampHighlights, Composite(CNNSoftVL), Composite(CNNSoftM)])
    ensures Plan(Dims(640, 360), Dims(1920, 1080))
         == Chain([ClampHighlights, Composite(CNNSoftVL), Composite(CNNx2VL), Downscale(Dims(960, 540)),
                   Composite(CNNSoftM), Composite(CNNx2M)])
  {
    SameSizeChoosesNothing(Dims(640, 360));
    ThreeTimesScenario();
    assert DownscaleKinds([Dims(960, 540)]) == [Downscale(Dims(960, 540))];
  }

  class ModeBB {
    var pipelines: seq<Stage>
    var outputTexture: TexRef
    ghost const native: Dims
    ghost const target: Dims

    ghost predicate Valid()
      reads this
    {
      pipelines == Plan(native, target) && outputTexture == Out(|pipelines| - 1)
    }

    /** The constructor: tracks the current size and texture and appends the chosen stages. */
    constructor (nativeDimensions: Dims, targetDimensions: Dims)
      ensures native == nativeDimensions && target == targetDimensions
      ensures Valid()
    {
      native, target := nativeDimensions, targetDimensions;
      pipelines := [];
      new;
      ghost var d := Decide(nativeDimensions, targetDimensions);
      ghost var kinds: seq<Kind> := [];
      var curWidth, curHeight := nativeDimensions.width, nativeDimensions.height;
      var currentTexture := Input;

      // Clamp Highlights
      currentTexture := Push(ClampHighlights, currentTexture, kinds);
      kinds := kinds + [ClampHighlights];

      // Restore
      currentTexture := Push(Composite(CNNSoftVL), currentTexture, kinds);
      kinds := kinds + [Composite(CNNSoftVL)];

      // Upscale 1
      if 5 * targetDimensions.width > 6 * curWidth && 5 * targetDimensions.height > 6 * curHeight {
        currentTexture := Push(Composite(CNNx2VL), currentTexture, kinds);
        kinds := kinds + [Composite(CNNx2VL)];
        curWidth, curHeight := curWidth * 2, curHeight * 2;
      }
      ghost var head := kinds;
      assert head == [ClampHighlights, Composite(CNNSoftVL)] + (if d.upscale1 then [Composite(CNNx2VL)] else []);

      // Auto Downscale x2
      if InHalfBand(nativeDimensions, targetDimensions) {
        currentTexture := Push(Downscale(targetDimensions), currentTexture, kinds);
        kinds := kinds + [Downscale(targetDimensions)];
        curWidth, curHeight := targetDimensions.width, targetDimensions.height;
      }

      // Auto Downscale x4
      if InQuarterBand(nativeDimensions, targetDimensions) {
        var half := Dims((targetDimensions.width + 1) / 2, (targetDimensions.height + 1) / 2);
        currentTexture := Push(Downscale(half), currentTexture, kinds);
        kinds := kinds + [Downscale(half)];
        curWidth, curHeight := half.width, half.height;
      }
      assert kinds == head + DownscaleKinds(d.downscales);
      assert Dims(curWidth, curHeight) == d.tracked;

      // Restore
      currentTexture := Push(Composite(CNNSoftM), currentTexture, kinds);
      kinds := kinds + [Composite(CNNSoftM)];

      // Upscale 2
      if 5 * targetDimensions.width > 6 * curWidth && 5 * targetDimensions.height > 6 * curHeight {
        currentTexture := Push(Composite(CNNx2M), currentTexture, kinds);
        kinds := kinds + [Composite(CNNx2M)];
        curWidth, curHeight := curWidth * 2, curHeight * 2;
      }
      assert kinds == Kinds(d);

      outputTexture := currentTexture;
    }

    /** `this.pipelines.push(stage)` for a stage reading the current texture; returns the new current texture. */
    method Push(kind: Kind, currentTexture: TexRef, ghost kinds: seq<Kind>) returns (output: TexRef)
      requires pipelines == Chain(kinds) && currentTexture == Prev(|kinds|)
      modifies this`pipelines
      ensures pipelines == Chain(kinds + [kind]) && output == Out(|kinds|)
    {
      ChainSnoc(kinds, kind);
      pipelines := pipelines + [Stage(kind, [currentTexture])];
      output := Out(|pipelines| - 1);
    }

    /** Presets carry no tunable parameter: every call fails. */
    method UpdateParam<V>(param: string, value: V) returns (r: Outcome<ParamError>)
      ensures r == Fail(UnsupportedParam("Preset has no param"))
    {
      r := Fail(UnsupportedParam("Preset has no param"));
    }

    /** Records every appended stage's pass, in append order. */
    method Pass(encoder: Encoder)
      modifies encoder
      ensures encoder.commands == old(encoder.commands) + pipelines
    {
      for i := 0 to |pipelines|
        invariant encoder.commands == old(encoder.commands) + pipelines[..i]
      {
        encoder.Record(pipelines[i]);
      }
    }

    /** The output of the last appended stage. */
    function GetOutputTexture(): (t: TexRef)
      reads this
      requires Valid()
      ensures t == Out(|pipelines| - 1)
      ensures pipelines[|pipelines| - 1].kind == if Decide(native, target).upscale2 then Composite(CNNx2M) else Composite(CNNSoftM)
    {
      outputTexture
    }
  }
}
