/**
 * The CNN x2 upscaling architecture: a chain of seven convolutions, three
 * convolutions that each read all seven chain outputs (skip connections), a
 * DepthToSpace over those three, and an Overlay at twice the input size.
 */
module UpscaleCNN {
  import opened Wrappers
  import opened Pipeline

  /** The stage at position k of a CNN pipeline over an input of the given size. */
  function StageAt(inputSize: Dims, k: nat): Stage
    requires k < 12
  {
    if k == 0 then Stage(Conv2d(Layer(0)), [Input])
    else if k < 7 then Stage(Conv2d(Layer(k)), [Out(k - 1)])
    else if k < 10 then Stage(Conv2d(Layer(k)), Outputs(0, 7))
    else if k == 10 then Stage(DepthToSpace, Outputs(7, 3))
    else Stage(Overlay(Dims(2 * inputSize.width, 2 * inputSize.height)), [Input, Out(10)])
  }

  /** The whole CNN graph. */
  function Wiring(inputSize: Dims): (w: seq<Stage>)
    ensures |w| == 12
    ensures forall k :: 0 <= k < 12 ==> w[k] == StageAt(inputSize, k)
  {
    seq(12, (k: nat) requires k < 12 => StageAt(inputSize, k))
  }

  /** Ten convolutions, one DepthToSpace and one Overlay, built in topological order. */
  lemma WiringShape(inputSize: Dims)
    ensures var w := Wiring(inputSize);
      && (forall k :: 0 <= k < 10 ==> w[k].kind.Conv2d?)
      && w[10].kind == DepthToSpace
      && w[11].kind.Overlay?
      && Topological(w)
  {
    var w := Wiring(inputSize);
    forall i, j | 0 <= i < |w| && 0 <= j < |w[i].inputs|
      ensures ReadsBefore(w[i].inputs[j], i)
    {
    }
  }

  /** The skip connections: stages 7 to 9 read stages 0 to 6, DepthToSpace reads 7 to 9, the Overlay reads the input and DepthToSpace. */
  lemma FanIn(inputSize: Dims)
    ensures var w := Wiring(inputSize);
      && w[0].inputs == [Input]
      && (forall k :: 1 <= k < 7 ==> w[k].inputs == [Out(k - 1)])
      && w[7].inputs == w[8].inputs == w[9].inputs == [Out(0), Out(1), Out(2), Out(3), Out(4), Out(5), Out(6)]
      && w[10].inputs == [Out(7), Out(8), Out(9)]
      && w[11].inputs == [Input, Out(10)]
  {
  }

  /** The Overlay's output is exactly twice the input size in each dimension. */
  lemma OutputDoublesInput(inputSize: Dims)
    ensures Wiring(inputSize)[11].kind.size.width == 2 * inputSize.width
    ensures Wiring(inputSize)[11].kind.size.height == 2 * inputSize.height
  {
  }

  /** The message `updateParam` throws as written: it names the constructor of the global object `self`. */
  function UpdateParamErrorAsWritten(globalConstructorName: string): ParamError {
    UnsupportedParam(globalConstructorName + " has no param")
  }

  /** In a browser page `self` is the window, so the message does not name CNN. */
  lemma AsWrittenMessageNamesTheWindow()
    ensures UpdateParamErrorAsWritten("Window") != UnsupportedParam("CNN has no param")
  {
    assert UpdateParamErrorAsWritten("Window").message[0] == 'W';
  }

  class CNN {
    var pipelines: seq<Stage>
    ghost const inputSize: Dims

    ghost predicate Valid()
      reads this
    {
      pipelines == Wiring(inputSize)
    }

    /** The constructor, for an input texture of the given size. */
    constructor (inputTextureSize: Dims)
      ensures inputSize == inputTextureSize
      ensures Valid()
    {
      inputSize := inputTextureSize;
      pipelines := [];
      new;
      BuildFeatureLayers();
      BuildHead(inputTextureSize);
      assert pipelines == Wiring(inputSize)[..12];
    }

    /** The first seven convolutions of the constructor, each reading the one before. */
    method BuildFeatureLayers()
      requires pipelines == []
      modifies this`pipelines
      ensures pipelines == Wiring(inputSize)[..7]
    {
      Push(Stage(Conv2d(Layer(0)), [Input]));
      var outputTextures1: seq<TexRef> := [];
      outputTextures1 := outputTextures1 + [Out(0)];

      Push(Stage(Conv2d(Layer(1)), outputTextures1));
      var outputTextures2: seq<TexRef> := [];
      outputTextures2 := outputTextures2 + [Out(1)];

      Push(Stage(Conv2d(Layer(2)), outputTextures2));
      var outputTextures3: seq<TexRef> := [];
      outputTextures3 := outputTextures3 + [Out(2)];

      Push(Stage(Conv2d(Layer(3)), outputTextures3));
      var outputTextures4: seq<TexRef> := [];
      outputTextures4 := outputTextures4 + [Out(3)];

      Push(Stage(Conv2d(Layer(4)), outputTextures4));
      var outputTextures5: seq<TexRef> := [];
      outputTextures5 := outputTextures5 + [Out(4)];

      Push(Stage(Conv2d(Layer(5)), outputTextures5));
      var outputTextures6: seq<TexRef> := [];
      outputTextures6 := outputTextures6 + [Out(5)];

      Push(Stage(Conv2d(Layer(6)), outputTextures6));
    }

    /** The last five stages of the constructor: three convolutions over all seven, the depth-to-space and the overlay. */
    method BuildHead(inputTextureSize: Dims)
      requires inputTextureSize == inputSize
      requires pipelines == Wiring(inputSize)[..7]
      modifies this`pipelines
      ensures pipelines == Wiring(inputSize)[..12]
    {
      var outputTextures7: seq<TexRef> := [];
      outputTextures7 := outputTextures7 + [Out(0)];
      outputTextures7 := outputTextures7 + [Out(1)];
      outputTextures7 := outputTextures7 + [Out(2)];
      outputTextures7 := outputTextures7 + [Out(3)];
      outputTextures7 := outputTextures7 + [Out(4)];
      outputTextures7 := outputTextures7 + [Out(5)];
      outputTextures7 := outputTextures7 + [Out(6)];
      assert outputTextures7 == Outputs(0, 7);

      Push(Stage(Conv2d(Layer(7)), outputTextures7));
      Push(Stage(Conv2d(Layer(8)), outputTextures7));
      Push(Stage(Conv2d(Layer(9)), outputTextures7));

      var finalOutputTextures: seq<TexRef> := [];
      finalOutputTextures := finalOutputTextures + [Out(7)];
      finalOutputTextures := finalOutputTextures + [Out(8)];
      finalOutputTextures := finalOutputTextures + [Out(9)];
      assert finalOutputTextures == Outputs(7, 3);

      Push(Stage(DepthToSpace, finalOutputTextures));

      Push(Stage(Overlay(Dims(2 * inputTextureSize.width, 2 * inputTextureSize.height)), [Input, Out(|pipelines| - 1)]));
    }

    /** `this.pipelines.push(stage)`, for the stage the graph has at the next position. */
    method Push(stage: Stage)
      requires |pipelines| < 12 && pipelines == Wiring(inputSize)[..|pipelines|]
      requires stage == StageAt(inputSize, |pipelines|)
      modifies this`pipelines
      ensures pipelines == old(pipelines) + [stage]
      ensures pipelines == Wiring(inputSize)[..|pipelines|]
    {
      ghost var w := Wiring(inputSize);
      assert w[..|pipelines| + 1] == w[..|pipelines|] + [w[|pipelines|]];
      pipelines := pipelines + [stage];
    }

    /** CNN has no tunable parameter: every call fails, with a message naming the class. */
    method UpdateParam<V>(param: string, value: V) returns (r: Outcome<ParamError>)
      ensures r == Fail(UnsupportedParam("CNN has no param"))
    {
      r := Fail(UnsupportedParam("CNN has no param"));
    }

    /** The last stage's output: that of the Overlay, at twice the input size. */
    function GetOutputTexture(): (t: TexRef)
      reads this
      requires Valid()
      ensures t == Out(11)
      ensures pipelines[11].kind == Overlay(Dims(2 * inputSize.width, 2 * inputSize.height))
    {
      Out(|pipelines| - 1)
    }

    /** Records every stage's pass, stages 0 to 11 in order. */
    method Pass(encoder: Encoder)
      modifies encoder
      ensures encoder.commands == old(encoder.commands) + pipelines
    {
      for i := 0 to |pipelines|
        invariant encoder.commands == old(encoder.commands) + pipelines[..i]
      {
        encoder.Record(pipelines[i]);
      }
    }
  }
}
