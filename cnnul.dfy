/**
 * The CNNUL restoration architecture: three head convolutions on the input,
 * seven blocks of three convolutions each reading the previous block's three
 * outputs, an output convolution reading the outputs of blocks 3 to 7, and an
 * Overlay that blends the result with the input at the input's size.
 */
module RestoreCNNUL {
  import opened Wrappers
  import opened Pipeline

  /** The stage at position k of a CNNUL pipeline over an input of the given size. */
  function StageAt(inputSize: Dims, k: nat): Stage
    requires k < 26
  {
    if k < 3 then Stage(Conv2d(Layer(k)), [Input])
    else if k < 24 then Stage(Conv2d(Layer(k)), Outputs(3 * (k / 3 - 1), 3))
    else if k == 24 then Stage(Conv2d(OutputLayer), Outputs(9, 15))
    else Stage(Overlay(inputSize), [Input, Out(24)])
  }

  /** The whole CNNUL graph. */
  function Wiring(inputSize: Dims): (w: seq<Stage>)
    ensures |w| == 26
    ensures forall k :: 0 <= k < 26 ==> w[k] == StageAt(inputSize, k)
  {
    seq(26, (k: nat) requires k < 26 => StageAt(inputSize, k))
  }

  /** Every CNNUL stage reads only the input or strictly earlier stages. */
  lemma WiringTopological(inputSize: Dims)
    ensures Topological(Wiring(inputSize))
  {
    var w := Wiring(inputSize);
    forall i, j | 0 <= i < |w| && 0 <= j < |w[i].inputs|
      ensures ReadsBefore(w[i].inputs[j], i)
    {
      if 3 <= i < 24 {
        assert w[i].inputs[j] == Out(3 * (i / 3 - 1) + j);
      }
    }
  }

  /** The head convolutions read only the input; block i (1 to 7) reads the three outputs of block i - 1. */
  lemma BlockInputs(inputSize: Dims, i: nat, j: nat)
    requires i <= 7 && j < 3
    ensures i == 0 ==> Wiring(inputSize)[j].inputs == [Input]
    ensures i > 0 ==> Wiring(inputSize)[3 * i + j].inputs == [Out(3 * i - 3), Out(3 * i - 2), Out(3 * i - 1)]
  {
    assert (3 * i + j) / 3 == i;
  }

  /** The output convolution reads the 15 outputs of stages 9 to 23; the Overlay reads the input and its result at the input's size. */
  lemma TailInputs(inputSize: Dims)
    ensures Wiring(inputSize)[24].inputs == Outputs(9, 15)
    ensures |Outputs(9, 15)| == 15 && Outputs(9, 15)[0] == Out(9) && Outputs(9, 15)[14] == Out(23)
    ensures Wiring(inputSize)[25] == Stage(Overlay(inputSize), [Input, Out(24)])
  {
  }

  class CNNUL {
    var pipelines: seq<Stage>
    ghost const inputSize: Dims

    ghost predicate Valid()
      reads this
    {
      pipelines == Wiring(inputSize)
    }

    /** The constructor, for an input texture of the given size. */
    constructor (inputTextureSize: Dims)
      ensures inputSize == inputTextureSize
      ensures Valid()
    {
      inputSize := inputTextureSize;
      pipelines := [];
      new;
      for i := 0 to 3
        invariant |pipelines| == i
        invariant forall k :: 0 <= k < i ==> pipelines[k] == StageAt(inputSize, k)
      {
        pipelines := pipelines + [Stage(Conv2d(Layer(i)), [Input])];
      }

      var outputTextures: seq<TexRef> := [];
      for i := 1 to 8
        invariant |pipelines| == 3 * i
        invariant forall k :: 0 <= k < 3 * i ==> pipelines[k] == StageAt(inputSize, k)
      {
        outputTextures := [];
        outputTextures := FillOutputTextures(outputTextures, (i - 1) * 3, 3);
        for j := 0 to 3
          invariant outputTextures == Outputs(3 * (i - 1), 3)
          invariant |pipelines| == 3 * i + j
          invariant forall k :: 0 <= k < 3 * i + j ==> pipelines[k] == StageAt(inputSize, k)
        {
          assert (i * 3 + j) / 3 == i;
          pipelines := pipelines + [Stage(Conv2d(Layer(i * 3 + j)), outputTextures)];
        }
      }

      outputTextures := [];
      outputTextures := FillOutputTextures(outputTextures, 9, 15);
      pipelines := pipelines + [Stage(Conv2d(OutputLayer), outputTextures)];
      pipelines := pipelines + [Stage(Overlay(inputTextureSize), [Input, Out(|pipelines| - 1)])];
      assert forall k :: 0 <= k < 26 ==> pipelines[k] == Wiring(inputSize)[k];
    }

    /** Appends the output textures of stages from .. from + count - 1 to the given list. */
    method FillOutputTextures(outputTextures: seq<TexRef>, from: nat, count: nat) returns (filled: seq<TexRef>)
      requires from + count <= |pipelines|
      ensures filled == outputTextures + Outputs(from, count)
    {
      filled := outputTextures;
      for i := from to from + count
        invariant filled == outputTextures + Outputs(from, i - from)
      {
        OutputsSnoc(from, i - from);
        filled := filled + [Out(i)];
      }
    }

    /** CNNUL has no tunable parameter: every call fails. */
    method UpdateParam<V>(param: string, value: V) returns (r: Outcome<ParamError>)
      ensures r == Fail(UnsupportedParam("CNNUL has no param"))
    {
      r := Fail(UnsupportedParam("CNNUL has no param"));
    }

    /** The last stage's output: that of the Overlay, sized like the input. */
    function GetOutputTexture(): (t: TexRef)
      reads this
      requires Valid()
      ensures t == Out(25)
      ensures pipelines[25].kind == Overlay(inputSize)
    {
      Out(|pipelines| - 1)
    }

    /** Records every stage's pass, stages 0 to 25 in order. */
    method Pass(encoder: Encoder)
      modifies encoder
      ensures encoder.commands == old(encoder.commands) + pipelines
    {
      for i := 0 to |pipelines|
        invariant encoder.commands == old(encoder.commands) + pipelines[..i]
      {
        encoder.Record(pipelines[i]);
      }
    }
  }
}
