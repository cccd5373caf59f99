/**
 * The stage abstraction shared by every kernel wrapper, composite architecture
 * and preset: a stage records which textures it reads and what kind of GPU work
 * it performs. Texture handles are abstract: the output texture of the stage at
 * position k of a pipeline is `Out(k)`, the pipeline's own input is `Input`.
 */
module Pipeline {

  /** Width and height of a texture, in pixels. */
  datatype Dims = Dims(width: nat, height: nat)

  /** A texture reference: the pipeline's input texture, or the output of stage k. */
  datatype TexRef = Input | Out(k: nat)

  /** The named architectures of the catalog (their internals are not part of this model). */
  datatype Arch =
    | Original
    | CNNSoftVL | CNNSoftM | CNNM | CNNUL | GANUUL
    | CNNx2VL | CNNx2M | DenoiseCNNx2VL | CNNx2UL | GANx3L | GANx4UUL
    | CNN

  /** Which compiled shader a convolution runs: an entry of the architecture's shader table, or its output shader. */
  datatype Shader = Layer(index: nat) | OutputLayer

  datatype Kind =
    | ClampHighlights
    | Downscale(target: Dims)
    | Conv2d(shader: Shader)
    | DepthToSpace
    | Overlay(size: Dims)
    | Composite(arch: Arch)

  /** One node of the dataflow graph: its kind and its ordered input list. */
  datatype Stage = Stage(kind: Kind, inputs: seq<TexRef>)

  /** The error `updateParam` throws on stages without tunable parameters. */
  datatype ParamError = UnsupportedParam(message: string)

  /** A reference that only names the input or an output of a stage before position i. */
  predicate ReadsBefore(r: TexRef, i: nat) {
    r.Out? ==> r.k < i
  }

  /** Construction order is a topological order: no stage reads a texture not yet produced. */
  predicate Topological(stages: seq<Stage>) {
    forall i, j :: 0 <= i < |stages| && 0 <= j < |stages[i].inputs| ==> ReadsBefore(stages[i].inputs[j], i)
  }

  /** The output textures of stages from, from + 1, ..., from + count - 1, in that order. */
  function Outputs(from: nat, count: nat): seq<TexRef> {
    seq(count, (j: nat) => Out(from + j))
  }

  /** One more output at the end of a run of outputs. */
  lemma OutputsSnoc(from: nat, count: nat)
    ensures Outputs(from, count + 1) == Outputs(from, count) + [Out(from + count)]
  {
  }

  /** The texture a chained stage at position i reads: the input for the first, else its predecessor's output. */
  function Prev(i: nat): TexRef {
    if i == 0 then Input else Out(i - 1)
  }

  /** A linear chain of stages of the given kinds, each reading only the previous stage's output. */
  function Chain(kinds: seq<Kind>): seq<Stage> {
    seq(|kinds|, i requires 0 <= i < |kinds| => Stage(kinds[i], [Prev(i)]))
  }

  /** Appending one stage that reads the last output extends the chain by one kind. */
  lemma ChainSnoc(kinds: seq<Kind>, k: Kind)
    ensures Chain(kinds + [k]) == Chain(kinds) + [Stage(k, [Prev(|kinds|)])]
  {
    assert forall i :: 0 <= i < |kinds| ==> (kinds + [k])[i] == kinds[i];
  }

  /** Every chain is built in topological order and has one stage per kind. */
  lemma ChainTopological(kinds: seq<Kind>)
    ensures |Chain(kinds)| == |kinds|
    ensures Topological(Chain(kinds))
  {
  }

  /**
   * The command encoder. Each recorded entry is the stage whose `pass` was
   * called; the GPU commands it emits are not modelled.
   */
  class Encoder {
    var commands: seq<Stage>

    constructor ()
      ensures commands == []
    {
      commands := [];
    }

    /** `stage.pass(encoder)` for one stage. */
    method Record(stage: Stage)
      modifies this
      ensures commands == old(commands) + [stage]
    {
      commands := commands + [stage];
    }
  }
}
