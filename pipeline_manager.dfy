/** The content-addressed pipeline registry: a map from the hash of a pipeline
    description to the owning copy of the first description seen with it. */
module PipelineManager {
  import opened Types
  import opened Hashing
  import opened PipelineInfo

  /** `GraphicsPipeline`: an opaque handle, the description's 64-bit hash. */
  datatype GraphicsPipeline = GraphicsPipeline(id: Word)

  /** The 20 fixed-size fields, in the order they are hashed as one tuple. */
  function FixedFields(info: GraphicsPipelineInfo): (t: seq<Field>)
    ensures |t| == 20
  {
    var ias := info.inputAssemblyState;
    var rs := info.rasterizationState;
    var ds := info.depthStencilState;
    var cb := info.colorBlendState;
    [ UInt(info.shaderProgram),
      Bool(ias.primitiveRestartEnable),
      Enum(ias.topology),
      Bool(rs.depthClampEnable),
      Enum(rs.polygonMode),
      Enum(rs.cullMode),
      Enum(rs.frontFace),
      Bool(rs.depthBiasEnable),
      Float(rs.depthBiasConstantFactor),
      Float(rs.depthBiasSlopeFactor),
      Float(rs.lineWidth),
      Float(rs.pointSize),
      Bool(ds.depthTestEnable),
      Bool(ds.depthWriteEnable),
      Bool(cb.logicOpEnable),
      Enum(cb.logicOp),
      Float(cb.blendConstants.x),
      Float(cb.blendConstants.y),
      Float(cb.blendConstants.z),
      Float(cb.blendConstants.w) ]
  }

  /** The tuple hashed for one vertex binding descriptor. */
  function BindingFields(d: VertexInputBindingDescription): seq<Field>
  {
    [UInt(d.binding), Enum(d.format), UInt(d.location), UInt(d.offset)]
  }

  /** The tuple hashed for one colour blend attachment. */
  function AttachmentFields(a: ColorBlendAttachmentState): seq<Field>
  {
    [ Bool(a.blendEnable),
      Enum(a.srcColorBlendFactor), Enum(a.dstColorBlendFactor), Enum(a.colorBlendOp),
      Enum(a.srcAlphaBlendFactor), Enum(a.dstAlphaBlendFactor), Enum(a.alphaBlendOp),
      UInt(a.colorWriteMask) ]
  }

  /** One `size_t` per vertex binding descriptor: its tuple hash, in order. */
  function BindingHashes(hf: FieldHasher, bs: seq<VertexInputBindingDescription>): (t: seq<Field>)
    ensures |t| == |bs|
  {
    seq(|bs|, i requires 0 <= i < |bs| => Size(TupleHash(hf, BindingFields(bs[i]))))
  }

  /** One `size_t` per colour blend attachment: its tuple hash, in order. */
  function AttachmentHashes(hf: FieldHasher, ats: seq<ColorBlendAttachmentState>): (t: seq<Field>)
    ensures |t| == |ats|
  {
    seq(|ats|, i requires 0 <= i < |ats| => Size(TupleHash(hf, AttachmentFields(ats[i]))))
  }

  /** The values combined into the hash after the fixed tuple: the binding
      hashes, then the attachment hashes. */
  function DescriptorHashes(hf: FieldHasher, info: GraphicsPipelineInfo): seq<Field>
  {
    BindingHashes(hf, info.vertexInputState.vertexBindingDescriptions)
    + AttachmentHashes(hf, info.colorBlendState.attachments)
  }

  /** The handle a description gets: the fixed tuple's hash, then every
      descriptor hash combined into it in turn. */
  function PipelineHash(hf: FieldHasher, info: GraphicsPipelineInfo): (r: GraphicsPipeline)
    ensures r.id == HashValueApply(hf, 0, FixedFields(info) + DescriptorHashes(hf, info))
  {
    HashValueApplyAppend(hf, 0, FixedFields(info), DescriptorHashes(hf, info));
    GraphicsPipeline(HashValueApply(hf, TupleHash(hf, FixedFields(info)), DescriptorHashes(hf, info)))
  }

  /** The whole handle is one left fold of `hash_combine`: over the fixed
      fields from seed 0, then over the descriptor hashes. */
  lemma {:induction false} PipelineHashIsOneFold(hf: FieldHasher, info: GraphicsPipelineInfo)
    ensures PipelineHash(hf, info).id == FoldLeft(hf, 0, FixedFields(info) + DescriptorHashes(hf, info))
  {
    HashValueApplyIsFoldLeft(hf, 0, FixedFields(info) + DescriptorHashes(hf, info));
  }

  /** `HashPipelineInfo`: hash the fixed tuple, then fold in each vertex binding
      descriptor's hash in order, then each blend attachment's hash in order. */
  method HashPipelineInfo(hf: FieldHasher, info: GraphicsPipelineInfo) returns (p: GraphicsPipeline)
    ensures p == PipelineHash(hf, info)
  {
    var seed := TupleHash(hf, FixedFields(info));
    var mid := CombineBindingHashes(hf, seed, info.vertexInputState.vertexBindingDescriptions);
    var hashVal := CombineAttachmentHashes(hf, mid, info.colorBlendState.attachments);
    HashValueApplyAppend(hf, seed, BindingHashes(hf, info.vertexInputState.vertexBindingDescriptions),
                         AttachmentHashes(hf, info.colorBlendState.attachments));
    p := GraphicsPipeline(hashVal);
  }

  /** The vertex binding loop of `HashPipelineInfo`: combines each
      descriptor's tuple hash into `seed`, in order. */
  method CombineBindingHashes(hf: FieldHasher, seed: Word, bs: seq<VertexInputBindingDescription>)
    returns (hashVal: Word)
    ensures hashVal == HashValueApply(hf, seed, BindingHashes(hf, bs))
  {
    ghost var bh := BindingHashes(hf, bs);
    hashVal := seed;
    var i := 0;
    while i < |bs|
      invariant 0 <= i <= |bs|
      invariant hashVal == HashValueApply(hf, seed, bh[..i])
    {
      var dhashVal := TupleHash(hf, BindingFields(bs[i]));
      assert bh[..i + 1][..i] == bh[..i];
      hashVal := HashCombine(hf, hashVal, Size(dhashVal));
      i := i + 1;
    }
    assert bh[..i] == bh;
  }

  /** The attachment loop of `HashPipelineInfo`: combines each colour blend
      attachment's tuple hash into `seed`, in order. */
  method CombineAttachmentHashes(hf: FieldHasher, seed: Word, ats: seq<ColorBlendAttachmentState>)
    returns (hashVal: Word)
    ensures hashVal == HashValueApply(hf, seed, AttachmentHashes(hf, ats))
  {
    ghost var ah := AttachmentHashes(hf, ats);
    hashVal := seed;
    var j := 0;
    while j < |ats|
      invariant 0 <= j <= |ats|
      invariant hashVal == HashValueApply(hf, seed, ah[..j])
    {
      var chashVal := TupleHash(hf, AttachmentFields(ats[j]));
      assert ah[..j + 1][..j] == ah[..j];
      hashVal := HashCombine(hf, hashVal, Size(chashVal));
      j := j + 1;
    }
    assert ah[..j] == ah;
  }

  /** The registry map after compiling `info`: unchanged when the handle is
      already present (first seen wins), otherwise one new owning entry. */
  function Compiled(hf: FieldHasher, m: map<GraphicsPipeline, GraphicsPipelineInfoOwning>,
                    info: GraphicsPipelineInfo): map<GraphicsPipeline, GraphicsPipelineInfoOwning>
  {
    var p := PipelineHash(hf, info);
    if p in m then m else m[p := MakePipelineInfoOwning(info)]
  }

  /** After compiling, the handle is present; every other key keeps its entry,
      and no key appears or disappears except the handle. */
  lemma CompileFrame(hf: FieldHasher, m: map<GraphicsPipeline, GraphicsPipelineInfoOwning>,
                     info: GraphicsPipelineInfo)
    ensures PipelineHash(hf, info) in Compiled(hf, m, info)
    ensures Compiled(hf, m, info).Keys == m.Keys + {PipelineHash(hf, info)}
    ensures forall k :: k in m ==> Compiled(hf, m, info)[k] == m[k]
    ensures PipelineHash(hf, info) !in m ==>
              Compiled(hf, m, info)[PipelineHash(hf, info)] == MakePipelineInfoOwning(info)
  {
  }

  /** Compiling the same description twice changes the map only once. */
  lemma CompileIdempotent(hf: FieldHasher, m: map<GraphicsPipeline, GraphicsPipelineInfoOwning>,
                          info: GraphicsPipelineInfo)
    ensures Compiled(hf, Compiled(hf, m, info), info) == Compiled(hf, m, info)
  {
  }

  /** First seen wins: a later description with the same handle leaves the
      stored entry as it was, even when the two descriptions differ. */
  lemma FirstSeenWins(hf: FieldHasher, m: map<GraphicsPipeline, GraphicsPipelineInfoOwning>,
                      first: GraphicsPipelineInfo, later: GraphicsPipelineInfo)
    requires PipelineHash(hf, first) == PipelineHash(hf, later)
    ensures Compiled(hf, Compiled(hf, m, first), later) == Compiled(hf, m, first)
  {
  }

  /** The registry map after destroying `p`. */
  function Destroyed(m: map<GraphicsPipeline, GraphicsPipelineInfoOwning>, p: GraphicsPipeline)
    : map<GraphicsPipeline, GraphicsPipelineInfoOwning>
  {
    m - {p}
  }

  /** Destroying removes exactly `p`; destroying it again changes nothing. */
  lemma DestroyFrame(m: map<GraphicsPipeline, GraphicsPipelineInfoOwning>, p: GraphicsPipeline)
    ensures Destroyed(m, p).Keys == m.Keys - {p}
    ensures forall k :: k in m && k != p ==> Destroyed(m, p)[k] == m[k]
    ensures p !in Destroyed(m, p) && Destroyed(Destroyed(m, p), p) == Destroyed(m, p)
  {
  }

  /** The global `gPipelines` map together with the `std::hash` it relies on. */
  class Registry {
    const hasher: FieldHasher
    var pipelines: map<GraphicsPipeline, GraphicsPipelineInfoOwning>

    constructor (hasher: FieldHasher)
      ensures this.hasher == hasher && pipelines == map[]
    {
      this.hasher := hasher;
      pipelines := map[];
    }

    /** `CompileGraphicsPipelineInternal`: always yields the description's
        handle; inserts an owning copy only when the handle is new. */
    method CompileGraphicsPipelineInternal(info: GraphicsPipelineInfo) returns (r: Option<GraphicsPipeline>)
      modifies this
      ensures r == Some(PipelineHash(hasher, info))
      ensures r.value in pipelines
      ensures r.value in old(pipelines) ==> pipelines == old(pipelines)
      ensures r.value !in old(pipelines) ==> pipelines == old(pipelines)[r.value := MakePipelineInfoOwning(info)]
      ensures pipelines == Compiled(hasher, old(pipelines), info)
    {
      var pipeline := HashPipelineInfo(hasher, info);
      if pipeline in pipelines {
        return Some(pipeline);
      }
      var owning := MakePipelineInfoOwning(info);
      pipelines := pipelines[pipeline := owning];
      return Some(pipeline);
    }

    /** `GetGraphicsPipelineInternal`: the stored entry when the handle is
        present, null otherwise. */
    function GetGraphicsPipelineInternal(pipeline: GraphicsPipeline): (r: Option<GraphicsPipelineInfoOwning>)
      reads this
      ensures r.Some? <==> pipeline in pipelines
      ensures r.Some? ==> r.value == pipelines[pipeline]
    {
      if pipeline in pipelines then Some(pipelines[pipeline]) else None
    }

    /** `DestroyGraphicsPipelineInternal`: reports whether the handle was present
        and removes it. */
    method DestroyGraphicsPipelineInternal(pipeline: GraphicsPipeline) returns (existed: bool)
      modifies this
      ensures existed <==> pipeline in old(pipelines)
      ensures pipelines == Destroyed(old(pipelines), pipeline)
    {
      if pipeline !in pipelines {
        return false;
      }
      pipelines := pipelines - {pipeline};
      return true;
    }
  }

  /** Two compilations of one description give one handle, the second leaves the
      map alone, and the handle can then be looked up. */
  method CompileTwice(registry: Registry, info: GraphicsPipelineInfo)
    returns (first: Option<GraphicsPipeline>, second: Option<GraphicsPipeline>)
    modifies registry
    ensures first == second && first.Some?
    ensures registry.GetGraphicsPipelineInternal(first.value).Some?
    ensures registry.pipelines == Compiled(registry.hasher, old(registry.pipelines), info)
  {
    first := registry.CompileGraphicsPipelineInternal(info);
    ghost var afterFirst := registry.pipelines;
    second := registry.CompileGraphicsPipelineInternal(info);
    assert registry.pipelines == afterFirst;
  }

  /** Destroying a handle twice: the first call reports it present exactly when
      it was, the second always reports it absent. */
  method DestroyTwice(registry: Registry, pipeline: GraphicsPipeline)
    returns (first: bool, second: bool)
    modifies registry
    ensures first <==> pipeline in old(registry.pipelines)
    ensures !second
    ensures registry.pipelines == old(registry.pipelines) - {pipeline}
  {
    first := registry.DestroyGraphicsPipelineInternal(pipeline);
    second := registry.DestroyGraphicsPipelineInternal(pipeline);
  }
}
