/** The graphics pipeline description a caller passes in, and the owning copy
    the registry stores. */
module PipelineInfo {
  import opened Types

  datatype InputAssemblyState = InputAssemblyState(
    topology: PrimitiveTopology,
    primitiveRestartEnable: bool)

  datatype VertexInputBindingDescription = VertexInputBindingDescription(
    location: nat,
    binding: nat,
    format: Format,
    offset: nat)

  datatype RasterizationState = RasterizationState(
    depthClampEnable: bool,
    polygonMode: PolygonMode,
    cullMode: CullMode,
    frontFace: FrontFace,
    depthBiasEnable: bool,
    depthBiasConstantFactor: Float32,
    depthBiasSlopeFactor: Float32,
    lineWidth: Float32,
    pointSize: Float32)

  /** Stencil state is not part of the description yet. */
  datatype DepthStencilState = DepthStencilState(
    depthTestEnable: bool,
    depthWriteEnable: bool)

  datatype ColorBlendAttachmentState = ColorBlendAttachmentState(
    blendEnable: bool,
    srcColorBlendFactor: BlendFactor,
    dstColorBlendFactor: BlendFactor,
    colorBlendOp: BlendOp,
    srcAlphaBlendFactor: BlendFactor,
    dstAlphaBlendFactor: BlendFactor,
    alphaBlendOp: BlendOp,
    colorWriteMask: nat)

  /** The caller's description: the two variable-length parts are views
      (spans) into caller-owned storage. */
  datatype VertexInputState = VertexInputState(
    vertexBindingDescriptions: seq<VertexInputBindingDescription>)

  datatype ColorBlendState = ColorBlendState(
    logicOpEnable: bool,
    logicOp: LogicOp,
    attachments: seq<ColorBlendAttachmentState>,
    blendConstants: Float4)

  datatype GraphicsPipelineInfo = GraphicsPipelineInfo(
    shaderProgram: nat,
    inputAssemblyState: InputAssemblyState,
    vertexInputState: VertexInputState,
    rasterizationState: RasterizationState,
    depthStencilState: DepthStencilState,
    colorBlendState: ColorBlendState)

  /** The registry's durable copy: the variable-length parts are owned vectors. */
  datatype VertexInputStateOwning = VertexInputStateOwning(
    vertexBindingDescriptions: seq<VertexInputBindingDescription>)

  datatype ColorBlendStateOwning = ColorBlendStateOwning(
    logicOpEnable: bool,
    logicOp: LogicOp,
    attachments: seq<ColorBlendAttachmentState>,
    blendConstants: Float4)

  datatype GraphicsPipelineInfoOwning = GraphicsPipelineInfoOwning(
    shaderProgram: nat,
    inputAssemblyState: InputAssemblyState,
    vertexInputState: VertexInputStateOwning,
    rasterizationState: RasterizationState,
    depthStencilState: DepthStencilState,
    colorBlendState: ColorBlendStateOwning)

  /** A non-owning description that views a stored entry. */
  function View(o: GraphicsPipelineInfoOwning): GraphicsPipelineInfo
  {
    GraphicsPipelineInfo(
      o.shaderProgram,
      o.inputAssemblyState,
      VertexInputState(o.vertexInputState.vertexBindingDescriptions),
      o.rasterizationState,
      o.depthStencilState,
      ColorBlendState(o.colorBlendState.logicOpEnable, o.colorBlendState.logicOp,
                      o.colorBlendState.attachments, o.colorBlendState.blendConstants))
  }

  /** `MakePipelineInfoOwning`: copy every fixed field and copy the binding and
      attachment sequences element by element, in order. */
  function MakePipelineInfoOwning(info: GraphicsPipelineInfo): (r: GraphicsPipelineInfoOwning)
    ensures r.shaderProgram == info.shaderProgram
    ensures r.inputAssemblyState == info.inputAssemblyState
    ensures r.rasterizationState == info.rasterizationState
    ensures r.depthStencilState == info.depthStencilState
    ensures r.colorBlendState.logicOpEnable == info.colorBlendState.logicOpEnable
    ensures r.colorBlendState.logicOp == info.colorBlendState.logicOp
    ensures r.colorBlendState.blendConstants == info.colorBlendState.blendConstants
    ensures |r.vertexInputState.vertexBindingDescriptions| == |info.vertexInputState.vertexBindingDescriptions|
    ensures forall i :: 0 <= i < |info.vertexInputState.vertexBindingDescriptions| ==>
              r.vertexInputState.vertexBindingDescriptions[i] == info.vertexInputState.vertexBindingDescriptions[i]
    ensures |r.colorBlendState.attachments| == |info.colorBlendState.attachments|
    ensures forall i :: 0 <= i < |info.colorBlendState.attachments| ==>
              r.colorBlendState.attachments[i] == info.colorBlendState.attachments[i]
    ensures View(r) == info
  {
    var cb := info.colorBlendState;
    GraphicsPipelineInfoOwning(
      info.shaderProgram,
      info.inputAssemblyState,
      VertexInputStateOwning(info.vertexInputState.vertexBindingDescriptions),
      info.rasterizationState,
      info.depthStencilState,
      ColorBlendStateOwning(cb.logicOpEnable, cb.logicOp, cb.attachments,
                            Float4(cb.blendConstants.x, cb.blendConstants.y,
                                   cb.blendConstants.z, cb.blendConstants.w)))
  }

  /** Copying a stored entry's view gives back the same entry: the owning copy
      loses nothing. */
  lemma OwningRoundTrip(o: GraphicsPipelineInfoOwning)
    ensures MakePipelineInfoOwning(View(o)) == o
  {
  }
}
