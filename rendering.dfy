/** The render session: the single active pass, the state it caches between
    calls, and every driver call it issues, kept as a log. */
module Rendering {
  import opened Types
  import opened Gl
  import opened PipelineInfo
  import opened PipelineManager
  import opened RenderTargets
  import opened PipelineState

  /** The session's globals. The GL names `glCreateFramebuffers` and
      `glCreateVertexArrays` hand back are parameters of the methods that
      create them. */
  class Session {
    const registry: Registry
    const tables: FormatTables

    var isRendering: bool
    var isPipelineBound: bool
    var isIndexBufferBound: bool
    var lastGraphicsPipeline: GraphicsPipeline
    var lastRenderInfo: RenderInfo?
    var topology: PrimitiveTopology
    var indexType: IndexType
    var vao: nat
    var fbo: nat
    var log: seq<Cmd>

    /** An index buffer counts as bound only inside a pass. */
    ghost predicate Valid()
      reads this
    {
      isIndexBufferBound ==> isRendering
    }

    /** The zero-initialised globals, with nothing issued yet. */
    constructor (registry: Registry, tables: FormatTables)
      ensures this.registry == registry && this.tables == tables
      ensures !isRendering && !isPipelineBound && !isIndexBufferBound
      ensures lastGraphicsPipeline == GraphicsPipeline(0) && lastRenderInfo == null
      ensures topology == 0 && indexType == 0 && vao == 0 && fbo == 0
      ensures log == []
      ensures Valid()
    {
      this.registry := registry;
      this.tables := tables;
      isRendering := false;
      isPipelineBound := false;
      isIndexBufferBound := false;
      lastGraphicsPipeline := GraphicsPipeline(0);
      lastRenderInfo := null;
      topology := 0;
      indexType := 0;
      vao := 0;
      fbo := 0;
      log := [];
    }

    /** Begins a pass on the default framebuffer: binds it, sets the flagged
        clear values, and clears with the mask built from the flags. Forgets
        the last render target description. */
    method BeginSwapchainRendering(ri: SwapchainRenderInfo)
      requires Valid() && !isRendering
      modifies this`isRendering, this`lastRenderInfo, this`log
      ensures Valid() && isRendering && lastRenderInfo == null
      ensures log == old(log) + SwapchainCmds(ri)
    {
      isRendering := true;
      lastRenderInfo := null;
      log := log + [BindFramebuffer(0)];
      var clearBuffers: bv32 := 0;
      if ri.clearColorOnLoad {
        log := log + [SetClearColor(ri.clearColorValue)];
        clearBuffers := clearBuffers | COLOR_BUFFER_BIT;
      }
      if ri.clearDepthOnLoad {
        log := log + [SetClearDepth(ri.clearDepthValue)];
        clearBuffers := clearBuffers | DEPTH_BUFFER_BIT;
      }
      if ri.clearStencilOnLoad {
        log := log + [SetClearStencil(ri.clearStencilValue)];
        clearBuffers := clearBuffers | STENCIL_BUFFER_BIT;
      }
      assert clearBuffers == SwapchainClearMask(ri);
      log := log + [Clear(clearBuffers)];
    }

    /** Begins a pass on `ri`'s targets. When `ri` is the very object of the
        last pass nothing is issued; otherwise the framebuffer is rebuilt
        under the new name `createdFbo`. */
    method BeginRendering(ri: RenderInfo, createdFbo: nat)
      requires Valid() && !isRendering
      modifies this`isRendering, this`lastRenderInfo, this`fbo, this`log
      ensures Valid() && isRendering && lastRenderInfo == ri
      ensures old(lastRenderInfo) == ri ==> fbo == old(fbo) && log == old(log)
      ensures old(lastRenderInfo) != ri ==>
                fbo == createdFbo && log == old(log) + RebuildCmds(tables, ri, old(fbo), createdFbo)
    {
      isRendering := true;
      if lastRenderInfo == ri {
        return;
      }
      lastRenderInfo := ri;

      log := log + [DeleteFramebuffer(fbo)];
      fbo := createdFbo;
      log := log + [CreateFramebuffer(fbo)];
      assert log == old(log) + [DeleteFramebuffer(old(fbo)), CreateFramebuffer(createdFbo)];
      SetUpFramebuffer(ri);
    }

    /** Attaches and clears `ri`'s targets on the current framebuffer, then
        sets the viewport and binds the framebuffer. */
    method SetUpFramebuffer(ri: RenderInfo)
      modifies this`log
      ensures log == old(log) + FramebufferSetupCmds(tables, ri, fbo)
    {
      var drawBuffers := AttachColorTargets(ri.colorAttachments);
      log := log + [NamedFramebufferDrawBuffers(fbo, drawBuffers)];
      ghost var log1 := log;
      assert log1 == old(log) + (ColorAttachCmds(fbo, ri.colorAttachments)
                                 + [NamedFramebufferDrawBuffers(fbo, DrawBufferList(|ri.colorAttachments|))]);
      ClearColorTargets(ri.colorAttachments);
      AttachDepthStencil(ri.depthAttachment, ri.stencilAttachment);
      ClearDepthStencil(ri.depthAttachment, ri.stencilAttachment);
      ghost var log4 := log;
      log := log + [ SetViewport(ri.viewport.x, ri.viewport.y, ri.viewport.width, ri.viewport.height),
                     SetDepthRange(ri.viewport.minDepth, ri.viewport.maxDepth),
                     BindFramebuffer(fbo) ];
      assert log == log4 + ViewportCmds(fbo, ri.viewport);
    }

    /** Attaches colour attachment `i` at slot `i`, for every `i`, and
        returns the list of slots attached. */
    method AttachColorTargets(atts: seq<RenderColorAttachment>) returns (drawBuffers: seq<AttachmentPoint>)
      modifies this`log
      ensures log == old(log) + ColorAttachCmds(fbo, atts)
      ensures drawBuffers == DrawBufferList(|atts|)
    {
      drawBuffers := [];
      var i := 0;
      while i < |atts|
        invariant 0 <= i <= |atts|
        invariant log == old(log) + ColorAttachCmds(fbo, atts[..i])
        invariant drawBuffers == DrawBufferList(i)
      {
        assert atts[..i + 1][..i] == atts[..i];
        log := log + [NamedFramebufferTexture(fbo, ColorAttachment(i), atts[i].textureView.handle)];
        drawBuffers := drawBuffers + [ColorAttachment(i)];
        i := i + 1;
      }
      assert atts[..|atts|] == atts;
    }

    /** Clears every colour attachment flagged `clearOnLoad`, in order. */
    method ClearColorTargets(atts: seq<RenderColorAttachment>)
      modifies this`log
      ensures log == old(log) + ColorClearCmds(tables, fbo, atts)
    {
      var i := 0;
      while i < |atts|
        invariant 0 <= i <= |atts|
        invariant log == old(log) + ColorClearCmds(tables, fbo, atts[..i])
      {
        assert atts[..i + 1][..i] == atts[..i];
        var attachment := atts[i];
        if attachment.clearOnLoad {
          var baseTypeClass := tables.baseTypeClass(attachment.textureView.format);
          match baseTypeClass {
            case FloatBase =>
              log := log + [ClearNamedFramebufferColor(fbo, i, FloatBase, attachment.clearValue)];
            case SintBase =>
              log := log + [ClearNamedFramebufferColor(fbo, i, SintBase, attachment.clearValue)];
            case UintBase =>
              log := log + [ClearNamedFramebufferColor(fbo, i, UintBase, attachment.clearValue)];
          }
        }
        i := i + 1;
      }
      assert atts[..|atts|] == atts;
    }

    /** Attaches the depth and stencil images. */
    method AttachDepthStencil(depth: Option<RenderDepthStencilAttachment>,
                              stencil: Option<RenderDepthStencilAttachment>)
      modifies this`log
      ensures log == old(log) + DepthStencilAttachCmds(fbo, depth, stencil)
    {
      if depth.Some? && stencil.Some? && depth.value.textureView == stencil.value.textureView {
        log := log + [NamedFramebufferTexture(fbo, DepthStencilAttachment, depth.value.textureView.handle)];
      } else if depth.Some? {
        log := log + [NamedFramebufferTexture(fbo, DepthAttachment, depth.value.textureView.handle)];
      } else if stencil.Some? {
        log := log + [NamedFramebufferTexture(fbo, StencilAttachment, stencil.value.textureView.handle)];
      }
    }

    /** Clears depth and stencil as flagged, with at most one call. */
    method ClearDepthStencil(depth: Option<RenderDepthStencilAttachment>,
                             stencil: Option<RenderDepthStencilAttachment>)
      modifies this`log
      ensures log == old(log) + DepthStencilClearCmds(fbo, depth, stencil)
    {
      if depth.Some? && depth.value.clearOnLoad && stencil.Some? && stencil.value.clearOnLoad {
        log := log + [ClearNamedFramebufferDepthStencil(fbo, depth.value.clearValue.depth, depth.value.clearValue.stencil)];
      } else if (depth.Some? && depth.value.clearOnLoad) && (stencil.None? || !stencil.value.clearOnLoad) {
        log := log + [ClearNamedFramebufferDepth(fbo, depth.value.clearValue.depth)];
      } else if (stencil.Some? && stencil.value.clearOnLoad) && (depth.None? || !depth.value.clearOnLoad) {
        log := log + [ClearNamedFramebufferStencil(fbo, stencil.value.clearValue.stencil)];
      }
    }

    /** Ends the pass: no pipeline and no index buffer count as bound any
        more. The cached pipeline and render target description are kept. */
    method EndRendering()
      requires Valid() && isRendering
      modifies this`isRendering, this`isPipelineBound, this`isIndexBufferBound
      ensures Valid() && !isRendering && !isPipelineBound && !isIndexBufferBound
    {
      isPipelineBound := false;
      isRendering := false;
      isIndexBufferBound := false;
    }

    /** Binds a registered pipeline. Rebinding the last pipeline issues
        nothing; any other pipeline is applied in full on a fresh vertex array
        named `createdVao`. */
    method BindGraphicsPipeline(pipeline: GraphicsPipeline, createdVao: nat)
      requires Valid()
      requires pipeline in registry.pipelines
      modifies this`isPipelineBound, this`lastGraphicsPipeline, this`topology, this`vao, this`log
      ensures Valid() && isPipelineBound && lastGraphicsPipeline == pipeline
      ensures old(lastGraphicsPipeline) == pipeline ==>
                topology == old(topology) && vao == old(vao) && log == old(log)
      ensures old(lastGraphicsPipeline) != pipeline ==>
                && topology == registry.pipelines[pipeline].inputAssemblyState.topology
                && vao == createdVao
                && log == old(log) + ApplyPipelineCmds(tables, registry.pipelines[pipeline], old(vao), createdVao)
    {
      isPipelineBound := true;
      var pipelineState := registry.GetGraphicsPipelineInternal(pipeline);
      if lastGraphicsPipeline == pipeline {
        return;
      }
      lastGraphicsPipeline := pipeline;
      ApplyPipeline(pipelineState.value, createdVao);
    }

    /** Applies a stored pipeline in full: program, input assembly, a fresh
        vertex array named `createdVao` with the pipeline's attributes, then
        the fixed-function state. */
    method ApplyPipeline(info: GraphicsPipelineInfoOwning, createdVao: nat)
      modifies this`topology, this`vao, this`log
      ensures topology == info.inputAssemblyState.topology && vao == createdVao
      ensures log == old(log) + ApplyPipelineCmds(tables, info, old(vao), createdVao)
    {
      log := log + [UseProgram(info.shaderProgram)];
      var ias := info.inputAssemblyState;
      log := log + [EnableOrDisable(PrimitiveRestartFixedIndex, ias.primitiveRestartEnable)];
      topology := ias.topology;

      log := log + [DeleteVertexArray(vao)];
      vao := createdVao;
      log := log + [CreateVertexArray(vao)];
      ghost var log0 := log;
      assert log0 == old(log) + ProgramAndVaoCmds(info, old(vao), createdVao);
      ApplyVertexInput(info.vertexInputState.vertexBindingDescriptions);
      ApplyFixedState(info);
      assert log == log0 + VertexAttribCmds(tables, createdVao, info.vertexInputState.vertexBindingDescriptions)
                         + FixedStateCmds(info, createdVao);
    }

    /** Binds the current vertex array, then sets rasterization, depth and
        colour blend state. */
    method ApplyFixedState(info: GraphicsPipelineInfoOwning)
      modifies this`log
      ensures log == old(log) + FixedStateCmds(info, vao)
    {
      log := log + [BindVertexArray(vao)];
      ApplyRasterization(info.rasterizationState);
      var ds := info.depthStencilState;
      log := log + [EnableOrDisable(DepthTest, ds.depthTestEnable), SetDepthMask(ds.depthWriteEnable)];
      ApplyColorBlend(info.colorBlendState);
    }

    /** Enables attribute `i` for descriptor `i`, binds it to the
        descriptor's binding slot and sets its format. */
    method ApplyVertexInput(ds: seq<VertexInputBindingDescription>)
      modifies this`log
      ensures log == old(log) + VertexAttribCmds(tables, vao, ds)
    {
      var i := 0;
      while i < |ds|
        invariant 0 <= i <= |ds|
        invariant log == old(log) + VertexAttribCmds(tables, vao, ds[..i])
      {
        assert ds[..i + 1][..i] == ds[..i];
        var desc := ds[i];
        log := log + [EnableVertexArrayAttrib(vao, i)];
        log := log + [VertexArrayAttribBinding(vao, i, desc.binding)];
        var glType := tables.typeGL(desc.format);
        var size := tables.sizeGL(desc.format);
        var normalized := tables.normalizedGL(desc.format);
        var internalType := tables.formatClass(desc.format);
        match internalType {
          case FloatFormat =>
            log := log + [VertexArrayAttribFormat(vao, i, size, glType, normalized, desc.offset)];
          case IntFormat =>
            log := log + [VertexArrayAttribIFormat(vao, i, size, glType, desc.offset)];
          case LongFormat =>
            log := log + [VertexArrayAttribLFormat(vao, i, size, glType, desc.offset)];
        }
        i := i + 1;
      }
      assert ds[..|ds|] == ds;
    }

    /** Sets the rasterization state. */
    method ApplyRasterization(rs: RasterizationState)
      modifies this`log
      ensures log == old(log) + RasterizationCmds(rs)
    {
      log := log + [EnableOrDisable(DepthClamp, rs.depthClampEnable), SetPolygonMode(rs.polygonMode)];
      log := log + [EnableOrDisable(FaceCulling, rs.cullMode != CULL_NONE)];
      if rs.cullMode != CULL_NONE {
        log := log + [SetCullFace(rs.cullMode)];
      }
      log := log + [SetFrontFace(rs.frontFace)];
      log := log + [ EnableOrDisable(PolygonOffsetFill, rs.depthBiasEnable),
                     EnableOrDisable(PolygonOffsetLine, rs.depthBiasEnable),
                     EnableOrDisable(PolygonOffsetPoint, rs.depthBiasEnable) ];
      if rs.depthBiasEnable {
        log := log + [SetPolygonOffset(rs.depthBiasSlopeFactor, rs.depthBiasConstantFactor)];
      }
      log := log + [SetLineWidth(rs.lineWidth), SetPointSize(rs.pointSize)];
    }

    /** Sets the colour blend state, then each attachment's blend state. */
    method ApplyColorBlend(cb: ColorBlendStateOwning)
      modifies this`log
      ensures log == old(log) + ColorBlendCmds(cb)
    {
      log := log + [EnableOrDisable(ColorLogicOp, cb.logicOpEnable)];
      if cb.logicOpEnable {
        log := log + [SetLogicOp(cb.logicOp)];
      }
      log := log + [SetBlendColor(cb.blendConstants)];
      ghost var log0 := log;
      var i := 0;
      while i < |cb.attachments|
        invariant 0 <= i <= |cb.attachments|
        invariant log == log0 + BlendAttachmentCmds(cb.attachments[..i])
      {
        assert cb.attachments[..i + 1][..i] == cb.attachments[..i];
        var cba := cb.attachments[i];
        log := log + [BlendFuncSeparatei(i, cba.srcColorBlendFactor, cba.dstColorBlendFactor,
                                         cba.srcAlphaBlendFactor, cba.dstAlphaBlendFactor)];
        log := log + [BlendEquationSeparatei(i, cba.colorBlendOp, cba.alphaBlendOp)];
        log := log + [ColorMaski(i, cba.colorWriteMask)];
        i := i + 1;
      }
      assert cb.attachments[..|cb.attachments|] == cb.attachments;
    }

    /** Binds a vertex buffer range to a binding slot of the current vertex array. */
    method BindVertexBuffer(bindingIndex: nat, buffer: nat, offset: nat, stride: nat)
      requires Valid() && isRendering
      modifies this`log
      ensures log == old(log) + [VertexArrayVertexBuffer(vao, bindingIndex, buffer, offset, stride)]
    {
      log := log + [VertexArrayVertexBuffer(vao, bindingIndex, buffer, offset, stride)];
    }

    /** Binds the index buffer of the current vertex array and remembers its
        index type for indexed draws. */
    method BindIndexBuffer(buffer: nat, newIndexType: IndexType)
      requires Valid() && isRendering
      modifies this`isIndexBufferBound, this`indexType, this`log
      ensures Valid() && isIndexBufferBound && indexType == newIndexType
      ensures log == old(log) + [VertexArrayElementBuffer(vao, buffer)]
    {
      isIndexBufferBound := true;
      indexType := newIndexType;
      log := log + [VertexArrayElementBuffer(vao, buffer)];
    }

    /** A non-indexed draw with the topology of the last applied pipeline. */
    method Draw(vertexCount: nat, instanceCount: nat, firstVertex: nat, firstInstance: nat)
      requires Valid() && isRendering
      modifies this`log
      ensures log == old(log) + [DrawArraysInstancedBaseInstance(topology, firstVertex, vertexCount, instanceCount, firstInstance)]
    {
      log := log + [DrawArraysInstancedBaseInstance(topology, firstVertex, vertexCount, instanceCount, firstInstance)];
    }

    /** An indexed draw: needs an index buffer bound in this pass, and uses
        its recorded index type. */
    method DrawIndexed(indexCount: nat, instanceCount: nat, firstIndex: nat, vertexOffset: int, firstInstance: nat)
      requires Valid() && isRendering && isIndexBufferBound
      modifies this`log
      ensures log == old(log) + [DrawElementsInstancedBaseVertexBaseInstance(
                                   topology, indexCount, indexType, firstIndex, instanceCount, vertexOffset, firstInstance)]
    {
      log := log + [DrawElementsInstancedBaseVertexBaseInstance(
                      topology, indexCount, indexType, firstIndex, instanceCount, vertexOffset, firstInstance)];
    }

    /** Binds a buffer range to uniform block slot `index`. */
    method BindUniformBuffer(index: nat, buffer: nat, offset: nat, size: nat)
      requires Valid() && isRendering
      modifies this`log
      ensures log == old(log) + [BindBufferRange(UniformBuffer, index, buffer, offset, size)]
    {
      log := log + [BindBufferRange(UniformBuffer, index, buffer, offset, size)];
    }

    /** Binds a buffer range for a storage block at slot `index`; the target
        used is the uniform buffer target, as for uniform blocks. */
    method BindStorageBuffer(index: nat, buffer: nat, offset: nat, size: nat)
      requires Valid() && isRendering
      modifies this`log
      ensures log == old(log) + [BindBufferRange(UniformBuffer, index, buffer, offset, size)]
    {
      log := log + [BindBufferRange(UniformBuffer, index, buffer, offset, size)];
    }

    /** Binds a texture view and a sampler to texture unit `index`. */
    method BindSampledImage(index: nat, textureView: TextureView, sampler: nat)
      requires Valid() && isRendering
      modifies this`log
      ensures log == old(log) + [BindTextureUnit(index, textureView.handle), BindSampler(index, sampler)]
    {
      log := log + [BindTextureUnit(index, textureView.handle)];
      log := log + [BindSampler(index, sampler)];
    }

    /** Binds one mip level of a texture view to image unit `index`; the level
        must exist. */
    method BindImage(index: nat, textureView: TextureView, level: nat)
      requires Valid() && isRendering
      requires level < textureView.numLevels
      modifies this`log
      ensures log == old(log) + [BindImageTexture(index, textureView.handle, level, textureView.format)]
    {
      log := log + [BindImageTexture(index, textureView.handle, level, textureView.format)];
    }
  }

  /** Binding the same pipeline twice in a row applies it once. */
  method BindPipelineTwice(s: Session, pipeline: GraphicsPipeline, vao1: nat, vao2: nat)
    requires s.Valid() && pipeline in s.registry.pipelines
    requires s.lastGraphicsPipeline != pipeline
    modifies s
    ensures s.Valid() && s.vao == vao1
    ensures s.log == old(s.log) + ApplyPipelineCmds(s.tables, s.registry.pipelines[pipeline], old(s.vao), vao1)
  {
    s.BindGraphicsPipeline(pipeline, vao1);
    s.BindGraphicsPipeline(pipeline, vao2);
  }

  /** The pipeline cache outlives a pass: binding the same pipeline in the
      next pass issues nothing, although the pass reported no pipeline bound
      in between. */
  method PipelineCacheOutlivesPass(s: Session, pipeline: GraphicsPipeline, vao: nat, ri: SwapchainRenderInfo)
    requires s.Valid() && s.isRendering && pipeline in s.registry.pipelines
    modifies s
    ensures s.Valid() && s.isRendering && s.isPipelineBound
    ensures s.lastGraphicsPipeline == pipeline
    ensures s.log == old(s.log)
                     + (if old(s.lastGraphicsPipeline) == pipeline then []
                        else ApplyPipelineCmds(s.tables, s.registry.pipelines[pipeline], old(s.vao), vao))
                     + SwapchainCmds(ri)
  {
    s.BindGraphicsPipeline(pipeline, vao);
    s.EndRendering();
    assert !s.isPipelineBound;
    s.BeginSwapchainRendering(ri);
    ghost var before := s.log;
    s.BindGraphicsPipeline(pipeline, vao);
    assert s.log == before;
  }

  /** Beginning a pass twice with the same render target object rebuilds the
      framebuffer only the first time. */
  method SameTargetsTwice(s: Session, ri: RenderInfo, fbo1: nat, fbo2: nat)
    requires s.Valid() && !s.isRendering && s.lastRenderInfo != ri
    modifies s
    ensures s.Valid() && s.isRendering && s.fbo == fbo1
    ensures s.log == old(s.log) + RebuildCmds(s.tables, ri, old(s.fbo), fbo1)
  {
    s.BeginRendering(ri, fbo1);
    s.EndRendering();
    s.BeginRendering(ri, fbo2);
  }

  /** A swapchain pass forgets the last render target description, so the
      next pass on custom targets always rebuilds the framebuffer. */
  method SwapchainPassForcesRebuild(s: Session, sri: SwapchainRenderInfo, ri: RenderInfo, fbo1: nat)
    requires s.Valid() && !s.isRendering
    modifies s
    ensures s.Valid() && s.isRendering && s.fbo == fbo1 && s.lastRenderInfo == ri
    ensures s.log == old(s.log) + SwapchainCmds(sri) + RebuildCmds(s.tables, ri, old(s.fbo), fbo1)
  {
    s.BeginSwapchainRendering(sri);
    s.EndRendering();
    s.BeginRendering(ri, fbo1);
  }

  /** The render target cache compares identity only: a description changed
      in place after its pass is not looked at again, so the next pass on it
      sets neither the new viewport nor the new clears. */
  method EditedTargetsNotReapplied(s: Session, ri: RenderInfo, newViewport: Viewport,
                                   newColorAttachments: seq<RenderColorAttachment>, fbo1: nat, fbo2: nat)
    requires s.Valid() && !s.isRendering && s.lastRenderInfo != ri
    modifies s, ri
    ensures ri.viewport == newViewport && ri.colorAttachments == newColorAttachments
    ensures s.Valid() && s.isRendering && s.fbo == fbo1
    ensures s.log == old(s.log) + old(RebuildCmds(s.tables, ri, s.fbo, fbo1))
  {
    s.BeginRendering(ri, fbo1);
    s.EndRendering();
    ri.viewport := newViewport;
    ri.colorAttachments := newColorAttachments;
    s.BeginRendering(ri, fbo2);
  }
}
