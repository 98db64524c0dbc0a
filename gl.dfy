/** The driver as the render session sees it: every call it makes is one
    command record, and the format lookups it consults are given tables. */
module Gl {
  import opened Types

  /** Capabilities switched with `glEnable` / `glDisable`. */
  datatype Capability =
    | PrimitiveRestartFixedIndex
    | DepthClamp
    | FaceCulling
    | PolygonOffsetFill
    | PolygonOffsetLine
    | PolygonOffsetPoint
    | DepthTest
    | ColorLogicOp

  /** Framebuffer attachment points; `ColorAttachment(i)` is `GL_COLOR_ATTACHMENT0 + i`. */
  datatype AttachmentPoint =
    | ColorAttachment(index: nat)
    | DepthAttachment
    | StencilAttachment
    | DepthStencilAttachment

  /** Indexed buffer binding targets of `glBindBufferRange`. */
  datatype BufferTarget = UniformBuffer | ShaderStorageBuffer

  /** `GlBaseTypeClass`: how a colour attachment's clear value is read. */
  datatype BaseTypeClass = FloatBase | SintBase | UintBase

  /** `GlFormatClass`: which vertex attribute format call a format needs. */
  datatype FormatClass = FloatFormat | IntFormat | LongFormat

  /** The bits of `glClear`'s mask, as the OpenGL standard fixes them. */
  const COLOR_BUFFER_BIT: bv32 := 0x4000
  const DEPTH_BUFFER_BIT: bv32 := 0x0100
  const STENCIL_BUFFER_BIT: bv32 := 0x0400

  /** The format lookups the session consults (`FormatToBaseTypeClass`,
      `FormatToFormatClass`, `FormatToTypeGL`, `FormatToSizeGL`,
      `IsFormatNormalizedGL`). Each is total, so every format has a class. */
  datatype FormatTables = FormatTables(
    baseTypeClass: Format -> BaseTypeClass,
    formatClass: Format -> FormatClass,
    typeGL: Format -> nat,
    sizeGL: Format -> nat,
    normalizedGL: Format -> bool)

  /** One driver call. Arguments the session passes through an enum
      translation table are recorded as the API-level enum code. */
  datatype Cmd =
    // framebuffers, clears and the viewport
    | BindFramebuffer(framebuffer: nat)
    | DeleteFramebuffer(framebuffer: nat)
    | CreateFramebuffer(framebuffer: nat)
    | NamedFramebufferTexture(framebuffer: nat, attachment: AttachmentPoint, texture: nat)
    | NamedFramebufferDrawBuffers(framebuffer: nat, buffers: seq<AttachmentPoint>)
    | ClearNamedFramebufferColor(framebuffer: nat, drawBuffer: nat, kind: BaseTypeClass, value: ColorBits)
    | ClearNamedFramebufferDepthStencil(framebuffer: nat, depth: Float32, stencil: int)
    | ClearNamedFramebufferDepth(framebuffer: nat, depth: Float32)
    | ClearNamedFramebufferStencil(framebuffer: nat, stencil: int)
    | SetClearColor(color: ColorBits)
    | SetClearDepth(depth: Float32)
    | SetClearStencil(stencil: int)
    | Clear(mask: bv32)
    | SetViewport(x: int, y: int, width: nat, height: nat)
    | SetDepthRange(near: Float32, far: Float32)
    // pipeline state
    | UseProgram(program: nat)
    | EnableOrDisable(cap: Capability, enable: bool)
    | DeleteVertexArray(vao: nat)
    | CreateVertexArray(vao: nat)
    | BindVertexArray(vao: nat)
    | EnableVertexArrayAttrib(vao: nat, attrib: nat)
    | VertexArrayAttribBinding(vao: nat, attrib: nat, binding: nat)
    | VertexArrayAttribFormat(vao: nat, attrib: nat, size: nat, glType: nat, normalized: bool, offset: nat)
    | VertexArrayAttribIFormat(vao: nat, attrib: nat, size: nat, glType: nat, offset: nat)
    | VertexArrayAttribLFormat(vao: nat, attrib: nat, size: nat, glType: nat, offset: nat)
    | SetPolygonMode(mode: PolygonMode)
    | SetCullFace(mode: CullMode)
    | SetFrontFace(face: FrontFace)
    | SetPolygonOffset(factor: Float32, units: Float32)
    | SetLineWidth(lineWidth: Float32)
    | SetPointSize(pointSize: Float32)
    | SetDepthMask(flag: bool)
    | SetLogicOp(op: LogicOp)
    | SetBlendColor(constants: Float4)
    | BlendFuncSeparatei(buf: nat, srcRgb: BlendFactor, dstRgb: BlendFactor, srcAlpha: BlendFactor, dstAlpha: BlendFactor)
    | BlendEquationSeparatei(buf: nat, modeRgb: BlendOp, modeAlpha: BlendOp)
    | ColorMaski(buf: nat, writeMask: nat)
    // resources and draws
    | VertexArrayVertexBuffer(vao: nat, bindingIndex: nat, buffer: nat, offset: nat, stride: nat)
    | VertexArrayElementBuffer(vao: nat, buffer: nat)
    | DrawArraysInstancedBaseInstance(mode: PrimitiveTopology, first: nat, count: nat, instanceCount: nat, baseInstance: nat)
    | DrawElementsInstancedBaseVertexBaseInstance(mode: PrimitiveTopology, count: nat, indexType: IndexType,
                                                  firstIndex: nat, instanceCount: nat, baseVertex: int, baseInstance: nat)
    | BindBufferRange(target: BufferTarget, index: nat, buffer: nat, offset: nat, size: nat)
    | BindTextureUnit(unit: nat, texture: nat)
    | BindSampler(unit: nat, sampler: nat)
    | BindImageTexture(unit: nat, texture: nat, level: nat, format: Format)
}
