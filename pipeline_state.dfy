/** The commands `BindGraphicsPipeline` issues to apply a stored pipeline. */
module PipelineState {
  import opened Types
  import opened Gl
  import opened PipelineInfo

  /** The attribute format call for descriptor `d` at attribute `i`: the
      float, integer or 64-bit variant, as the format's class selects. */
  function AttribFormatCmd(tables: FormatTables, vao: nat, i: nat, d: VertexInputBindingDescription): (c: Cmd)
    ensures c.VertexArrayAttribFormat? <==> tables.formatClass(d.format) == FloatFormat
    ensures c.VertexArrayAttribIFormat? <==> tables.formatClass(d.format) == IntFormat
    ensures c.VertexArrayAttribLFormat? <==> tables.formatClass(d.format) == LongFormat
    ensures IsAttribFormatCmd(c)
    ensures c.vao == vao && c.attrib == i && c.offset == d.offset
    ensures c.size == tables.sizeGL(d.format) && c.glType == tables.typeGL(d.format)
    ensures c.VertexArrayAttribFormat? ==> c.normalized == tables.normalizedGL(d.format)
  {
    var size, glType := tables.sizeGL(d.format), tables.typeGL(d.format);
    match tables.formatClass(d.format)
    case FloatFormat => VertexArrayAttribFormat(vao, i, size, glType, tables.normalizedGL(d.format), d.offset)
    case IntFormat => VertexArrayAttribIFormat(vao, i, size, glType, d.offset)
    case LongFormat => VertexArrayAttribLFormat(vao, i, size, glType, d.offset)
  }

  predicate IsAttribFormatCmd(c: Cmd)
  {
    c.VertexArrayAttribFormat? || c.VertexArrayAttribIFormat? || c.VertexArrayAttribLFormat?
  }

  /** The commands that only touch vertex attribute state. */
  predicate IsVertexAttribCmd(c: Cmd)
  {
    c.EnableVertexArrayAttrib? || c.VertexArrayAttribBinding? || IsAttribFormatCmd(c)
  }

  /** The three commands for attribute `i`: enable it, bind it to the
      descriptor's binding slot, set its format. */
  function AttribCmds(tables: FormatTables, vao: nat, i: nat, d: VertexInputBindingDescription): seq<Cmd>
  {
    [EnableVertexArrayAttrib(vao, i), VertexArrayAttribBinding(vao, i, d.binding), AttribFormatCmd(tables, vao, i, d)]
  }

  /** The vertex input loop: attribute `i` for descriptor `i`, in order. */
  function VertexAttribCmds(tables: FormatTables, vao: nat, ds: seq<VertexInputBindingDescription>): seq<Cmd>
    decreases |ds|
  {
    if ds == [] then []
    else
      var n := |ds| - 1;
      VertexAttribCmds(tables, vao, ds[..n]) + AttribCmds(tables, vao, n, ds[n])
  }

  /** Number of attribute format calls in a command sequence. */
  function FormatCallCount(cmds: seq<Cmd>): nat
    decreases |cmds|
  {
    if cmds == [] then 0
    else FormatCallCount(cmds[..|cmds| - 1]) + (if IsAttribFormatCmd(cmds[|cmds| - 1]) then 1 else 0)
  }

  lemma {:induction false} FormatCallCountAppend(a: seq<Cmd>, b: seq<Cmd>)
    ensures FormatCallCount(a + b) == FormatCallCount(a) + FormatCallCount(b)
    decreases |b|
  {
    if b != [] {
      var b' := b[..|b| - 1];
      assert (a + b)[..|a + b| - 1] == a + b';
      FormatCallCountAppend(a, b');
    } else {
      assert a + b == a;
    }
  }

  /** Descriptor `i` gets its three commands at positions `3i .. 3i+3`, all of
      them on attribute `i`, and the sequence holds nothing else. */
  lemma {:induction false} VertexAttribCmdsAt(tables: FormatTables, vao: nat, ds: seq<VertexInputBindingDescription>)
    ensures |VertexAttribCmds(tables, vao, ds)| == 3 * |ds|
    ensures forall i :: 0 <= i < |ds| ==>
              VertexAttribCmds(tables, vao, ds)[3 * i .. 3 * i + 3] == AttribCmds(tables, vao, i, ds[i])
    ensures forall c :: c in VertexAttribCmds(tables, vao, ds) ==> IsVertexAttribCmd(c)
    decreases |ds|
  {
    if ds != [] {
      var n := |ds| - 1;
      var p := ds[..n];
      VertexAttribCmdsAt(tables, vao, p);
      var prefix := VertexAttribCmds(tables, vao, p);
      var last := AttribCmds(tables, vao, n, ds[n]);
      var r := VertexAttribCmds(tables, vao, ds);
      assert r == prefix + last && |prefix| == 3 * n;
      forall i | 0 <= i < |ds|
        ensures r[3 * i .. 3 * i + 3] == AttribCmds(tables, vao, i, ds[i])
      {
        if i < n {
          assert p[i] == ds[i];
          assert r[3 * i .. 3 * i + 3] == prefix[3 * i .. 3 * i + 3];
        } else {
          assert i == n && r[3 * i .. 3 * i + 3] == last;
        }
      }
    }
  }

  /** Exactly one attribute format call per vertex binding descriptor. */
  lemma {:induction false} OneFormatCallPerDescriptor(tables: FormatTables, vao: nat, ds: seq<VertexInputBindingDescription>)
    ensures FormatCallCount(VertexAttribCmds(tables, vao, ds)) == |ds|
    decreases |ds|
  {
    if ds != [] {
      var n := |ds| - 1;
      OneFormatCallPerDescriptor(tables, vao, ds[..n]);
      FormatCallCountAppend(VertexAttribCmds(tables, vao, ds[..n]), AttribCmds(tables, vao, n, ds[n]));
      AttribCmdsHaveOneFormatCall(tables, vao, n, ds[n]);
    }
  }

  lemma AttribCmdsHaveOneFormatCall(tables: FormatTables, vao: nat, i: nat, d: VertexInputBindingDescription)
    ensures FormatCallCount(AttribCmds(tables, vao, i, d)) == 1
  {
    var a := AttribCmds(tables, vao, i, d);
    assert a[..|a| - 1] == a[..2];
    assert a[..2][..1] == a[..1];
    assert a[..1][..0] == [];
    assert FormatCallCount(a[..1]) == 0;
    assert FormatCallCount(a[..2]) == 0;
  }

  /** The rasterization block. Cull face is set only when culling is on, the
      polygon offset only when depth bias is on. */
  function RasterizationCmds(rs: RasterizationState): seq<Cmd>
  {
    [ EnableOrDisable(DepthClamp, rs.depthClampEnable),
      SetPolygonMode(rs.polygonMode),
      EnableOrDisable(FaceCulling, rs.cullMode != CULL_NONE) ]
    + (if rs.cullMode != CULL_NONE then [SetCullFace(rs.cullMode)] else [])
    + [ SetFrontFace(rs.frontFace),
        EnableOrDisable(PolygonOffsetFill, rs.depthBiasEnable),
        EnableOrDisable(PolygonOffsetLine, rs.depthBiasEnable),
        EnableOrDisable(PolygonOffsetPoint, rs.depthBiasEnable) ]
    + (if rs.depthBiasEnable then [SetPolygonOffset(rs.depthBiasSlopeFactor, rs.depthBiasConstantFactor)] else [])
    + [SetLineWidth(rs.lineWidth), SetPointSize(rs.pointSize)]
  }

  /** The commands that only touch per-draw-buffer blend state. */
  predicate IsBlendAttachmentCmd(c: Cmd)
  {
    c.BlendFuncSeparatei? || c.BlendEquationSeparatei? || c.ColorMaski?
  }

  /** The three commands for colour attachment `i`'s blend state. */
  function BlendAttachmentCmdsFor(i: nat, a: ColorBlendAttachmentState): seq<Cmd>
  {
    [ BlendFuncSeparatei(i, a.srcColorBlendFactor, a.dstColorBlendFactor, a.srcAlphaBlendFactor, a.dstAlphaBlendFactor),
      BlendEquationSeparatei(i, a.colorBlendOp, a.alphaBlendOp),
      ColorMaski(i, a.colorWriteMask) ]
  }

  /** The blend attachment loop: draw buffer `i` for attachment `i`, in order. */
  function BlendAttachmentCmds(ats: seq<ColorBlendAttachmentState>): seq<Cmd>
    decreases |ats|
  {
    if ats == [] then []
    else
      var n := |ats| - 1;
      BlendAttachmentCmds(ats[..n]) + BlendAttachmentCmdsFor(n, ats[n])
  }

  /** Attachment `i`'s blend commands sit at `3i .. 3i+3` and address draw
      buffer `i`; the sequence holds nothing else. */
  lemma {:induction false} BlendAttachmentCmdsAt(ats: seq<ColorBlendAttachmentState>)
    ensures |BlendAttachmentCmds(ats)| == 3 * |ats|
    ensures forall i :: 0 <= i < |ats| ==>
              BlendAttachmentCmds(ats)[3 * i .. 3 * i + 3] == BlendAttachmentCmdsFor(i, ats[i])
    ensures forall c :: c in BlendAttachmentCmds(ats) ==> IsBlendAttachmentCmd(c)
    decreases |ats|
  {
    if ats != [] {
      var n := |ats| - 1;
      var p := ats[..n];
      BlendAttachmentCmdsAt(p);
      var prefix := BlendAttachmentCmds(p);
      var last := BlendAttachmentCmdsFor(n, ats[n]);
      var r := BlendAttachmentCmds(ats);
      assert r == prefix + last && |prefix| == 3 * n;
      forall i | 0 <= i < |ats|
        ensures r[3 * i .. 3 * i + 3] == BlendAttachmentCmdsFor(i, ats[i])
      {
        if i < n {
          assert p[i] == ats[i];
          assert r[3 * i .. 3 * i + 3] == prefix[3 * i .. 3 * i + 3];
        } else {
          assert i == n && r[3 * i .. 3 * i + 3] == last;
        }
      }
    }
  }

  /** The colour blend block. The logic op is set only when it is enabled. */
  function ColorBlendCmds(cb: ColorBlendStateOwning): seq<Cmd>
  {
    [EnableOrDisable(ColorLogicOp, cb.logicOpEnable)]
    + (if cb.logicOpEnable then [SetLogicOp(cb.logicOp)] else [])
    + [SetBlendColor(cb.blendConstants)]
    + BlendAttachmentCmds(cb.attachments)
  }

  /** What a pipeline switch issues before the vertex attributes: the program,
      primitive restart, and the old vertex array replaced by a new one. */
  function ProgramAndVaoCmds(info: GraphicsPipelineInfoOwning, oldVao: nat, newVao: nat): seq<Cmd>
  {
    [ UseProgram(info.shaderProgram),
      EnableOrDisable(PrimitiveRestartFixedIndex, info.inputAssemblyState.primitiveRestartEnable),
      DeleteVertexArray(oldVao),
      CreateVertexArray(newVao) ]
  }

  /** What a pipeline switch issues after the vertex attributes: bind the new
      vertex array, then rasterization, depth and colour blending state. */
  function FixedStateCmds(info: GraphicsPipelineInfoOwning, newVao: nat): seq<Cmd>
  {
    [BindVertexArray(newVao)]
    + RasterizationCmds(info.rasterizationState)
    + [ EnableOrDisable(DepthTest, info.depthStencilState.depthTestEnable),
        SetDepthMask(info.depthStencilState.depthWriteEnable) ]
    + ColorBlendCmds(info.colorBlendState)
  }

  /** Everything a pipeline switch issues, in order. */
  function ApplyPipelineCmds(tables: FormatTables, info: GraphicsPipelineInfoOwning, oldVao: nat, newVao: nat): seq<Cmd>
  {
    ProgramAndVaoCmds(info, oldVao, newVao)
    + VertexAttribCmds(tables, newVao, info.vertexInputState.vertexBindingDescriptions)
    + FixedStateCmds(info, newVao)
  }

  /** A pipeline switch sets the cull face exactly when culling is on, and
      switches face culling on exactly then. */
  lemma CullFaceOnlyWhenCulling(tables: FormatTables, info: GraphicsPipelineInfoOwning, oldVao: nat, newVao: nat)
    ensures (exists c :: c in ApplyPipelineCmds(tables, info, oldVao, newVao) && c.SetCullFace?)
            <==> info.rasterizationState.cullMode != CULL_NONE
    ensures EnableOrDisable(FaceCulling, info.rasterizationState.cullMode != CULL_NONE)
            in ApplyPipelineCmds(tables, info, oldVao, newVao)
  {
    var head := ProgramAndVaoCmds(info, oldVao, newVao);
    var va := VertexAttribCmds(tables, newVao, info.vertexInputState.vertexBindingDescriptions);
    var tail := FixedStateCmds(info, newVao);
    var blend := BlendAttachmentCmds(info.colorBlendState.attachments);
    VertexAttribCmdsAt(tables, newVao, info.vertexInputState.vertexBindingDescriptions);
    BlendAttachmentCmdsAt(info.colorBlendState.attachments);
    var rs := info.rasterizationState;
    assert EnableOrDisable(FaceCulling, rs.cullMode != CULL_NONE) in RasterizationCmds(rs);
    assert EnableOrDisable(FaceCulling, rs.cullMode != CULL_NONE) in tail;
    if rs.cullMode != CULL_NONE {
      assert SetCullFace(rs.cullMode) in RasterizationCmds(rs);
      assert SetCullFace(rs.cullMode) in tail;
      assert SetCullFace(rs.cullMode) in ApplyPipelineCmds(tables, info, oldVao, newVao);
    } else {
      forall c: Cmd | c in head + va + tail
        ensures !c.SetCullFace?
      {
        if c in va {
          assert IsVertexAttribCmd(c);
        } else if c in blend {
          assert IsBlendAttachmentCmd(c);
        }
      }
    }
  }

  /** A pipeline switch sets the polygon offset exactly when depth bias is on,
      with the slope factor first and the constant factor second. */
  lemma PolygonOffsetOnlyWithDepthBias(tables: FormatTables, info: GraphicsPipelineInfoOwning, oldVao: nat, newVao: nat)
    ensures (exists c :: c in ApplyPipelineCmds(tables, info, oldVao, newVao) && c.SetPolygonOffset?)
            <==> info.rasterizationState.depthBiasEnable
    ensures info.rasterizationState.depthBiasEnable ==>
              SetPolygonOffset(info.rasterizationState.depthBiasSlopeFactor, info.rasterizationState.depthBiasConstantFactor)
              in ApplyPipelineCmds(tables, info, oldVao, newVao)
  {
    var head := ProgramAndVaoCmds(info, oldVao, newVao);
    var va := VertexAttribCmds(tables, newVao, info.vertexInputState.vertexBindingDescriptions);
    var tail := FixedStateCmds(info, newVao);
    var blend := BlendAttachmentCmds(info.colorBlendState.attachments);
    VertexAttribCmdsAt(tables, newVao, info.vertexInputState.vertexBindingDescriptions);
    BlendAttachmentCmdsAt(info.colorBlendState.attachments);
    var rs := info.rasterizationState;
    if rs.depthBiasEnable {
      assert SetPolygonOffset(rs.depthBiasSlopeFactor, rs.depthBiasConstantFactor) in RasterizationCmds(rs);
      assert SetPolygonOffset(rs.depthBiasSlopeFactor, rs.depthBiasConstantFactor) in tail;
      assert SetPolygonOffset(rs.depthBiasSlopeFactor, rs.depthBiasConstantFactor)
        in ApplyPipelineCmds(tables, info, oldVao, newVao);
    } else {
      forall c: Cmd | c in head + va + tail
        ensures !c.SetPolygonOffset?
      {
        if c in va {
          assert IsVertexAttribCmd(c);
        } else if c in blend {
          assert IsBlendAttachmentCmd(c);
        }
      }
    }
  }

  /** A pipeline switch sets the logic op exactly when it is enabled. */
  lemma LogicOpOnlyWhenEnabled(tables: FormatTables, info: GraphicsPipelineInfoOwning, oldVao: nat, newVao: nat)
    ensures (exists c :: c in ApplyPipelineCmds(tables, info, oldVao, newVao) && c.SetLogicOp?)
            <==> info.colorBlendState.logicOpEnable
  {
    var head := ProgramAndVaoCmds(info, oldVao, newVao);
    var va := VertexAttribCmds(tables, newVao, info.vertexInputState.vertexBindingDescriptions);
    var tail := FixedStateCmds(info, newVao);
    var blend := BlendAttachmentCmds(info.colorBlendState.attachments);
    VertexAttribCmdsAt(tables, newVao, info.vertexInputState.vertexBindingDescriptions);
    BlendAttachmentCmdsAt(info.colorBlendState.attachments);
    var cb := info.colorBlendState;
    if cb.logicOpEnable {
      assert SetLogicOp(cb.logicOp) in ColorBlendCmds(cb);
      assert SetLogicOp(cb.logicOp) in tail;
      assert SetLogicOp(cb.logicOp) in ApplyPipelineCmds(tables, info, oldVao, newVao);
    } else {
      forall c: Cmd | c in head + va + tail
        ensures !c.SetLogicOp?
      {
        if c in va {
          assert IsVertexAttribCmd(c);
        } else if c in blend {
          assert IsBlendAttachmentCmd(c);
        }
      }
    }
  }

  /** A pipeline switch issues exactly one attribute format call per vertex
      binding descriptor. */
  lemma FormatCallsMatchDescriptors(tables: FormatTables, info: GraphicsPipelineInfoOwning, oldVao: nat, newVao: nat)
    ensures FormatCallCount(ApplyPipelineCmds(tables, info, oldVao, newVao))
            == |info.vertexInputState.vertexBindingDescriptions|
  {
    var ds := info.vertexInputState.vertexBindingDescriptions;
    var head := ProgramAndVaoCmds(info, oldVao, newVao);
    var va := VertexAttribCmds(tables, newVao, ds);
    var tail := FixedStateCmds(info, newVao);
    FormatCallCountAppend(head + va, tail);
    FormatCallCountAppend(head, va);
    OneFormatCallPerDescriptor(tables, newVao, ds);
    NoFormatCalls(head);
    NoFormatCallsInFixedState(info, newVao);
  }

  lemma NoFormatCallsInFixedState(info: GraphicsPipelineInfoOwning, newVao: nat)
    ensures FormatCallCount(FixedStateCmds(info, newVao)) == 0
  {
    BlendAttachmentCmdsAt(info.colorBlendState.attachments);
    NoFormatCalls(FixedStateCmds(info, newVao));
  }

  lemma {:induction false} NoFormatCalls(cmds: seq<Cmd>)
    requires forall c :: c in cmds ==> !IsAttribFormatCmd(c)
    ensures FormatCallCount(cmds) == 0
    decreases |cmds|
  {
    if cmds != [] {
      var p := cmds[..|cmds| - 1];
      assert forall c :: c in p ==> c in cmds;
      NoFormatCalls(p);
    }
  }
}
