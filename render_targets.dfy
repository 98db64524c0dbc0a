/** Render targets and the commands that set them up when a pass begins. */
module RenderTargets {
  import opened Types
  import opened Gl

  /** A texture view as the session uses it: its GL name identifies it. */
  datatype TextureView = TextureView(handle: nat, format: Format, numLevels: nat)

  datatype RenderColorAttachment = RenderColorAttachment(
    textureView: TextureView,
    clearValue: ColorBits,
    clearOnLoad: bool)

  datatype ClearDepthStencilValue = ClearDepthStencilValue(depth: Float32, stencil: int)

  datatype RenderDepthStencilAttachment = RenderDepthStencilAttachment(
    textureView: TextureView,
    clearValue: ClearDepthStencilValue,
    clearOnLoad: bool)

  /** The viewport: `drawRect` (offset and extent) and the depth range. */
  datatype Viewport = Viewport(
    x: int, y: int, width: nat, height: nat,
    minDepth: Float32, maxDepth: Float32)

  /** A caller-owned render target description. The session remembers the
      last one by identity, so it is an object, and the caller may change
      it in place between passes. */
  class RenderInfo {
    var viewport: Viewport
    var colorAttachments: seq<RenderColorAttachment>
    var depthAttachment: Option<RenderDepthStencilAttachment>
    var stencilAttachment: Option<RenderDepthStencilAttachment>

    constructor (viewport: Viewport, colorAttachments: seq<RenderColorAttachment>,
                 depthAttachment: Option<RenderDepthStencilAttachment>,
                 stencilAttachment: Option<RenderDepthStencilAttachment>)
      ensures this.viewport == viewport && this.colorAttachments == colorAttachments
      ensures this.depthAttachment == depthAttachment && this.stencilAttachment == stencilAttachment
    {
      this.viewport := viewport;
      this.colorAttachments := colorAttachments;
      this.depthAttachment := depthAttachment;
      this.stencilAttachment := stencilAttachment;
    }
  }

  /** Rendering to the default framebuffer. */
  datatype SwapchainRenderInfo = SwapchainRenderInfo(
    clearColorOnLoad: bool,
    clearColorValue: ColorBits,
    clearDepthOnLoad: bool,
    clearDepthValue: Float32,
    clearStencilOnLoad: bool,
    clearStencilValue: int)

  /** The `glClear` mask of a swapchain pass. */
  function SwapchainClearMask(ri: SwapchainRenderInfo): (mask: bv32)
    ensures mask & COLOR_BUFFER_BIT != 0 <==> ri.clearColorOnLoad
    ensures mask & DEPTH_BUFFER_BIT != 0 <==> ri.clearDepthOnLoad
    ensures mask & STENCIL_BUFFER_BIT != 0 <==> ri.clearStencilOnLoad
    ensures mask & !(COLOR_BUFFER_BIT | DEPTH_BUFFER_BIT | STENCIL_BUFFER_BIT) == 0
  {
    (if ri.clearColorOnLoad then COLOR_BUFFER_BIT else 0)
    | (if ri.clearDepthOnLoad then DEPTH_BUFFER_BIT else 0)
    | (if ri.clearStencilOnLoad then STENCIL_BUFFER_BIT else 0)
  }

  /** What `BeginSwapchainRendering` issues: bind the default framebuffer, set
      each flagged clear value, then one `glClear`. */
  function SwapchainCmds(ri: SwapchainRenderInfo): seq<Cmd>
  {
    [BindFramebuffer(0)]
    + (if ri.clearColorOnLoad then [SetClearColor(ri.clearColorValue)] else [])
    + (if ri.clearDepthOnLoad then [SetClearDepth(ri.clearDepthValue)] else [])
    + (if ri.clearStencilOnLoad then [SetClearStencil(ri.clearStencilValue)] else [])
    + [Clear(SwapchainClearMask(ri))]
  }

  /** A swapchain pass binds framebuffer 0 first and issues exactly one clear,
      last, even when its mask is empty; its clear values are set only for the
      flagged buffers. */
  lemma SwapchainClearsOnce(ri: SwapchainRenderInfo)
    ensures SwapchainCmds(ri)[0] == BindFramebuffer(0)
    ensures SwapchainCmds(ri)[|SwapchainCmds(ri)| - 1] == Clear(SwapchainClearMask(ri))
    ensures forall k :: 0 <= k < |SwapchainCmds(ri)| - 1 ==> !SwapchainCmds(ri)[k].Clear?
    ensures SetClearColor(ri.clearColorValue) in SwapchainCmds(ri) <==> ri.clearColorOnLoad
    ensures SetClearDepth(ri.clearDepthValue) in SwapchainCmds(ri) <==> ri.clearDepthOnLoad
    ensures SetClearStencil(ri.clearStencilValue) in SwapchainCmds(ri) <==> ri.clearStencilOnLoad
  {
  }

  /** One `glNamedFramebufferTexture` per colour attachment, attachment `i`
      at `GL_COLOR_ATTACHMENT0 + i`. */
  function ColorAttachCmds(fbo: nat, atts: seq<RenderColorAttachment>): seq<Cmd>
    decreases |atts|
  {
    if atts == [] then []
    else
      var n := |atts| - 1;
      ColorAttachCmds(fbo, atts[..n]) + [NamedFramebufferTexture(fbo, ColorAttachment(n), atts[n].textureView.handle)]
  }

  /** The `drawBuffers` list: the first `n` colour attachment points, in order. */
  function DrawBufferList(n: nat): seq<AttachmentPoint>
  {
    seq(n, i requires 0 <= i < n => ColorAttachment(i))
  }

  /** Colour attachment `i` is attached at slot `i`, and the draw-buffer list
      names exactly the slots attached, in the same order. */
  lemma {:induction false} ColorAttachCmdsAt(fbo: nat, atts: seq<RenderColorAttachment>)
    ensures |ColorAttachCmds(fbo, atts)| == |atts|
    ensures forall i :: 0 <= i < |atts| ==>
              ColorAttachCmds(fbo, atts)[i] == NamedFramebufferTexture(fbo, ColorAttachment(i), atts[i].textureView.handle)
    ensures |DrawBufferList(|atts|)| == |atts|
    ensures forall i :: 0 <= i < |atts| ==> DrawBufferList(|atts|)[i] == ColorAttachCmds(fbo, atts)[i].attachment
    decreases |atts|
  {
    if atts != [] {
      var n := |atts| - 1;
      ColorAttachCmdsAt(fbo, atts[..n]);
      assert forall i :: 0 <= i < n ==> atts[..n][i] == atts[i];
    }
  }

  /** The clear of colour attachment `i`: the call is chosen by the format
      class of the attachment's view. */
  function ColorClearCmd(tables: FormatTables, fbo: nat, i: nat, a: RenderColorAttachment): Cmd
  {
    ClearNamedFramebufferColor(fbo, i, tables.baseTypeClass(a.textureView.format), a.clearValue)
  }

  /** One clear per colour attachment flagged `clearOnLoad`, in attachment order. */
  function ColorClearCmds(tables: FormatTables, fbo: nat, atts: seq<RenderColorAttachment>): seq<Cmd>
    decreases |atts|
  {
    if atts == [] then []
    else
      var n := |atts| - 1;
      ColorClearCmds(tables, fbo, atts[..n])
      + (if atts[n].clearOnLoad then [ColorClearCmd(tables, fbo, n, atts[n])] else [])
  }

  /** Every command is a colour clear, and their draw buffers strictly increase. */
  ghost predicate IncreasingDrawBuffers(cmds: seq<Cmd>)
  {
    forall j, k :: 0 <= j < k < |cmds| ==>
      cmds[j].ClearNamedFramebufferColor? && cmds[k].ClearNamedFramebufferColor?
      && cmds[j].drawBuffer < cmds[k].drawBuffer
  }

  /** Each colour clear belongs to a flagged attachment and uses the call its
      format class selects; every flagged attachment is cleared; and the draw
      buffers cleared strictly increase, so none is cleared twice. */
  lemma {:induction false} ColorClearCmdsSpec(tables: FormatTables, fbo: nat, atts: seq<RenderColorAttachment>)
    ensures forall c :: c in ColorClearCmds(tables, fbo, atts) ==>
              && c.ClearNamedFramebufferColor?
              && c.drawBuffer < |atts|
              && atts[c.drawBuffer].clearOnLoad
              && c == ColorClearCmd(tables, fbo, c.drawBuffer, atts[c.drawBuffer])
    ensures forall i :: 0 <= i < |atts| && atts[i].clearOnLoad ==>
              ColorClearCmd(tables, fbo, i, atts[i]) in ColorClearCmds(tables, fbo, atts)
    ensures IncreasingDrawBuffers(ColorClearCmds(tables, fbo, atts))
    decreases |atts|
  {
    if atts != [] {
      var n := |atts| - 1;
      var p := atts[..n];
      ColorClearCmdsSpec(tables, fbo, p);
      assert forall i :: 0 <= i < n ==> p[i] == atts[i];
      var prefix := ColorClearCmds(tables, fbo, p);
      var r := ColorClearCmds(tables, fbo, atts);
      forall j, k | 0 <= j < k < |r|
        ensures r[j].ClearNamedFramebufferColor? && r[k].ClearNamedFramebufferColor?
                && r[j].drawBuffer < r[k].drawBuffer
      {
        assert r[j] == prefix[j] && prefix[j] in prefix;
        if k == |prefix| {
          assert r[k] == ColorClearCmd(tables, fbo, n, atts[n]);
        } else {
          assert r[k] == prefix[k];
        }
      }
    }
  }

  /** An optional depth or stencil attachment that asks to be cleared. */
  predicate ClearsOnLoad(a: Option<RenderDepthStencilAttachment>)
  {
    a.Some? && a.value.clearOnLoad
  }

  /** Where the depth and stencil images are attached: combined when both are
      present and are the same view; otherwise depth if present (a separate
      stencil view is then not attached); otherwise stencil if present. */
  function DepthStencilAttachCmds(fbo: nat, depth: Option<RenderDepthStencilAttachment>,
                                  stencil: Option<RenderDepthStencilAttachment>): (r: seq<Cmd>)
    ensures |r| <= 1
    ensures |r| == 1 <==> depth.Some? || stencil.Some?
    ensures |r| == 1 ==> r[0].NamedFramebufferTexture? && r[0].framebuffer == fbo
    ensures (|r| == 1 && r[0].attachment == DepthStencilAttachment) <==>
              depth.Some? && stencil.Some? && depth.value.textureView == stencil.value.textureView
    ensures (|r| == 1 && r[0].attachment == DepthAttachment) <==>
              depth.Some? && !(stencil.Some? && depth.value.textureView == stencil.value.textureView)
    ensures |r| == 1 && r[0].attachment == StencilAttachment <==> depth.None? && stencil.Some?
    ensures |r| == 1 ==> !r[0].attachment.ColorAttachment?
    ensures |r| == 1 && depth.Some? ==> r[0].texture == depth.value.textureView.handle
    ensures |r| == 1 && depth.None? ==> r[0].texture == stencil.value.textureView.handle
  {
    if depth.Some? && stencil.Some? && depth.value.textureView == stencil.value.textureView then
      [NamedFramebufferTexture(fbo, DepthStencilAttachment, depth.value.textureView.handle)]
    else if depth.Some? then
      [NamedFramebufferTexture(fbo, DepthAttachment, depth.value.textureView.handle)]
    else if stencil.Some? then
      [NamedFramebufferTexture(fbo, StencilAttachment, stencil.value.textureView.handle)]
    else
      []
  }

  /** At most one depth/stencil clear: combined when both are present and
      flagged, depth-only or stencil-only when just that one is flagged. Every
      flagged depth or stencil attachment is cleared by it. */
  function DepthStencilClearCmds(fbo: nat, depth: Option<RenderDepthStencilAttachment>,
                                 stencil: Option<RenderDepthStencilAttachment>): (r: seq<Cmd>)
    ensures |r| <= 1
    ensures |r| == 1 <==> ClearsOnLoad(depth) || ClearsOnLoad(stencil)
    ensures |r| == 1 && r[0].ClearNamedFramebufferDepthStencil? <==> ClearsOnLoad(depth) && ClearsOnLoad(stencil)
    ensures |r| == 1 && r[0].ClearNamedFramebufferDepth? <==> ClearsOnLoad(depth) && !ClearsOnLoad(stencil)
    ensures |r| == 1 && r[0].ClearNamedFramebufferStencil? <==> ClearsOnLoad(stencil) && !ClearsOnLoad(depth)
    ensures |r| == 1 && ClearsOnLoad(depth) ==>
              r[0].framebuffer == fbo && r[0].depth == depth.value.clearValue.depth
    ensures |r| == 1 && ClearsOnLoad(depth) && ClearsOnLoad(stencil) ==>
              r[0].stencil == depth.value.clearValue.stencil
    ensures |r| == 1 && !ClearsOnLoad(depth) ==>
              r[0].framebuffer == fbo && r[0].stencil == stencil.value.clearValue.stencil
  {
    if ClearsOnLoad(depth) && ClearsOnLoad(stencil) then
      [ClearNamedFramebufferDepthStencil(fbo, depth.value.clearValue.depth, depth.value.clearValue.stencil)]
    else if ClearsOnLoad(depth) && !ClearsOnLoad(stencil) then
      [ClearNamedFramebufferDepth(fbo, depth.value.clearValue.depth)]
    else if ClearsOnLoad(stencil) && !ClearsOnLoad(depth) then
      [ClearNamedFramebufferStencil(fbo, stencil.value.clearValue.stencil)]
    else
      []
  }

  /** The closing commands of a rebuild: viewport, depth range, bind. */
  function ViewportCmds(fbo: nat, vp: Viewport): seq<Cmd>
  {
    [SetViewport(vp.x, vp.y, vp.width, vp.height), SetDepthRange(vp.minDepth, vp.maxDepth), BindFramebuffer(fbo)]
  }

  /** What `BeginRendering` issues on a freshly created framebuffer: colour
      attachments, draw buffers, colour clears, depth and stencil attachment
      and clear, then viewport and bind. */
  function FramebufferSetupCmds(tables: FormatTables, ri: RenderInfo, fbo: nat): seq<Cmd>
    reads ri
  {
    ColorAttachCmds(fbo, ri.colorAttachments)
    + [NamedFramebufferDrawBuffers(fbo, DrawBufferList(|ri.colorAttachments|))]
    + ColorClearCmds(tables, fbo, ri.colorAttachments)
    + DepthStencilAttachCmds(fbo, ri.depthAttachment, ri.stencilAttachment)
    + DepthStencilClearCmds(fbo, ri.depthAttachment, ri.stencilAttachment)
    + ViewportCmds(fbo, ri.viewport)
  }

  /** What `BeginRendering` issues when it rebuilds the framebuffer. */
  function RebuildCmds(tables: FormatTables, ri: RenderInfo, oldFbo: nat, newFbo: nat): seq<Cmd>
    reads ri
  {
    [DeleteFramebuffer(oldFbo), CreateFramebuffer(newFbo)] + FramebufferSetupCmds(tables, ri, newFbo)
  }
}
