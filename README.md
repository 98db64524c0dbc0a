# Pipeline registry and render session of an OpenGL abstraction layer

This project models two parts of the library, in Dafny:

- **The graphics pipeline registry** (`src/detail/PipelineManager.cpp`). It is a content-addressed cache.
  - A `GraphicsPipelineInfo` is hashed with `hash_combine` into a 64-bit handle.
  - The first description seen under a handle is stored as an owning deep copy.
  - Entries can be looked up and destroyed.
- **The render session** (`src/Rendering.cpp`). It is a state machine over file-scope globals.
  - The state is the pass flags, the last pipeline and the last render target description, the topology, the index type, and the current vertex array and framebuffer.
  - The session turns each entry point into a sequence of driver calls.

Every driver call is modelled as a `Gl.Cmd` record appended to the session's `log`. Each entry point is a method of `Rendering.Session`. Each method is proved to append exactly the commands of a specification function. That function is then proved to have the properties the code promises, by lemmas in `RenderTargets` and `PipelineState`.

Layout:

| file | module | contents |
|---|---|---|
| `types.dfy` | `Types` | `Option`, 32-bit floats as bit patterns, the API enumerations as codes |
| `hashing.dfy` | `Hashing` | `hash_combine` in 64-bit arithmetic and the recursive tuple hash |
| `pipeline_info.dfy` | `PipelineInfo` | the pipeline description, its owning copy, and `MakePipelineInfoOwning` |
| `pipeline_manager.dfy` | `PipelineManager` | `HashPipelineInfo` and the `Registry` class over the `gPipelines` map |
| `gl.dfy` | `Gl` | the driver calls as `Cmd` records, and the format lookup tables |
| `render_targets.dfy` | `RenderTargets` | render target descriptions and the commands that begin a pass |
| `pipeline_state.dfy` | `PipelineState` | the commands that apply a pipeline |
| `rendering.dfy` | `Rendering` | the `Session` class: globals, entry points, loops |

Two details of the code shape the `Session` contracts:

- **Entering a pass leaves the binding flags alone.** Neither Begin function resets `isPipelineBound` or `isIndexBufferBound`; only `EndRendering` does (`src/Rendering.cpp:146-152`). `Session.BeginSwapchainRendering` and `Session.BeginRendering` therefore leave both flags unchanged.
- **Misuse of Begin and End is a `GSDF_ASSERT`** (`src/Rendering.cpp:37`, `67`, `148`), modelled as a `requires`, as are the other `GSDF_ASSERT`s of the file.

## Model

| member | source | states |
|---|---|---|
| Hashing.Mix | src/detail/PipelineManager.cpp:9-12 | for a fixed seed the 64-bit combine step is invertible: `Unmix` recovers the value hash from the old and new seed, so distinct value hashes never collide in one step |
| Hashing.HashCombine | src/detail/PipelineManager.cpp:9-12 | `hash_combine(seed, v)` updates the seed so that the old seed recovers `std::hash(v)` from it |
| Hashing.HashValueApply | src/detail/PipelineManager.cpp:15-32 | the template over a one-member tuple is a single `hash_combine` of member 0, as the `Index == 0` specialisation does; its meaning for every length is given by `Hashing.HashValueApplyIsFoldLeft` |
| Hashing.TupleHash | src/detail/PipelineManager.cpp:34-43 | the tuple hash is the left fold of `hash_combine` over the members in index order, starting from seed 0 |
| Hashing.HashValueApplyAppend | src/detail/PipelineManager.cpp:18-22 | hashing a concatenation from a seed equals hashing the second part from the first part's result |
| Hashing.HashValueApplyIsFoldLeft | src/detail/PipelineManager.cpp:9-41 | the last-member-first recursive template computes the left fold of `hash_combine` over the members in index order |
| Hashing.OrderMatters | src/detail/PipelineManager.cpp:9-12 | `hash_combine` is order-sensitive: with the identity hash on `size_t`, the tuples (1, 2) and (2, 1) hash differently |
| PipelineInfo.MakePipelineInfoOwning | src/detail/PipelineManager.cpp:116-133 | the owning copy equals the input field by field; both variable-length sequences are copied element-wise in order; viewing the copy gives back the input |
| PipelineInfo.OwningRoundTrip | src/detail/PipelineManager.cpp:116-133 | corollary of `MakePipelineInfoOwning`: copying the view of a stored entry gives the same entry, so the copy loses nothing |
| PipelineManager.FixedFields | src/detail/PipelineManager.cpp:62-82 | the fixed tuple has exactly the 20 fixed-size fields |
| PipelineManager.PipelineHash | src/detail/PipelineManager.cpp:59-115 | the handle is the tuple-hash template run from seed 0 over the fixed fields followed by every descriptor hash, in that order |
| PipelineManager.PipelineHashIsOneFold | src/detail/PipelineManager.cpp:59-115 | the handle is one left fold of `hash_combine` from seed 0: over the 20 fixed fields, then each binding hash, then each attachment hash |
| PipelineManager.HashPipelineInfo | src/detail/PipelineManager.cpp:59-115 | the two loops compute the handle `PipelineHash` defines: fixed tuple hash, then binding hashes in order, then attachment hashes in order |
| PipelineManager.CombineBindingHashes | src/detail/PipelineManager.cpp:86-96 | the binding loop combines each descriptor's tuple hash into the seed, in order |
| PipelineManager.CombineAttachmentHashes | src/detail/PipelineManager.cpp:98-112 | the attachment loop combines each attachment's tuple hash into the seed, in order |
| PipelineManager.CompileFrame | src/detail/PipelineManager.cpp:136-147 | after Compile the handle is present; the keys are the old keys plus the handle; every old entry is unchanged; a new entry is the owning copy |
| PipelineManager.CompileIdempotent | src/detail/PipelineManager.cpp:136-147 | compiling the same description again leaves the map unchanged |
| PipelineManager.FirstSeenWins | src/detail/PipelineManager.cpp:138-142 | a later description with the same handle leaves the stored first-seen entry in place, even when the two descriptions differ |
| PipelineManager.DestroyFrame | src/detail/PipelineManager.cpp:158-168 | Destroy removes exactly the key, keeps every other entry, and a second Destroy changes nothing |
| PipelineManager.Registry.constructor | src/detail/PipelineManager.cpp:57 | the registry starts empty |
| PipelineManager.Registry.CompileGraphicsPipelineInternal | src/detail/PipelineManager.cpp:136-147 | always returns the description's handle, never empty; the handle is then present; the map is unchanged if the handle was present, and otherwise gains exactly the owning copy under it |
| PipelineManager.Registry.GetGraphicsPipelineInternal | src/detail/PipelineManager.cpp:149-156 | non-null iff the key is present, and then it is the stored entry; it reads the map and changes nothing |
| PipelineManager.Registry.DestroyGraphicsPipelineInternal | src/detail/PipelineManager.cpp:158-168 | returns true iff the key was present; the map afterwards is the old map without that key |
| PipelineManager.CompileTwice | src/detail/PipelineManager.cpp:136-156 | two compilations of one description return the same handle; Get of it is non-null; the second call does not change the map |
| PipelineManager.DestroyTwice | src/detail/PipelineManager.cpp:158-168 | the first Destroy reports whether the key was present; the second reports false |
| PipelineState.AttribFormatCmd | src/Rendering.cpp:188-204 | the float, integer or 64-bit attribute format call is chosen iff the format class is float, int or long; it carries the attribute index, offset, size, type and, for the float call, the normalized flag |
| PipelineState.VertexAttribCmdsAt | src/Rendering.cpp:182-205 | descriptor i gets three commands at positions 3i to 3i+3: enable attribute i, bind attribute i to the descriptor's binding, set the format; nothing else is issued |
| PipelineState.OneFormatCallPerDescriptor | src/Rendering.cpp:182-205 | the vertex input loop issues exactly one format call per descriptor |
| PipelineState.BlendAttachmentCmdsAt | src/Rendering.cpp:242-256 | attachment i gets its blend function, blend equation and colour mask, all for draw buffer i, at positions 3i to 3i+3; nothing else is issued |
| PipelineState.CullFaceOnlyWhenCulling | src/Rendering.cpp:212-216 | a pipeline switch sets the cull face iff the cull mode is not NONE, and enables face culling exactly then |
| PipelineState.PolygonOffsetOnlyWithDepthBias | src/Rendering.cpp:218-224 | a pipeline switch sets the polygon offset iff depth bias is enabled, with the slope factor first and the constant factor second |
| PipelineState.LogicOpOnlyWhenEnabled | src/Rendering.cpp:236-240 | a pipeline switch sets the logic op iff it is enabled |
| PipelineState.FormatCallsMatchDescriptors | src/Rendering.cpp:171-256 | a whole pipeline switch issues exactly as many attribute format calls as there are vertex binding descriptors |
| RenderTargets.RenderInfo.constructor | src/Rendering.cpp:65 | a render target description holds the viewport and attachments it is built from |
| RenderTargets.SwapchainClearMask | src/Rendering.cpp:44-61 | the clear mask has the colour, depth and stencil bit iff the matching flag is set, and no other bit |
| RenderTargets.SwapchainClearsOnce | src/Rendering.cpp:41-62 | a swapchain pass binds framebuffer 0 first and ends with the one clear, issued even with an empty mask; no other clear is issued; each clear value is set iff its flag is set |
| RenderTargets.ColorAttachCmdsAt | src/Rendering.cpp:81-87 | colour attachment i is attached at slot COLOR_ATTACHMENT0+i with its view's texture; the draw-buffer list is exactly those slots in order |
| RenderTargets.ColorClearCmdsSpec | src/Rendering.cpp:88-109 | every colour clear belongs to a flagged attachment and uses the call its base type class selects; every flagged attachment is cleared; the draw buffers cleared strictly increase, so none is cleared twice |
| RenderTargets.DepthStencilAttachCmds | src/Rendering.cpp:110-121 | combined point iff both are present with the same view; otherwise depth point iff depth is present; stencil point iff only stencil is present; nothing iff neither is present |
| RenderTargets.DepthStencilClearCmds | src/Rendering.cpp:123-139 | at most one clear: combined iff both are flagged, depth-only iff only depth is flagged, stencil-only iff only stencil is flagged; the combined clear takes both values from the depth attachment |
| Rendering.Session.constructor | src/Rendering.cpp:22-32 | the globals start zero-initialised: no pass, no pipeline, no index buffer, null render info, names 0, empty log |
| Rendering.Session.BeginSwapchainRendering | src/Rendering.cpp:35-63 | requires no pass; starts one, forgets the last render info, and issues exactly the swapchain commands, with the mask built by `\|=` equal to `SwapchainClearMask` |
| Rendering.Session.BeginRendering | src/Rendering.cpp:65-144 | requires no pass; starts one and remembers `ri`; when `ri` is the same object as last time nothing is issued, otherwise the framebuffer is deleted, recreated and set up |
| Rendering.Session.SetUpFramebuffer | src/Rendering.cpp:80-143 | issues the colour attachments, draw buffers, colour clears, depth and stencil attachment and clear, viewport, depth range and bind, in that order |
| Rendering.Session.AttachColorTargets | src/Rendering.cpp:80-86 | the loop attaches every colour attachment in order and builds the draw-buffer list |
| Rendering.Session.ClearColorTargets | src/Rendering.cpp:88-109 | the loop issues exactly the colour clears of the flagged attachments, in order |
| Rendering.Session.AttachDepthStencil | src/Rendering.cpp:110-121 | the if chain issues exactly the attachment that `DepthStencilAttachCmds` selects |
| Rendering.Session.ClearDepthStencil | src/Rendering.cpp:123-139 | the if chain issues exactly the clear that `DepthStencilClearCmds` selects |
| Rendering.Session.EndRendering | src/Rendering.cpp:146-152 | requires a pass; afterwards no pass, no pipeline bound and no index buffer bound; the caches are kept |
| Rendering.Session.BindGraphicsPipeline | src/Rendering.cpp:156-257 | requires a registered handle; always marks a pipeline bound; the last handle again issues nothing and changes nothing else; any other handle becomes the last one, takes its topology and is applied in full |
| Rendering.Session.ApplyPipeline | src/Rendering.cpp:170-256 | issues program, primitive restart, a vertex array replaced by a new one, its attributes, then the fixed-function state; records the topology |
| Rendering.Session.ApplyVertexInput | src/Rendering.cpp:182-205 | the loop issues exactly the attribute commands of `VertexAttribCmds` |
| Rendering.Session.ApplyFixedState | src/Rendering.cpp:206-256 | issues the vertex array bind, rasterization, depth and colour blend state, in order |
| Rendering.Session.ApplyRasterization | src/Rendering.cpp:209-226 | issues exactly `RasterizationCmds`, with its two guarded commands |
| Rendering.Session.ApplyColorBlend | src/Rendering.cpp:235-256 | issues the logic op state and blend colour, then the loop over attachments, exactly as `ColorBlendCmds` |
| Rendering.Session.BindVertexBuffer | src/Rendering.cpp:259-263 | requires a pass; binds the buffer range to the slot of the current vertex array |
| Rendering.Session.BindIndexBuffer | src/Rendering.cpp:265-271 | requires a pass; marks an index buffer bound, records the index type, and binds the buffer to the current vertex array |
| Rendering.Session.Draw | src/Rendering.cpp:273-282 | requires a pass; draws with the last pipeline's topology, first vertex before vertex count |
| Rendering.Session.DrawIndexed | src/Rendering.cpp:284-295 | requires a pass and a bound index buffer; draws with the recorded topology and index type |
| Rendering.Session.BindUniformBuffer | src/Rendering.cpp:297-301 | requires a pass; binds the range to the uniform buffer target |
| Rendering.Session.BindStorageBuffer | src/Rendering.cpp:303-307 | requires a pass; binds the range to the uniform buffer target, exactly as `BindUniformBuffer` |
| Rendering.Session.BindSampledImage | src/Rendering.cpp:309-314 | requires a pass; binds the view to the texture unit, then the sampler to the same unit |
| Rendering.Session.BindImage | src/Rendering.cpp:316-321 | requires a pass and a level below the view's level count; binds that level of the view with the view's format |
| Rendering.BindPipelineTwice | src/Rendering.cpp:156-168 | binding the same pipeline twice in a row applies it once, on the first vertex array |
| Rendering.PipelineCacheOutlivesPass | src/Rendering.cpp:146-168 | `EndRendering` clears the pipeline-bound flag but not the last pipeline: over bind, end, begin on the swapchain, bind again, the log grows by the pipeline's commands (only if it was not already the last one), then the swapchain pass commands, and the second bind issues nothing |
| Rendering.EditedTargetsNotReapplied | src/Rendering.cpp:65-79 | a render target description changed in place between two passes is not re-applied: the log holds only the first pass's framebuffer rebuild, computed from the description before the edit |
| Rendering.SameTargetsTwice | src/Rendering.cpp:65-79 | two passes on the same render target object rebuild the framebuffer only in the first |
| Rendering.SwapchainPassForcesRebuild | src/Rendering.cpp:35-79 | a swapchain pass forgets the last render info, so the next custom-target pass always rebuilds |

## Left out

- Driver effects: every GL call is only recorded as a command, and nothing about GPU state is modelled. Constant arguments that never vary are omitted from the records: `GL_FRONT_AND_BACK` in `glPolygonMode` (`src/Rendering.cpp:211`), draw buffer `0` in the combined depth/stencil clear (`src/Rendering.cpp:126`), and `GL_TRUE, 0, GL_READ_WRITE` in `glBindImageTexture` (`src/Rendering.cpp:320`); nothing depends on them.
- The GL names `glCreateFramebuffers` and `glCreateVertexArrays` return: they are the `createdFbo` and `createdVao` parameters.
- Floating-point values are never computed with. Depth-bias factors, line width, point size, blend constants, clear values and the depth range are 32-bit patterns that are only copied, compared and hashed.
- `std::hash<T>` for the field types is chosen by the standard library. It is the function-valued field `Registry.hasher`, and every result holds for every such function. Only `hash_combine`'s arithmetic is concrete, in wrapping 64-bit words.
- No result claims that different descriptions get different handles, because hash collisions are possible. One step is injective in the value hash (`Hashing.Mix`); nothing is claimed about the whole fold.
- The format and enum translation tables (`FormatToBaseTypeClass`, `FormatToFormatClass`, `FormatToTypeGL`, `FormatToSizeGL`, `IsFormatNormalizedGL`, `PolygonModeToGL`, `CullModeToGL` and the rest) live in headers that are not part of this model.
  - The five format lookups are the function-valued `Session.tables`.
  - The enum translations are not applied: commands carry the API enum code.
  - `GSDF_UNREACHABLE` defaults cannot happen, because the class datatypes have exactly three cases.
- `CullMode::NONE` is taken to be code 0 (`Types.CULL_NONE`). The enumeration's header is not part of this model.
- Rendering.Session.ApplyColorBlend: records each attachment's `colorWriteMask` in `ColorMaski` instead of the four booleans taken from its R, G, B and A bits, because the flag values live in a header that is not part of this model.
- Rendering.Session.DrawIndexed: records `firstIndex` as a number; the `reinterpret_cast` to a pointer offset is left out.
- Render target descriptions are compared by object identity, as the `sLastRenderInfo` pointer is; an in-place edit of the same object is modelled (`Rendering.EditedTargetsNotReapplied`). A different object allocated at a freed address is not modelled, because Dafny references are never reused.
- `ri.viewport` is a required value, so a null viewport pointer is not modelled.
- Texture views, buffers and samplers are opaque ids: a view is its GL name, format and level count.
- Concurrency is not modelled: the globals admit one thread, as the code states.
