# water_lab_wgpu: keyboard controller, debug readback and parameter sync, in Dafny

This project models the CPU side of a small wgpu ray-marching renderer. The modelled parts are:

- **The modal keyboard controller.** It tracks which keys are held and which of five modes is active (debug, view, terrain, ray, print). Once per frame it picks the mode from the held keys and runs that mode's handler.
- **The handlers.** The view handler pans, zooms and rotates. The ray handler steps the ray-marching limits, clamped at zero. The debug handler reads back GPU buffers. The print handler dumps the parameters. The terrain handler is a stub.
- **Parameter sync.** Every parameter a handler changes is written to its GPU buffer.
- **Shadow copies.** Each frame the three GPU-only debug buffers are copied into CPU-readable "shadow" buffers.
- **The debug readback protocol.** A shadow is mapped, reinterpreted as fixed-size records, printed and unmapped. The interleaved readback prints two shadows item by item.
- **The static resource contract.** This covers buffer sizes and initial contents, bind-group layouts and the groups built against them, pipeline layouts and the vertex layout.
- **The frame and resize logic.** A frame writes the time, updates, renders and then reacts to the render result. A resize reconfigures the surface.

Modules follow the source files:

| module | file | models |
|---|---|---|
| `Wrappers` | wrappers.dfy | `Option` and `Result` |
| `Consts` | consts.dfy | `collections/consts.rs` |
| `Structs` | structs.dfy | `collections/structs.rs`: the records as 4-byte words, and the buffer names |
| `Vertices` | vertices.dfy | `collections/vertices.rs` |
| `Device` | device.dfy | the part of wgpu the core uses: buffers as word arrays, mapping, and an effect trace |
| `Init` | init.dfy | `init/init_functions.rs` |
| `ParamUpdates` | param_updates.dfy | `updates/param_updates.rs` |
| `Controls` | controls.dfy | `app/controls.rs` |
| `AppState` | state.dfy | `app/state.rs`, plus the per-tick meaning of `update_controls` |
| `EventLoop` | event_loop.dfy | the event closure of `main.rs` |

How the model represents the system:

- **Buffers.** A buffer's contents are a sequence of 4-byte words (`Word = F32(real) | I32(int)`). `f32` is modelled as `real`.
- **The device.** `Device.Gpu` is a class holding one `array<Word>` per buffer, the set of mapped buffers, the set of buffers with a live mapped view, and a `trace` of observable effects. Those effects are buffer writes, copies, submissions, render-pass commands, presents and printed lines.
- **Asynchronous mapping.** `map_async` followed by `poll(Wait)` and `block_on` is collapsed into one `MapRead`. Its result is an input to the model (`MapOutcome`).
- **The controller.** Each handler is specified by a pure step function (`NextMode`, `NextParams`, `TickReadback`, `UpdateTrace`). The `State` methods are proved against those functions. The properties are then proved about the functions.

## Model

| member | source | states |
|---|---|---|
| Consts.SaturatingAddU32 | src/collections/consts.rs:8-11 | `u32::saturating_add`: the sum when it fits in 32 bits, otherwise `u32::MAX` |
| Consts.ScreenIsPositive | src/collections/consts.rs:1-2 | both default window dimensions (1376 x 768) are positive |
| Consts.DispatchSizes | src/collections/consts.rs:8-11 | the terrain dispatch is 65 x 65 workgroups: the saturating add does not saturate for a 2048 texture |
| Consts.DispatchCoversTexture | src/collections/consts.rs:8-11 | dispatch x workgroup size covers the texture in both directions, and exceeds it by exactly one whole workgroup: the `+32` over-dispatches by one |
| Consts.TerrainTexBufSize | src/collections/consts.rs:13-16 | the terrain buffer holds 2048 x 2048 RGBA `f32` texels, 67108864 bytes, which fits in `usize` |
| Structs.RecordSizes | src/collections/structs.rs:1-89 | the time record is 4 bytes, the ray record 12, the view record 28 and the terrain record 12, matching the `#[repr(C)]` layouts |
| Structs.RoundTrips | src/collections/structs.rs:62-89 | decoding a serialised record gives the record back, for all four parameter records |
| Structs.DecodedReserialises | src/collections/structs.rs:62-89 | for each of the time, ray, view and terrain records, a word sequence that decodes re-serialises to itself, so the encoding is a bijection on well-formed buffers |
| Structs.ShadowPairing | src/collections/structs.rs:8-19 | `ShadowOf` and `DeviceOf` are inverses between the three debug buffers and the three shadows; distinct debug buffers have distinct shadows; no buffer is both |
| Structs.AllBuffersListed | src/collections/structs.rs:8-19 | every buffer of the `Buffers` record appears in the buffer table |
| Vertices.VerticesAsBytes | src/collections/vertices.rs:30-32 | the byte view of the vertices is two words per vertex, in order (x then y) |
| Vertices.VerticesRoundTrip | src/collections/vertices.rs:30-32 | reading the byte view back as vertices gives the vertices back |
| Vertices.VerticesShape | src/collections/vertices.rs:7-28 | six vertices, 48 bytes, every coordinate -1 or 1 |
| Vertices.TrianglesWindCounterClockwise | src/collections/vertices.rs:7-28 | both triangles have positive signed area, so they wind counter-clockwise, and their areas add up to the whole clip-space square (area 4) |
| Vertices.TrianglesTileSquare | src/collections/vertices.rs:7-28 | every corner of the clip-space square is a vertex, and the two triangles share exactly the two ends of the diagonal |
| Device.WriteAtReadBack | src/updates/param_updates.rs:17-21 | after `write_buffer` at an offset, the written range reads back as the data and every other word is unchanged |
| Device.WriteAtIdempotent | src/updates/param_updates.rs:17-21 | writing the same data twice is the same as writing it once |
| Device.WriteAtWhole | src/updates/param_updates.rs:17-21 | a write at offset 0 of a buffer-length record replaces the whole contents |
| Device.Gpu.constructor | src/init/init_functions.rs:71-182 | every buffer is a fresh array holding the given contents; nothing is mapped, no view is live and the trace is empty |
| Device.Gpu.WriteBuffer | src/updates/param_updates.rs:17-21 | the target buffer becomes `WriteAt` of its old contents, no other buffer changes, and the trace gains the write |
| Device.Gpu.CopyBufferToBuffer | src/updates/param_updates.rs:45-67 | on 4-byte-aligned in-bounds ranges of distinct buffers, the destination range becomes the source range, the rest of the destination is unchanged, and the trace gains the copy |
| Device.Gpu.MapRead | src/app/controls.rs:70-82 | the mapping succeeds exactly when the device reports success and the buffer is not already mapped; on success the buffer is mapped; contents are unchanged |
| Device.Gpu.GetMappedRange | src/app/controls.rs:86 | a mapped buffer's view returns its current contents and is recorded as live |
| Device.Gpu.DropView | src/app/controls.rs:94 | the live view is released; nothing else changes |
| Device.Gpu.Unmap | src/app/controls.rs:95 | unmapping a buffer with no live view removes it from the mapped set; contents unchanged |
| Device.Gpu.Record | src/app/state.rs:153-166 | an effect is appended to the trace; no buffer changes |
| Init.InitialContents | src/init/init_functions.rs:71-182 | every buffer starts with the number of words its declared size gives |
| Init.InitialParamBuffersInDeclarationOrder | src/init/init_functions.rs:83-119 | the ray buffer starts with the serialised ray record and the view buffer with the view record; the ray, view and time buffers are exactly one record long |
| Init.ShadowSizes | src/init/init_functions.rs:122-168 | each shadow is exactly as large as its debug buffer: 16 bytes for the generic one, 8192 bytes (512 x 16) for each array |
| Init.UsagesFitUse | src/init/init_functions.rs:71-168 | the debug buffers have COPY_SRC; the shadows have COPY_DST and MAP_READ, and only they have MAP_READ; the time, view and ray buffers, which are written, have COPY_DST |
| Init.FragEntriesFit | src/init/init_functions.rs:212-297 | the fragment group has the bindings of its layout, and each entry binds a buffer that the layout entry with its binding number accepts (usage and minimum size) |
| Init.ComputeEntriesFit | src/init/init_functions.rs:299-356 | the compute group has the bindings of its layout, and each entry binds a buffer that its layout entry accepts |
| Init.AllBindGroupsMatchLayouts | src/init/init_functions.rs:184-430 | every bind group has the same binding numbers as its layout, and every entry fits its layout entry |
| Init.SlotSchema | src/init/init_functions.rs:189-356 | the fragment layout and group use bindings {0, 1, 7, 8, 9} and the compute ones {7, 8, 9}; the compute group's entries are the fragment group's last three, so the shaders see the same debug buffer at each of 7, 8 and 9; the uniform layout's minimum size is the 4-byte time buffer |
| Init.PipelineLayoutOrder | src/init/init_functions.rs:432-485 | the render layout is uniform, fragment, sampled texture at groups 0, 1, 2; the compute layout is uniform, compute, texture |
| Init.VertexStride | src/init/init_functions.rs:453-460 | the stride equals the vertex size, so the vertex buffer holds exactly the six vertices; attribute 0 covers the whole vertex; attribute 1 starts at offset 8, outside the 8-byte stride |
| ParamUpdates.UpdateViewParamsBuffer | src/updates/param_updates.rs:6-22 | the view buffer afterwards decodes to the current view parameters; the other buffers are unchanged; the trace gains that one write |
| ParamUpdates.UpdateRayParamsBuffer | src/updates/param_updates.rs:24-36 | the ray buffer afterwards decodes to the current ray parameters; the rest is unchanged; the trace gains that one write |
| ParamUpdates.SyncIdempotent | src/updates/param_updates.rs:6-36 | a whole-buffer sync leaves exactly the record in the buffer, and syncing the same record twice is syncing it once |
| ParamUpdates.CopiesCoverShadows | src/updates/param_updates.rs:45-67 | each copy goes from a debug buffer to its own shadow at offset 0 with the full size of both (16, 8192, 8192 bytes); every debug buffer is copied, none twice |
| ParamUpdates.UpdateCpuReadBuffers | src/updates/param_updates.rs:38-70 | afterwards every shadow equals its debug buffer, the debug buffers are unchanged, and the trace gains the three copies then one submit |
| ParamUpdates.CopyShadow | src/updates/param_updates.rs:45-67 | one copy makes a shadow equal to its unchanged device buffer, and the trace gains that copy |
| Controls.ApplyKeyEvent | src/app/controls.rs:39-46 | a press adds the key to the held set and a release removes it; no other key changes |
| Controls.KeyEventsAreSetOperations | src/app/controls.rs:39-46 | pressing a held key and releasing an unheld key change nothing; a press then a release of a key forgets it, whatever the set held before |
| Controls.KeyboardState.constructor | src/app/controls.rs:28-33 | no key is held and the mode is print |
| Controls.KeyboardState.KeyPressed | src/app/controls.rs:35-37 | true exactly when the key is in the held set |
| Controls.KeyboardState.HandleKeyboardInput | src/app/controls.rs:39-46 | the held set becomes `ApplyKeyEvent` of the old set; the mode is unchanged |
| Controls.KeyboardState.ClearKeys | src/app/controls.rs:48-50 | no key is held; the mode is unchanged |
| Controls.KeyboardState.SetMode | src/app/controls.rs:60-62 | the mode is the new one; the held keys are unchanged |
| Controls.FirstHeld | src/app/controls.rs:178-197 | a reference lookup in the priority table: the mode of the first held key, or the current mode |
| Controls.SelectModePriority | src/app/controls.rs:178-197 | when the i-th select key (D, 1, 2, 3, P) is held and no earlier one is, the mode becomes that key's mode |
| Controls.SelectModeNoneHeld | src/app/controls.rs:178-197 | with no select key held the mode is kept |
| Controls.SelectModeIsFirstHeld | src/app/controls.rs:178-197 | the selection if-chain equals the priority-table lookup for every key set and mode |
| Controls.MaxReal | src/app/controls.rs:258 | `f32::max`: at least both arguments and equal to one of them |
| Controls.DebugHandler | src/app/controls.rs:208-244 | in debug mode exactly one readback runs when S, 1, 2 or 3 is held (priority S > 1 > 2 > 3) and the mode becomes view; otherwise nothing is read and the mode stays debug; no parameter changes |
| Controls.DigitReadbacksNeedKeyD | src/app/controls.rs:177-244 | the array and interleaved readbacks happen only in a tick where D is held, because the digit would otherwise select another mode; a readback implies debug mode was selected |
| Controls.PrintHandler | src/app/controls.rs:329-337 | the print handler switches to view mode, reads nothing and changes no parameter |
| Controls.TerrainHandler | src/app/controls.rs:271-282 | the terrain handler keeps terrain mode, reads nothing and changes no parameter |
| Controls.RayHandler | src/app/controls.rs:246-269 | at most one ray field changes, by priority E > S > W, to max(0, old + delta) with delta +1 on ArrowUp, else -1 on ArrowDown, else 0 |
| Controls.RayStepKeepsClamp | src/app/controls.rs:246-269 | non-negative ray fields stay non-negative; with no arrow held nothing changes |
| Controls.ViewHandlerOneField | src/app/controls.rs:284-327 | at most one view field changes per tick, never the time modifier or field of view; with none of the view keys held nothing changes |
| Controls.ViewHandlerCases | src/app/controls.rs:284-327 | for every held-key set, by priority Left > Right > Up > Down > X > Z: Shift+Left and Shift+Up raise the rotation by 0.1 clamped at 0; Shift+Right and Shift+Down lower it by 0.1 unclamped; plain arrows pan by 0.01 / zoom; with no arrow held X scales the zoom by 0.9, else Z by 1.1, else nothing changes; every branch changes only its own field |
| Controls.ViewHandlerPanAndZoom | src/app/controls.rs:284-327 | a positive zoom stays positive; a step changes a shift by 0, -0.01 / zoom or +0.01 / zoom and the zoom by a factor 1, 0.9 or 1.1 |
| Controls.ViewHandlerAsymmetries | src/app/controls.rs:288-319 | instances of the asymmetry: Shift+Right and Shift+Down from 0 reach -0.1, while Shift+Left and Shift+Up from -0.2 land on 0, not -0.1; X then Z gives 0.99 of the zoom, not the zoom |
| Controls.TickKeepsInvariant | src/app/controls.rs:177-337 | one tick keeps the ray fields non-negative and the zoom positive, and never changes the terrain parameters |
| Controls.RunKeepsInvariant | src/app/controls.rs:177-337 | the same holds after any number of ticks, whatever keys are held |
| Controls.Chunks | src/app/controls.rs:87 | `cast_slice` to n-word records: length/n records of n words each, whose concatenation is the buffer |
| Controls.ChunksUnique | src/app/controls.rs:87 | the records are the only cut of their concatenation into n-word pieces, so casting back gives them |
| Controls.ChunkAt | src/app/controls.rs:87-92 | record i is words i*n up to i*n+n of the buffer |
| Controls.ItemsOfChunks | src/app/controls.rs:143-152 | flattening 512-item records into their 4-word items is the same as casting the buffer to 4-word items |
| Controls.RecordLines | src/app/controls.rs:90-92 | one printed line per record, numbered from 0 |
| Controls.PrintGpuDataShowsBuffer | src/app/controls.rs:84-98 | on success the output is the size line then one line per record, line i+1 holding words i*n..i*n+n; on a failed mapping, as the code is evidently meant to behave (see Findings), it is the size line and the error line |
| Controls.PrintGpuData | src/app/controls.rs:65-99 | the corrected readback (see Findings): the trace gains `PrintGpuDataTrace` of the shadow's contents, reading only when the mapping succeeded; the buffer ends unmapped if it mapped, and nothing else changes |
| Controls.ReportedFailureSkipsErrorArm | src/app/controls.rs:72-98 | as written, the error line is printed exactly when the channel was cancelled; a failure the device reports reaches `get_mapped_range` on an unmapped buffer, where the corrected readback prints the error line; a success gives the same output as the corrected readback |
| Controls.PrintRecords | src/app/controls.rs:90-92 | the printing loop appends exactly `RecordLines` of the records |
| Controls.PairLines | src/app/controls.rs:154-161 | one pair of lines per index up to the count, item i of each sequence together |
| Controls.InterleaveMixedFailureLeavesMapped | src/app/controls.rs:136-174 | when both or neither mapping succeed the mapped set is restored; when exactly one succeeds that buffer stays mapped and its next mapping fails, whatever the device reports |
| Controls.InterleavePairsItems | src/app/controls.rs:136-174 | on success line pair i holds item i (words 4i..4i+4) of each shadow, for i below the shorter item count; with both mappings failed, as the code is evidently meant to behave (see Findings), the output is the two error lines |
| Controls.PrintGpuInterleaveTwoBuffers | src/app/controls.rs:101-175 | the corrected readback (see Findings): the trace gains `InterleaveTrace` of the two shadows under the mapping results, and the mapped set becomes `InterleaveMapState` |
| Controls.InterleaveReportedFailureSkipsErrorArms | src/app/controls.rs:112-174 | as written, an error line is printed for a buffer exactly when its channel was cancelled; with both results delivered and a mapping failed, the readback reaches `get_mapped_range` on the first buffer that did not map, where the corrected readback prints that buffer's error line; with both mapped the two agree |
| Controls.PrintMappedPair | src/app/controls.rs:137-167 | with both mapped, the trace gains the interleaved items and both buffers end unmapped |
| Controls.PrintPairs | src/app/controls.rs:154-161 | the zip-and-enumerate loop appends exactly `PairLines` up to the shorter length |
| Controls.FlattenRecords | src/app/controls.rs:143-152 | the `extend` loop yields every record's 4-word items in order (`ItemsOf`) |
| Controls.FlattenView | src/app/controls.rs:143-152 | a mapped 512-item-record view, flattened, is the view cast to 4-word items |
| AppState.FirstSrgbIndex | src/app/state.rs:74-80 | the index of the first sRGB format: every earlier format is not sRGB, and the index is the length when none is |
| AppState.SurfaceFormatChoice | src/app/state.rs:74-80 | a format is chosen exactly when the list is non-empty; it is the first sRGB format when one exists and otherwise the first format |
| AppState.InitialParamsBuffersAgree | src/init/init_functions.rs:41-119 | the initial parameters have non-negative ray fields and a positive zoom, and the initial ray and view buffers decode to them |
| AppState.ChangedParamsAreSynced | src/app/controls.rs:246-327 | a tick that changes the view or ray parameters writes the new record to that buffer; the view or ray buffer is written exactly when its handler runs with one of its keys held, even when the record does not change, and always with the new record; only the view and ray handlers write |
| AppState.ReadbackPrintsOnly | src/app/controls.rs:65-175 | a readback only prints: it writes, copies and submits nothing |
| AppState.StuckShadowBlocksLaterReadbacks | src/app/controls.rs:136-174 | in this model, after an interleaved readback where only one shadow mapped, every later single readback of that shadow prints only its size and the error line |
| AppState.MixedFailureCopiesIntoMappedShadow | src/app/state.rs:121-125 | starting with no shadow mapped, the interleaved readback leaves a shadow mapped exactly when one of its two mappings fails; then one of the three copies of the same `update` targets that mapped shadow |
| AppState.RenderMatchesPipeline | src/app/state.rs:153-166 | each bind group is set at a slot whose pipeline layout is its own layout; the draw covers all six vertices as one instance; submit comes before present |
| AppState.AfterResize | src/app/state.rs:171-178 | a size with both dimensions positive becomes the size and the configured dimensions and reconfigures; any other size changes nothing |
| AppState.ResizeToCurrentSize | src/app/state.rs:171-178 | when the configuration matches the size, resizing to the current size keeps both; resizing twice to the same size is resizing once; afterwards the configured dimensions are the size |
| AppState.ShadowWords | src/init/init_functions.rs:122-168 | the generic shadow is one 4-word record and each array shadow one 512-item record, as the readbacks cast them |
| AppState.State.constructor | src/app/state.rs:35-119 | given a non-empty format list: initial parameters, every buffer in its initial contents, nothing mapped, print mode, no key held, the surface configured once at the window size with the chosen format |
| AppState.State.UpdateControls | src/app/controls.rs:177-206 | the mode becomes `NextMode` and the parameters `NextParams`; the trace gains `ControlsTrace`; the mapped set becomes `ReadbackMapped`; the invariant is kept |
| AppState.State.SelectModeFromKeys | src/app/controls.rs:178-197 | the mode becomes `SelectMode` of the held keys; nothing else changes |
| AppState.State.RunHandler | src/app/controls.rs:199-205 | the handler of the current mode runs: mode, parameters, trace and mapped set as the step functions say |
| AppState.State.DebugControls | src/app/controls.rs:208-244 | the chosen readback is printed, the mode becomes view exactly when one ran, and no parameter changes |
| AppState.State.ViewControls | src/app/controls.rs:284-327 | the view parameters become `ViewStep`, the view buffer is written exactly when a view key is held, and the zoom stays positive |
| AppState.State.RayControls | src/app/controls.rs:246-269 | the ray parameters become `RayStep`, the ray buffer is written exactly when E, S or W is held, and the fields stay non-negative |
| AppState.State.TerrainControls | src/app/controls.rs:271-282 | only the stub line is printed; parameters and mode are unchanged |
| AppState.State.PrintControls | src/app/controls.rs:329-337 | the parameters are printed and the mode becomes view |
| AppState.State.Update | src/app/state.rs:121-125 | controls tick, view sync, then shadow copies: mode and parameters advance by one tick, the parameter buffers hold the new parameters (`Valid`), every shadow equals its unchanged debug buffer, and the trace gains `UpdateTrace` |
| AppState.State.Render | src/app/state.rs:127-169 | a failed acquire returns its error and records and changes nothing; a successful one records `RenderTrace`, and the three debug buffers take the shader output the frame supplies; the parameter buffers and the shadows keep their contents |
| Device.Gpu.StoreFromShader | src/init/init_functions.rs:212-266 | a storage buffer the fragment stage may write ends with the contents the shader left, at its created size |
| AppState.State.Resize | src/app/state.rs:171-178 | size and configuration become `AfterResize`; the surface is reconfigured exactly when both dimensions are positive |
| EventLoop.ClassifyRenderResult | src/main.rs:43-53 | Ok continues; Lost resizes to the current size; OutOfMemory exits; Outdated and Timeout print the error and go on |
| EventLoop.FrameResponses | src/main.rs:32-56 | a frame's trace is the time write, then the update, then the render commands when the frame was acquired, then the response; only OutOfMemory exits |
| EventLoop.HandleEvent | src/main.rs:29-70 | Close exits; a redraw runs a whole frame (as `Redraw` states), asks for the next redraw and exits only on OutOfMemory; a key event updates the held set; losing focus clears it and prints a line; every other event changes nothing else, buffers included: parameters, time, debug and shadow buffers, mapped set, size and configuration |
| EventLoop.Redraw | src/main.rs:32-56 | the trace gains the time write, `UpdateTrace`, the render commands and the response; mode and parameters advance by one tick; the shadows hold the debug buffers as they were before this frame's draw, and the debug buffers hold the draw's output when the frame was acquired; exits exactly on OutOfMemory; the time buffer holds the frame's elapsed time; size and configuration are unchanged |
| EventLoop.WriteTimeAndUpdate | src/main.rs:33-41 | the time write then one `update`: mode and parameters advance by one tick, the trace gains the time write and `UpdateTrace`, the shadows become copies of the unchanged debug buffers; the time buffer holds the elapsed time; size and configuration unchanged |
| EventLoop.RenderAndRespond | src/main.rs:43-53 | the trace gains the render commands when the frame was acquired, then the response (Lost reconfigures at the current size, other errors but OutOfMemory print); the debug buffers take the draw's output exactly when the frame was acquired; the shadows are unchanged; size and configuration are unchanged, the Lost reconfiguration included; exits exactly on OutOfMemory |
| EventLoop.WriteTime | src/main.rs:33-39 | the time buffer holds the elapsed time as one record, the trace gains that write, and the shadows are unchanged |

## Findings

| source | as written | input that shows it | evidently intended | confidence | as-written member | corrected member |
|---|---|---|---|---|---|---|
| src/app/controls.rs:72-98 | the callback sends its `Result` through a oneshot channel, so `block_on(rx)` gives `Ok(Err(e))` for a failed mapping; `Ok(_)` takes the read arm and `get_mapped_range` runs on an unmapped buffer, and the error arm runs only on a cancelled channel | the device reports a mapping failure to the callback (`Delivered(MapErr)`) | a failed mapping prints "Error retrieving gpu data" and reads nothing | not executed; high | Controls.PrintGpuDataAsWritten, Controls.ReportedFailureSkipsErrorArm | Controls.PrintGpuData |
| src/app/controls.rs:112-174 | both results arrive as `Ok(_)` whenever the callbacks ran, so `(Ok(_), Ok(_))` reads both mapped ranges even when a mapping failed, and the per-buffer error arms run only on cancelled channels | buffer 1's callback delivers a failure and buffer 2's a success | a failed mapping prints that buffer's error line and reads nothing | not executed; high | Controls.InterleaveAsWritten, Controls.InterleaveReportedFailureSkipsErrorArms | Controls.PrintGpuInterleaveTwoBuffers |

## Left out

- The source ignores `WindowEvent::Resized` (main.rs:67 falls through), so `resize` runs only after `SurfaceError::Lost`, with the current size. The model follows the code: `HandleEvent` treats a resize event like any other unhandled event.
- Device.Gpu.CopyBufferToBuffer: does not require its destination to be unmapped, so the model lets through a copy that wgpu rejects. After an interleaved readback in which exactly one mapping failed, controls.rs:168-169 leave the other shadow mapped. The same `update` then copies into that shadow (state.rs:121-125, `MixedFailureCopiesIntoMappedShadow`). wgpu reports that as a validation error at the submit, which by default ends the program. The model instead carries on.
- AppState.StuckShadowBlocksLaterReadbacks: describes the model, not the program. The later readbacks it speaks of happen only because the model accepts the copy into the mapped shadow; the program stops at that copy's submit.
- AppState.State.Render: the shaders are not modelled. A drawn frame's effect on the debug buffers is supplied as an input (`ShaderOutput` in `FrameInputs`). The parameter buffers are also bound as writable storage (init_functions.rs:212-266), but the model assumes the shaders only read them. A shader that wrote them would break the agreement between host parameters and parameter buffers that `State.Valid` keeps.
- Init.VertexStride: the vertex layout declares attribute 1 (`Float32x2`, 8 bytes) at offset 8 within an 8-byte stride, so it ends 8 bytes past the vertex. For a non-zero stride, the WebGPU specification's validation of a vertex buffer layout requires every attribute's offset plus size to be at most the stride. An implementation that enforces that rule rejects `create_render_pipeline` with this layout. One that does not makes attribute 1 read the next vertex, and past the end of the buffer for the last vertex. Pipeline creation and vertex fetch are not modelled, so neither outcome is.
- `Device.Gpu.MapRead`: the mapping's result is an input (`MapOutcome`). `device.poll(Wait)` and `block_on` are not modelled, and neither is any real cause of failure. The callback channel appears only in the as-written readbacks (`Controls.Received`); the rest of the model uses the corrected readbacks described under Findings.
- Controls.PrintGpuData and Controls.PrintGpuInterleaveTwoBuffers: model the evidently intended dispatch, not the one written (see Findings). As written, a failure the device reports panics in `get_mapped_range`, and the frame-level members (`State.DebugControls`, `State.Update`, `EventLoop.Redraw`) inherit the corrected behaviour.
- AppState.ChooseSurfaceFormat: for an empty format list the source panics on `formats[0]`. The model returns `None`, and `AppState.State.constructor` requires a non-empty list.
- Floating point: `f32` is `real`, so rounding, underflow and NaN are not modelled. The positive-zoom invariant therefore holds for reals. In `f32`, repeated zooming out could underflow the zoom to 0 and make the pan step divide by zero.
- Adapter, device and surface negotiation, shader modules, textures, the sampler and the compute pipeline's dispatch are left out. The model contains only their layouts and bindings (`Init`).
- The elapsed time from `Instant::elapsed` is an input (`FrameInputs.elapsed`). The present mode and alpha mode are left out.
- Printed text is abstracted: every `println!`/`eprintln!` is a `Line` value naming what it prints, not the formatted string.
- The 50 ms `thread::sleep` after each debug readback is left out, because it has no observable effect on state.
- `window.request_redraw()` is returned as a `redraw` flag. The winit event loop that delivers events is left out.
- Terrain octave control: the source's terrain handler is a stub that only prints. The model keeps the stub.
- Buffer labels, `ASPECT` and `get_keys`/`get_mode` are left out, because nothing in the core reads them.
- Concurrency is left out: the GPU executes submitted copies and writes immediately, in trace order.
