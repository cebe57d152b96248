# webgl-framework core, modelled in Dafny

This project models the discrete parts of a small WebGL2 framework.

- **Mesh topology generators** (`PrimitiveMesh.js`). These are the constant quad, the UV sphere and the flat ring the source calls a cylinder.
  - The segment-count clamps, the grid numbering `iy·(W+1)+ix` and the pole-row triangle skipping are modelled exactly.
  - So are the 24-vertices-per-segment ring layout with its wrap-around neighbour, the argument checks and the identity index array.
  - A vertex is its structural label: a sphere vertex is its grid cell, and a ring vertex is a ring point plus a normal label. A vertex array is the sequence of the eight attribute entries each vertex contributes.
- **System dispatch.** There are two drivers:
  - the `SystemCollection` class with its seven hooks;
  - the older module-level driver in `WebGLApp.js` (`invokeCallback`, `defaultSystems` and `run`).
  
  A system is an identifier plus the set of callback names it implements. A dispatch is modelled by the trace of `(system, callback, arguments)` calls it makes.
- **The render systems' lifecycles** (`Systems/RenderPreProcess.js`, `SkyboxRenderer.js`, `RenderPostProcess.js`, `BlurEffect.js`).
  - The WebGL context is a `GL.Context` object. It keeps an append-only log of commands and a counter that numbers the objects it creates.
  - `GL.Run` replays a log over an abstract driver state: bindings, enabled capabilities, attribute pointers, texture storage, uniform values and the draws made so far. This gives each command block a meaning.
  - Each system is a class whose fields are the source's flags and handles. Each method states the exact commands it appends, and lemmas state what those commands do to the driver state.
  - Asynchronous setup is split into explicit steps: start, each fetch arriving, and a fetch failing. Execution is single-threaded, so no interleaving is modelled.

Files:
- `wrappers.dfy`: `Option`.
- `gl.dfy`: commands, driver state, `Run`, `Context`.
- `data_sources.dfy`: the shared `Framebuffers` and `Viewport` records.
- `dispatch.dfy`: the dispatch trace and `invokeCallback`.
- `system_collection.dfy`, `webgl_app.dfy`: the two drivers.
- `primitive_mesh.dfy`: the three meshes.
- One file per render system.

## Model

| member | source | states |
|---|---|---|
| PrimitiveMesh.Quad | PrimitiveMesh.js:3-15 | The quad is 4 vertices of 8 floats and 6 indices (two triangles). Every index names one of the 4 vertices. |
| PrimitiveMesh.WidthSegments | PrimitiveMesh.js:18 | W is `floor(widthSegments)` when that is at least 3, and 3 otherwise. So W ≥ 3. |
| PrimitiveMesh.HeightSegments | PrimitiveMesh.js:19 | H is `floor(heightSegments)` when that is at least 2, and 2 otherwise. So H ≥ 2. |
| PrimitiveMesh.GenerateSphereMesh | PrimitiveMesh.js:17-84 | The nested vertex loop with its running counter builds the vertex array of grid rows 0..H, each of W+1 vertices, in row-major order. The index loop builds the triangles of all H·W cells, with the pole rows' triangles skipped. Both are stated against reference functions. |
| PrimitiveMesh.SphereVertices | PrimitiveMesh.js:30-65 | The vertex loop's vertex array is the flattened grid rows. Its `grid` table is the same row-major numbering. |
| PrimitiveMesh.SphereIndices | PrimitiveMesh.js:68-78 | The index loop emits, cell by cell, the triangles that `SphereTriangles` specifies. |
| PrimitiveMesh.GridNumbersAt | PrimitiveMesh.js:23-62 | `grid[iy][ix]` is `iy·(W+1)+ix`, for every cell. |
| PrimitiveMesh.SphereVertexLayout | PrimitiveMesh.js:30-65 | The sphere has exactly (W+1)·(H+1) vertices of 8 floats. Entry `8·(iy·(W+1)+ix)+j` is attribute j (position, then normal, then uv) of grid vertex (iy, ix). |
| PrimitiveMesh.SphereIndicesBounded | PrimitiveMesh.js:62-73 | Every sphere index is less than the vertex count (W+1)·(H+1). |
| PrimitiveMesh.SphereIndexCount | PrimitiveMesh.js:68-78 | The index count is 3·W·(2H − s − e), where s is 1 exactly when `thetaStart ≤ 0` and e is 1 exactly when the sphere ends at π. The guard at line 75 tests `thetaStart > 0`, so any non-positive start, negative ones included, counts as starting at the north pole. That is 6·W·(H−1) for a full sphere and 6·W·H for a band touching neither pole, and always a multiple of 3. |
| PrimitiveMesh.SphereNoPoleSliver | PrimitiveMesh.js:75-76 | With the pole guards in place, no emitted triangle has two corners on a pole row where the sphere reaches that pole. |
| PrimitiveMesh.FlattenLayout | PrimitiveMesh.js:52-60 | Each vertex contributes exactly 8 floats. Entry 8k+j is attribute j of vertex k. |
| PrimitiveMesh.GenerateCylinderMesh | PrimitiveMesh.js:98-208 | `numSegments < 3` gives the segment-count error, even when the radii are also wrong. A valid segment count with `startRadius >= endRadius` gives the radius error. Otherwise the vertex array is the segments' vertices in segment order, and the index array is exactly 0..N−1, where N is the vertex-array length divided by 8. |
| PrimitiveMesh.RingLabels | PrimitiveMesh.js:119-149 | The first loop fills the four ring-point arrays and the inward and outward normal arrays, each with entries 0..numSegments−1 in order. |
| PrimitiveMesh.PushSegment | PrimitiveMesh.js:162-199 | One iteration of the segment loop appends segment i's 24 vertices: front cap, back cap, inner wall, outer wall. |
| PrimitiveMesh.PushFace | PrimitiveMesh.js:152-160 | `pushVertex` six times appends the two triangles of one face, 8 floats per vertex. |
| PrimitiveMesh.CylinderLayout | PrimitiveMesh.js:162-199 | A valid ring has 24·numSegments vertices of 8 floats. Every ring-point and normal label in it lies below numSegments. |
| PrimitiveMesh.CylinderSegmentAt | PrimitiveMesh.js:163-166 | Vertex 24·i+j is vertex j of segment i. Segment i pairs ring point i with point (i+1) mod numSegments. |
| PrimitiveMesh.NextSegmentMod | PrimitiveMesh.js:163-166 | The neighbour test `n >= numSegments ? 0 : n` equals (i+1) mod numSegments. |
| PrimitiveMesh.SegmentLabels | PrimitiveMesh.js:168-197 | A segment uses only ring point i and its neighbour n, and only their inward and outward normals. |
| Dispatch.InvokeCallback | WebGLApp.js:7-13 | The `forEach` loop makes exactly the reference trace: one call per system that has the callback, in array order, each with the same arguments. |
| Dispatch.DispatchVisits | SystemCollection.js:11-17 | Every system that implements the callback is called, at its own position in the trace. |
| Dispatch.DispatchOrder | SystemCollection.js:11-17 | An earlier implementing system's call comes before a later system's. |
| Dispatch.DispatchOnlyImplementers | SystemCollection.js:11-17 | Every call in the trace is the call of one implementing system, at that system's position. No other calls are made. |
| Dispatch.DispatchCallsCarry | WebGLApp.js:9-10 | Every call carries the dispatched name and the same argument list. |
| Dispatch.DispatchNone | WebGLApp.js:9 | When no system has the callback, the dispatch makes no call. Systems without it are skipped silently. |
| Dispatch.DispatchAppend | SystemCollection.js:11-17 | Dispatching over a concatenation is dispatching over each part in turn. |
| Dispatch.CallIndexMonotone | SystemCollection.js:11-17 | Call positions never decrease along the list. A system without the callback takes no position. |
| SystemCollection.SystemCollection.constructor | SystemCollection.js:2-5 | A new collection holds no systems. |
| SystemCollection.SystemCollection.AddSystems | SystemCollection.js:7-9 | The given systems are appended after the existing ones, in their order, duplicates kept. The old list is an unchanged prefix. |
| SystemCollection.SystemCollection.InvokeCallback | SystemCollection.js:11-17 | A dispatch over the current list, which it leaves unchanged (it modifies nothing). |
| SystemCollection.SystemCollection.OnStart | SystemCollection.js:19-21 | Dispatches `onStart` with no arguments. |
| SystemCollection.SystemCollection.OnUpdate | SystemCollection.js:23-25 | Dispatches `onUpdate` with `deltaTime` unchanged. |
| SystemCollection.SystemCollection.OnRender | SystemCollection.js:27-29 | Dispatches `onRender` with no arguments. |
| SystemCollection.SystemCollection.OnMouseDown | SystemCollection.js:31-33 | Dispatches `onMouseDown` with the event. |
| SystemCollection.SystemCollection.OnMouseUp | SystemCollection.js:35-37 | Dispatches `onMouseUp` with the event. |
| SystemCollection.SystemCollection.OnMouseMove | SystemCollection.js:39-41 | Dispatches `onMouseMove` with the event. |
| SystemCollection.SystemCollection.OnWheel | SystemCollection.js:43-45 | Dispatches `onWheel` with the event. |
| WebGLApp.DefaultSystems | WebGLApp.js:15-24 | preUpdate is `[RenderPreProcess, ClearCamera]` and postUpdate is `[SkyboxRenderer, RenderPostProcess]`, in that order. |
| WebGLApp.DefaultSystemsDispatch | WebGLApp.js:1-24 | `defaultSystems` only returns the two lists, and how a caller arranges them is up to the caller. For the arrangement the names suggest (`preUpdate`, then the application's own systems, then `postUpdate`), the modules' exported names decide the outcome. `render` reaches the pre-process pass and the clear before every user system, then the post-process pass. `start` reaches the user systems, then the post-process pass. `update` reaches only the user systems. The skybox module is never called. |
| WebGLApp.DispatchPair | WebGLApp.js:7-13 | Dispatching over two systems calls the first one, then the second, each only if it implements the name. |
| WebGLApp.CallsFrame | WebGLApp.js:50-51 | A frame adds the `update` trace and then the `render` trace to the history's calls. |
| WebGLApp.FrameOrder | WebGLApp.js:50-51 | Within a frame, every `update` call comes before every `render` call. |
| WebGLApp.FrameUpdatesFirst | WebGLApp.js:50-51 | A system with both callbacks gets its `update` call (with `deltaTime`) before its `render` call (with `deltaTime` and `gl`). |
| WebGLApp.ProtocolStartOnce | WebGLApp.js:42-55 | In any dispatch log `run` can produce, `start` with `gl` comes first and never again. |
| WebGLApp.ProtocolFramesPaired | WebGLApp.js:44-53 | In such a log, every `update` is immediately followed by the `render` of the same frame with the same time step and `gl`, and vice versa. |
| WebGLApp.ProtocolFrame | WebGLApp.js:45-53 | A whole frame keeps the log a valid protocol log. |
| WebGLApp.ProtocolInput | WebGLApp.js:37-40 | A canvas input event keeps the log a valid protocol log. |
| WebGLApp.Seconds | WebGLApp.js:46 | The timestamp in seconds, times 1000, is the timestamp in milliseconds. |
| WebGLApp.App.Run | WebGLApp.js:26-58 | The viewport fields are written first. A null context returns false, with no handlers wired and nothing dispatched. Otherwise the handlers are wired, `start` is dispatched exactly once with `gl`, and `run` returns true. |
| WebGLApp.App.Frame | WebGLApp.js:45-53 | `deltaTime` is measured from the previous frame and `then` is updated. The frame's calls are all `update` calls, then all `render` calls, and the log grows by that frame. |
| WebGLApp.App.CanvasEvent | WebGLApp.js:37-40 | Once wired, an input event is dispatched under its handler name with the event. Before that, nothing happens. |
| RenderPreProcess.RenderPreProcess.constructor | Systems/RenderPreProcess.js:4 | `setupDone` starts false. |
| RenderPreProcess.RenderPreProcess.Setup | Systems/RenderPreProcess.js:10-37 | Setup creates three objects and writes the framebuffer and its two texture handles into the record. It leaves the bright texture and the quad untouched, issues exactly the setup commands, and sets `setupDone` even when the framebuffer is incomplete. |
| RenderPreProcess.RenderPreProcess.Render | Systems/RenderPreProcess.js:44-50 | The first render runs setup and later ones never do; after any render `setupDone` holds. Every render ends by binding the record's framebuffer. |
| RenderPreProcess.SetupEffect | Systems/RenderPreProcess.js:10-37 | The setup commands attach an RGB colour texture and a depth-stencil texture of the viewport's size to the new framebuffer. They leave the framebuffer and the active unit's 2D texture bound to null. Nothing else in the driver state changes. |
| RenderPreProcess.RenderBindsFramebuffer | Systems/RenderPreProcess.js:44-50 | After every render, the bound framebuffer is the record's one. After setup that bind is all a render changes. The first render leaves both attachments in place. |
| RenderPostProcess.RenderPostProcess.constructor | Systems/RenderPostProcess.js:16-19 | `vbo`, `vao` and `shader` start null and `setupDone` starts false. |
| RenderPostProcess.RenderPostProcess.Start | Systems/RenderPostProcess.js:25-41 | `start` creates the quad's buffer and vertex array first, then requests the vertex shader source. `setupDone` stays false. |
| RenderPostProcess.RenderPostProcess.VertexSourceArrived | Systems/RenderPostProcess.js:40-41 | Only after the vertex source arrives is the fragment source requested. |
| RenderPostProcess.RenderPostProcess.FragmentSourceArrived | Systems/RenderPostProcess.js:41-44 | Once both sources have arrived, the shader is loaded from them and only then is `setupDone` set. |
| RenderPostProcess.RenderPostProcess.FetchFailed | Systems/RenderPostProcess.js:40-41 | A rejected fetch ends setup, and `setupDone` stays false. |
| RenderPostProcess.RenderPostProcess.Render | Systems/RenderPostProcess.js:60-81 | `render` appends the draw only when setup is done and the colour texture is set. Otherwise it appends nothing. |
| RenderPostProcess.RenderGate | Systems/RenderPostProcess.js:61-68 | A render issues nothing exactly when setup is not done or the colour texture is unset. Otherwise it draws exactly once. |
| RenderPostProcess.DrawEffect | Systems/RenderPostProcess.js:70-80 | The draw happens with the default framebuffer bound, and with depth test, culling and blending disabled. The post-process shader, the quad's vertex array and the colour texture are bound, and exactly 6 vertices are drawn. |
| RenderPostProcess.QuadLayout | Systems/RenderPostProcess.js:6-14 | The quad table is 6 vertices of 4 floats. With a 16-byte stride, the pointers at offsets 0 and 8 read exactly vertex k's position and uv, and each uv is its position mapped from [-1, 1] to [0, 1]. |
| RenderPostProcess.QuadSetupEffect | Systems/RenderPostProcess.js:26-38 | Setup loads the 24-float table into `vbo`. It gives `vao` attributes 0 and 1 with those pointers, both enabled. It leaves no vertex array bound but the array buffer still bound to `vbo`, because line 33 rebinds it inside the vertex array and nothing unbinds it. |
| RenderPostProcess.DrawAfterSetupInBounds | Systems/RenderPostProcess.js:26-80 | A draw of 6 vertices right after setup reads inside the quad's buffer for both attributes. |
| SkyboxRenderer.SkyboxRenderer.constructor | Systems/SkyboxRenderer.js:60-69 | `gl` and `paths` are stored, and `ready` starts false. |
| SkyboxRenderer.SkyboxRenderer.OnStart | Systems/SkyboxRenderer.js:71-81 | With no texture paths, setup returns at once: no command, no shader, no texture, no mesh, and `ready` stays false for good. Otherwise the shader is loaded and the first face image is requested. An empty path list goes straight to the finishing step. |
| SkyboxRenderer.SkyboxRenderer.ImageArrived | Systems/SkyboxRenderer.js:79-81 | Face images arrive one at a time in path order, and the next one is requested only after the previous one has arrived. After the last, setup finishes. |
| SkyboxRenderer.SkyboxRenderer.ImageFailed | Systems/SkyboxRenderer.js:79-80 | A rejected image request ends setup with `ready` false. |
| SkyboxRenderer.SkyboxRenderer.Finish | Systems/SkyboxRenderer.js:82-102 | The cubemap is built from all face images in path order at once. Then the cube's buffer and vertex array are built and the mesh record is filled. Setting `ready` is the last step. The count stored in the mesh is the corrected 36, not the source's 108 (see Findings and Left out). |
| SkyboxRenderer.SkyboxRenderer.OnRender | Systems/SkyboxRenderer.js:109-128 | `onRender` appends nothing while not ready, and the skybox draw otherwise. |
| SkyboxRenderer.RenderState | Systems/SkyboxRenderer.js:117-127 | A render that is not ready changes nothing. A ready render draws exactly once, with depth test enabled, culling disabled, depth function LEQUAL, and the skybox shader, cubemap and mesh bound. |
| SkyboxRenderer.MeshSetupEffect | Systems/SkyboxRenderer.js:84-94 | The buffer holds the 108-float table. Attribute 0 of the vertex array reads 3 floats every 12 bytes from it and is enabled. The vertex-array binding ends null, and the array buffer stays bound to `vbo`, which line 91 rebinds. |
| SkyboxRenderer.PipelineEffect | Systems/SkyboxRenderer.js:117-125 | The state-setting sequence before the draw, command by command. |
| SkyboxRenderer.VertexCount | Systems/SkyboxRenderer.js:8-51 | The vertex count times the 3 floats per vertex is the table's length, which is 36 vertices. |
| SkyboxRenderer.AsWrittenDrawOutOfRange | Systems/SkyboxRenderer.js:99 | As written, the draw count is the table length, 108. That draw reads past the end of the buffer. |
| SkyboxRenderer.DrawInRange | Systems/SkyboxRenderer.js:84-127 | With the draw count corrected to 36, the draw reads inside the buffer, and one vertex more would not. |
| SkyboxRenderer.CubeAttributeBounds | Systems/SkyboxRenderer.js:92 | With 3 floats every 12 bytes over a 108-float buffer, 36 vertices are the most a draw can read. |
| BlurEffect.BlurEffect.constructor | Systems/BlurEffect.js:12-16 | `gl`, `framebuffers` and `vertical` are stored unchanged, and no shader is set yet. |
| BlurEffect.BlurEffect.OnStart | Systems/BlurEffect.js:18-20 | `onStart` loads the shader. `loadShader` always returns a program, so the gate is open afterwards. |
| BlurEffect.BlurEffect.OnPostProcessRender | Systems/BlurEffect.js:22-39 | `onPostProcessRender` appends nothing until the shader is set, and the bind-and-draw sequence on the normalized quad afterwards. |
| BlurEffect.RenderSamplers | Systems/BlurEffect.js:22-39 | Before the shader is set, a render changes nothing. After it, the program and the normalized quad are bound, and exactly 6 vertices are drawn. `screen_texture` is 0 and unit 0 holds the colour texture. `bright_texture` is 1 and unit 1 holds the bright texture. `vertical` is the flag, and unit 0 is left active. |
| BlurEffect.BindEffect | Systems/BlurEffect.js:27-36 | The binding sequence, command by command, as driver state. |
| GL.Context.LoadShader | WebGLUtil.js:29-55 | `loadShader` always yields a new program. Compile errors are only logged. |
| GL.RunAppend | Systems/RenderPreProcess.js:10-50 | Running two command blocks one after the other is running their concatenation; this is how the systems' blocks compose. |
| DataSources.Framebuffers.constructor | DataSources/Framebuffers.js:1-17 | Every handle in the record starts null. |

## Left out

- Floating-point geometry is not modelled. This covers sphere positions and normals, the trigonometry, `vec3.normalize`, uv values and the pole uv offsets, the cylinder startAngle/endAngle rotations and uv scaling. A vertex is its structural label instead. `thetaEnd` enters only through the boolean "ends at π", and `thetaStart` only through its comparison with 0. The quad's float values are copied but not reasoned about.
- Frame timing is modelled on Dafny's exact `real`s. The source uses IEEE doubles; `requestAnimationFrame` is an explicit `Frame` step.
- The DOM, `canvas.getContext` (a parameter: a context number or none), the canvas size (parameters), and the Ajax text and image fetches are not modelled. Each fetch is an explicit request step plus an explicit arrival or failure step. Promise interleavings are not modelled; execution is single-threaded.
- `Viewport.js` is not part of this model. The `DataSources.Viewport` class stands in for its `canvas.elementId` and `resolution` fields.
- `Systems/ClearCamera.js` is modelled only as a module that exports `render`. It has no state, and its colour and clear calls are not modelled.
- The camera's matrices, the skybox view rotation and the `projection`/`view` uniforms are float matrix data. They appear as `UniformMatrix4` commands without values.
- Shader sources are opaque labels. `loadShader` and `loadCubemap` are one command each. The per-face uploads inside `loadCubemap` are not modelled.
- SkyboxRenderer.SkyboxRenderer.ImageArrived: after the last face image, the model finishes setup as intended. In the source, `loadCubemap` reads an undefined `texData[i]` (WebGLUtil.js:12) for each image. So for every non-empty path list it throws a ReferenceError, and `ready` never becomes true. The source's setup completes only for an empty path list (`Some([])` here), which `OnStart` finishes at once.
- SkyboxRenderer.SkyboxRenderer.Finish: the mesh stores the corrected vertex count, `VertexCount()` = 36, not the source's `skyboxVertices.length` = 108 (Systems/SkyboxRenderer.js:99). The as-written count is `AsWrittenVertexCount()`, and `AsWrittenDrawOutOfRange` shows that drawing it leaves the buffer.
- SkyboxRenderer.SkyboxRenderer.OnStart: for an empty path list, the mesh it finishes with carries the corrected count 36, not 108, as in `Finish`.
- SkyboxRenderer.SkyboxRenderer.OnRender: a ready render draws the mesh's corrected 36 vertices. The source draws 108 (line 127). `RenderState` is stated for any stored count, so it covers the source's draw too.
- Dispatch.InvokeCallback: a callback that throws is not modelled. In the source, an exception inside the `forEach` (WebGLApp.js:7-13, SystemCollection.js:11-17) stops the dispatch, and later systems are not called. `DispatchVisits` therefore holds only when every callback returns normally. None of the core systems' callbacks throws synchronously.
- PrimitiveMesh.GenerateSphereMesh: the default arguments at PrimitiveMesh.js:17 (32 and 16 segments, `thetaStart` 0, `thetaLength` π) are not modelled, so every argument is explicit.
- PrimitiveMesh.GenerateCylinderMesh: `numSegments` is an integer here. The source accepts any number: a non-integer above 3 runs `ceil(numSegments)` segments, and the last one wraps to 0 through the `n >= numSegments` test. That case is not modelled.
- `console.error` output is not modelled. The framebuffer completeness check is a command whose result is not modelled, since the source only logs it.
- The `Framebuffers.renderFramebuffer` object the module-style systems read is passed as an explicit `Framebuffers` instance.
- The skybox vertex table is copied, but the fact that every coordinate is ±1 is not proved.
- The boolean `vertical` passed to `uniform1i` is modelled as the integer 1 or 0.
- RenderPostProcess.RenderPostProcess.Start: requires that `start` has not run before. Running it twice in the source would start two overlapping setups, which this model does not represent.
- SkyboxRenderer.SkyboxRenderer.OnStart: requires that `onStart` has not run before, for the same reason.
- WebGLApp.App.Run: requires that `run` is called once per app. A second `run` would wire a second canvas, which is not modelled.
- No core file sets `brightTexture` or `normalizedQuad`. The record declares them, but the pre-process pass creates only the framebuffer, the colour texture and the depth texture. So the blur pass binds whatever the shared record holds, which is null unless code outside this model sets it.

## Findings

| source | as written | input that shows it | evidently intended | confidence | as-written member | corrected member |
|---|---|---|---|---|---|---|
| Systems/SkyboxRenderer.js:99 | `numVertices: skyboxVertices.length`, so 108, the number of floats in the table | `skyboxTexturePaths = []`, the one path list for which the source's setup completes (any non-empty list fails earlier in `loadCubemap`), followed by `onRender`: `drawArrays(TRIANGLES, 0, 108)` with a 3-float, 12-byte-stride attribute over a 108-float buffer reads 72 vertices past the end | `skyboxVertices.length / 3`, the 36 vertices the table holds | high; not executed | SkyboxRenderer.AsWrittenDrawOutOfRange | SkyboxRenderer.DrawInRange |
