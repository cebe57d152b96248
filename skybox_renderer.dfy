/** The skybox system (Systems/SkyboxRenderer.js).

    `onStart` begins the asynchronous `setup`.  Without cubemap paths it
    returns at once and the skybox is never drawn.  Otherwise the skybox
    shader is loaded, the face images are fetched one after another, in
    path order, and once the last one has arrived the cubemap texture and
    the cube's vertex buffer and vertex array are created and `ready` is
    set.  Each fetch completing (or failing) is an explicit step here.
    `onRender` does nothing until `ready`; then it draws the cube with depth
    test on, culling off and the "less or equal" depth function, so the
    skybox (drawn at depth 1) stays behind everything.  The camera's
    matrices are uploaded as the `projection` and `view` uniforms; their
    values are not modelled. */
module SkyboxRenderer {
  import opened GL
  import opened Wrappers

  /** The cube: 36 vertices, three floats each. */
  const SkyboxVertices: seq<real> := [
    -1.0, 1.0, -1.0,
    -1.0, -1.0, -1.0,
    1.0, -1.0, -1.0,
    1.0, -1.0, -1.0,
    1.0, 1.0, -1.0,
    -1.0, 1.0, -1.0,

    -1.0, -1.0, 1.0,
    -1.0, -1.0, -1.0,
    -1.0, 1.0, -1.0,
    -1.0, 1.0, -1.0,
    -1.0, 1.0, 1.0,
    -1.0, -1.0, 1.0,

    1.0, -1.0, -1.0,
    1.0, -1.0, 1.0,
    1.0, 1.0, 1.0,
    1.0, 1.0, 1.0,
    1.0, 1.0, -1.0,
    1.0, -1.0, -1.0,

    -1.0, -1.0, 1.0,
    -1.0, 1.0, 1.0,
    1.0, 1.0, 1.0,
    1.0, 1.0, 1.0,
    1.0, -1.0, 1.0,
    -1.0, -1.0, 1.0,

    -1.0, 1.0, -1.0,
    1.0, 1.0, -1.0,
    1.0, 1.0, 1.0,
    1.0, 1.0, 1.0,
    -1.0, 1.0, 1.0,
    -1.0, 1.0, -1.0,

    -1.0, -1.0, -1.0,
    -1.0, -1.0, 1.0,
    1.0, -1.0, -1.0,
    1.0, -1.0, -1.0,
    -1.0, -1.0, 1.0,
    1.0, -1.0, 1.0
  ]

  /** Floats per vertex of the cube (the attribute pointer's size). */
  const PositionSize: nat := 3

  /** The two shader sources of Shaders/Skybox.js, as opaque labels. */
  const VertexShaderSource := "Skybox.VertexShader"
  const FragmentShaderSource := "Skybox.FragmentShader"

  /** Attribute 0 of the cube's vertex array: three floats every 12 bytes. */
  function PositionPointer(vbo: Handle): AttribPointer {
    AttribPointer(vbo, PositionSize, PositionSize * 4, 0)
  }

  /** What `setup` stores as `this.mesh`. */
  datatype SkyboxMesh = SkyboxMesh(vao: Handle, vbo: Handle, numVertices: nat)

  /** Lines 84-88: the cube's vertex buffer, filled with the table. */
  function BufferCommands(vbo: Handle): seq<Command> {
    [CreateObject(BufferObject, vbo), BindArrayBuffer(vbo), BufferData(|SkyboxVertices|), BindArrayBuffer(Null)]
  }

  /** Lines 89-94: the cube's vertex array with its one position attribute. */
  function ArrayCommands(vbo: Handle, vao: Handle): seq<Command> {
    [ CreateObject(VertexArrayObject, vao), BindVertexArray(vao), BindArrayBuffer(vbo),
      VertexAttribPointer(0, PositionSize, PositionSize * 4, 0), EnableVertexAttribArray(0),
      BindVertexArray(Null) ]
  }

  /** Lines 82-94: what `setup` issues once every face image has arrived. */
  function FinishCommands(images: seq<Image>, texture: Handle, vbo: Handle, vao: Handle): seq<Command> {
    [LoadCubemapTexture(images, texture)] + BufferCommands(vbo) + ArrayCommands(vbo, vao)
  }

  /** Lines 117-125: the pipeline state the skybox is drawn with. */
  function PipelineCommands(shader: Handle, texture: Handle, vao: Handle): seq<Command> {
    [ Enable(DepthTest), Disable(CullFace), DepthFunc(LEqual),
      UseProgram(shader), UniformMatrix4("projection"), UniformMatrix4("view"),
      BindTexture(TextureCubeMap, texture), BindVertexArray(vao) ]
  }

  /** Lines 117-127: the pipeline state, then the draw of the mesh. */
  function DrawCommands(shader: Handle, texture: Handle, mesh: SkyboxMesh): seq<Command> {
    PipelineCommands(shader, texture, mesh.vao) + [DrawArrays(mesh.numVertices)]
  }

  /** What one `onRender` issues: nothing until `ready`, the draw after. */
  function RenderCommands(ready: bool, shader: Handle, texture: Handle, mesh: Option<SkyboxMesh>): seq<Command> {
    if ready && mesh.Some? then DrawCommands(shader, texture, mesh.value) else []
  }

  /** Line 99 as written: the mesh's vertex count is the length of the
      float table. */
  function AsWrittenVertexCount(): nat {
    |SkyboxVertices|
  }

  /** The number of vertices the table holds, the count a draw of the whole
      cube needs. */
  function VertexCount(): (r: nat)
    ensures r * PositionSize == |SkyboxVertices|
  {
    |SkyboxVertices| / PositionSize
  }

  /** The sources of the images, in order. */
  function Sources(images: seq<Image>): (r: seq<string>)
    ensures |r| == |images|
    ensures forall j :: 0 <= j < |images| ==> r[j] == images[j].src
  {
    seq(|images|, j requires 0 <= j < |images| => images[j].src)
  }

  /** Setup leaves the cube's buffer holding the table and its vertex array
      with attribute 0 enabled, reading three floats per vertex from that
      buffer; no vertex array is bound and the buffer still is. */
  lemma MeshSetupEffect(s: GlState, vbo: Handle, vao: Handle)
    ensures Run(s, BufferCommands(vbo) + ArrayCommands(vbo, vao))
            == s.(arrayBuffer := vbo,
                  vertexArray := Null,
                  bufferFloats := s.bufferFloats[vbo := |SkyboxVertices|],
                  pointers := s.pointers[(vao, 0) := PositionPointer(vbo)],
                  enabledAttribs := s.enabledAttribs + {(vao, 0)})
  {
    RunAppend(s, BufferCommands(vbo), ArrayCommands(vbo, vao));
    BufferEffect(s, vbo);
    ArrayEffect(Run(s, BufferCommands(vbo)), vbo, vao);
  }

  lemma BufferEffect(s: GlState, vbo: Handle)
    ensures Run(s, BufferCommands(vbo)) == s.(arrayBuffer := Null, bufferFloats := s.bufferFloats[vbo := |SkyboxVertices|])
  {
    RunStep4(s, BufferCommands(vbo));
    BufferSteps(s, vbo);
  }

  lemma ArrayEffect(s: GlState, vbo: Handle, vao: Handle)
    ensures Run(s, ArrayCommands(vbo, vao))
            == s.(arrayBuffer := vbo,
                  vertexArray := Null,
                  pointers := s.pointers[(vao, 0) := PositionPointer(vbo)],
                  enabledAttribs := s.enabledAttribs + {(vao, 0)})
  {
    var first := [CreateObject(VertexArrayObject, vao), BindVertexArray(vao)];
    var second := [BindArrayBuffer(vbo), VertexAttribPointer(0, PositionSize, PositionSize * 4, 0),
                   EnableVertexAttribArray(0), BindVertexArray(Null)];
    assert ArrayCommands(vbo, vao) == first + second;
    RunAppend(s, first, second);
    RunStep2(s, first);
    assert Run(s, first) == s.(vertexArray := vao);
    RunStep4(s.(vertexArray := vao), second);
    AttributeSteps(s.(vertexArray := vao), vbo);
  }

  lemma BufferSteps(s: GlState, vbo: Handle)
    ensures Apply(Apply(Apply(Apply(s, CreateObject(BufferObject, vbo)), BindArrayBuffer(vbo)),
                        BufferData(|SkyboxVertices|)), BindArrayBuffer(Null))
            == s.(arrayBuffer := Null, bufferFloats := s.bufferFloats[vbo := |SkyboxVertices|])
  {
  }

  lemma AttributeSteps(s: GlState, vbo: Handle)
    ensures Apply(Apply(Apply(Apply(s, BindArrayBuffer(vbo)), VertexAttribPointer(0, PositionSize, PositionSize * 4, 0)),
                        EnableVertexAttribArray(0)), BindVertexArray(Null))
            == s.(arrayBuffer := vbo,
                  vertexArray := Null,
                  pointers := s.pointers[(s.vertexArray, 0) := PositionPointer(vbo)],
                  enabledAttribs := s.enabledAttribs + {(s.vertexArray, 0)})
  {
  }

  /** The skybox's pipeline state: depth test on, culling off, the "less or
      equal" depth function (the cube is drawn at depth 1), the skybox
      shader, the cubemap on the active unit and the cube's vertex array;
      nothing else changes. */
  lemma PipelineEffect(s: GlState, shader: Handle, texture: Handle, vao: Handle)
    ensures Run(s, PipelineCommands(shader, texture, vao))
            == s.(enabled := s.enabled + {DepthTest} - {CullFace},
                  depthFunc := LEqual,
                  program := shader,
                  textures := s.textures[(s.activeUnit, TextureCubeMap) := texture],
                  vertexArray := vao)
  {
    var first := [Enable(DepthTest), Disable(CullFace), DepthFunc(LEqual), UseProgram(shader)];
    var second := [UniformMatrix4("projection"), UniformMatrix4("view"),
                   BindTexture(TextureCubeMap, texture), BindVertexArray(vao)];
    assert PipelineCommands(shader, texture, vao) == first + second;
    RunAppend(s, first, second);
    RunStep4(s, first);
    DepthSteps(s, shader);
    var s1 := Run(s, first);
    RunStep4(s1, second);
    BindSteps(s1, texture, vao);
  }

  lemma DepthSteps(s: GlState, shader: Handle)
    ensures Apply(Apply(Apply(Apply(s, Enable(DepthTest)), Disable(CullFace)), DepthFunc(LEqual)), UseProgram(shader))
            == s.(enabled := s.enabled + {DepthTest} - {CullFace}, depthFunc := LEqual, program := shader)
  {
  }

  lemma BindSteps(s: GlState, texture: Handle, vao: Handle)
    ensures Apply(Apply(Apply(Apply(s, UniformMatrix4("projection")), UniformMatrix4("view")),
                        BindTexture(TextureCubeMap, texture)), BindVertexArray(vao))
            == s.(textures := s.textures[(s.activeUnit, TextureCubeMap) := texture], vertexArray := vao)
  {
  }

  /** `onRender` draws exactly once when ready and not at all before; the
      draw sees depth test on, culling off, the "less or equal" depth
      function, the skybox shader, its cubemap and the mesh's vertices. */
  lemma RenderState(s: GlState, ready: bool, shader: Handle, texture: Handle, mesh: Option<SkyboxMesh>)
    ensures DrawCount(RenderCommands(ready, shader, texture, mesh)) == (if ready && mesh.Some? then 1 else 0)
    ensures !ready ==> Run(s, RenderCommands(ready, shader, texture, mesh)) == s
    ensures ready && mesh.Some? ==>
      var t := Run(s, RenderCommands(ready, shader, texture, mesh));
      && DepthTest in t.enabled && CullFace !in t.enabled && t.depthFunc == LEqual
      && t.program == shader && BoundTexture(t, t.activeUnit, TextureCubeMap) == texture
      && t.vertexArray == mesh.value.vao && t.draws == s.draws + [mesh.value.numVertices]
  {
    if ready && mesh.Some? {
      var pre := PipelineCommands(shader, texture, mesh.value.vao);
      DrawCountLast(pre, mesh.value.numVertices);
      RunSnoc(s, pre, DrawArrays(mesh.value.numVertices));
      PipelineEffect(s, shader, texture, mesh.value.vao);
    }
  }

  /** The state the skybox draw reads its vertices in: right after setup,
      the pipeline bound. */
  function DrawState(s: GlState, shader: Handle, texture: Handle, vbo: Handle, vao: Handle): GlState {
    Run(Run(s, BufferCommands(vbo) + ArrayCommands(vbo, vao)), PipelineCommands(shader, texture, vao))
  }

  /** In the state the draw sees, attribute 0 of the cube's vertex array is
      enabled and reads three floats every 12 bytes from a buffer of 108
      floats. */
  lemma DrawStateAttribute(s: GlState, shader: Handle, texture: Handle, vbo: Handle, vao: Handle)
    ensures var t := DrawState(s, shader, texture, vbo, vao);
      && t.vertexArray == vao && (vao, 0) in t.enabledAttribs
      && (vao, 0) in t.pointers && t.pointers[(vao, 0)] == PositionPointer(vbo)
      && vbo in t.bufferFloats && t.bufferFloats[vbo] == |SkyboxVertices|
    ensures forall a :: a in DrawState(s, shader, texture, vbo, vao).enabledAttribs && a.0 == vao
              ==> a == (vao, 0) || a in s.enabledAttribs
  {
    MeshSetupEffect(s, vbo, vao);
    PipelineEffect(Run(s, BufferCommands(vbo) + ArrayCommands(vbo, vao)), shader, texture, vao);
  }

  /** As written, the draw asks for 108 vertices: vertex 36 onwards lies past
      the end of the 108-float buffer. */
  lemma AsWrittenDrawOutOfRange(s: GlState, shader: Handle, texture: Handle, vbo: Handle, vao: Handle)
    ensures !DrawInBounds(DrawState(s, shader, texture, vbo, vao), AsWrittenVertexCount())
  {
    DrawStateAttribute(s, shader, texture, vbo, vao);
    CubeAttributeBounds(DrawState(s, shader, texture, vbo, vao), vbo, vao);
  }

  /** Corrected, the draw of `VertexCount()` vertices reads the whole cube
      and nothing past it: one vertex more would leave the buffer. */
  lemma DrawInRange(s: GlState, shader: Handle, texture: Handle, vbo: Handle, vao: Handle)
    requires forall a :: a in s.enabledAttribs ==> a.0 != vao
    ensures DrawInBounds(DrawState(s, shader, texture, vbo, vao), VertexCount())
    ensures !DrawInBounds(DrawState(s, shader, texture, vbo, vao), VertexCount() + 1)
  {
    DrawStateAttribute(s, shader, texture, vbo, vao);
    CubeAttributeBounds(DrawState(s, shader, texture, vbo, vao), vbo, vao);
  }

  /** In any state where the cube's attribute is the bound vertex array's
      only enabled one, 36 vertices are the most a draw can read. */
  lemma CubeAttributeBounds(t: GlState, vbo: Handle, vao: Handle)
    requires t.vertexArray == vao && (vao, 0) in t.enabledAttribs
    requires (vao, 0) in t.pointers && t.pointers[(vao, 0)] == PositionPointer(vbo)
    requires vbo in t.bufferFloats && t.bufferFloats[vbo] == |SkyboxVertices|
    ensures !DrawInBounds(t, AsWrittenVertexCount()) && !DrawInBounds(t, VertexCount() + 1)
    ensures (forall a :: a in t.enabledAttribs && a.0 == vao ==> a == (vao, 0)) ==> DrawInBounds(t, VertexCount())
  {
    assert VertexCount() == 36;
    assert !AttributeInBounds(t, t.pointers[(vao, 0)], 37);
    assert !AttributeInBounds(t, t.pointers[(vao, 0)], 108);
  }

  /** Lines 84-88 as the source issues them. */
  method CreateBuffer(gl: Context) returns (vbo: Handle)
    modifies gl
    ensures vbo == Obj(old(gl.next)) && gl.next == old(gl.next) + 1
    ensures gl.log == old(gl.log) + BufferCommands(vbo)
  {
    vbo := gl.Create(BufferObject);
    gl.Issue(BindArrayBuffer(vbo));
    gl.Issue(BufferData(|SkyboxVertices|));
    gl.Issue(BindArrayBuffer(Null));
  }

  /** Lines 89-94 as the source issues them. */
  method CreateArray(gl: Context, vbo: Handle) returns (vao: Handle)
    modifies gl
    ensures vao == Obj(old(gl.next)) && gl.next == old(gl.next) + 1
    ensures gl.log == old(gl.log) + ArrayCommands(vbo, vao)
  {
    vao := gl.Create(VertexArrayObject);
    gl.Issue(BindVertexArray(vao));
    gl.Issue(BindArrayBuffer(vbo));
    gl.Issue(VertexAttribPointer(0, PositionSize, PositionSize * 4, 0));
    gl.Issue(EnableVertexAttribArray(0));
    gl.Issue(BindVertexArray(Null));
  }

  /** Lines 117-125 as the source issues them. */
  method SetPipeline(gl: Context, shader: Handle, texture: Handle, vao: Handle)
    modifies gl
    ensures gl.next == old(gl.next)
    ensures gl.log == old(gl.log) + PipelineCommands(shader, texture, vao)
  {
    gl.Issue(Enable(DepthTest));
    gl.Issue(Disable(CullFace));
    gl.Issue(DepthFunc(LEqual));
    gl.Issue(UseProgram(shader));
    gl.Issue(UniformMatrix4("projection"));
    gl.Issue(UniformMatrix4("view"));
    gl.Issue(BindTexture(TextureCubeMap, texture));
    gl.Issue(BindVertexArray(vao));
  }

  /** Where the asynchronous setup stands. */
  datatype SetupPhase =
    | NotStarted
    /** No cubemap paths: `setup` returned at once. */
    | Skipped
    /** Waiting for the face image at this index of the paths. */
    | AwaitingImage(index: nat)
    | Done
    /** An image request was rejected: the rest of `setup` never runs. */
    | Failed

  class SkyboxRenderer {
    const gl: Context
    /** The cubemap face paths; `None` is the falsy (absent) value.  An
        empty list is truthy in JavaScript, so it does not skip setup. */
    const paths: Option<seq<string>>
    var ready: bool
    var shader: Handle
    var texture: Handle
    var mesh: Option<SkyboxMesh>
    /** The face images received so far, in path order. */
    var textureImages: seq<Image>
    /** The image URLs requested so far, in order. */
    var requested: seq<string>
    var phase: SetupPhase

    /** `ready` holds exactly when setup has finished; the images then are
        the faces of all paths in order, and while images are awaited they
        are those of the paths before the awaited one. */
    ghost predicate Valid()
      reads this
    {
      && (ready <==> phase == Done)
      && (phase == NotStarted ==> shader == Null && texture == Null && requested == [] && textureImages == [] && mesh.None?)
      && (phase == Skipped ==> paths.None? && shader == Null && texture == Null && requested == [] && mesh.None?)
      && (phase.AwaitingImage? ==>
            && paths.Some? && phase.index < |paths.value| && shader != Null && texture == Null
            && Sources(textureImages) == paths.value[..phase.index]
            && requested == paths.value[..phase.index + 1] && mesh.None?)
      && (phase == Done ==>
            && paths.Some? && shader != Null && texture != Null
            && Sources(textureImages) == paths.value && requested == paths.value
            && mesh.Some? && mesh.value.numVertices == VertexCount())
    }

    constructor (gl: Context, paths: Option<seq<string>>)
      ensures Valid()
      ensures this.gl == gl && this.paths == paths && !ready && phase == NotStarted
    {
      this.gl := gl;
      this.paths := paths;
      ready := false;
      shader, texture := Null, Null;
      mesh := None;
      textureImages, requested := [], [];
      phase := NotStarted;
    }

    /** `onStart`, which runs `setup` up to its first image request. */
    method OnStart()
      requires Valid() && phase == NotStarted
      modifies this, gl
      ensures Valid()
      ensures paths.None? ==> phase == Skipped && !ready && gl.log == old(gl.log) && gl.next == old(gl.next)
                              && shader == Null && texture == Null && mesh.None?
      ensures paths.Some? ==> shader == Obj(old(gl.next))
      ensures paths.Some? && paths.value != [] ==>
        && phase == AwaitingImage(0) && requested == [paths.value[0]] && !ready
        && texture == Null && mesh.None? && gl.next == old(gl.next) + 1
        && gl.log == old(gl.log) + [LoadProgram(VertexShaderSource, FragmentShaderSource, shader)]
      ensures paths == Some([]) ==>
        && ready && texture == Obj(old(gl.next) + 1)
        && mesh == Some(SkyboxMesh(Obj(old(gl.next) + 3), Obj(old(gl.next) + 2), VertexCount()))
        && gl.log == old(gl.log) + [LoadProgram(VertexShaderSource, FragmentShaderSource, shader)]
                     + FinishCommands([], texture, mesh.value.vbo, mesh.value.vao)
    {
      if paths.None? {
        phase := Skipped;
        return;
      }
      shader := gl.LoadShader(VertexShaderSource, FragmentShaderSource);
      if paths.value == [] {
        Finish();
      } else {
        requested := [paths.value[0]];
        phase := AwaitingImage(0);
      }
    }

    /** The awaited face image arrived: the next one is requested, or, after
        the last, setup finishes. */
    method ImageArrived(pixels: nat)
      requires Valid() && phase.AwaitingImage?
      modifies this, gl
      ensures Valid()
      ensures textureImages == old(textureImages) + [Image(paths.value[old(phase).index], pixels)]
      ensures shader == old(shader)
      ensures old(phase).index + 1 < |paths.value| ==>
        && phase == AwaitingImage(old(phase).index + 1) && !ready
        && requested == old(requested) + [paths.value[old(phase).index + 1]]
        && gl.log == old(gl.log) && gl.next == old(gl.next)
      ensures old(phase).index + 1 == |paths.value| ==>
        && ready && requested == old(requested) && texture == Obj(old(gl.next))
        && mesh == Some(SkyboxMesh(Obj(old(gl.next) + 2), Obj(old(gl.next) + 1), VertexCount()))
        && gl.log == old(gl.log) + FinishCommands(textureImages, texture, mesh.value.vbo, mesh.value.vao)
    {
      var i := phase.index;
      textureImages := textureImages + [Image(paths.value[i], pixels)];
      assert Sources(textureImages) == paths.value[..i + 1];
      if i + 1 < |paths.value| {
        requested := requested + [paths.value[i + 1]];
        phase := AwaitingImage(i + 1);
      } else {
        assert paths.value[..i + 1] == paths.value;
        Finish();
      }
    }

    /** An image request was rejected. */
    method ImageFailed()
      requires Valid() && phase.AwaitingImage?
      modifies this
      ensures Valid() && phase == Failed && !ready
      ensures shader == old(shader) && textureImages == old(textureImages) && requested == old(requested)
    {
      phase := Failed;
    }

    /** Lines 82-102: the cubemap from the images, the cube's buffer and
        vertex array, the mesh record and, last, `ready`. */
    method Finish()
      requires phase == NotStarted || phase.AwaitingImage?
      requires paths.Some? && shader != Null && Sources(textureImages) == paths.value && requested == paths.value
      modifies this, gl
      ensures Valid() && ready
      ensures shader == old(shader) && textureImages == old(textureImages) && requested == old(requested)
      ensures texture == Obj(old(gl.next)) && gl.next == old(gl.next) + 3
      ensures mesh == Some(SkyboxMesh(Obj(old(gl.next) + 2), Obj(old(gl.next) + 1), VertexCount()))
      ensures gl.log == old(gl.log) + FinishCommands(textureImages, texture, mesh.value.vbo, mesh.value.vao)
    {
      texture := gl.LoadCubemap(textureImages);
      var vbo := CreateBuffer(gl);
      var vao := CreateArray(gl, vbo);
      mesh := Some(SkyboxMesh(vao, vbo, VertexCount()));
      ready := true;
      phase := Done;
    }

    /** `onRender`: nothing until ready, then the skybox draw. */
    method OnRender()
      requires Valid()
      modifies gl
      ensures gl.next == old(gl.next)
      ensures gl.log == old(gl.log) + RenderCommands(ready, shader, texture, mesh)
    {
      if !ready {
        return;
      }
      SetPipeline(gl, shader, texture, mesh.value.vao);
      gl.Issue(DrawArrays(mesh.value.numVertices));
    }
  }
}
