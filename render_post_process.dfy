/** The post-process pass (Systems/RenderPostProcess.js).

    `start` begins the asynchronous `setup`: the full-screen quad's vertex
    buffer and vertex array are created at once, then the two shader sources
    are fetched one after the other, and only once both have arrived is the
    shader loaded and `setupDone` set.  Each fetch completing (or failing) is
    an explicit step here.  `render` does nothing until setup is done and the
    off-screen colour texture exists; then it draws that texture over the
    default framebuffer with depth test, culling and blending off.  The
    module-level `vbo`, `vao`, `shader` and `setupDone` are the fields of
    the one `RenderPostProcess` object. */
module RenderPostProcess {
  import opened GL
  import opened DataSources

  /** Two triangles covering clip space; each vertex is a position (x, y)
      and a texture coordinate (u, v). */
  const QuadTable: seq<real> := [
    -1.0, 1.0, 0.0, 1.0,
    1.0, 1.0, 1.0, 1.0,
    1.0, -1.0, 1.0, 0.0,

    -1.0, 1.0, 0.0, 1.0,
    1.0, -1.0, 1.0, 0.0,
    -1.0, -1.0, 0.0, 0.0
  ]

  const QuadVertexCount: nat := 6

  /** Attribute 0 (position) and attribute 1 (texture coordinate) of the
      quad's vertex array, both reading from `vbo`. */
  function PositionPointer(vbo: Handle): AttribPointer {
    AttribPointer(vbo, 2, 4 * 4, 0)
  }

  function TexCoordPointer(vbo: Handle): AttribPointer {
    AttribPointer(vbo, 2, 4 * 4, 2 * 4)
  }

  const VertexShaderPath := "/Shaders/PostProcess.vert"
  const FragmentShaderPath := "/Shaders/PostProcess.frag"

  /** Lines 26-29: the quad's vertex buffer. */
  function QuadBufferCommands(vbo: Handle): seq<Command> {
    [CreateObject(BufferObject, vbo), BindArrayBuffer(vbo), BufferData(|QuadTable|), BindArrayBuffer(Null)]
  }

  /** Lines 31-38: the quad's vertex array and its two attributes. */
  function QuadArrayCommands(vbo: Handle, vao: Handle): seq<Command> {
    [ CreateObject(VertexArrayObject, vao), BindVertexArray(vao), BindArrayBuffer(vbo),
      VertexAttribPointer(0, 2, 4 * 4, 0), EnableVertexAttribArray(0),
      VertexAttribPointer(1, 2, 4 * 4, 2 * 4), EnableVertexAttribArray(1),
      BindVertexArray(Null) ]
  }

  /** Lines 70-80: the full-screen draw. */
  function DrawCommands(shader: Handle, vao: Handle, color: Handle): seq<Command> {
    [ BindFramebuffer(Null),
      Disable(DepthTest), Disable(CullFace), Disable(Blend),
      UseProgram(shader), BindVertexArray(vao), BindTexture(Texture2D, color),
      DrawArrays(QuadVertexCount) ]
  }

  /** What one `render` issues: nothing until setup is done, nothing while
      the colour texture is unset, the draw otherwise. */
  function RenderCommands(setupDone: bool, color: Handle, shader: Handle, vao: Handle): seq<Command> {
    if setupDone && color != Null then DrawCommands(shader, vao, color) else []
  }

  /** The quad table is six vertices of four floats, and the two attribute
      pointers, 16 bytes apart with the texture coordinate 8 bytes in, read
      exactly vertex k's position and texture coordinate; the texture
      coordinate of every vertex is its position mapped from [-1, 1] to
      [0, 1]. */
  lemma QuadLayout(vbo: Handle, k: nat)
    requires k < QuadVertexCount
    ensures |QuadTable| == QuadVertexCount * 4
    ensures FirstFloat(PositionPointer(vbo), k) == 4 * k
    ensures FirstFloat(TexCoordPointer(vbo), k) == 4 * k + 2
    ensures QuadTable[4 * k + 2] == (QuadTable[4 * k] + 1.0) / 2.0
    ensures QuadTable[4 * k + 3] == (QuadTable[4 * k + 1] + 1.0) / 2.0
  {
  }

  /** Setup leaves the quad's buffer holding the table, its vertex array
      with the two enabled attributes reading from that buffer, no vertex
      array bound and the buffer itself still bound. */
  lemma QuadSetupEffect(s: GlState, vbo: Handle, vao: Handle)
    ensures Run(s, QuadBufferCommands(vbo) + QuadArrayCommands(vbo, vao))
            == s.(arrayBuffer := vbo,
                  vertexArray := Null,
                  bufferFloats := s.bufferFloats[vbo := |QuadTable|],
                  pointers := s.pointers[(vao, 0) := PositionPointer(vbo)][(vao, 1) := TexCoordPointer(vbo)],
                  enabledAttribs := s.enabledAttribs + {(vao, 0)} + {(vao, 1)})
  {
    var a := QuadBufferCommands(vbo);
    var b := QuadArrayCommands(vbo, vao);
    RunAppend(s, a, b);
    RunStep4(s, a);
    var s1 := Run(s, a);
    assert s1 == s.(arrayBuffer := Null, bufferFloats := s.bufferFloats[vbo := |QuadTable|]);
    assert b == b[..4] + b[4..];
    RunAppend(s1, b[..4], b[4..]);
    QuadArrayBindEffect(s1, vbo, vao, b[..4]);
    QuadArrayAttribEffect(Run(s1, b[..4]), vbo, vao, b[4..]);
  }

  lemma QuadArrayBindEffect(s: GlState, vbo: Handle, vao: Handle, cmds: seq<Command>)
    requires cmds == QuadArrayCommands(vbo, vao)[..4]
    ensures Run(s, cmds)
            == s.(arrayBuffer := vbo, vertexArray := vao, pointers := s.pointers[(vao, 0) := PositionPointer(vbo)])
  {
    RunStep4(s, cmds);
  }

  lemma QuadArrayAttribEffect(s: GlState, vbo: Handle, vao: Handle, cmds: seq<Command>)
    requires s.vertexArray == vao && s.arrayBuffer == vbo
    requires cmds == QuadArrayCommands(vbo, vao)[4..]
    ensures Run(s, cmds)
            == s.(vertexArray := Null,
                  pointers := s.pointers[(vao, 1) := TexCoordPointer(vbo)],
                  enabledAttribs := s.enabledAttribs + {(vao, 0)} + {(vao, 1)})
  {
    RunStep4(s, cmds);
  }

  /** The draw leaves the default framebuffer bound, depth test, culling and
      blending off, the shader, the quad and the colour texture bound, and
      records one draw of six vertices. */
  lemma DrawEffect(s: GlState, shader: Handle, vao: Handle, color: Handle)
    ensures Run(s, DrawCommands(shader, vao, color))
            == s.(framebuffer := Null,
                  enabled := s.enabled - {DepthTest} - {CullFace} - {Blend},
                  program := shader,
                  vertexArray := vao,
                  textures := s.textures[(s.activeUnit, Texture2D) := color],
                  draws := s.draws + [QuadVertexCount])
  {
    var first := [BindFramebuffer(Null), Disable(DepthTest), Disable(CullFace), Disable(Blend)];
    var second := [UseProgram(shader), BindVertexArray(vao), BindTexture(Texture2D, color), DrawArrays(QuadVertexCount)];
    assert DrawCommands(shader, vao, color) == first + second;
    RunAppend(s, first, second);
    RunStep4(s, first);
    ResetSteps(s);
    var s1 := Run(s, first);
    RunStep4(s1, second);
    BindAndDrawSteps(s1, shader, vao, color);
  }

  lemma ResetSteps(s: GlState)
    ensures Apply(Apply(Apply(Apply(s, BindFramebuffer(Null)), Disable(DepthTest)), Disable(CullFace)), Disable(Blend))
            == s.(framebuffer := Null, enabled := s.enabled - {DepthTest} - {CullFace} - {Blend})
  {
  }

  lemma BindAndDrawSteps(s: GlState, shader: Handle, vao: Handle, color: Handle)
    ensures Apply(Apply(Apply(Apply(s, UseProgram(shader)), BindVertexArray(vao)), BindTexture(Texture2D, color)),
                  DrawArrays(QuadVertexCount))
            == s.(program := shader, vertexArray := vao, textures := s.textures[(s.activeUnit, Texture2D) := color],
                  draws := s.draws + [QuadVertexCount])
  {
  }

  /** Drawing right after setup reads both attributes of all six vertices
      inside the quad's buffer, provided the new vertex array had no
      attributes enabled before. */
  lemma DrawAfterSetupInBounds(s: GlState, vbo: Handle, vao: Handle, shader: Handle, color: Handle)
    requires forall a :: a in s.enabledAttribs ==> a.0 != vao
    ensures var draw := DrawCommands(shader, vao, color);
      DrawInBounds(Run(Run(s, QuadBufferCommands(vbo) + QuadArrayCommands(vbo, vao)), draw[..|draw| - 1]), QuadVertexCount)
  {
    QuadSetupEffect(s, vbo, vao);
    var t := Run(s, QuadBufferCommands(vbo) + QuadArrayCommands(vbo, vao));
    var draw := DrawCommands(shader, vao, color);
    var pre := draw[..|draw| - 1];
    assert draw == pre + [DrawArrays(QuadVertexCount)];
    RunSnoc(t, pre, DrawArrays(QuadVertexCount));
    DrawEffect(t, shader, vao, color);
    var u := Run(t, pre);
    assert u.vertexArray == vao && u.bufferFloats == t.bufferFloats && u.pointers == t.pointers
           && u.enabledAttribs == t.enabledAttribs by {
      assert Apply(u, DrawArrays(QuadVertexCount)).vertexArray == u.vertexArray;
    }
  }

  /** `render` opens only when both gates are open. */
  lemma RenderGate(setupDone: bool, color: Handle, shader: Handle, vao: Handle)
    ensures RenderCommands(setupDone, color, shader, vao) == [] <==> !setupDone || color == Null
    ensures DrawCount(RenderCommands(setupDone, color, shader, vao)) == (if setupDone && color != Null then 1 else 0)
  {
    var cmds := DrawCommands(shader, vao, color);
    assert cmds == cmds[..7] + [DrawArrays(QuadVertexCount)];
    DrawCountLast(cmds[..7], QuadVertexCount);
  }

  /** Where the asynchronous setup stands. */
  datatype SetupPhase =
    | NotStarted
    | AwaitingVertexSource(pathPrefix: string)
    | AwaitingFragmentSource(pathPrefix: string, vertexSource: string)
    | Done
    | Failed

  /** Lines 26-29 as the source issues them. */
  method CreateQuadBuffer(gl: Context) returns (vbo: Handle)
    modifies gl
    ensures vbo == Obj(old(gl.next)) && gl.next == old(gl.next) + 1
    ensures gl.log == old(gl.log) + QuadBufferCommands(vbo)
  {
    vbo := gl.Create(BufferObject);
    gl.Issue(BindArrayBuffer(vbo));
    gl.Issue(BufferData(|QuadTable|));
    gl.Issue(BindArrayBuffer(Null));
  }

  /** Lines 31-38 as the source issues them. */
  method CreateQuadArray(gl: Context, vbo: Handle) returns (vao: Handle)
    modifies gl
    ensures vao == Obj(old(gl.next)) && gl.next == old(gl.next) + 1
    ensures gl.log == old(gl.log) + QuadArrayCommands(vbo, vao)
  {
    vao := gl.Create(VertexArrayObject);
    gl.Issue(BindVertexArray(vao));
    gl.Issue(BindArrayBuffer(vbo));
    gl.Issue(VertexAttribPointer(0, 2, 4 * 4, 0));
    gl.Issue(EnableVertexAttribArray(0));
    gl.Issue(VertexAttribPointer(1, 2, 4 * 4, 2 * 4));
    gl.Issue(EnableVertexAttribArray(1));
    gl.Issue(BindVertexArray(Null));
  }

  /** Lines 70-80 as the source issues them. */
  method Draw(gl: Context, shader: Handle, vao: Handle, color: Handle)
    modifies gl
    ensures gl.next == old(gl.next)
    ensures gl.log == old(gl.log) + DrawCommands(shader, vao, color)
  {
    gl.Issue(BindFramebuffer(Null));
    gl.Issue(Disable(DepthTest));
    gl.Issue(Disable(CullFace));
    gl.Issue(Disable(Blend));
    gl.Issue(UseProgram(shader));
    gl.Issue(BindVertexArray(vao));
    gl.Issue(BindTexture(Texture2D, color));
    gl.Issue(DrawArrays(QuadVertexCount));
  }

  class RenderPostProcess {
    var vbo: Handle
    var vao: Handle
    var shader: Handle
    var setupDone: bool
    var phase: SetupPhase
    /** The URLs fetched so far, in order. */
    var requested: seq<string>

    /** `setupDone` holds exactly when every step of setup has run, and then
        the shader exists. */
    ghost predicate Valid()
      reads this
    {
      && (setupDone <==> phase == Done)
      && (setupDone ==> shader != Null)
    }

    constructor ()
      ensures Valid()
      ensures vbo == Null && vao == Null && shader == Null && !setupDone
      ensures phase == NotStarted && requested == []
    {
      vbo, vao, shader := Null, Null, Null;
      setupDone := false;
      phase := NotStarted;
      requested := [];
    }

    /** `start`: the quad is created and the vertex shader source requested;
        the rest of setup waits for that fetch. */
    method Start(gl: Context, pathPrefix: string)
      requires Valid() && phase == NotStarted
      modifies this, gl
      ensures Valid() && !setupDone && shader == old(shader)
      ensures vbo == Obj(old(gl.next)) && vao == Obj(old(gl.next) + 1) && gl.next == old(gl.next) + 2
      ensures gl.log == old(gl.log) + QuadBufferCommands(vbo) + QuadArrayCommands(vbo, vao)
      ensures requested == old(requested) + [pathPrefix + VertexShaderPath]
      ensures phase == AwaitingVertexSource(pathPrefix)
    {
      vbo := CreateQuadBuffer(gl);
      vao := CreateQuadArray(gl, vbo);
      requested := requested + [pathPrefix + VertexShaderPath];
      phase := AwaitingVertexSource(pathPrefix);
    }

    /** The vertex shader source arrived: the fragment source is requested. */
    method VertexSourceArrived(vertexSource: string)
      requires Valid() && phase.AwaitingVertexSource?
      modifies this
      ensures Valid() && !setupDone
      ensures vbo == old(vbo) && vao == old(vao) && shader == old(shader)
      ensures requested == old(requested) + [old(phase).pathPrefix + FragmentShaderPath]
      ensures phase == AwaitingFragmentSource(old(phase).pathPrefix, vertexSource)
    {
      requested := requested + [phase.pathPrefix + FragmentShaderPath];
      phase := AwaitingFragmentSource(phase.pathPrefix, vertexSource);
    }

    /** The fragment shader source arrived: the shader is loaded and setup is done. */
    method FragmentSourceArrived(gl: Context, fragmentSource: string)
      requires Valid() && phase.AwaitingFragmentSource?
      modifies this, gl
      ensures Valid() && setupDone
      ensures vbo == old(vbo) && vao == old(vao) && requested == old(requested)
      ensures shader == Obj(old(gl.next)) && gl.next == old(gl.next) + 1
      ensures gl.log == old(gl.log) + [LoadProgram(old(phase).vertexSource, fragmentSource, shader)]
    {
      shader := gl.LoadShader(phase.vertexSource, fragmentSource);
      setupDone := true;
      phase := Done;
    }

    /** A fetch was rejected: `setup` stops there and `setupDone` stays false. */
    method FetchFailed()
      requires Valid() && (phase.AwaitingVertexSource? || phase.AwaitingFragmentSource?)
      modifies this
      ensures Valid() && !setupDone && phase == Failed
      ensures vbo == old(vbo) && vao == old(vao) && shader == old(shader) && requested == old(requested)
    {
      phase := Failed;
    }

    /** `render`: the double gate, then the draw. */
    method Render(deltaTime: real, gl: Context, buffers: Framebuffers)
      requires Valid()
      modifies gl
      ensures gl.next == old(gl.next)
      ensures gl.log == old(gl.log) + RenderCommands(setupDone, buffers.colorTexture, shader, vao)
    {
      if !setupDone {
        return;
      }
      if buffers.colorTexture == Null {
        return;
      }
      Draw(gl, shader, vao, buffers.colorTexture);
    }
  }
}
