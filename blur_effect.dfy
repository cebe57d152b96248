/** The blur pass (Systems/BlurEffect.js).

    `onStart` loads the blur shader.  `onPostProcessRender` does nothing
    before that; afterwards it draws the normalized quad with the scene's
    colour texture on texture unit 0 and its bright texture on unit 1, tells
    the shader which unit is which and whether to blur vertically, and
    leaves unit 0 active. */
module BlurEffect {
  import opened GL
  import opened DataSources

  /** The two shader sources of Shaders/PostProcessBlur.js, as opaque labels. */
  const VertexShaderSource := "PostProcessBlur.VertexShader"
  const FragmentShaderSource := "PostProcessBlur.FragmentShader"

  /** The blur shader's uniforms: its two samplers and its direction. */
  const ScreenTexture := "screen_texture"
  const BrightTexture := "bright_texture"
  const Vertical := "vertical"

  /** The normalized quad's two triangles. */
  const QuadVertexCount: nat := 6

  /** The integer a JavaScript boolean becomes when passed to `uniform1i`. */
  function Flag(b: bool): int {
    if b then 1 else 0
  }

  /** Lines 27-28: the blur shader and the quad. */
  function ShaderCommands(shader: Handle, vao: Handle): seq<Command> {
    [UseProgram(shader), BindVertexArray(vao)]
  }

  /** Lines 29-33: the colour texture on unit 0, the bright texture on unit
      1, then unit 0 active again. */
  function TextureCommands(color: Handle, bright: Handle): seq<Command> {
    [ActiveTexture(0), BindTexture(Texture2D, color), ActiveTexture(1), BindTexture(Texture2D, bright), ActiveTexture(0)]
  }

  /** Lines 34-36: the two sampler units and the direction. */
  function UniformCommands(vertical: bool): seq<Command> {
    [Uniform1i(ScreenTexture, 0), Uniform1i(BrightTexture, 1), Uniform1i(Vertical, Flag(vertical))]
  }

  /** Lines 27-36: everything the draw needs bound. */
  function BindCommands(shader: Handle, vao: Handle, color: Handle, bright: Handle, vertical: bool): seq<Command> {
    ShaderCommands(shader, vao) + TextureCommands(color, bright) + UniformCommands(vertical)
  }

  /** Lines 27-38: the bindings, then the draw. */
  function DrawCommands(shader: Handle, vao: Handle, color: Handle, bright: Handle, vertical: bool): seq<Command> {
    BindCommands(shader, vao, color, bright, vertical) + [DrawArrays(QuadVertexCount)]
  }

  /** What one `onPostProcessRender` issues: nothing before the shader is
      loaded, the draw after. */
  function RenderCommands(shader: Handle, vao: Handle, color: Handle, bright: Handle, vertical: bool): seq<Command> {
    if shader == Null then [] else DrawCommands(shader, vao, color, bright, vertical)
  }

  /** The bindings leave the blur shader and the quad bound, the colour
      texture on unit 0, the bright texture on unit 1, unit 0 active, and
      the shader's two sampler uniforms and its direction set; nothing else
      changes. */
  lemma BindEffect(s: GlState, shader: Handle, vao: Handle, color: Handle, bright: Handle, vertical: bool)
    ensures Run(s, BindCommands(shader, vao, color, bright, vertical))
            == s.(program := shader,
                  vertexArray := vao,
                  activeUnit := 0,
                  textures := s.textures[(0, Texture2D) := color][(1, Texture2D) := bright],
                  uniforms := s.uniforms[(shader, ScreenTexture) := 0][(shader, BrightTexture) := 1]
                                        [(shader, Vertical) := Flag(vertical)])
  {
    var a, b, c := ShaderCommands(shader, vao), TextureCommands(color, bright), UniformCommands(vertical);
    RunAppend(s, a + b, c);
    RunAppend(s, a, b);
    ShaderEffect(s, shader, vao);
    var s1 := s.(program := shader, vertexArray := vao);
    TextureEffect(s1, color, bright);
    var s2 := s1.(activeUnit := 0, textures := s1.textures[(0, Texture2D) := color][(1, Texture2D) := bright]);
    assert Run(s, a + b) == s2;
    UniformEffect(s2, vertical);
  }

  lemma ShaderEffect(s: GlState, shader: Handle, vao: Handle)
    ensures Run(s, ShaderCommands(shader, vao)) == s.(program := shader, vertexArray := vao)
  {
    RunStep2(s, ShaderCommands(shader, vao));
  }

  lemma TextureEffect(s: GlState, color: Handle, bright: Handle)
    ensures Run(s, TextureCommands(color, bright))
            == s.(activeUnit := 0, textures := s.textures[(0, Texture2D) := color][(1, Texture2D) := bright])
  {
    var first := [ActiveTexture(0), BindTexture(Texture2D, color), ActiveTexture(1), BindTexture(Texture2D, bright)];
    assert TextureCommands(color, bright) == first + [ActiveTexture(0)];
    RunSnoc(s, first, ActiveTexture(0));
    RunStep4(s, first);
    TextureSteps(s, color, bright);
  }

  lemma TextureSteps(s: GlState, color: Handle, bright: Handle)
    ensures Apply(Apply(Apply(Apply(s, ActiveTexture(0)), BindTexture(Texture2D, color)), ActiveTexture(1)),
                  BindTexture(Texture2D, bright))
            == s.(activeUnit := 1, textures := s.textures[(0, Texture2D) := color][(1, Texture2D) := bright])
  {
  }

  lemma UniformEffect(s: GlState, vertical: bool)
    ensures Run(s, UniformCommands(vertical))
            == s.(uniforms := s.uniforms[(s.program, ScreenTexture) := 0][(s.program, BrightTexture) := 1]
                                        [(s.program, Vertical) := Flag(vertical)])
  {
    RunStep3(s, UniformCommands(vertical));
  }

  /** Once the shader is loaded each render draws the quad once, and at
      that draw the unit each sampler
      uniform names holds the texture it is meant for: `screen_texture` the
      colour texture, `bright_texture` the bright one; the direction uniform
      is the `vertical` flag.  Before, a render changes nothing. */
  lemma RenderSamplers(s: GlState, shader: Handle, vao: Handle, color: Handle, bright: Handle, vertical: bool)
    ensures shader == Null ==> Run(s, RenderCommands(shader, vao, color, bright, vertical)) == s
    ensures shader != Null ==>
      var t := Run(s, RenderCommands(shader, vao, color, bright, vertical));
      && t.program == shader && t.vertexArray == vao && t.activeUnit == 0
      && (shader, ScreenTexture) in t.uniforms && (shader, BrightTexture) in t.uniforms
      && (shader, Vertical) in t.uniforms
      && t.uniforms[(shader, ScreenTexture)] == 0 && BoundTexture(t, 0, Texture2D) == color
      && t.uniforms[(shader, BrightTexture)] == 1 && BoundTexture(t, 1, Texture2D) == bright
      && t.uniforms[(shader, Vertical)] == Flag(vertical)
      && t.draws == s.draws + [QuadVertexCount]
  {
    if shader != Null {
      var pre := BindCommands(shader, vao, color, bright, vertical);
      RunSnoc(s, pre, DrawArrays(QuadVertexCount));
      BindEffect(s, shader, vao, color, bright, vertical);
      // The three uniform names differ, so each assignment leaves the others alone.
      assert ScreenTexture[0] != BrightTexture[0];
      assert |ScreenTexture| != |Vertical| && |BrightTexture| != |Vertical|;
    }
  }

  /** Lines 27-38 as the source issues them. */
  method Draw(gl: Context, shader: Handle, vao: Handle, color: Handle, bright: Handle, vertical: bool)
    modifies gl
    ensures gl.next == old(gl.next)
    ensures gl.log == old(gl.log) + DrawCommands(shader, vao, color, bright, vertical)
  {
    ghost var log0 := gl.log;
    gl.Issue(UseProgram(shader));
    gl.Issue(BindVertexArray(vao));
    BindTextures(gl, color, bright);
    SetUniforms(gl, vertical);
    gl.Issue(DrawArrays(QuadVertexCount));
    AppendAssociates4(log0, ShaderCommands(shader, vao), TextureCommands(color, bright), UniformCommands(vertical),
                      [DrawArrays(QuadVertexCount)]);
  }

  method BindTextures(gl: Context, color: Handle, bright: Handle)
    modifies gl
    ensures gl.next == old(gl.next)
    ensures gl.log == old(gl.log) + TextureCommands(color, bright)
  {
    gl.Issue(ActiveTexture(0));
    gl.Issue(BindTexture(Texture2D, color));
    gl.Issue(ActiveTexture(1));
    gl.Issue(BindTexture(Texture2D, bright));
    gl.Issue(ActiveTexture(0));
  }

  method SetUniforms(gl: Context, vertical: bool)
    modifies gl
    ensures gl.next == old(gl.next)
    ensures gl.log == old(gl.log) + UniformCommands(vertical)
  {
    gl.Issue(Uniform1i(ScreenTexture, 0));
    gl.Issue(Uniform1i(BrightTexture, 1));
    gl.Issue(Uniform1i(Vertical, Flag(vertical)));
  }

  class BlurEffect {
    const gl: Context
    const framebuffers: Framebuffers
    /** Whether the blur runs vertically (horizontally otherwise). */
    const vertical: bool
    /** The blur shader; unset (`Null`) until `onStart`. */
    var shader: Handle

    constructor (gl: Context, framebuffers: Framebuffers, vertical: bool)
      ensures this.gl == gl && this.framebuffers == framebuffers && this.vertical == vertical
      ensures shader == Null
    {
      this.gl := gl;
      this.framebuffers := framebuffers;
      this.vertical := vertical;
      shader := Null;
    }

    /** `onStart`: the shader is loaded, so every later render draws. */
    method OnStart()
      modifies this, gl
      ensures shader == Obj(old(gl.next)) && shader != Null && gl.next == old(gl.next) + 1
      ensures gl.log == old(gl.log) + [LoadProgram(VertexShaderSource, FragmentShaderSource, shader)]
    {
      shader := gl.LoadShader(VertexShaderSource, FragmentShaderSource);
    }

    /** `onPostProcessRender`: the shader gate, then the draw. */
    method OnPostProcessRender()
      modifies gl
      ensures gl.next == old(gl.next)
      ensures gl.log == old(gl.log) + RenderCommands(shader, framebuffers.normalizedQuad.vao, framebuffers.colorTexture,
                                                     framebuffers.brightTexture, vertical)
    {
      if shader == Null {
        return;
      }
      Draw(gl, shader, framebuffers.normalizedQuad.vao, framebuffers.colorTexture, framebuffers.brightTexture, vertical);
    }
  }
}
