/** The pre-process pass (Systems/RenderPreProcess.js).

    Its first `render` runs `setup`: it creates the off-screen framebuffer,
    with a colour texture and a depth-stencil texture the size of the
    viewport, and stores the three handles in the shared framebuffer record.
    Every `render`, the first included, then binds that framebuffer, so the
    systems after it draw off screen.  The module-level `setupDone` flag is
    the field of the one `RenderPreProcess` object. */
module RenderPreProcess {
  import opened GL
  import opened DataSources

  /** Lines 14-15: create and bind the framebuffer. */
  function FramebufferCommands(fbo: Handle): seq<Command> {
    [CreateObject(FramebufferObject, fbo), BindFramebuffer(fbo)]
  }

  /** Lines 17-22: the colour texture, allocated, filtered and attached. */
  function ColorTextureCommands(color: Handle, width: int, height: int): seq<Command> {
    [ CreateObject(TextureObject, color),
      BindTexture(Texture2D, color),
      TexImage2D(RGB, width, height),
      SetTexParameter(MinFilterLinear),
      SetTexParameter(MagFilterLinear),
      FramebufferTexture2D(ColorAttachment0, color) ]
  }

  /** Lines 24-27: the depth-stencil texture, allocated and attached. */
  function DepthTextureCommands(depth: Handle, width: int, height: int): seq<Command> {
    [ CreateObject(TextureObject, depth),
      BindTexture(Texture2D, depth),
      TexImage2D(Depth24Stencil8, width, height),
      FramebufferTexture2D(DepthStencilAttachment, depth) ]
  }

  /** Lines 29-34: the completeness check, then both bindings reset. */
  function FinishCommands(): seq<Command> {
    [CheckFramebufferStatus, BindTexture(Texture2D, Null), BindFramebuffer(Null)]
  }

  /** What `setup` issues, given the framebuffer and the two textures it
      creates and the viewport resolution. */
  function SetupCommands(fbo: Handle, color: Handle, depth: Handle, width: int, height: int): seq<Command> {
    FramebufferCommands(fbo) + ColorTextureCommands(color, width, height)
      + DepthTextureCommands(depth, width, height) + FinishCommands()
  }

  /** What one `render` issues: the setup while it has not run yet, then the
      bind of the record's framebuffer. */
  function RenderCommands(setupDone: bool, fbo: Handle, color: Handle, depth: Handle, width: int, height: int): seq<Command> {
    (if setupDone then [] else SetupCommands(fbo, color, depth, width, height)) + [BindFramebuffer(fbo)]
  }

  /** Setup attaches an RGB colour texture and a depth-stencil texture, both
      of the viewport's size, to the new framebuffer, and leaves the
      framebuffer and the 2D texture of the active unit unbound; nothing else
      of the driver state changes. */
  lemma SetupEffect(s: GlState, fbo: Handle, color: Handle, depth: Handle, width: int, height: int)
    ensures Run(s, SetupCommands(fbo, color, depth, width, height))
            == s.(framebuffer := Null,
                  textures := s.textures[(s.activeUnit, Texture2D) := Null],
                  storage := s.storage[color := Storage(RGB, width, height)][depth := Storage(Depth24Stencil8, width, height)],
                  attachments := s.attachments[(fbo, ColorAttachment0) := color][(fbo, DepthStencilAttachment) := depth])
  {
    var a := FramebufferCommands(fbo);
    var b := ColorTextureCommands(color, width, height);
    var c := DepthTextureCommands(depth, width, height);
    var d := FinishCommands();
    RunAppend(s, a + b + c, d);
    RunAppend(s, a + b, c);
    RunAppend(s, a, b);
    FramebufferEffect(s, fbo);
    var s1 := s.(framebuffer := fbo);
    ColorTextureEffect(s1, color, width, height);
    var k := (s.activeUnit, Texture2D);
    var s2 := s1.(textures := s.textures[k := color],
                  storage := s.storage[color := Storage(RGB, width, height)],
                  attachments := s.attachments[(fbo, ColorAttachment0) := color]);
    DepthTextureEffect(s2, depth, width, height);
    var s3 := s2.(textures := s.textures[k := color][k := depth],
                  storage := s2.storage[depth := Storage(Depth24Stencil8, width, height)],
                  attachments := s2.attachments[(fbo, DepthStencilAttachment) := depth]);
    FinishEffect(s3);
    assert s.textures[k := color][k := depth][k := Null] == s.textures[k := Null];
  }

  lemma FramebufferEffect(s: GlState, fbo: Handle)
    ensures Run(s, FramebufferCommands(fbo)) == s.(framebuffer := fbo)
  {
    RunStep2(s, FramebufferCommands(fbo));
  }

  lemma ColorTextureEffect(s: GlState, color: Handle, width: int, height: int)
    ensures Run(s, ColorTextureCommands(color, width, height))
            == s.(textures := s.textures[(s.activeUnit, Texture2D) := color],
                  storage := s.storage[color := Storage(RGB, width, height)],
                  attachments := s.attachments[(s.framebuffer, ColorAttachment0) := color])
  {
    var cmds := ColorTextureCommands(color, width, height);
    assert cmds == cmds[..2] + cmds[2..];
    RunAppend(s, cmds[..2], cmds[2..]);
    RunStep2(s, cmds[..2]);
    RunStep4(Run(s, cmds[..2]), cmds[2..]);
  }

  lemma DepthTextureEffect(s: GlState, depth: Handle, width: int, height: int)
    ensures Run(s, DepthTextureCommands(depth, width, height))
            == s.(textures := s.textures[(s.activeUnit, Texture2D) := depth],
                  storage := s.storage[depth := Storage(Depth24Stencil8, width, height)],
                  attachments := s.attachments[(s.framebuffer, DepthStencilAttachment) := depth])
  {
    RunStep4(s, DepthTextureCommands(depth, width, height));
  }

  lemma FinishEffect(s: GlState)
    ensures Run(s, FinishCommands())
            == s.(framebuffer := Null, textures := s.textures[(s.activeUnit, Texture2D) := Null])
  {
    RunStep3(s, FinishCommands());
  }

  /** Every render ends with the record's framebuffer bound; after the first
      one that bind is all a render changes. */
  lemma RenderBindsFramebuffer(s: GlState, setupDone: bool, fbo: Handle, color: Handle, depth: Handle, width: int, height: int)
    ensures Run(s, RenderCommands(setupDone, fbo, color, depth, width, height)).framebuffer == fbo
    ensures setupDone ==> Run(s, RenderCommands(setupDone, fbo, color, depth, width, height)) == s.(framebuffer := fbo)
    ensures !setupDone ==>
      var t := Run(s, RenderCommands(setupDone, fbo, color, depth, width, height));
      && (fbo, ColorAttachment0) in t.attachments && (fbo, DepthStencilAttachment) in t.attachments
      && t.attachments[(fbo, ColorAttachment0)] == color
      && t.attachments[(fbo, DepthStencilAttachment)] == depth
  {
    var setup := if setupDone then [] else SetupCommands(fbo, color, depth, width, height);
    RunSnoc(s, setup, BindFramebuffer(fbo));
    if !setupDone {
      SetupEffect(s, fbo, color, depth, width, height);
    }
  }

  /** The four blocks of `setup`, each as the source issues it. */
  method CreateFramebuffer(gl: Context) returns (fbo: Handle)
    modifies gl
    ensures fbo == Obj(old(gl.next)) && gl.next == old(gl.next) + 1
    ensures gl.log == old(gl.log) + FramebufferCommands(fbo)
  {
    fbo := gl.Create(FramebufferObject);
    gl.Issue(BindFramebuffer(fbo));
  }

  method CreateColorTexture(gl: Context, width: int, height: int) returns (color: Handle)
    modifies gl
    ensures color == Obj(old(gl.next)) && gl.next == old(gl.next) + 1
    ensures gl.log == old(gl.log) + ColorTextureCommands(color, width, height)
  {
    color := gl.Create(TextureObject);
    gl.Issue(BindTexture(Texture2D, color));
    gl.Issue(TexImage2D(RGB, width, height));
    gl.Issue(SetTexParameter(MinFilterLinear));
    gl.Issue(SetTexParameter(MagFilterLinear));
    gl.Issue(FramebufferTexture2D(ColorAttachment0, color));
  }

  method CreateDepthTexture(gl: Context, width: int, height: int) returns (depth: Handle)
    modifies gl
    ensures depth == Obj(old(gl.next)) && gl.next == old(gl.next) + 1
    ensures gl.log == old(gl.log) + DepthTextureCommands(depth, width, height)
  {
    depth := gl.Create(TextureObject);
    gl.Issue(BindTexture(Texture2D, depth));
    gl.Issue(TexImage2D(Depth24Stencil8, width, height));
    gl.Issue(FramebufferTexture2D(DepthStencilAttachment, depth));
  }

  /** The status check is only reported on the console, then both bindings are reset. */
  method FinishFramebuffer(gl: Context)
    modifies gl
    ensures gl.next == old(gl.next)
    ensures gl.log == old(gl.log) + FinishCommands()
  {
    gl.Issue(CheckFramebufferStatus);
    gl.Issue(BindTexture(Texture2D, Null));
    gl.Issue(BindFramebuffer(Null));
  }

  class RenderPreProcess {
    /** Whether `setup` has run. */
    var setupDone: bool

    constructor ()
      ensures !setupDone
    {
      setupDone := false;
    }

    /** Creates and attaches the framebuffer and its textures, writing the
        three handles into `buffers`.  An incomplete framebuffer is only
        reported on the console, so the flag is set either way. */
    method Setup(gl: Context, buffers: Framebuffers, viewport: Viewport)
      modifies this, gl, buffers
      ensures setupDone
      ensures gl.next == old(gl.next) + 3
      ensures buffers.fbo == Obj(old(gl.next))
      ensures buffers.colorTexture == Obj(old(gl.next) + 1)
      ensures buffers.depthTexture == Obj(old(gl.next) + 2)
      ensures buffers.brightTexture == old(buffers.brightTexture)
      ensures buffers.normalizedQuad == old(buffers.normalizedQuad)
      ensures gl.log == old(gl.log) + SetupCommands(buffers.fbo, buffers.colorTexture, buffers.depthTexture,
                                                    viewport.width, viewport.height)
    {
      var width, height := viewport.width, viewport.height;
      ghost var log0 := gl.log;
      buffers.fbo := CreateFramebuffer(gl);
      buffers.colorTexture := CreateColorTexture(gl, width, height);
      buffers.depthTexture := CreateDepthTexture(gl, width, height);
      FinishFramebuffer(gl);
      AppendAssociates4(log0, FramebufferCommands(buffers.fbo), ColorTextureCommands(buffers.colorTexture, width, height),
                        DepthTextureCommands(buffers.depthTexture, width, height), FinishCommands());
      setupDone := true;
    }

    /** The lazy one-shot setup, then the bind. */
    method Render(deltaTime: real, gl: Context, buffers: Framebuffers, viewport: Viewport)
      modifies this, gl, buffers
      ensures setupDone
      ensures old(setupDone) ==>
        && gl.next == old(gl.next)
        && buffers.fbo == old(buffers.fbo)
        && buffers.colorTexture == old(buffers.colorTexture)
        && buffers.depthTexture == old(buffers.depthTexture)
      ensures !old(setupDone) ==>
        && gl.next == old(gl.next) + 3
        && buffers.fbo == Obj(old(gl.next))
        && buffers.colorTexture == Obj(old(gl.next) + 1)
        && buffers.depthTexture == Obj(old(gl.next) + 2)
      ensures buffers.brightTexture == old(buffers.brightTexture)
      ensures buffers.normalizedQuad == old(buffers.normalizedQuad)
      ensures gl.log == old(gl.log) + RenderCommands(old(setupDone), buffers.fbo, buffers.colorTexture,
                                                     buffers.depthTexture, viewport.width, viewport.height)
    {
      if !setupDone {
        Setup(gl, buffers, viewport);
      }
      gl.Issue(BindFramebuffer(buffers.fbo));
    }
  }
}
