/** The WebGL2 rendering context, seen from the systems that drive it.

    The context is an append-only command log: every call a system makes on
    `gl` appends one `Command`, and "does nothing" means "leaves the log as it
    was".  Object creation hands out fresh handles from a counter.
    `loadShader` and `loadCubemap` (WebGLUtil.js) are one command each: their
    inner calls are not modelled, only what the systems rely on (a program
    handle that is never null, a cubemap texture built from the given faces).

    `GlState` and `Run` interpret a command log as the binding state a driver
    would hold after it; this is the reference the systems' command sequences
    are checked against. */
module GL {

  /** A WebGL object reference; `Null` is JavaScript's `null`. */
  datatype Handle = Null | Obj(id: nat)

  datatype Kind = FramebufferObject | TextureObject | BufferObject | VertexArrayObject

  datatype TexTarget = Texture2D | TextureCubeMap

  datatype Capability = DepthTest | CullFace | Blend

  datatype DepthFunction = Less | LEqual

  datatype Format = RGB | Depth24Stencil8

  datatype Attachment = ColorAttachment0 | DepthStencilAttachment

  datatype TexParameter = MinFilterLinear | MagFilterLinear

  /** An image fetched from `src`; its pixels are opaque. */
  datatype Image = Image(src: string, pixels: nat)

  datatype Command =
    | CreateObject(kind: Kind, handle: Handle)
    | LoadProgram(vertexSource: string, fragmentSource: string, program: Handle)
    | LoadCubemapTexture(faces: seq<Image>, texture: Handle)
    | BindFramebuffer(framebuffer: Handle)
    | BindTexture(target: TexTarget, texture: Handle)
    | TexImage2D(format: Format, width: int, height: int)
    | SetTexParameter(parameter: TexParameter)
    | FramebufferTexture2D(attachment: Attachment, texture: Handle)
    | CheckFramebufferStatus
    | BindArrayBuffer(buffer: Handle)
    | BufferData(floatCount: nat)
    | VertexAttribPointer(index: nat, size: nat, stride: nat, offset: nat)
    | EnableVertexAttribArray(index: nat)
    | BindVertexArray(vertexArray: Handle)
    | Enable(cap: Capability)
    | Disable(cap: Capability)
    | DepthFunc(func: DepthFunction)
    | UseProgram(program: Handle)
    | UniformMatrix4(name: string)
    | Uniform1i(name: string, value: int)
    | ActiveTexture(unit: nat)
    | DrawArrays(count: nat)

  /** The storage `texImage2D` allocates for a texture. */
  datatype Storage = Storage(format: Format, width: int, height: int)

  /** Where a vertex attribute reads from: `size` floats every `stride`
      bytes, starting `offset` bytes into `buffer`. */
  datatype AttribPointer = AttribPointer(buffer: Handle, size: nat, stride: nat, offset: nat)

  /** The part of the driver's state that the systems' commands change. */
  datatype GlState = GlState(
    framebuffer: Handle,
    arrayBuffer: Handle,
    vertexArray: Handle,
    program: Handle,
    activeUnit: nat,
    textures: map<(nat, TexTarget), Handle>,
    enabled: set<Capability>,
    depthFunc: DepthFunction,
    uniforms: map<(Handle, string), int>,
    storage: map<Handle, Storage>,
    attachments: map<(Handle, Attachment), Handle>,
    bufferFloats: map<Handle, nat>,
    pointers: map<(Handle, nat), AttribPointer>,
    enabledAttribs: set<(Handle, nat)>,
    draws: seq<nat>)

  /** The texture bound to `target` on texture unit `unit`. */
  function BoundTexture(s: GlState, unit: nat, target: TexTarget): Handle {
    if (unit, target) in s.textures then s.textures[(unit, target)] else Null
  }

  /** The effect of one command on the driver state. */
  function Apply(s: GlState, c: Command): GlState {
    match c
    case BindFramebuffer(f) => s.(framebuffer := f)
    case BindTexture(t, h) => s.(textures := s.textures[(s.activeUnit, t) := h])
    case TexImage2D(f, w, h) => s.(storage := s.storage[BoundTexture(s, s.activeUnit, Texture2D) := Storage(f, w, h)])
    case FramebufferTexture2D(a, t) => s.(attachments := s.attachments[(s.framebuffer, a) := t])
    case LoadCubemapTexture(_, _) => s.(textures := s.textures[(s.activeUnit, TextureCubeMap) := Null])
    case BindArrayBuffer(b) => s.(arrayBuffer := b)
    case BufferData(n) => s.(bufferFloats := s.bufferFloats[s.arrayBuffer := n])
    case VertexAttribPointer(i, size, stride, offset) =>
      s.(pointers := s.pointers[(s.vertexArray, i) := AttribPointer(s.arrayBuffer, size, stride, offset)])
    case EnableVertexAttribArray(i) => s.(enabledAttribs := s.enabledAttribs + {(s.vertexArray, i)})
    case BindVertexArray(v) => s.(vertexArray := v)
    case Enable(cap) => s.(enabled := s.enabled + {cap})
    case Disable(cap) => s.(enabled := s.enabled - {cap})
    case DepthFunc(f) => s.(depthFunc := f)
    case UseProgram(p) => s.(program := p)
    case Uniform1i(name, v) => s.(uniforms := s.uniforms[(s.program, name) := v])
    case ActiveTexture(u) => s.(activeUnit := u)
    case DrawArrays(n) => s.(draws := s.draws + [n])
    case _ => s
  }

  /** The index of the first float vertex k reads through pointer p (four
      bytes per float). */
  function FirstFloat(p: AttribPointer, k: nat): nat {
    (p.offset + k * p.stride) / 4
  }

  /** Drawing `count` vertices through pointer p stays inside its buffer
      (four bytes per float). */
  predicate AttributeInBounds(s: GlState, p: AttribPointer, count: nat) {
    p.buffer in s.bufferFloats
    && (count == 0 || p.offset + (count - 1) * p.stride + 4 * p.size <= 4 * s.bufferFloats[p.buffer])
  }

  /** A draw of `count` vertices reads every enabled attribute of the bound
      vertex array inside its buffer. */
  predicate DrawInBounds(s: GlState, count: nat) {
    forall a :: a in s.enabledAttribs && a.0 == s.vertexArray ==>
      a in s.pointers && AttributeInBounds(s, s.pointers[a], count)
  }

  /** The state after the commands of a log from index i on. */
  function RunFrom(s: GlState, cmds: seq<Command>, i: nat): GlState
    requires i <= |cmds|
    decreases |cmds| - i
  {
    if i == |cmds| then s else RunFrom(Apply(s, cmds[i]), cmds, i + 1)
  }

  /** The state after a whole command log. */
  function Run(s: GlState, cmds: seq<Command>): GlState {
    RunFrom(s, cmds, 0)
  }

  /** The commands of `a + b` past `a` are those of `b`. */
  lemma {:induction false} RunFromShift(s: GlState, a: seq<Command>, b: seq<Command>, j: nat)
    requires j <= |b|
    ensures RunFrom(s, a + b, |a| + j) == RunFrom(s, b, j)
    decreases |b| - j
  {
    if j < |b| {
      assert (a + b)[|a| + j] == b[j];
      RunFromShift(Apply(s, b[j]), a, b, j + 1);
    }
  }

  lemma {:induction false} RunFromAppend(s: GlState, a: seq<Command>, b: seq<Command>, i: nat)
    requires i <= |a|
    ensures RunFrom(s, a + b, i) == RunFrom(RunFrom(s, a, i), b, 0)
    decreases |a| - i
  {
    if i == |a| {
      RunFromShift(s, a, b, 0);
    } else {
      assert (a + b)[i] == a[i];
      RunFromAppend(Apply(s, a[i]), a, b, i + 1);
    }
  }

  /** Running two logs one after the other is running their concatenation. */
  lemma RunAppend(s: GlState, a: seq<Command>, b: seq<Command>)
    ensures Run(s, a + b) == Run(Run(s, a), b)
  {
    RunFromAppend(s, a, b, 0);
  }

  lemma RunSingle(s: GlState, c: Command)
    ensures Run(s, [c]) == Apply(s, c)
  {
    assert RunFrom(s, [c], 0) == RunFrom(Apply(s, c), [c], 1);
  }

  /** Replaying a log one command further is one more `Apply`. */
  lemma RunSnoc(s: GlState, a: seq<Command>, c: Command)
    ensures Run(s, a + [c]) == Apply(Run(s, a), c)
  {
    RunAppend(s, a, [c]);
    RunSingle(Run(s, a), c);
  }

  /** Replaying a short log one `Apply` at a time. */
  lemma RunStep2(s: GlState, cmds: seq<Command>)
    requires |cmds| == 2
    ensures Run(s, cmds) == Apply(Apply(s, cmds[0]), cmds[1])
  {
    assert RunFrom(s, cmds, 0) == RunFrom(Apply(s, cmds[0]), cmds, 1);
    assert RunFrom(Apply(s, cmds[0]), cmds, 1) == RunFrom(Apply(Apply(s, cmds[0]), cmds[1]), cmds, 2);
  }

  lemma RunStep3(s: GlState, cmds: seq<Command>)
    requires |cmds| == 3
    ensures Run(s, cmds) == Apply(Apply(Apply(s, cmds[0]), cmds[1]), cmds[2])
  {
    var s1 := Apply(s, cmds[0]);
    var s2 := Apply(s1, cmds[1]);
    assert RunFrom(s, cmds, 0) == RunFrom(s1, cmds, 1);
    assert RunFrom(s1, cmds, 1) == RunFrom(s2, cmds, 2);
    assert RunFrom(s2, cmds, 2) == RunFrom(Apply(s2, cmds[2]), cmds, 3);
  }

  lemma RunStep4(s: GlState, cmds: seq<Command>)
    requires |cmds| == 4
    ensures Run(s, cmds) == Apply(Apply(Apply(Apply(s, cmds[0]), cmds[1]), cmds[2]), cmds[3])
  {
    var s1 := Apply(s, cmds[0]);
    var s2 := Apply(s1, cmds[1]);
    var s3 := Apply(s2, cmds[2]);
    assert RunFrom(s, cmds, 0) == RunFrom(s1, cmds, 1);
    assert RunFrom(s1, cmds, 1) == RunFrom(s2, cmds, 2);
    assert RunFrom(s2, cmds, 2) == RunFrom(s3, cmds, 3);
    assert RunFrom(s3, cmds, 3) == RunFrom(Apply(s3, cmds[3]), cmds, 4);
  }

  /** Appending four command blocks to a log one after the other. */
  lemma AppendAssociates4<T>(x: seq<T>, a: seq<T>, b: seq<T>, c: seq<T>, d: seq<T>)
    ensures x + a + b + c + d == x + (a + b + c + d)
  {
  }

  /** How many `DrawArrays` commands a log holds. */
  function DrawCount(cmds: seq<Command>): nat
    decreases |cmds|
  {
    if cmds == [] then 0
    else DrawCount(cmds[..|cmds| - 1]) + (if cmds[|cmds| - 1].DrawArrays? then 1 else 0)
  }

  /** A log without draws counts none. */
  lemma {:induction false} DrawCountNone(cmds: seq<Command>)
    requires forall i :: 0 <= i < |cmds| ==> !cmds[i].DrawArrays?
    ensures DrawCount(cmds) == 0
    decreases |cmds|
  {
    if cmds != [] {
      DrawCountNone(cmds[..|cmds| - 1]);
    }
  }

  /** A log that ends in its only draw counts one. */
  lemma DrawCountLast(pre: seq<Command>, n: nat)
    requires forall i :: 0 <= i < |pre| ==> !pre[i].DrawArrays?
    ensures DrawCount(pre + [DrawArrays(n)]) == 1
  {
    assert (pre + [DrawArrays(n)])[..|pre|] == pre;
    DrawCountNone(pre);
  }

  /** The rendering context: its command log and its handle counter. */
  class Context {
    var log: seq<Command>
    var next: nat

    constructor ()
      ensures log == [] && next == 0
    {
      log := [];
      next := 0;
    }

    /** Any call that neither creates an object nor returns a value. */
    method Issue(c: Command)
      modifies this
      ensures log == old(log) + [c] && next == old(next)
    {
      log := log + [c];
    }

    /** `createFramebuffer`, `createTexture`, `createBuffer`, `createVertexArray`. */
    method Create(kind: Kind) returns (h: Handle)
      modifies this
      ensures h == Obj(old(next)) && next == old(next) + 1
      ensures log == old(log) + [CreateObject(kind, h)]
    {
      h := Obj(next);
      next := next + 1;
      log := log + [CreateObject(kind, h)];
    }

    /** `loadShader`: compile errors are only logged, so a program always comes back. */
    method LoadShader(vertexSource: string, fragmentSource: string) returns (program: Handle)
      modifies this
      ensures program == Obj(old(next)) && next == old(next) + 1
      ensures log == old(log) + [LoadProgram(vertexSource, fragmentSource, program)]
    {
      program := Obj(next);
      next := next + 1;
      log := log + [LoadProgram(vertexSource, fragmentSource, program)];
    }

    /** `loadCubemap`: one face per image, leaving the cubemap target unbound. */
    method LoadCubemap(faces: seq<Image>) returns (texture: Handle)
      modifies this
      ensures texture == Obj(old(next)) && next == old(next) + 1
      ensures log == old(log) + [LoadCubemapTexture(faces, texture)]
    {
      texture := Obj(next);
      next := next + 1;
      log := log + [LoadCubemapTexture(faces, texture)];
    }
  }
}
