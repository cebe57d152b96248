/** The module-style driver: the default system lists and `run`, which wires
    the canvas, dispatches `start` once and then `update` and `render` on
    every animation frame. */
module WebGLApp {
  import opened Wrappers
  import opened Dispatch
  import opened DataSources

  /** The default systems, as the module namespaces `import * as` yields:
      each one implements exactly the names its module exports. */
  const RenderPreProcessModule: System := System("RenderPreProcess", {"render"})
  const ClearCameraModule: System := System("ClearCamera", {"render"})
  /** SkyboxRenderer.js exports only its class, as `default`. */
  const SkyboxRendererModule: System := System("SkyboxRenderer", {"default"})
  const RenderPostProcessModule: System := System("RenderPostProcess", {"start", "render"})

  datatype SystemGroups = SystemGroups(preUpdate: seq<System>, postUpdate: seq<System>)

  /** `defaultSystems`. */
  function DefaultSystems(): (groups: SystemGroups)
    ensures groups.preUpdate == [RenderPreProcessModule, ClearCameraModule]
    ensures groups.postUpdate == [SkyboxRendererModule, RenderPostProcessModule]
  {
    SystemGroups([RenderPreProcessModule, ClearCameraModule], [SkyboxRendererModule, RenderPostProcessModule])
  }

  /** Driving the default lists around the application's own systems
      (`preUpdate`, then `user`, then `postUpdate`): `render` reaches the
      pre-process pass and the clear before every user system and the
      post-process pass after them, `start` reaches only the user systems
      and then the post-process pass, `update` reaches only the user
      systems, and the skybox module is never called under these names. */
  lemma DefaultSystemsDispatch(user: seq<System>, args: seq<Value>)
    ensures DispatchTrace(DefaultSystems().preUpdate + user + DefaultSystems().postUpdate, "render", args)
            == [Call("RenderPreProcess", "render", args), Call("ClearCamera", "render", args)]
               + DispatchTrace(user, "render", args) + [Call("RenderPostProcess", "render", args)]
    ensures DispatchTrace(DefaultSystems().preUpdate + user + DefaultSystems().postUpdate, "start", args)
            == DispatchTrace(user, "start", args) + [Call("RenderPostProcess", "start", args)]
    ensures DispatchTrace(DefaultSystems().preUpdate + user + DefaultSystems().postUpdate, "update", args)
            == DispatchTrace(user, "update", args)
  {
    var pre, post := DefaultSystems().preUpdate, DefaultSystems().postUpdate;
    assert pre == [RenderPreProcessModule] + [ClearCameraModule];
    assert post == [SkyboxRendererModule] + [RenderPostProcessModule];
    assert "render" in RenderPreProcessModule.callbacks && "start" !in RenderPreProcessModule.callbacks;
    assert "render" in ClearCameraModule.callbacks && "start" !in ClearCameraModule.callbacks;
    assert "render" !in SkyboxRendererModule.callbacks && "start" !in SkyboxRendererModule.callbacks;
    assert "update" !in RenderPreProcessModule.callbacks && "update" !in ClearCameraModule.callbacks;
    assert "update" !in SkyboxRendererModule.callbacks && "update" !in RenderPostProcessModule.callbacks;
    DispatchGroups(pre, user, post, "render", args);
    DispatchGroups(pre, user, post, "start", args);
    DispatchGroups(pre, user, post, "update", args);
    DispatchPair(RenderPreProcessModule, ClearCameraModule, "render", args);
    DispatchPair(RenderPreProcessModule, ClearCameraModule, "start", args);
    DispatchPair(RenderPreProcessModule, ClearCameraModule, "update", args);
    DispatchPair(SkyboxRendererModule, RenderPostProcessModule, "render", args);
    DispatchPair(SkyboxRendererModule, RenderPostProcessModule, "start", args);
    DispatchPair(SkyboxRendererModule, RenderPostProcessModule, "update", args);
  }

  /** Dispatching over three groups in a row is dispatching over each in turn. */
  lemma DispatchGroups(pre: seq<System>, user: seq<System>, post: seq<System>, name: string, args: seq<Value>)
    ensures DispatchTrace(pre + user + post, name, args)
            == DispatchTrace(pre, name, args) + DispatchTrace(user, name, args) + DispatchTrace(post, name, args)
  {
    DispatchAppend(pre + user, post, name, args);
    DispatchAppend(pre, user, name, args);
  }

  /** Dispatching over two systems. */
  lemma DispatchPair(a: System, b: System, name: string, args: seq<Value>)
    ensures DispatchTrace([a] + [b], name, args)
            == (if name in a.callbacks then [Call(a.id, name, args)] else [])
               + (if name in b.callbacks then [Call(b.id, name, args)] else [])
  {
    var ta: seq<Call> := if name in a.callbacks then [Call(a.id, name, args)] else [];
    assert [a][..0] == [];
    assert DispatchTrace([a], name, args) == DispatchTrace([], name, args) + ta;
    assert [] + ta == ta;
    assert ([a] + [b])[..1] == [a];
  }

  /** One dispatch the driver has made. */
  datatype Dispatched =
    | Start(gl: nat)
    | Update(deltaTime: real)
    | Render(deltaTime: real, gl: nat)
    | Input(kind: InputKind, event: nat)

  datatype InputKind = MouseDown | MouseUp | MouseMove | Wheel

  function HandlerName(kind: InputKind): string {
    match kind
    case MouseDown => "onMouseDown"
    case MouseUp => "onMouseUp"
    case MouseMove => "onMouseMove"
    case Wheel => "onWheel"
  }

  function NameOf(d: Dispatched): string {
    match d
    case Start(_) => "start"
    case Update(_) => "update"
    case Render(_, _) => "render"
    case Input(kind, _) => HandlerName(kind)
  }

  function ArgsOf(d: Dispatched): seq<Value> {
    match d
    case Start(gl) => [GlContext(gl)]
    case Update(dt) => [Number(dt)]
    case Render(dt, gl) => [Number(dt), GlContext(gl)]
    case Input(_, e) => [Event(e)]
  }

  /** The calls a sequence of dispatches makes on `systems`. */
  function Calls(systems: seq<System>, log: seq<Dispatched>): seq<Call>
    decreases |log|
  {
    if log == [] then []
    else Calls(systems, log[..|log| - 1]) + DispatchTrace(systems, NameOf(log[|log| - 1]), ArgsOf(log[|log| - 1]))
  }

  lemma CallsSnoc(systems: seq<System>, log: seq<Dispatched>, d: Dispatched)
    ensures Calls(systems, log + [d]) == Calls(systems, log) + DispatchTrace(systems, NameOf(d), ArgsOf(d))
  {
    assert (log + [d])[..|log + [d]| - 1] == log;
  }

  lemma CallsFrame(systems: seq<System>, log: seq<Dispatched>, deltaTime: real, gl: nat)
    ensures Calls(systems, log + [Update(deltaTime), Render(deltaTime, gl)])
            == Calls(systems, log) + DispatchTrace(systems, "update", [Number(deltaTime)])
               + DispatchTrace(systems, "render", [Number(deltaTime), GlContext(gl)])
  {
    CallsSnoc(systems, log, Update(deltaTime));
    CallsSnoc(systems, log + [Update(deltaTime)], Render(deltaTime, gl));
    assert log + [Update(deltaTime)] + [Render(deltaTime, gl)] == log + [Update(deltaTime), Render(deltaTime, gl)];
  }

  /** The calls of one animation frame. */
  function FrameCalls(systems: seq<System>, deltaTime: real, gl: nat): seq<Call> {
    DispatchTrace(systems, "update", [Number(deltaTime)])
      + DispatchTrace(systems, "render", [Number(deltaTime), GlContext(gl)])
  }

  /** Within a frame every `update` call comes before every `render` call, and
      each system that has both gets its `update` first. */
  lemma FrameOrder(systems: seq<System>, deltaTime: real, gl: nat, i: nat, j: nat)
    requires i < j < |FrameCalls(systems, deltaTime, gl)|
    ensures FrameCalls(systems, deltaTime, gl)[j].callback == "update"
            ==> FrameCalls(systems, deltaTime, gl)[i].callback == "update"
    ensures FrameCalls(systems, deltaTime, gl)[i].callback == "render"
            ==> FrameCalls(systems, deltaTime, gl)[j].callback == "render"
  {
    var u := DispatchTrace(systems, "update", [Number(deltaTime)]);
    var r := DispatchTrace(systems, "render", [Number(deltaTime), GlContext(gl)]);
    DispatchCallsCarry(systems, "update", [Number(deltaTime)]);
    DispatchCallsCarry(systems, "render", [Number(deltaTime), GlContext(gl)]);
    assert FrameCalls(systems, deltaTime, gl) == u + r;
    if i < |u| {
      assert u[i] in u;
    } else {
      assert r[i - |u|] in r;
    }
    if j < |u| {
      assert u[j] in u;
    } else {
      assert r[j - |u|] in r;
    }
  }

  /** Each system that has both callbacks gets its render call after its update call. */
  lemma FrameUpdatesFirst(systems: seq<System>, deltaTime: real, gl: nat, k: nat)
    requires k < |systems| && "update" in systems[k].callbacks && "render" in systems[k].callbacks
    ensures CallIndex(systems, "update", [Number(deltaTime)], k) < |DispatchTrace(systems, "update", [Number(deltaTime)])|
    ensures CallIndex(systems, "render", [Number(deltaTime), GlContext(gl)], k)
            < |DispatchTrace(systems, "render", [Number(deltaTime), GlContext(gl)])|
    ensures CallIndex(systems, "update", [Number(deltaTime)], k)
            < |DispatchTrace(systems, "update", [Number(deltaTime)])|
              + CallIndex(systems, "render", [Number(deltaTime), GlContext(gl)], k)
    ensures FrameCalls(systems, deltaTime, gl)[CallIndex(systems, "update", [Number(deltaTime)], k)]
            == Call(systems[k].id, "update", [Number(deltaTime)])
    ensures FrameCalls(systems, deltaTime, gl)[|DispatchTrace(systems, "update", [Number(deltaTime)])|
              + CallIndex(systems, "render", [Number(deltaTime), GlContext(gl)], k)]
            == Call(systems[k].id, "render", [Number(deltaTime), GlContext(gl)])
  {
    DispatchVisits(systems, "update", [Number(deltaTime)], k);
    DispatchVisits(systems, "render", [Number(deltaTime), GlContext(gl)], k);
  }

  /** The dispatch logs `run` can produce: `start` with `gl`, then any mix of
      whole frames (an `update` and the `render` with the same time step) and
      input events. */
  ghost predicate Protocol(log: seq<Dispatched>, gl: nat)
    decreases |log|
  {
    if |log| == 0 then false
    else if |log| == 1 then log[0] == Start(gl)
    else
      match log[|log| - 1]
      case Render(dt, g) => g == gl && |log| >= 3 && log[|log| - 2] == Update(dt) && Protocol(log[..|log| - 2], gl)
      case Input(_, _) => Protocol(log[..|log| - 1], gl)
      case _ => false
  }

  /** `start` is where the protocol begins. */
  lemma ProtocolStart(gl: nat)
    ensures Protocol([Start(gl)], gl)
  {
  }

  /** A whole frame keeps the protocol. */
  lemma ProtocolFrame(log: seq<Dispatched>, gl: nat, deltaTime: real)
    requires Protocol(log, gl)
    ensures Protocol(log + [Update(deltaTime), Render(deltaTime, gl)], gl)
  {
    var log' := log + [Update(deltaTime), Render(deltaTime, gl)];
    assert log'[..|log'| - 2] == log;
  }

  /** An input event between frames keeps the protocol. */
  lemma ProtocolInput(log: seq<Dispatched>, gl: nat, kind: InputKind, event: nat)
    requires Protocol(log, gl)
    ensures Protocol(log + [Input(kind, event)], gl)
  {
    var log' := log + [Input(kind, event)];
    assert log'[..|log'| - 1] == log;
  }

  /** In such a log `start` comes first, with `gl`, and never again. */
  lemma {:induction false} ProtocolStartOnce(log: seq<Dispatched>, gl: nat)
    requires Protocol(log, gl)
    ensures |log| > 0 && log[0] == Start(gl)
    ensures forall k :: 0 < k < |log| ==> !log[k].Start?
    decreases |log|
  {
    if |log| > 1 {
      var n := if log[|log| - 1].Render? then |log| - 2 else |log| - 1;
      ProtocolStartOnce(log[..n], gl);
      assert forall k :: 0 < k < n ==> log[k] == log[..n][k];
    }
  }

  /** In such a log every `update` is immediately followed by the `render` of
      the same frame, and every `render` immediately follows its `update`. */
  lemma {:induction false} ProtocolFramesPaired(log: seq<Dispatched>, gl: nat)
    requires Protocol(log, gl)
    ensures forall k :: 0 <= k < |log| && log[k].Update? ==>
              k + 1 < |log| && log[k + 1] == Render(log[k].deltaTime, gl)
    ensures forall k :: 0 <= k < |log| && log[k].Render? ==>
              0 < k && log[k - 1] == Update(log[k].deltaTime) && log[k].gl == gl
    decreases |log|
  {
    if |log| > 1 {
      var n := if log[|log| - 1].Render? then |log| - 2 else |log| - 1;
      ProtocolFramesPaired(log[..n], gl);
      assert forall k :: 0 <= k < n ==> log[k] == log[..n][k];
    }
  }

  /** A `requestAnimationFrame` timestamp, in milliseconds, as seconds. */
  function Seconds(now: real): (seconds: real)
    ensures seconds * 1000.0 == now
  {
    now * 0.001
  }

  datatype Phase = Idle | Failed | Running

  /** One call of `run` and the animation loop it starts.  Each step returns
      the calls it made; the calls of the whole history are `Calls(systems, log)`. */
  class App {
    var phase: Phase
    var systems: seq<System>
    var gl: nat
    /** Whether the canvas input handlers have been installed. */
    var handlersWired: bool
    /** The closure's `then`: the previous frame's time in seconds. */
    var previousTime: real
    /** Every dispatch made so far. */
    var log: seq<Dispatched>
    const viewport: Viewport

    /** The driver protocol: nothing is dispatched before a successful start,
        and after it the log follows `Protocol`. */
    ghost predicate Valid()
      reads this
    {
      && (handlersWired <==> phase == Running)
      && (phase != Running ==> log == [])
      && (phase == Running ==> Protocol(log, gl))
    }

    constructor (viewport: Viewport)
      ensures Valid() && phase == Idle && previousTime == 0.0 && this.viewport == viewport
    {
      phase := Idle;
      systems := [];
      gl := 0;
      handlersWired := false;
      previousTime := 0.0;
      log := [];
      this.viewport := viewport;
    }

    /** `run(canvasElementId, systems)` on a canvas of the given size whose
        `getContext("webgl2")` gives `context`: the viewport is written first;
        a null context makes `run` return false having wired nothing and
        dispatched nothing; otherwise the handlers are wired, `start` is
        dispatched once with `gl`, and the first frame is scheduled. */
    method Run(canvasElementId: string, width: int, height: int, context: Option<nat>, systems: seq<System>)
      returns (ok: bool, calls: seq<Call>)
      requires Valid() && phase == Idle
      modifies this, viewport
      ensures Valid()
      ensures viewport.elementId == canvasElementId && viewport.width == width && viewport.height == height
      ensures ok <==> context.Some?
      ensures context.None? ==> phase == Failed && !handlersWired && log == [] && calls == []
      ensures context.Some? ==>
                && phase == Running && handlersWired && this.systems == systems && gl == context.value
                && log == [Start(gl)] && calls == DispatchTrace(systems, "start", [GlContext(gl)])
      ensures previousTime == old(previousTime)
    {
      viewport.elementId := canvasElementId;
      viewport.width := width;
      viewport.height := height;
      if context.None? {
        phase := Failed;
        return false, [];
      }
      gl := context.value;
      this.systems := systems;
      handlersWired := true;
      calls := Dispatch.InvokeCallback(systems, "start", [GlContext(gl)]);
      ProtocolStart(gl);
      log := [Start(gl)];
      phase := Running;
      ok := true;
    }

    /** One `requestAnimationFrame` callback at timestamp `now` (milliseconds):
        the time step is measured from the previous frame, then `update` and
        `render` are dispatched in that order. */
    method Frame(now: real) returns (calls: seq<Call>)
      requires Valid() && phase == Running
      modifies this
      ensures Valid() && phase == Running && systems == old(systems) && gl == old(gl)
      ensures previousTime == Seconds(now)
      ensures log == old(log) + [Update(Seconds(now) - old(previousTime)), Render(Seconds(now) - old(previousTime), gl)]
      ensures calls == FrameCalls(systems, Seconds(now) - old(previousTime), gl)
    {
      var seconds := Seconds(now);
      var deltaTime := seconds - previousTime;
      previousTime := seconds;
      var updates := Dispatch.InvokeCallback(systems, "update", [Number(deltaTime)]);
      var renders := Dispatch.InvokeCallback(systems, "render", [Number(deltaTime), GlContext(gl)]);
      calls := updates + renders;
      ProtocolFrame(log, gl, deltaTime);
      log := log + [Update(deltaTime), Render(deltaTime, gl)];
    }

    /** A canvas input event: once the handlers are wired it is dispatched to
        the systems under its handler name; before that the canvas has no
        handler and nothing happens. */
    method CanvasEvent(kind: InputKind, event: nat) returns (calls: seq<Call>)
      requires Valid()
      modifies this
      ensures Valid() && phase == old(phase) && systems == old(systems) && previousTime == old(previousTime)
      ensures handlersWired ==> log == old(log) + [Input(kind, event)]
                                && calls == DispatchTrace(systems, HandlerName(kind), [Event(event)])
      ensures !handlersWired ==> log == old(log) && calls == []
    {
      calls := [];
      if handlersWired {
        calls := Dispatch.InvokeCallback(systems, HandlerName(kind), [Event(event)]);
        ProtocolInput(log, gl, kind, event);
        log := log + [Input(kind, event)];
      }
    }
  }
}
