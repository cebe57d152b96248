/** The class-style driver: an ordered list of systems and one hook per
    event, each dispatching its own callback name. */
module SystemCollection {
  import opened Dispatch

  class SystemCollection {
    /** The private `#systems` list; it only ever grows at the end. */
    var systems: seq<System>

    /** A new collection holds no systems. */
    constructor ()
      ensures systems == []
    {
      systems := [];
    }

    /** Appends the given systems after the existing ones, in their order,
        duplicates included. */
    method AddSystems(newSystems: seq<System>)
      modifies this
      ensures systems == old(systems) + newSystems
      ensures |systems| == |old(systems)| + |newSystems|
      ensures systems[..|old(systems)|] == old(systems)
    {
      systems := systems + newSystems;
    }

    /** `#invokeCallback`: dispatches over the current list and leaves it unchanged. */
    method InvokeCallback(name: string, args: seq<Value>) returns (trace: seq<Call>)
      ensures trace == DispatchTrace(systems, name, args)
    {
      trace := Dispatch.InvokeCallback(systems, name, args);
    }

    method OnStart() returns (trace: seq<Call>)
      ensures trace == DispatchTrace(systems, "onStart", [])
    {
      trace := InvokeCallback("onStart", []);
    }

    /** The frame time is forwarded unchanged. */
    method OnUpdate(deltaTime: real) returns (trace: seq<Call>)
      ensures trace == DispatchTrace(systems, "onUpdate", [Number(deltaTime)])
    {
      trace := InvokeCallback("onUpdate", [Number(deltaTime)]);
    }

    method OnRender() returns (trace: seq<Call>)
      ensures trace == DispatchTrace(systems, "onRender", [])
    {
      trace := InvokeCallback("onRender", []);
    }

    method OnMouseDown(event: nat) returns (trace: seq<Call>)
      ensures trace == DispatchTrace(systems, "onMouseDown", [Event(event)])
    {
      trace := InvokeCallback("onMouseDown", [Event(event)]);
    }

    method OnMouseUp(event: nat) returns (trace: seq<Call>)
      ensures trace == DispatchTrace(systems, "onMouseUp", [Event(event)])
    {
      trace := InvokeCallback("onMouseUp", [Event(event)]);
    }

    method OnMouseMove(event: nat) returns (trace: seq<Call>)
      ensures trace == DispatchTrace(systems, "onMouseMove", [Event(event)])
    {
      trace := InvokeCallback("onMouseMove", [Event(event)]);
    }

    method OnWheel(event: nat) returns (trace: seq<Call>)
      ensures trace == DispatchTrace(systems, "onWheel", [Event(event)])
    {
      trace := InvokeCallback("onWheel", [Event(event)]);
    }
  }
}
