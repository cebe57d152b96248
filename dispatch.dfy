/** Dispatching a named callback over an ordered list of systems.

    A system is whatever object or module namespace the application passes
    in; all dispatch sees of it is an identifier and the set of callback
    names it implements.  A dispatch calls the named callback on every
    system that has it, in list order, all with the same argument list, and
    skips the others; what the callbacks then do belongs to each system, so
    a dispatch is modelled by the trace of calls it makes. */
module Dispatch {

  /** An argument passed along to a callback. */
  datatype Value =
    | Number(x: real)       // deltaTime
    | Event(event: nat)     // a DOM mouse or wheel event
    | GlContext(gl: nat)    // the WebGL2 rendering context

  datatype System = System(id: string, callbacks: set<string>)

  /** One callback invocation: which system, which callback, which arguments. */
  datatype Call = Call(system: string, callback: string, args: seq<Value>)

  /** The reference trace: the calls a dispatch of `name` over `systems` makes. */
  function DispatchTrace(systems: seq<System>, name: string, args: seq<Value>): seq<Call>
    decreases |systems|
  {
    if systems == [] then []
    else
      var last := systems[|systems| - 1];
      DispatchTrace(systems[..|systems| - 1], name, args)
        + (if name in last.callbacks then [Call(last.id, name, args)] else [])
  }

  /** Where system i's call lands in the trace: after the calls of the systems before it. */
  function CallIndex(systems: seq<System>, name: string, args: seq<Value>, i: nat): nat
    requires i <= |systems|
  {
    |DispatchTrace(systems[..i], name, args)|
  }

  /** `forEach` over the array, calling `system[callbackName](...args)` where it exists. */
  method InvokeCallback(systems: seq<System>, name: string, args: seq<Value>) returns (trace: seq<Call>)
    ensures trace == DispatchTrace(systems, name, args)
  {
    trace := [];
    var i := 0;
    while i < |systems|
      invariant 0 <= i <= |systems|
      invariant trace == DispatchTrace(systems[..i], name, args)
    {
      if name in systems[i].callbacks {
        trace := trace + [Call(systems[i].id, name, args)];
      }
      assert systems[..i + 1][..i] == systems[..i];
      i := i + 1;
    }
    assert systems[..i] == systems;
  }

  /** Dispatching over a concatenation is dispatching over each part in turn. */
  lemma {:induction false} DispatchAppend(a: seq<System>, b: seq<System>, name: string, args: seq<Value>)
    ensures DispatchTrace(a + b, name, args) == DispatchTrace(a, name, args) + DispatchTrace(b, name, args)
    decreases |b|
  {
    if b == [] {
      assert a + b == a;
    } else {
      assert (a + b)[..|a + b| - 1] == a + b[..|b| - 1];
      DispatchAppend(a, b[..|b| - 1], name, args);
    }
  }

  /** A dispatch makes one call per implementing system and none for the others. */
  lemma DispatchStep(systems: seq<System>, name: string, args: seq<Value>, i: nat)
    requires i < |systems|
    ensures DispatchTrace(systems[..i + 1], name, args)
            == DispatchTrace(systems[..i], name, args)
               + (if name in systems[i].callbacks then [Call(systems[i].id, name, args)] else [])
  {
    assert systems[..i + 1][..i] == systems[..i];
  }

  /** Every call carries the dispatched name and the same argument list. */
  lemma {:induction false} DispatchCallsCarry(systems: seq<System>, name: string, args: seq<Value>)
    ensures forall c :: c in DispatchTrace(systems, name, args) ==> c.callback == name && c.args == args
    decreases |systems|
  {
    if systems != [] {
      DispatchCallsCarry(systems[..|systems| - 1], name, args);
    }
  }

  /** Every system that implements the callback is called, at its own position. */
  lemma DispatchVisits(systems: seq<System>, name: string, args: seq<Value>, i: nat)
    requires i < |systems| && name in systems[i].callbacks
    ensures CallIndex(systems, name, args, i) < |DispatchTrace(systems, name, args)|
    ensures DispatchTrace(systems, name, args)[CallIndex(systems, name, args, i)]
            == Call(systems[i].id, name, args)
  {
    DispatchStep(systems, name, args, i);
    DispatchAppend(systems[..i + 1], systems[i + 1..], name, args);
    assert systems[..i + 1] + systems[i + 1..] == systems;
  }

  /** Call positions never go down along the list, and a system without the
      callback adds no call. */
  lemma {:induction false} CallIndexMonotone(systems: seq<System>, name: string, args: seq<Value>, i: nat, j: nat)
    requires i <= j <= |systems|
    ensures CallIndex(systems, name, args, i) <= CallIndex(systems, name, args, j)
    ensures j == i + 1 && name !in systems[i].callbacks ==>
              CallIndex(systems, name, args, j) == CallIndex(systems, name, args, i)
    decreases j - i
  {
    if i < j {
      DispatchStep(systems, name, args, j - 1);
      CallIndexMonotone(systems, name, args, i, j - 1);
    }
  }

  /** Systems are called in list order: an earlier implementer's call comes first. */
  lemma DispatchOrder(systems: seq<System>, name: string, args: seq<Value>, i: nat, j: nat)
    requires i < j < |systems| && name in systems[i].callbacks
    ensures CallIndex(systems, name, args, i) < CallIndex(systems, name, args, j)
  {
    DispatchStep(systems, name, args, i);
    CallIndexMonotone(systems, name, args, i + 1, j);
  }

  /** Every call in the trace is the call of exactly one implementing system. */
  lemma {:induction false} DispatchOnlyImplementers(systems: seq<System>, name: string, args: seq<Value>, k: nat)
    requires k < |DispatchTrace(systems, name, args)|
    ensures exists i :: 0 <= i < |systems| && name in systems[i].callbacks
              && CallIndex(systems, name, args, i) == k
              && DispatchTrace(systems, name, args)[k] == Call(systems[i].id, name, args)
    decreases |systems|
  {
    var n := |systems| - 1;
    var init := systems[..n];
    assert systems[..n] == init;
    if k < |DispatchTrace(init, name, args)| {
      DispatchOnlyImplementers(init, name, args, k);
      var i :| 0 <= i < |init| && name in init[i].callbacks
               && CallIndex(init, name, args, i) == k
               && DispatchTrace(init, name, args)[k] == Call(init[i].id, name, args);
      assert init[..i] == systems[..i];
    } else {
      assert CallIndex(systems, name, args, n) == k;
    }
  }

  /** A system set that nothing in it implements is dispatched to without any call. */
  lemma {:induction false} DispatchNone(systems: seq<System>, name: string, args: seq<Value>)
    requires forall i :: 0 <= i < |systems| ==> name !in systems[i].callbacks
    ensures DispatchTrace(systems, name, args) == []
    decreases |systems|
  {
    if systems != [] {
      DispatchNone(systems[..|systems| - 1], name, args);
    }
  }
}
