/** What the renderer does to its collaborators, as a trace of events: GPU
    resources created and destroyed, uniforms set, draws submitted, and calls
    into the shading subsystems and the subclass hooks. The framebuffer's
    lifetime is read off the trace. */
module Events {
  import opened Bgfx
  import opened QuadMesh

  /** What a created handle stands for. */
  datatype Resource =
    | UniformRes(name: string, utype: UniformType)
    | VertexBufferRes(vertices: seq<Vertex>)
    | ProgramRes(vs: string, fs: string)
    | TextureRes(format: TextureFormat)
    | FrameBufferRes(attachments: seq<Handle>)

  /** The handle types the renderer destroys. */
  datatype Kind = ProgramKind | UniformKind | VertexBufferKind | FrameBufferKind

  /** Calls into the shading subsystems (pbr, lights) and the four hooks.
      The reset and render hooks carry the renderer state they find: the
      stored size, and the frame's time, scale and clear colour. */
  datatype Call =
    | PbrInitialize | LightsInitialize | OnInitialize
    | OnReset(width: nat, height: nat)
    | OnRender(dt: real, time: real, scale: real, clearColor: bv32)
    | OnShutdown | PbrShutdown | LightsShutdown

  datatype Event =
    | Created(res: Resource, h: Handle)
    | Destroyed(kind: Kind, h: Handle)
    | UniformSet(uniform: Handle, value: real)
    | Submitted(view: nat, program: Handle)
    | Called(call: Call)

  /** The event creates or destroys a framebuffer. */
  predicate TouchesFrameBuffer(e: Event)
  {
    (e.Created? && e.res.FrameBufferRes?) || (e.Destroyed? && e.kind == FrameBufferKind)
  }

  /** The ids a handle holds: none when invalid. */
  function HandleIds(h: Handle): set<nat>
  {
    if h.Valid? then {h.id} else {}
  }

  /** Ids of the framebuffers created and not yet destroyed by the end of t. */
  function LiveFrameBuffers(t: seq<Event>): set<nat>
    decreases |t|
  {
    if t == [] then {}
    else
      var live, e := LiveFrameBuffers(t[..|t| - 1]), t[|t| - 1];
      if e.Created? && e.res.FrameBufferRes? then live + HandleIds(e.h)
      else if e.Destroyed? && e.kind == FrameBufferKind then live - HandleIds(e.h)
      else live
  }

  /** Every framebuffer destruction in t names a framebuffer that is live at
      that point: no invalid framebuffer is destroyed, and none twice. */
  predicate FrameBufferDestroysSafe(t: seq<Event>)
    decreases |t|
  {
    t == [] ||
    (FrameBufferDestroysSafe(t[..|t| - 1]) &&
     var e := t[|t| - 1];
     (e.Destroyed? && e.kind == FrameBufferKind ==>
        e.h.Valid? && e.h.id in LiveFrameBuffers(t[..|t| - 1])))
  }

  /** Appending events that touch no framebuffer changes neither the live
      framebuffers nor the safety of the destructions. */
  lemma {:induction false} FrameBufferNeutral(t: seq<Event>, u: seq<Event>)
    requires forall i :: 0 <= i < |u| ==> !TouchesFrameBuffer(u[i])
    ensures LiveFrameBuffers(t + u) == LiveFrameBuffers(t)
    ensures FrameBufferDestroysSafe(t + u) == FrameBufferDestroysSafe(t)
    decreases |u|
  {
    if u == [] {
      assert t + u == t;
    } else {
      var u' := u[..|u| - 1];
      assert (t + u)[..|t + u| - 1] == t + u';
      FrameBufferNeutral(t, u');
    }
  }

  /** The effect of one more event on the live framebuffers and the safety
      of the destructions. */
  lemma AppendEvent(t: seq<Event>, e: Event)
    ensures LiveFrameBuffers(t + [e]) ==
      if e.Created? && e.res.FrameBufferRes? then LiveFrameBuffers(t) + HandleIds(e.h)
      else if e.Destroyed? && e.kind == FrameBufferKind then LiveFrameBuffers(t) - HandleIds(e.h)
      else LiveFrameBuffers(t)
    ensures FrameBufferDestroysSafe(t + [e]) ==
      (FrameBufferDestroysSafe(t) &&
       (e.Destroyed? && e.kind == FrameBufferKind ==> e.h.Valid? && e.h.id in LiveFrameBuffers(t)))
  {
    assert (t + [e])[..|t + [e]| - 1] == t;
  }

  /** Number of framebuffer creations (successful or not) in t. */
  function FrameBufferCreations(t: seq<Event>): nat
  {
    if t == [] then 0
    else (if t[0].Created? && t[0].res.FrameBufferRes? then 1 else 0) + FrameBufferCreations(t[1..])
  }

  /** Number of framebuffer destructions in t. */
  function FrameBufferDestructions(t: seq<Event>): nat
  {
    if t == [] then 0
    else (if t[0].Destroyed? && t[0].kind == FrameBufferKind then 1 else 0) + FrameBufferDestructions(t[1..])
  }

  /** The subsystem and hook calls of t, in order. */
  function Calls(t: seq<Event>): seq<Call>
  {
    if t == [] then []
    else (if t[0].Called? then [t[0].call] else []) + Calls(t[1..])
  }

  /** A trace made only of calls has those calls as its call order. */
  lemma {:induction false} OnlyCalls(t: seq<Event>)
    requires forall i :: 0 <= i < |t| ==> t[i].Called?
    ensures |Calls(t)| == |t| && forall i :: 0 <= i < |t| ==> Calls(t)[i] == t[i].call
  {
    if t != [] {
      OnlyCalls(t[1..]);
    }
  }

  /** Creations in a concatenation add up. */
  lemma {:induction false} CreationsConcat(a: seq<Event>, b: seq<Event>)
    ensures FrameBufferCreations(a + b) == FrameBufferCreations(a) + FrameBufferCreations(b)
  {
    if a == [] {
      assert a + b == b;
    } else {
      assert (a + b)[1..] == a[1..] + b;
      CreationsConcat(a[1..], b);
    }
  }

  /** Destructions in a concatenation add up. */
  lemma {:induction false} DestructionsConcat(a: seq<Event>, b: seq<Event>)
    ensures FrameBufferDestructions(a + b) == FrameBufferDestructions(a) + FrameBufferDestructions(b)
  {
    if a == [] {
      assert a + b == b;
    } else {
      assert (a + b)[1..] == a[1..] + b;
      DestructionsConcat(a[1..], b);
    }
  }

  /** The call order of a concatenation is that of its parts. */
  lemma {:induction false} CallsConcat(a: seq<Event>, b: seq<Event>)
    ensures Calls(a + b) == Calls(a) + Calls(b)
  {
    if a == [] {
      assert a + b == b;
    } else {
      assert (a + b)[1..] == a[1..] + b;
      CallsConcat(a[1..], b);
    }
  }
}
