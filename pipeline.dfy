/**
 * The abstract state of a web application's middleware pipe and how its
 * operations change it: three registration seams, each an ordered list of
 * user middleware, the pipe itself, and the flag that records whether the
 * pipe has been built. The class `Application.WebApplication` keeps this
 * state in its fields and its methods are specified by these functions.
 */
module Pipeline {

  /** The three places where user middleware can be registered. */
  datatype Seam = BeforeRouting | BeforeAction | BeforeResponder

  /** The three fixed middlewares given to the constructor. */
  datatype FixedSteps<M> = FixedSteps(routing: M, action: M, responder: M)

  datatype PipelineState<M> = PipelineState(
    beforeRouting: seq<M>,
    beforeAction: seq<M>,
    beforeResponder: seq<M>,
    pipe: seq<M>,
    initialized: bool)

  /** A newly constructed application: nothing registered, nothing piped, not initialized. */
  function Fresh<M>(): (s: PipelineState<M>)
    ensures !s.initialized && s.pipe == []
    ensures forall seam :: Registered(s, seam) == []
  {
    PipelineState([], [], [], [], false)
  }

  /** The list of middleware registered at `seam`. */
  function Registered<M>(s: PipelineState<M>, seam: Seam): seq<M> {
    match seam
    case BeforeRouting => s.beforeRouting
    case BeforeAction => s.beforeAction
    case BeforeResponder => s.beforeResponder
  }

  /** `beforeRouting` / `beforeAction` / `beforeResponder`: append to one list. */
  function Register<M>(s: PipelineState<M>, seam: Seam, m: M): PipelineState<M> {
    match seam
    case BeforeRouting => s.(beforeRouting := s.beforeRouting + [m])
    case BeforeAction => s.(beforeAction := s.beforeAction + [m])
    case BeforeResponder => s.(beforeResponder := s.beforeResponder + [m])
  }

  /** What `initialize` pipes: each seam's list in front of its fixed step. */
  function Chain<M>(s: PipelineState<M>, f: FixedSteps<M>): seq<M> {
    s.beforeRouting + [f.routing] + s.beforeAction + [f.action] + s.beforeResponder + [f.responder]
  }

  /** `initialize`: build the pipe once; later calls change nothing. */
  function Initialize<M>(s: PipelineState<M>, f: FixedSteps<M>): PipelineState<M> {
    if s.initialized then s else s.(pipe := s.pipe + Chain(s, f), initialized := true)
  }

  /** Registering appends exactly the one middleware to its own seam and changes nothing else. */
  lemma RegisterAppends<M>(s: PipelineState<M>, seam: Seam, m: M)
    ensures Registered(Register(s, seam, m), seam) == Registered(s, seam) + [m]
    ensures forall other :: other != seam ==> Registered(Register(s, seam, m), other) == Registered(s, other)
    ensures Register(s, seam, m).pipe == s.pipe
    ensures Register(s, seam, m).initialized == s.initialized
  {
  }

  /**
   * The first `initialize` appends, in this order: the before-routing list,
   * routing, the before-action list, action, the before-responder list,
   * responder; the lists stay as they were and the flag is set.
   */
  lemma InitializeBuildsPipe<M>(s: PipelineState<M>, f: FixedSteps<M>)
    requires !s.initialized
    ensures var t := Initialize(s, f);
      && t.pipe == s.pipe + s.beforeRouting + [f.routing] + s.beforeAction + [f.action]
                   + s.beforeResponder + [f.responder]
      && t.initialized
      && (forall seam :: Registered(t, seam) == Registered(s, seam))
  {
  }

  /** Once initialized, `initialize` changes nothing; so a second call is a no-op. */
  lemma InitializeIdempotent<M>(s: PipelineState<M>, f: FixedSteps<M>)
    ensures s.initialized ==> Initialize(s, f) == s
    ensures Initialize(Initialize(s, f), f) == Initialize(s, f)
  {
  }

  /** Where the routing step sits in the chain. */
  function RoutingAt<M>(s: PipelineState<M>): nat {
    |s.beforeRouting|
  }

  /** Where the action step sits in the chain. */
  function ActionAt<M>(s: PipelineState<M>): nat {
    |s.beforeRouting| + 1 + |s.beforeAction|
  }

  /** Where the responder step sits in the chain; it is the chain's last entry. */
  function ResponderAt<M>(s: PipelineState<M>): nat {
    |s.beforeRouting| + 1 + |s.beforeAction| + 1 + |s.beforeResponder|
  }

  /**
   * The layout of the chain: every before-routing entry precedes routing,
   * routing precedes every before-action entry, which precede action, which
   * precedes every before-responder entry, which precede responder. Each
   * registered middleware keeps its registration order.
   */
  lemma ChainLayout<M>(s: PipelineState<M>, f: FixedSteps<M>)
    ensures var c := Chain(s, f);
      && |c| == ResponderAt(s) + 1
      && RoutingAt(s) < ActionAt(s) < ResponderAt(s)
      && c[RoutingAt(s)] == f.routing
      && c[ActionAt(s)] == f.action
      && c[ResponderAt(s)] == f.responder
      && (forall i :: 0 <= i < |s.beforeRouting| ==> c[i] == s.beforeRouting[i] && i < RoutingAt(s))
      && (forall i :: 0 <= i < |s.beforeAction| ==>
            var at := RoutingAt(s) + 1 + i; c[at] == s.beforeAction[i] && RoutingAt(s) < at < ActionAt(s))
      && (forall i :: 0 <= i < |s.beforeResponder| ==>
            var at := ActionAt(s) + 1 + i; c[at] == s.beforeResponder[i] && ActionAt(s) < at < ResponderAt(s))
  {
    var c := Chain(s, f);
    var front := s.beforeRouting + [f.routing];
    var middle := front + s.beforeAction + [f.action];
    assert c == middle + s.beforeResponder + [f.responder];
    assert forall i :: 0 <= i < |s.beforeRouting| ==> c[i] == middle[i] == front[i];
    forall i | 0 <= i < |s.beforeAction| ensures c[RoutingAt(s) + 1 + i] == s.beforeAction[i] {
      assert c[|front| + i] == middle[|front| + i] == (front + s.beforeAction)[|front| + i];
    }
  }

  /** A call a client makes on the application: register at a seam, or run. */
  datatype Call<M> = Add(seam: Seam, middleware: M) | Run

  /** The effect of one call on the pipeline state; `run` first initializes. */
  function Apply<M>(s: PipelineState<M>, f: FixedSteps<M>, c: Call<M>): PipelineState<M> {
    match c
    case Add(seam, m) => Register(s, seam, m)
    case Run => Initialize(s, f)
  }

  /** The state after a sequence of calls, one after the other. */
  function Replay<M>(s: PipelineState<M>, f: FixedSteps<M>, calls: seq<Call<M>>): PipelineState<M>
    decreases |calls|
  {
    if calls == [] then s else Replay(Apply(s, f, calls[0]), f, calls[1..])
  }

  /** The middleware the calls register at `seam`, in call order. */
  function RegisteredBy<M>(calls: seq<Call<M>>, seam: Seam): seq<M>
    decreases |calls|
  {
    if calls == [] then []
    else
      var here := match calls[0]
        case Add(at, m) => if at == seam then [m] else []
        case Run => [];
      here + RegisteredBy(calls[1..], seam)
  }

  /** No call in the sequence is a `run`. */
  predicate NoRun<M>(calls: seq<Call<M>>) {
    forall i :: 0 <= i < |calls| ==> calls[i].Add?
  }

  /** Replaying two sequences one after the other is replaying their concatenation. */
  lemma {:induction false} ReplayConcat<M>(s: PipelineState<M>, f: FixedSteps<M>, a: seq<Call<M>>, b: seq<Call<M>>)
    ensures Replay(s, f, a + b) == Replay(Replay(s, f, a), f, b)
    decreases |a|
  {
    if a == [] {
      assert a + b == b;
    } else {
      assert (a + b)[0] == a[0];
      assert (a + b)[1..] == a[1..] + b;
      ReplayConcat(Apply(s, f, a[0]), f, a[1..], b);
    }
  }

  /** Every call, before or after the pipe is built, keeps appending to the lists. */
  lemma {:induction false} ReplayRegisters<M>(s: PipelineState<M>, f: FixedSteps<M>, calls: seq<Call<M>>, seam: Seam)
    ensures Registered(Replay(s, f, calls), seam) == Registered(s, seam) + RegisteredBy(calls, seam)
    decreases |calls|
  {
    if calls != [] {
      ReplayRegisters(Apply(s, f, calls[0]), f, calls[1..], seam);
      match calls[0]
      case Add(seam', m) =>
        RegisterAppends(s, seam', m);
      case Run =>
    }
  }

  /** Once the pipe is built, no call changes it, and the application stays initialized. */
  lemma {:induction false} BuiltPipeIsFinal<M>(s: PipelineState<M>, f: FixedSteps<M>, calls: seq<Call<M>>)
    requires s.initialized
    ensures Replay(s, f, calls).pipe == s.pipe
    ensures Replay(s, f, calls).initialized
    decreases |calls|
  {
    if calls != [] {
      BuiltPipeIsFinal(Apply(s, f, calls[0]), f, calls[1..]);
    }
  }

  /** Registrations alone neither pipe anything nor initialize. */
  lemma {:induction false} RegistrationsDoNotPipe<M>(s: PipelineState<M>, f: FixedSteps<M>, calls: seq<Call<M>>)
    requires NoRun(calls)
    ensures Replay(s, f, calls).pipe == s.pipe
    ensures Replay(s, f, calls).initialized == s.initialized
    decreases |calls|
  {
    if calls != [] {
      assert calls[0].Add?;
      assert NoRun(calls[1..]) by {
        forall i | 0 <= i < |calls[1..]| ensures calls[1..][i].Add? {
          assert calls[1..][i] == calls[i + 1];
        }
      }
      RegistrationsDoNotPipe(Apply(s, f, calls[0]), f, calls[1..]);
    }
  }

  /**
   * From a fresh application, the pipe after the first `run` and any later
   * calls holds exactly the middleware registered before that first run,
   * laid out seam by seam between the fixed steps. Middleware registered after
   * the first run never enters the pipe, although the lists still grow.
   */
  lemma FirstRunFixesPipe<M>(f: FixedSteps<M>, before: seq<Call<M>>, after: seq<Call<M>>)
    requires NoRun(before)
    ensures var t := Replay(Fresh(), f, before + [Run] + after);
      && t.pipe == RegisteredBy(before, BeforeRouting) + [f.routing]
                   + RegisteredBy(before, BeforeAction) + [f.action]
                   + RegisteredBy(before, BeforeResponder) + [f.responder]
      && t.initialized
      && (forall seam :: Registered(t, seam) == RegisteredBy(before + [Run] + after, seam))
  {
    var s0: PipelineState<M> := Fresh();
    var s1 := Replay(s0, f, before);
    RegistrationsDoNotPipe(s0, f, before);
    ReplayRegisters(s0, f, before, BeforeRouting);
    ReplayRegisters(s0, f, before, BeforeAction);
    ReplayRegisters(s0, f, before, BeforeResponder);
    var s2 := Initialize(s1, f);
    assert Replay(s1, f, [Run]) == s2;
    ReplayConcat(s0, f, before, [Run]);
    ReplayConcat(s0, f, before + [Run], after);
    BuiltPipeIsFinal(s2, f, after);
    forall seam ensures Registered(Replay(s0, f, before + [Run] + after), seam)
      == RegisteredBy(before + [Run] + after, seam)
    {
      ReplayRegisters(s0, f, before + [Run] + after, seam);
    }
  }
}
