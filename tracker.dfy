/** Binding trackers: a client-side cache of "what is currently bound" that
    skips redundant driver bind calls, plus the tracker id generator. */
module Trackers {
  import opened Wrappers
  import opened Gl

  /** A process-unique resource id (a `u32`); id 0 means "nothing bound".
      Two ids are equal exactly when their inner numbers are. */
  datatype TrackerId = TrackerId(id: nat)

  const Unbound := TrackerId(0)

  /** What a tracker learns from a resource through `Bind`: its id
      (`get_id`) and the driver call its `bind` issues. */
  datatype Binder = Binder(id: TrackerId, call: Call)

  /** The new `currently_bound` and the driver calls issued by one bind. */
  datatype Step = Step(bound: TrackerId, calls: seq<Call>)

  /** `SimpleBindingTracker::bind`: call the resource's `bind` only when its id
      differs from the currently bound one, then remember that id. */
  function SimpleBind(current: TrackerId, b: Binder): Step
  {
    if current != b.id then Step(b.id, [b.call]) else Step(current, [])
  }

  /** Two consecutive binds of the same resource issue at most one driver bind,
      and exactly one unless it was already bound. */
  lemma BindTwiceIssuesOnce(current: TrackerId, b: Binder)
    ensures var first := SimpleBind(current, b);
            var second := SimpleBind(first.bound, b);
            second.calls == [] && second.bound == b.id &&
            first.calls + second.calls == (if current == b.id then [] else [b.call])
  {
  }

  /** Switching away and back always binds again: bind(A); bind(B); bind(A). */
  lemma SwitchingBackRebinds(current: TrackerId, a: Binder, b: Binder)
    requires a.id != b.id
    ensures var s1 := SimpleBind(current, a);
            var s2 := SimpleBind(s1.bound, b);
            var s3 := SimpleBind(s2.bound, a);
            s3.bound == a.id &&
            s1.calls + s2.calls + s3.calls == (if current == a.id then [] else [a.call]) + [b.call, a.call]
  {
  }

  /** State of a `RenderBindingTracker`: the simple tracker's id and the
      resource remembered for rendering. */
  datatype RenderState = RenderState(current: TrackerId, forRendering: Option<Binder>)

  const FreshRender := RenderState(Unbound, None)

  /** The operations of a `RenderBindingTracker`.  `Restore` carries whether
      the weak reference to the rendering target can still be upgraded. */
  datatype Op = Edit(b: Binder) | Render(b: Binder) | Restore(targetAlive: bool)

  datatype Effect = Effect(state: RenderState, calls: seq<Call>)

  function Apply(s: RenderState, op: Op): Effect
  {
    match op
    case Edit(b) =>
      var t := SimpleBind(s.current, b);
      Effect(RenderState(t.bound, s.forRendering), t.calls)
    case Render(b) =>
      var t := SimpleBind(s.current, b);
      Effect(RenderState(t.bound, Some(b)), t.calls)
    case Restore(alive) =>
      match s.forRendering
      case None => Effect(s, [])
      case Some(b) =>
        if alive then
          var t := SimpleBind(s.current, b);
          Effect(RenderState(t.bound, s.forRendering), t.calls)
        else
          Effect(RenderState(s.current, None), [])
  }

  /** A sequence of tracker operations, applied in order. */
  function Run(s: RenderState, ops: seq<Op>): Effect
    decreases |ops|
  {
    if ops == [] then Effect(s, [])
    else
      var p := Run(s, ops[..|ops| - 1]);
      var e := Apply(p.state, ops[|ops| - 1]);
      Effect(e.state, p.calls + e.calls)
  }

  /** Editing binds like the simple tracker and never touches the rendering target. */
  lemma EditKeepsRenderTarget(s: RenderState, b: Binder)
    ensures var e := Apply(s, Edit(b));
            e.state.forRendering == s.forRendering &&
            e == Effect(RenderState(SimpleBind(s.current, b).bound, s.forRendering), SimpleBind(s.current, b).calls)
  {
  }

  /** The three cases of `restore_rendering_state`. */
  lemma RestoreCases(s: RenderState, alive: bool)
    ensures s.forRendering.None? ==> Apply(s, Restore(alive)) == Effect(s, [])
    ensures s.forRendering.Some? && !alive ==>
              Apply(s, Restore(alive)) == Effect(RenderState(s.current, None), [])
    ensures s.forRendering.Some? && alive ==>
              var b := s.forRendering.value;
              Apply(s, Restore(alive)).state == RenderState(b.id, s.forRendering) &&
              Apply(s, Restore(alive)).calls == (if s.current == b.id then [] else [b.call])
  {
  }

  /** bind_for_rendering(A); bind_for_editing(B); restore_rendering_state():
      A is bound again, and the restore issues exactly one bind, for A. */
  lemma RestoreUndoesEditing(s: RenderState, a: Binder, b: Binder)
    requires a.id != b.id
    ensures var e1 := Apply(s, Render(a));
            var e2 := Apply(e1.state, Edit(b));
            var e3 := Apply(e2.state, Restore(true));
            e2.calls == [b.call] &&
            e3.calls == [a.call] &&
            e3.state == RenderState(a.id, Some(a))
  {
  }

  /** With a dead rendering target, restoring binds nothing and forgets it. */
  lemma RestoreOfDeadTargetForgetsIt(s: RenderState, a: Binder, b: Binder)
    ensures var e1 := Apply(s, Render(a));
            var e2 := Apply(e1.state, Edit(b));
            var e3 := Apply(e2.state, Restore(false));
            e3.calls == [] && e3.state == RenderState(b.id, None)
  {
  }

  /** The resources an operation sequence names have nonzero ids, and one id
      always stands for one bind call (tracker ids are never reused). */
  ghost predicate WellNamed(ops: seq<Op>)
  {
    (forall i :: Binds(ops, i) ==> ops[i].b.id != Unbound) &&
    (forall i, j :: Binds(ops, i) && Binds(ops, j) && ops[i].b.id == ops[j].b.id ==>
       ops[i].b.call == ops[j].b.call)
  }

  /** Operation i is a bind (for editing or for rendering). */
  ghost predicate Binds(ops: seq<Op>, i: int)
  {
    0 <= i < |ops| && !ops[i].Restore?
  }

  /** Operation i binds `b`. */
  ghost predicate Names(ops: seq<Op>, i: int, b: Binder)
  {
    Binds(ops, i) && ops[i].b == b
  }

  /** The cache is coherent with the driver: starting from a fresh tracker,
      after any sequence of operations the tracker's own calls are empty exactly
      when nothing is bound, and otherwise the last bind it issued is that of
      a resource whose id is the tracker's `currently_bound`.  The rendering
      target is always a resource that was bound for rendering. */
  lemma {:induction false} RunKeepsDriverInSync(ops: seq<Op>)
    requires WellNamed(ops)
    ensures var e := Run(FreshRender, ops);
            (e.calls == [] <==> e.state.current == Unbound) &&
            (e.calls != [] ==> exists i :: Binds(ops, i) && ops[i].b.id == e.state.current &&
                                           e.calls[|e.calls| - 1] == ops[i].b.call) &&
            (e.state.forRendering.Some? ==> exists i :: Names(ops, i, e.state.forRendering.value) && ops[i].Render?)
    decreases |ops|
  {
    if ops != [] {
      var n := |ops| - 1;
      var pre := ops[..n];
      assert WellNamed(pre) by {
        forall i | 0 <= i < |pre| ensures pre[i] == ops[i] { }
      }
      RunKeepsDriverInSync(pre);
      var p := Run(FreshRender, pre);
      var e := Apply(p.state, ops[n]);
      assert Run(FreshRender, ops) == Effect(e.state, p.calls + e.calls);
      // Facts about the prefix, restated over `ops`.
      if p.calls != [] {
        var i :| Binds(pre, i) && pre[i].b.id == p.state.current &&
                 p.calls[|p.calls| - 1] == pre[i].b.call;
        assert Binds(ops, i) && ops[i].b.id == p.state.current;
      }
      if p.state.forRendering.Some? {
        var k :| Names(pre, k, p.state.forRendering.value) && pre[k].Render?;
        assert Names(ops, k, p.state.forRendering.value) && ops[k].Render?;
      }
      match ops[n]
      case Edit(b) =>
        assert Names(ops, n, b);
        if p.state.current == b.id {
          assert p.calls != [];
        }
      case Render(b) =>
        assert Names(ops, n, b);
        if p.state.current == b.id {
          assert p.calls != [];
        }
      case Restore(alive) =>
        if p.state.forRendering.Some? && alive {
          var b := p.state.forRendering.value;
          var k :| Names(ops, k, b) && ops[k].Render?;
          if p.state.current == b.id {
            assert p.calls != [];
          }
        }
    }
  }

  /** Whatever resource of the run has the tracker's current id, the driver's
      last bind from this tracker was that resource's own bind call. */
  lemma {:induction false} DriverBindsTheTrackedResource(ops: seq<Op>, j: nat)
    requires WellNamed(ops)
    requires j < |ops| && !ops[j].Restore?
    requires ops[j].b.id == Run(FreshRender, ops).state.current
    ensures var e := Run(FreshRender, ops);
            e.calls != [] && e.calls[|e.calls| - 1] == ops[j].b.call
  {
    RunKeepsDriverInSync(ops);
  }

  /** The trackers' view of a reference-counted resource: its id, its bind
      call, and whether a strong reference still exists (so that a weak
      reference to it can be upgraded). */
  class Bindable {
    const trackerId: TrackerId
    const bindCall: Call
    var alive: bool

    constructor (trackerId: TrackerId, bindCall: Call)
      ensures this.trackerId == trackerId && this.bindCall == bindCall && alive
    {
      this.trackerId := trackerId;
      this.bindCall := bindCall;
      alive := true;
    }

    function View(): Binder
    {
      Binder(trackerId, bindCall)
    }

    /** `Bind::bind`. */
    method Bind(gl: Driver)
      modifies gl`log
      ensures gl.log == old(gl.log) + [bindCall]
    {
      gl.Issue(bindCall);
    }
  }

  class SimpleBindingTracker {
    var currentlyBound: TrackerId

    constructor ()
      ensures currentlyBound == Unbound
    {
      currentlyBound := Unbound;
    }

    method Bind(gl: Driver, resource: Bindable)
      modifies this, gl`log
      ensures var t := SimpleBind(old(currentlyBound), resource.View());
              currentlyBound == t.bound && gl.log == old(gl.log) + t.calls
    {
      var id := resource.trackerId;
      if currentlyBound != id {
        resource.Bind(gl);
        currentlyBound := id;
      }
    }
  }

  class RenderBindingTracker {
    const simpleTracker: SimpleBindingTracker
    var boundForRendering: Option<Bindable>

    constructor ()
      ensures fresh(simpleTracker)
      ensures State() == FreshRender && boundForRendering == None
    {
      simpleTracker := new SimpleBindingTracker();
      boundForRendering := None;
    }

    function State(): RenderState
      reads this, simpleTracker
    {
      RenderState(simpleTracker.currentlyBound,
                  if boundForRendering.Some? then Some(boundForRendering.value.View()) else None)
    }

    function Target(): set<object>
      reads this
    {
      if boundForRendering.Some? then {boundForRendering.value} else {}
    }

    /** Whether the weak reference to the rendering target can be upgraded. */
    predicate TargetAlive()
      reads this, Target()
    {
      boundForRendering.Some? && boundForRendering.value.alive
    }

    method BindForEditing(gl: Driver, resource: Bindable)
      modifies simpleTracker, gl`log
      ensures var e := Apply(old(State()), Edit(resource.View()));
              State() == e.state && gl.log == old(gl.log) + e.calls
    {
      simpleTracker.Bind(gl, resource);
    }

    method BindForRendering(gl: Driver, resource: Bindable)
      modifies this, simpleTracker, gl`log
      ensures boundForRendering == Some(resource)
      ensures var e := Apply(old(State()), Render(resource.View()));
              State() == e.state && gl.log == old(gl.log) + e.calls
    {
      simpleTracker.Bind(gl, resource);
      boundForRendering := Some(resource);
    }

    method RestoreRenderingState(gl: Driver)
      modifies this, simpleTracker, gl`log
      ensures boundForRendering == if old(TargetAlive()) then old(boundForRendering) else None
      ensures var e := Apply(old(State()), Restore(old(TargetAlive())));
              State() == e.state && gl.log == old(gl.log) + e.calls
    {
      if boundForRendering.None? {
        return;
      }
      var resource := boundForRendering.value;
      if resource.alive {
        simpleTracker.Bind(gl, resource);
      } else {
        boundForRendering := None;
      }
    }
  }

  /** The ids handed out so far are 1, 2, 3, ... in order. */
  ghost predicate IssuedInOrder(issued: seq<TrackerId>)
  {
    forall i :: 0 <= i < |issued| ==> issued[i].id == i + 1
  }

  /** Ids handed out in order are strictly increasing and never "unbound". */
  lemma IssuedIdsAreDistinct(issued: seq<TrackerId>)
    requires IssuedInOrder(issued)
    ensures forall i, j :: 0 <= i < j < |issued| ==> issued[i].id < issued[j].id
    ensures forall i :: 0 <= i < |issued| ==> issued[i] != Unbound
  {
  }

  class TrackerIdGenerator {
    var counter: nat
    ghost var issued: seq<TrackerId>

    ghost predicate Valid()
      reads this
    {
      counter < U32_LIMIT && |issued| == counter && IssuedInOrder(issued)
    }

    constructor ()
      ensures Valid() && counter == 0 && issued == []
    {
      counter := 0;
      issued := [];
    }

    /** `new_id`: `counter += 1` on a u32, which aborts instead of wrapping. */
    method NewId() returns (r: Result<TrackerId>)
      requires Valid()
      modifies this
      ensures Valid()
      ensures old(counter) + 1 < U32_LIMIT ==>
                r == Ok(TrackerId(old(counter) + 1)) && counter == old(counter) + 1 &&
                issued == old(issued) + [r.value]
      ensures old(counter) + 1 == U32_LIMIT ==> r == Err(CounterOverflow) && counter == old(counter)
    {
      if counter + 1 == U32_LIMIT {
        return Err(CounterOverflow);
      }
      counter := counter + 1;
      issued := issued + [TrackerId(counter)];
      r := Ok(TrackerId(counter));
    }
  }
}
