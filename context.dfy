/** The context's shared liveness cell, the handles resources keep to it, and
    the context record that owns one render-aware tracker per resource kind. */
module Contexts {
  import opened Gl
  import opened Trackers

  /** `SharedContextState`, shared through `Rc<RefCell<..>>` by the context and
      every resource it creates. */
  class SharedContextState {
    var contextAlive: bool

    constructor ()
      ensures contextAlive
    {
      contextAlive := true;
    }
  }

  class RegistrationHandle {
    const contextShared: SharedContextState

    /** Stores the shared cell itself, not a copy of it. */
    constructor (contextShared: SharedContextState)
      ensures this.contextShared == contextShared
    {
      this.contextShared := contextShared;
    }

    /** A read-only look at the shared cell. */
    predicate ContextAlive()
      reads contextShared
    {
      contextShared.contextAlive
    }
  }

  /** Handles made from one cell always agree, whatever happened to the cell. */
  lemma HandlesOfOneCellAgree(h1: RegistrationHandle, h2: RegistrationHandle)
    requires h1.contextShared == h2.contextShared
    ensures h1.ContextAlive() == h2.ContextAlive()
  {
  }

  /** The context record: one render-aware tracker for vertex buffers, one for
      vertex arrays and one for programs, and the shared liveness cell.  Its
      `bind_X_for_editing` is that tracker's `bind_for_editing`. */
  class Context {
    const vboTracker: RenderBindingTracker
    const vaoTracker: RenderBindingTracker
    const programTracker: RenderBindingTracker
    const shared: SharedContextState

    /** The six tracker objects are distinct, so binding one kind never
        disturbs the state of another. */
    ghost predicate Valid()
    {
      vboTracker != vaoTracker && vboTracker != programTracker && vaoTracker != programTracker &&
      vboTracker.simpleTracker != vaoTracker.simpleTracker &&
      vboTracker.simpleTracker != programTracker.simpleTracker &&
      vaoTracker.simpleTracker != programTracker.simpleTracker
    }

    constructor ()
      ensures Valid() && fresh(shared) && shared.contextAlive
      ensures fresh(vboTracker) && fresh(vaoTracker) && fresh(programTracker)
      ensures fresh(vboTracker.simpleTracker) && fresh(vaoTracker.simpleTracker) && fresh(programTracker.simpleTracker)
      ensures vboTracker.State() == FreshRender && vaoTracker.State() == FreshRender &&
              programTracker.State() == FreshRender
    {
      vboTracker := new RenderBindingTracker();
      vaoTracker := new RenderBindingTracker();
      programTracker := new RenderBindingTracker();
      shared := new SharedContextState();
    }

    /** A handle to this context's liveness cell, for a new resource. */
    method Registration() returns (h: RegistrationHandle)
      ensures fresh(h) && h.contextShared == shared
    {
      h := new RegistrationHandle(shared);
    }

    method BindVboForEditing(gl: Driver, resource: Bindable)
      modifies vboTracker.simpleTracker, gl`log
      ensures var e := Apply(old(vboTracker.State()), Edit(resource.View()));
              vboTracker.State() == e.state && gl.log == old(gl.log) + e.calls
    {
      vboTracker.BindForEditing(gl, resource);
    }

    method BindVaoForEditing(gl: Driver, resource: Bindable)
      modifies vaoTracker.simpleTracker, gl`log
      ensures var e := Apply(old(vaoTracker.State()), Edit(resource.View()));
              vaoTracker.State() == e.state && gl.log == old(gl.log) + e.calls
    {
      vaoTracker.BindForEditing(gl, resource);
    }

    method BindProgramForEditing(gl: Driver, resource: Bindable)
      modifies programTracker.simpleTracker, gl`log
      ensures var e := Apply(old(programTracker.State()), Edit(resource.View()));
              programTracker.State() == e.state && gl.log == old(gl.log) + e.calls
    {
      programTracker.BindForEditing(gl, resource);
    }

    /** Tearing the context down clears the shared flag; every handle made
        from this context sees the change. */
    method Destroy(handles: seq<RegistrationHandle>)
      modifies shared
      ensures !shared.contextAlive
      ensures forall h :: h in handles && h.contextShared == shared ==> !h.ContextAlive()
    {
      shared.contextAlive := false;
    }
  }
}
