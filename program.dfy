/** Programs: attach-then-link creation, the link status as data, the gated
    delete, and the program editor that forwards to the uniform setters. */
module Programs {
  import opened Wrappers
  import opened Gl
  import opened Trackers
  import opened Contexts
  import Uniforms

  /** What a program needs of a shader handle: the shader's driver name. */
  class Shader {
    const name: nat

    constructor (name: nat)
      ensures this.name == name
    {
      this.name := name;
    }
  }

  /** One `glAttachShader` per shader, in list order. */
  function AttachCalls(program: nat, shaders: seq<Shader>): seq<Call>
    decreases |shaders|
  {
    if shaders == [] then []
    else AttachCalls(program, shaders[..|shaders| - 1]) + [AttachShader(program, shaders[|shaders| - 1].name)]
  }

  /** Call `i` attaches shader `i`, and there is one call per shader. */
  lemma {:induction false} AttachCallsInOrder(program: nat, shaders: seq<Shader>)
    ensures |AttachCalls(program, shaders)| == |shaders|
    ensures forall i :: 0 <= i < |shaders| ==> AttachCalls(program, shaders)[i] == AttachShader(program, shaders[i].name)
    decreases |shaders|
  {
    if shaders != [] {
      var pre := shaders[..|shaders| - 1];
      AttachCallsInOrder(program, pre);
      forall i | 0 <= i < |shaders| ensures AttachCalls(program, shaders)[i] == AttachShader(program, shaders[i].name) {
        if i < |pre| {
          assert pre[i] == shaders[i];
        }
      }
    }
  }

  /** Linking issues no call other than the attaches and one final link. */
  lemma LinkTraceShape(program: nat, shaders: seq<Shader>)
    ensures var calls := AttachCalls(program, shaders) + [LinkProgram(program)];
            |calls| == |shaders| + 1 && calls[|shaders|] == LinkProgram(program) &&
            forall i :: 0 <= i < |shaders| ==> calls[i].AttachShader? && calls[i].program == program
  {
    AttachCallsInOrder(program, shaders);
  }

  class Program {
    const name: nat                       // `id`, the driver's name
    const trackerId: TrackerId
    const registration: RegistrationHandle
    const shaders: seq<Shader>
    const bindable: Bindable

    /** `Bind::get_id` is the tracker id and `Bind::bind` makes this program
        current. */
    ghost predicate Valid()
    {
      bindable.trackerId == trackerId && bindable.bindCall == UseProgram(name)
    }

    /** `Program::new`: create the driver object, keep a copy of the shader
        list, then link. */
    constructor (trackerId: TrackerId, shaders: seq<Shader>, registration: RegistrationHandle, gl: Driver)
      modifies gl`log, gl`nextName
      ensures Valid() && fresh(bindable) && bindable.alive
      ensures this.trackerId == trackerId && this.shaders == shaders && this.registration == registration
      ensures name == old(gl.nextName)
      ensures gl.log == old(gl.log) + [CreateProgram(name)] + AttachCalls(name, shaders) + [LinkProgram(name)]
    {
      var id := gl.NewName();
      gl.Issue(CreateProgram(id));
      this.name := id;
      this.trackerId := trackerId;
      this.registration := registration;
      this.shaders := shaders;
      this.bindable := new Bindable(trackerId, UseProgram(id));
      new;
      Link(gl);
    }

    /** `link`: attach every stored shader in order, then link once. */
    method Link(gl: Driver)
      modifies gl`log
      ensures gl.log == old(gl.log) + AttachCalls(name, shaders) + [LinkProgram(name)]
    {
      var i := 0;
      while i < |shaders|
        invariant i <= |shaders|
        invariant gl.log == old(gl.log) + AttachCalls(name, shaders[..i])
      {
        assert shaders[..i + 1][..i] == shaders[..i];
        gl.Issue(AttachShader(name, shaders[i].name));
        i := i + 1;
      }
      assert shaders[..i] == shaders;
      gl.Issue(LinkProgram(name));
    }

    /** `get_link_status`: the driver's `LINK_STATUS` value, read as a flag;
        only TRUE counts as linked. */
    function GetLinkStatus(linkStatus: I32): (linked: bool)
      ensures linked <==> linkStatus == TRUE
    {
      linkStatus == TRUE
    }

    /** `Drop`: the program is deleted only while the context is alive. */
    method Drop(gl: Driver)
      modifies gl`log, bindable
      ensures !bindable.alive
      ensures gl.log == old(gl.log) + (if registration.ContextAlive() then [DeleteProgram(name)] else [])
    {
      bindable.alive := false;
      if registration.ContextAlive() {
        gl.Issue(DeleteProgram(name));
      }
    }

    /** `Bind::get_id`. */
    function GetId(): (r: TrackerId)
      ensures Valid() ==> bindable.View() == Binder(r, UseProgram(name))
    {
      trackerId
    }

    /** `Bind::bind`. */
    method Bind(gl: Driver)
      requires Valid()
      modifies gl`log
      ensures gl.log == old(gl.log) + [UseProgram(name)] && gl.log == old(gl.log) + [bindable.bindCall]
    {
      gl.Issue(UseProgram(name));
    }
  }

  /** Trackers see a program by its tracker id, and binding it for rendering
      issues `UseProgram` with its driver name. */
  lemma TrackersSeeProgramIds(p: Program, q: Program)
    requires p.Valid() && q.Valid()
    ensures p.bindable.View() == Binder(p.GetId(), UseProgram(p.name))
    ensures p.GetId() != q.GetId() ==> p.bindable.View().id != q.bindable.View().id
  {
  }

  /** `ProgramEditor`: an edit session on a program that is bound for editing;
      its setters forward unchanged to the uniform setters. */
  class ProgramEditor {
    const context: Context
    const program: Program

    constructor (context: Context, program: Program)
      ensures this.context == context && this.program == program
    {
      this.context := context;
      this.program := program;
    }

    method UniformF32<T>(gl: Driver, location: I32, count: nat, uniformType: Uniforms.SimpleUniformTypeFloat,
                         values: seq<T>)
      returns (r: Outcome)
      modifies gl`log
      ensures r == Uniforms.ValidateUniform(count, Uniforms.FloatElementCount(uniformType), |values|)
      ensures gl.log == old(gl.log) +
                if r.Pass? then [Uniforms.FloatDispatch(uniformType, location, AsI32(count))] else []
    {
      r := Uniforms.UniformF32(gl, location, count, uniformType, values);
    }

    method UniformMatrix<T>(gl: Driver, location: I32, count: nat, uniformType: Uniforms.SimpleUniformTypeMatrix,
                            transpose: bool, values: seq<T>)
      returns (r: Outcome)
      modifies gl`log
      ensures r == Uniforms.ValidateUniform(count, Uniforms.MatrixElementCount(uniformType), |values|)
      ensures gl.log == old(gl.log) +
                if r.Pass? then [Uniforms.MatrixDispatch(uniformType, location, AsI32(count), if transpose then TRUE else FALSE)]
                else []
    {
      r := Uniforms.UniformMatrixF32(gl, location, count, uniformType, transpose, values);
    }

    method UniformU32<T>(gl: Driver, location: I32, count: nat, uniformType: Uniforms.SimpleUniformTypeUint,
                         values: seq<T>)
      returns (r: Outcome)
      modifies gl`log
      ensures r == Uniforms.ValidateUniform(count, Uniforms.UintElementCount(uniformType), |values|)
      ensures gl.log == old(gl.log) +
                if r.Pass? then [Uniforms.UintDispatch(uniformType, location, AsI32(count))] else []
    {
      r := Uniforms.UniformU32(gl, location, count, uniformType, values);
    }

    method UniformI32<T>(gl: Driver, location: I32, count: nat, uniformType: Uniforms.SimpleUniformTypeInt,
                         values: seq<T>)
      returns (r: Outcome)
      modifies gl`log
      ensures r == Uniforms.ValidateUniform(count, Uniforms.IntElementCount(uniformType), |values|)
      ensures gl.log == old(gl.log) +
                if r.Pass? then [Uniforms.IntDispatch(uniformType, location, AsI32(count))] else []
    {
      r := Uniforms.UniformI32(gl, location, count, uniformType, values);
    }
  }

  /** `new_program_editor`: bind the program for editing, then hand out the
      editor. */
  method NewProgramEditor(context: Context, program: Program, gl: Driver) returns (editor: ProgramEditor)
    requires context.Valid()
    modifies context.programTracker.simpleTracker, gl`log
    ensures fresh(editor) && editor.context == context && editor.program == program
    ensures var e := Apply(old(context.programTracker.State()), Edit(program.bindable.View()));
            context.programTracker.State() == e.state && gl.log == old(gl.log) + e.calls
  {
    context.BindProgramForEditing(gl, program.bindable);
    editor := new ProgramEditor(context, program);
  }
}
