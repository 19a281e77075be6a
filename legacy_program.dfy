/** The older program module: linking is fatal on failure, and active
    uniforms are listed as (location, name) pairs. Its validators, setters,
    `Drop` and `new_program_editor` are the same as in the program module. */
module LegacyPrograms {
  import opened Wrappers
  import opened Gl
  import opened Trackers
  import opened Contexts
  import opened Programs
  import Attributes

  /** The older `get_link_status`: anything but FALSE counts as linked, and
      FALSE aborts. */
  function LegacyLinkStatus(linkStatus: I32): (r: Result<bool>)
    ensures r.Err? <==> linkStatus == FALSE
    ensures r.Err? ==> r.panic == LinkFailed
    ensures r.Ok? ==> r.value
  {
    if linkStatus != FALSE then Ok(true) else Err(LinkFailed)
  }

  /** The older check is the weaker one: whatever the newer one accepts, the
      older one accepts, and the older one fails only on FALSE, which the newer
      one rejects too. The two agree exactly on the two flag values and differ
      on every other value, such as 2, which only the older one accepts. */
  lemma LinkStatusVersionsCompared(p: Program, linkStatus: I32)
    ensures p.GetLinkStatus(linkStatus) ==> LegacyLinkStatus(linkStatus) == Ok(true)
    ensures LegacyLinkStatus(linkStatus).Err? ==> linkStatus == FALSE && !p.GetLinkStatus(linkStatus)
    ensures (p.GetLinkStatus(linkStatus) <==> LegacyLinkStatus(linkStatus).Ok?) <==> (linkStatus == FALSE || linkStatus == TRUE)
    ensures LegacyLinkStatus(2) == Ok(true) && !p.GetLinkStatus(2)
  {
  }

  /** The older `Program::new`: create, attach, link, then check the link
      status. A failed link aborts, and unwinding drops the half-built
      program, which deletes it while the context is alive. */
  method NewLegacyProgram(trackerId: TrackerId, shaders: seq<Shader>, registration: RegistrationHandle,
                          linkStatus: I32, gl: Driver)
    returns (r: Result<Program>)
    modifies gl`log, gl`nextName
    ensures r.Ok? <==> linkStatus != FALSE
    ensures r.Err? ==> r.panic == LinkFailed
    ensures r.Ok? ==> fresh(r.value) && r.value.Valid() && r.value.bindable.alive &&
                      r.value.name == old(gl.nextName) && r.value.trackerId == trackerId &&
                      r.value.shaders == shaders && r.value.registration == registration
    ensures var name := old(gl.nextName);
            var created := old(gl.log) + [CreateProgram(name)] + AttachCalls(name, shaders) + [LinkProgram(name)];
            gl.log == created + (if r.Err? && registration.ContextAlive() then [DeleteProgram(name)] else [])
  {
    var p := new Program(trackerId, shaders, registration, gl);
    var status := LegacyLinkStatus(linkStatus);
    if status.Err? {
      p.Drop(gl);
      return Err(status.panic);
    }
    r := Ok(p);
  }

  /** What `glGetActiveUniform` reports for one index: the bytes it writes
      into the name buffer, the name length, the array size and the type. */
  datatype ActiveUniformReport = ActiveUniformReport(written: string, length: I32, size: I32, uniformType: nat)

  /** Everything the older uniform listing asks the driver, as data. */
  datatype LegacyReflection = LegacyReflection(
    activeUniforms: I32,
    maxLength: nat,
    report: nat -> ActiveUniformReport,
    uniformLocation: string -> I32)

  /** `Vec::truncate(length as uint)`: a length inside the buffer cuts it,
      anything else (longer, or negative and so huge as a `uint`) keeps it. */
  function Truncate(buffer: string, length: I32): (name: string)
    ensures 0 <= length < |buffer| ==> name == buffer[..length]
    ensures length < 0 || length >= |buffer| ==> name == buffer
    ensures |name| <= |buffer|
  {
    if 0 <= length < |buffer| then buffer[..length] else buffer
  }

  /** The name listed for index `i`: a fresh zeroed buffer of the maximum
      length, written by the driver, then truncated. */
  function NameAt(refl: LegacyReflection, i: nat): (name: string)
    ensures |name| <= refl.maxLength
  {
    Truncate(Attributes.Overwrite(seq(refl.maxLength, _ => '\0'), refl.report(i).written), refl.report(i).length)
  }

  /** What the listing reads back for index `i`: every character is one the
      driver wrote in this call or a zero of the fresh buffer, the name is as
      long as the reported length when that fits in the buffer (the whole
      buffer otherwise, negative lengths included), and a length that the
      driver actually wrote gives exactly the written prefix. */
  lemma ListedNameIsWhatTheDriverWrote(refl: LegacyReflection, i: nat)
    ensures var r := refl.report(i);
            var name := NameAt(refl, i);
            (forall k :: 0 <= k < |name| ==> name[k] == if k < |r.written| then r.written[k] else '\0') &&
            |name| == (if 0 <= r.length <= refl.maxLength then r.length else refl.maxLength) &&
            (0 <= r.length <= refl.maxLength && r.length <= |r.written| ==> name == r.written[..r.length])
  {
    var r := refl.report(i);
    var buffer := Attributes.Overwrite(seq(refl.maxLength, _ => '\0'), r.written);
    var name := NameAt(refl, i);
    assert name == Truncate(buffer, r.length);
    forall k | 0 <= k < |name| ensures name[k] == buffer[k] {
    }
    if 0 <= r.length <= refl.maxLength && r.length <= |r.written| {
      assert name == r.written[..r.length];
    }
  }

  function EntryAt(refl: LegacyReflection, i: nat): (I32, string)
  {
    (refl.uniformLocation(NameAt(refl, i)), NameAt(refl, i))
  }

  /** The entries for the first `n` indices, skipping every index whose
      reported length is 0. */
  function Listed(refl: LegacyReflection, n: nat): seq<(I32, string)>
  {
    if n == 0 then []
    else Listed(refl, n - 1) + (if refl.report(n - 1).length == 0 then [] else [EntryAt(refl, n - 1)])
  }

  /** How many of the first `n` indices report a zero length. */
  function Unnamed(refl: LegacyReflection, n: nat): nat
  {
    if n == 0 then 0 else Unnamed(refl, n - 1) + (if refl.report(n - 1).length == 0 then 1 else 0)
  }

  /** `get_active_uniforms`: the count is read as a `u32`, a zero count
      returns at once, and each index gets its own name buffer. */
  method GetActiveUniforms(refl: LegacyReflection) returns (uniforms: seq<(I32, string)>)
    ensures uniforms == Listed(refl, AsU32(refl.activeUniforms))
    ensures AsU32(refl.activeUniforms) == 0 ==> uniforms == []
  {
    uniforms := [];
    var count := AsU32(refl.activeUniforms);
    if count == 0 {
      return;
    }
    var index := 0;
    while index < count
      invariant index <= count
      invariant uniforms == Listed(refl, index)
    {
      var nameVec := seq(refl.maxLength, _ => '\0');
      var report := refl.report(index);
      nameVec := Attributes.Overwrite(nameVec, report.written);
      if report.length == 0 {
        index := index + 1;
        continue;
      }
      nameVec := Truncate(nameVec, report.length);
      var location := refl.uniformLocation(nameVec);
      uniforms := uniforms + [(location, nameVec)];
      index := index + 1;
    }
  }

  /** Every index with a zero length is skipped and every other one listed:
      the list and the skipped indices together account for all of them. */
  lemma {:induction false} ListedAndUnnamedCoverAll(refl: LegacyReflection, n: nat)
    ensures |Listed(refl, n)| + Unnamed(refl, n) == n
  {
    if n > 0 {
      ListedAndUnnamedCoverAll(refl, n - 1);
    }
  }

  /** With no zero lengths, entry `i` is the uniform at index `i`. */
  lemma {:induction false} NothingSkippedWhenAllNamed(refl: LegacyReflection, n: nat)
    requires forall i :: 0 <= i < n ==> refl.report(i).length != 0
    ensures |Listed(refl, n)| == n
    ensures forall i :: 0 <= i < n ==> Listed(refl, n)[i] == EntryAt(refl, i)
  {
    if n > 0 {
      NothingSkippedWhenAllNamed(refl, n - 1);
    }
  }

  /** With only zero lengths, nothing is listed. */
  lemma {:induction false} EverythingSkippedWhenUnnamed(refl: LegacyReflection, n: nat)
    requires forall i :: 0 <= i < n ==> refl.report(i).length == 0
    ensures Listed(refl, n) == []
  {
    if n > 0 {
      EverythingSkippedWhenUnnamed(refl, n - 1);
    }
  }

  /** Every listed entry is the entry of some index with a nonzero length,
      located by its own name. */
  lemma {:induction false} ListedEntriesAreNamed(refl: LegacyReflection, n: nat)
    ensures forall k :: 0 <= k < |Listed(refl, n)| ==>
              exists i :: 0 <= i < n && refl.report(i).length != 0 && Listed(refl, n)[k] == EntryAt(refl, i)
    ensures forall k :: 0 <= k < |Listed(refl, n)| ==>
              Listed(refl, n)[k].0 == refl.uniformLocation(Listed(refl, n)[k].1)
  {
    if n > 0 {
      ListedEntriesAreNamed(refl, n - 1);
      var pre := Listed(refl, n - 1);
      forall k | 0 <= k < |Listed(refl, n)|
        ensures exists i :: 0 <= i < n && refl.report(i).length != 0 && Listed(refl, n)[k] == EntryAt(refl, i)
        ensures Listed(refl, n)[k].0 == refl.uniformLocation(Listed(refl, n)[k].1)
      {
        if k < |pre| {
          assert Listed(refl, n)[k] == pre[k];
          var i :| 0 <= i < n - 1 && refl.report(i).length != 0 && pre[k] == EntryAt(refl, i);
        } else {
          assert refl.report(n - 1).length != 0;
          assert Listed(refl, n)[k] == EntryAt(refl, n - 1);
        }
      }
    } else {
      assert Listed(refl, n) == [];
    }
  }
}
