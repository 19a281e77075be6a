/** First match by name, as every by-name lookup of the crate performs it. */
module Lookups {
  import opened Wrappers

  /** The position of the first occurrence of `name`, or `None`. */
  function FirstNamed(names: seq<string>, name: string): (r: Option<nat>)
    ensures r.None? <==> name !in names
    ensures r.Some? ==> r.value < |names| && names[r.value] == name && name !in names[..r.value]
    decreases |names|
  {
    if names == [] then None
    else if names[0] == name then Some(0)
    else
      var rest := FirstNamed(names[1..], name);
      if rest.None? then None
      else
        assert names[..rest.value + 1] == [names[0]] + names[1..][..rest.value];
        Some(rest.value + 1)
  }

  /** A position holding `name` with no earlier occurrence is the one found. */
  lemma FirstNamedChar(names: seq<string>, name: string, i: nat)
    requires i < |names| && names[i] == name && name !in names[..i]
    ensures FirstNamed(names, name) == Some(i)
  {
  }

  /** The names of `xs`, position by position. */
  function NamesOf<T>(xs: seq<T>, nameOf: T -> string): (names: seq<string>)
    ensures |names| == |xs| && forall i :: 0 <= i < |xs| ==> names[i] == nameOf(xs[i])
  {
    seq(|xs|, i requires 0 <= i < |xs| => nameOf(xs[i]))
  }

  /** The element at a found position. */
  function Pick<T>(xs: seq<T>, found: Option<nat>): (r: Option<T>)
    ensures found.Some? && found.value < |xs| ==> r == Some(xs[found.value])
    ensures found.None? ==> r == None
  {
    if found.Some? && found.value < |xs| then Some(xs[found.value]) else None
  }
}
