/**
 * The part of MSBuild the package drives, seen from outside: a loaded
 * project instance is an ordered list of evaluated properties, setting a
 * property replaces the entry of that name (names compare ignoring case) or
 * appends a new one, and building a target yields a new property list. The
 * process-wide project collection holds the global properties of the main build.
 */
module MSBuild {
  import opened Wrappers
  import IgnoreCase

  datatype Property = Property(name: string, value: string)

  /** Outcome of `new ProjectInstance(path)`: the evaluated properties, or the exception it threw. */
  datatype LoadOutcome = Loaded(properties: seq<Property>) | LoadError(message: string)

  /** What `ProjectInstance.Build(target, loggers)` does to the property list; a null target builds the default targets. */
  type BuildEngine = (seq<Property>, Option<string>) -> seq<Property>

  predicate SameName(a: string, b: string)
  {
    IgnoreCase.EqualsIgnoreCase(a, b)
  }

  /** Position of the first property named `name`, ignoring case. */
  function FindName(ps: seq<Property>, name: string): (r: Option<nat>)
    ensures r.Some? ==> r.value < |ps| && SameName(ps[r.value].name, name)
    ensures r.Some? ==> forall j :: 0 <= j < r.value ==> !SameName(ps[j].name, name)
    ensures r.None? ==> forall j :: 0 <= j < |ps| ==> !SameName(ps[j].name, name)
  {
    if ps == [] then None
    else if SameName(ps[0].name, name) then Some(0)
    else match FindName(ps[1..], name)
      case None => None
      case Some(i) => Some(i + 1)
  }

  /** The value of the property named `name`, if the list has one. */
  function Lookup(ps: seq<Property>, name: string): Option<string>
  {
    match FindName(ps, name)
    case None => None
    case Some(i) => Some(ps[i].value)
  }

  /** The property list after `SetProperty(name, value)`. */
  function WithProperty(ps: seq<Property>, name: string, value: string): (r: seq<Property>)
    ensures FindName(ps, name).Some? ==> |r| == |ps|
    ensures FindName(ps, name).None? ==> |r| == |ps| + 1 && r[|ps|] == Property(name, value)
    ensures forall j :: 0 <= j < |ps| && !SameName(ps[j].name, name) ==> r[j] == ps[j]
  {
    match FindName(ps, name)
    case None => ps + [Property(name, value)]
    case Some(i) => ps[i := Property(name, value)]
  }

  /** After setting a property, looking it up (in any case) gives the new value and every other name is unaffected. */
  lemma {:induction false} LookupAfterSet(ps: seq<Property>, name: string, value: string, other: string)
    ensures Lookup(WithProperty(ps, name, value), other) ==
            if SameName(other, name) then Some(value) else Lookup(ps, other)
  {
    var r := WithProperty(ps, name, value);
    EqualsIgnoreCaseFacts(name, other);
    if SameName(other, name) {
      var k := if FindName(ps, name).Some? then FindName(ps, name).value else |ps|;
      assert r[k] == Property(name, value);
      forall j | 0 <= j < k ensures !SameName(r[j].name, other) {
        IgnoreCase.EqualsIgnoreCaseIsEquivalence(ps[j].name, name, other);
        IgnoreCase.EqualsIgnoreCaseIsEquivalence(ps[j].name, other, name);
      }
      FirstMatchIsFound(r, other, k);
    } else {
      forall j | 0 <= j < |r| ensures SameName(r[j].name, other) <==> j < |ps| && SameName(ps[j].name, other)
      {
        if j < |ps| && SameName(ps[j].name, name) {
          IgnoreCase.EqualsIgnoreCaseIsEquivalence(ps[j].name, name, other);
          IgnoreCase.EqualsIgnoreCaseIsEquivalence(ps[j].name, other, name);
          IgnoreCase.EqualsIgnoreCaseIsEquivalence(other, ps[j].name, name);
        }
      }
      match FindName(ps, other)
      case None =>
      case Some(k) =>
        FirstMatchIsFound(r, other, k);
    }
  }

  lemma EqualsIgnoreCaseFacts(a: string, b: string)
    ensures SameName(a, a)
    ensures SameName(a, b) <==> SameName(b, a)
  {
    IgnoreCase.EqualsIgnoreCaseIsEquivalence(a, b, a);
    IgnoreCase.EqualsIgnoreCaseIsEquivalence(b, a, b);
  }

  /** The first position whose name matches is the one `FindName` reports. */
  lemma FirstMatchIsFound(ps: seq<Property>, name: string, k: nat)
    requires k < |ps| && SameName(ps[k].name, name)
    requires forall j :: 0 <= j < k ==> !SameName(ps[j].name, name)
    ensures FindName(ps, name) == Some(k)
  {
  }

  /** A loaded project instance whose properties are changed in place. */
  class ProjectInstance {
    var properties: seq<Property>

    /** `new ProjectInstance(path)` once the file has been evaluated to `evaluated`. */
    constructor (evaluated: seq<Property>)
      ensures properties == evaluated
    {
      properties := evaluated;
    }

    method SetProperty(name: string, value: string)
      modifies this
      ensures properties == WithProperty(old(properties), name, value)
    {
      properties := WithProperty(properties, name, value);
    }

    method Build(target: Option<string>, engine: BuildEngine)
      modifies this
      ensures properties == engine(old(properties), target)
    {
      properties := engine(properties, target);
    }
  }

  /** `ProjectCollection.GlobalProjectCollection`: the process-wide global properties. */
  class ProjectCollection {
    var globalProperties: map<string, string>

    constructor ()
      ensures globalProperties == map[]
    {
      globalProperties := map[];
    }

    method SetGlobalProperty(name: string, value: string)
      modifies this
      ensures globalProperties == old(globalProperties)[name := value]
    {
      globalProperties := globalProperties[name := value];
    }
  }
}
