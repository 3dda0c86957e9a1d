/**
 * The backend registry: factories stored under lower-cased names. The
 * module-level dictionary becomes the `factories` field of a registry
 * object.
 */
module BackendRegistry {
  import opened Wrappers
  import opened Strings
  import opened JsonValue
  import opened Sorting

  /** A backend factory; what it builds is left to the factory. */
  datatype Factory = Factory(id: string)

  /** The backend `factory(**kwargs)` returns: the factory and the keyword arguments it was given. */
  datatype Built = Built(factory: Factory, kwargs: map<string, Json>)

  /**
   * The module-level `_BACKENDS` dictionary. `names` holds its keys in
   * insertion order, as a Python dictionary keeps them.
   */
  class Backends {
    var factories: map<string, Factory>
    var names: seq<string>

    ghost predicate Valid()
      reads this
    {
      && (forall n :: n in names <==> n in factories)
      && forall i, j :: 0 <= i < j < |names| ==> names[i] != names[j]
    }

    constructor ()
      ensures Valid() && factories == map[]
    {
      factories := map[];
      names := [];
    }

    /** `register_backend`: a name already present in any letter case is an error and changes nothing. */
    method RegisterBackend(name: string, factory: Factory) returns (r: Result<()>)
      requires Valid()
      modifies this
      ensures Valid()
      ensures Lower(name) in old(factories) ==> r.Err? && factories == old(factories)
      ensures Lower(name) !in old(factories) ==> r.Ok? && factories == old(factories)[Lower(name) := factory]
    {
      var key := Lower(name);
      if key in factories {
        return Err("Backend '" + name + "' is already registered");
      }
      factories := factories[key := factory];
      names := names + [key];
      return Ok(());
    }

    /** `list_backends`: the registered keys in sorted order. */
    function ListBackends(): (r: seq<string>)
      requires Valid()
      reads this
      ensures forall i, j :: 0 <= i < j < |r| ==> StrLe(r[i], r[j])
      ensures forall n :: n in r <==> n in factories
      ensures |r| == |factories|
    {
      var r := SortStrings(names);
      assert forall n :: n in r <==> n in multiset(names);
      NoDupCard(names, factories.Keys);
      r
    }

    /** `get_backend`: a case-insensitive lookup; the keyword arguments reach the factory unchanged. */
    function GetBackend(name: string, kwargs: map<string, Json>): (r: Result<Built>)
      requires Valid()
      reads this
      ensures Lower(name) in factories ==> r == Ok(Built(factories[Lower(name)], kwargs))
      ensures Lower(name) !in factories ==> r.Err?
    {
      var key := Lower(name);
      if key in factories then Ok(Built(factories[key], kwargs))
      else Err("Unknown backend '" + name + "'. Available backends: " + Join(ListBackends(), ", "))
    }
  }

  /** A duplicate-free sequence has as many elements as the set of its elements. */
  lemma {:induction false} NoDupCard(s: seq<string>, keys: set<string>)
    requires forall n :: n in s <==> n in keys
    requires forall i, j :: 0 <= i < j < |s| ==> s[i] != s[j]
    ensures |keys| == |s|
  {
    if |s| > 0 {
      var last := s[|s| - 1];
      var t := s[..|s| - 1];
      assert forall i, j :: 0 <= i < j < |t| ==> t[i] != t[j];
      forall n ensures n in t <==> n in keys - {last} {
        if n in t {
          var i :| 0 <= i < |t| && t[i] == n;
        }
      }
      NoDupCard(t, keys - {last});
    }
  }
}
