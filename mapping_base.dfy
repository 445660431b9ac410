/** Values, records, errors and the collaborators the mapping core talks to:
    the updater (get/set on a record), the registry (`mapper.map`) and the
    member inspector. */
module MappingBase {

  datatype Option<+T> = None | Some(value: T)

  /** Name of a record type or of a declared field type, compared by equality. */
  type TypeName = string

  /** The runtime values a field can hold. `Null` is Python's `None`. */
  datatype Value =
    | Null
    | Bool(b: bool)
    | Int(i: int)
    | Str(s: string)
    | List(items: seq<Value>)
    | Obj(typeName: TypeName, attrs: map<string, Value>)

  /** A record (a dataclass instance or a plain dictionary) seen through an updater:
      field name to value. */
  type Record = map<string, Value>

  /** The updater strategy a sub-mapping hands to the registry. */
  datatype UpdaterKind = ObjectDictTypeUpdater | ObjectDictDictUpdater | DictDictTypeUpdater

  /** Everything that can be raised while building or applying a map. */
  datatype Error =
    | MissingAttribute(name: string)      // the updater read a field the source does not have
    | NotIterable(name: string)           // a sub-list field that does not hold a list
    | MappingNotFound(toType: TypeName)   // raised by the registry
    | NoMapBackward                       // a one-directional step used as a common step
    | UnboundMembers                      // NaturalCopy.supported_members reads an unbound name
    | NoPatternFor(name: string, fromType: TypeName, toType: TypeName)
    | UncoveredSource(names: set<string>, owner: TypeName)
    | UncoveredDestination(names: set<string>, owner: TypeName)


  datatype Result<+T> = Ok(value: T) | Err(error: Error)

  datatype Outcome = Pass | Fail(error: Error)

  /** `mapper.map(value, type, updater)`: recursive mapping through the registry. */
  type Registry = (Value, TypeName, UpdaterKind) -> Result<Value>

  /** The member inspector: a record type's declared fields with their declared types. */
  type Inspector = TypeName -> map<string, TypeName>

  /** `updater.get_source_attr(source, name)`. */
  function GetAttr(source: Record, name: string): (r: Result<Value>)
    ensures r.Ok? <==> name in source
    ensures r.Ok? ==> r.value == source[name]
    ensures r.Err? ==> r.error == MissingAttribute(name)
  {
    if name in source then Ok(source[name]) else Err(MissingAttribute(name))
  }

  function ToOutcome<T>(r: Result<T>): (o: Outcome)
    ensures o.Pass? <==> r.Ok?
    ensures o.Fail? ==> o.error == r.error
  {
    if r.Ok? then Pass else Fail(r.error)
  }

  /** No name occurs twice in `s`. */
  predicate Distinct(s: seq<string>) {
    forall i, j :: 0 <= i < j < |s| ==> s[i] != s[j]
  }

  /** `s` lists every element of `names` exactly once, in some order: the order in
      which Python iterates a set or the keys of a dictionary. */
  ghost predicate IsEnumeration(s: seq<string>, names: set<string>) {
    Distinct(s) && (forall x :: x in s <==> x in names)
  }

  lemma {:induction false} EnumerationLength(s: seq<string>, names: set<string>)
    requires IsEnumeration(s, names)
    ensures |s| == |names|
  {
    if s != [] {
      var rest := s[1..];
      assert IsEnumeration(rest, names - {s[0]}) by {
        forall x | x in rest ensures x in names - {s[0]} {
          var k :| 0 <= k < |rest| && rest[k] == x;
          assert s[k + 1] == x;
        }
      }
      EnumerationLength(rest, names - {s[0]});
    }
  }

  /** Some enumeration of a finite set (it exists; which one is left open). */
  ghost function SomeEnumeration(names: set<string>): (s: seq<string>)
    ensures IsEnumeration(s, names)
    decreases |names|
  {
    if names == {} then []
    else
      var x :| x in names;
      [x] + SomeEnumeration(names - {x})
  }

  /** `list(members.keys())`: the declared field names in the (unmodelled) order of the
      dictionary the inspector returns. */
  method FieldNames(members: map<string, TypeName>) returns (names: seq<string>)
    ensures IsEnumeration(names, members.Keys)
  {
    names := [];
    var remaining := members.Keys;
    while remaining != {}
      invariant Distinct(names)
      invariant forall x :: x in names <==> x in members.Keys - remaining
      invariant remaining <= members.Keys
      decreases remaining
    {
      var name :| name in remaining;
      assert name !in names;
      names := names + [name];
      remaining := remaining - {name};
    }
  }
}
