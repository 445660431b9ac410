/** What each step's `map_forward` / `map_backward` writes, what it leaves alone, and
    the round trips of the reversible steps. */
module StepLaws {
  import opened MappingBase
  import opened Steps

  /** The destination fields a step's `map_forward` may write. */
  function ForwardTargets(step: Step): set<string> {
    match step
    case Rename(_, t) => {t}
    case BiMorph(_, t, _, _) => {t}
    case NaturalCopy(ms) => set n | n in ms
    case NaturalCopyAllField(_, ms) => set n | n in ms
    case SubListMapping(_, _, t, _, _) => {t}
    case SubMapping(_, _, t, _, _) => {t}
    case Morph(name, _) => {name}
    case NaturalCopyWithFilter(_, _, ms) => set n | n in ms
    case Ignore(_, _) => {}
  }

  /** The fields a reversible step's `map_backward` writes. */
  function BackwardTargets(step: Step): set<string>
    requires HasBackward(step)
  {
    match step
    case Rename(f, _) => {f}
    case BiMorph(f, _, _, _) => {f}
    case NaturalCopy(ms) => set n | n in ms
    case NaturalCopyAllField(_, ms) => set n | n in ms
    case SubListMapping(f, _, _, _, _) => {f}
    case SubMapping(f, _, _, _, _) => {f}
  }

  /** `map_forward` changes no field outside its targets, and (except for the filtered
      copy, which may skip some) writes every target. */
  lemma ForwardFrame(step: Step, source: Record, dest: Record, registry: Registry)
    ensures var r := ApplyForward(step, source, dest, registry);
            r.Ok? ==>
              && (forall k :: k !in ForwardTargets(step) ==> (k in r.value <==> k in dest))
              && (forall k :: k !in ForwardTargets(step) && k in dest ==> r.value[k] == dest[k])
              && (step.NaturalCopyWithFilter? || ForwardTargets(step) <= r.value.Keys)
  {
    match step
    case NaturalCopy(ms) =>
      assert forall k :: k in ForwardTargets(step) <==> k in ms;
    case NaturalCopyAllField(_, ms) =>
      assert forall k :: k in ForwardTargets(step) <==> k in ms;
    case NaturalCopyWithFilter(_, _, ms) =>
      assert forall k :: k in ForwardTargets(step) <==> k in ms;
    case _ =>
  }

  /** `map_backward` changes no field outside its targets and writes every target;
      a step without `map_backward` raises. */
  lemma BackwardFrame(step: Step, source: Record, dest: Record, registry: Registry)
    ensures !HasBackward(step) ==> ApplyBackward(step, source, dest, registry) == Err(NoMapBackward)
    ensures var r := ApplyBackward(step, source, dest, registry);
            HasBackward(step) && r.Ok? ==>
              && (forall k :: k !in BackwardTargets(step) ==> (k in r.value <==> k in dest))
              && (forall k :: k !in BackwardTargets(step) && k in dest ==> r.value[k] == dest[k])
              && BackwardTargets(step) <= r.value.Keys
  {
    match step
    case NaturalCopy(ms) =>
      assert forall k :: k in BackwardTargets(step) <==> k in ms;
    case NaturalCopyAllField(_, ms) =>
      assert forall k :: k in BackwardTargets(step) <==> k in ms;
    case _ =>
  }

  /** Rename forward sets `dest[to] := source[from]` and nothing else; a source without
      `from` raises. */
  lemma RenameForward(fromName: string, toName: string, source: Record, dest: Record, registry: Registry)
    ensures var r := ApplyForward(Rename(fromName, toName), source, dest, registry);
            && (r.Ok? <==> fromName in source)
            && (r.Err? ==> r.error == MissingAttribute(fromName))
            && (r.Ok? ==> r.value[toName] == source[fromName] && r.value.Keys == dest.Keys + {toName} &&
                          forall k :: k in dest && k != toName ==> r.value[k] == dest[k])
  {
  }

  /** Rename backward sets `dest[from] := source[to]` and nothing else. */
  lemma RenameBackward(fromName: string, toName: string, source: Record, dest: Record, registry: Registry)
    ensures var r := ApplyBackward(Rename(fromName, toName), source, dest, registry);
            && (r.Ok? <==> toName in source)
            && (r.Err? ==> r.error == MissingAttribute(toName))
            && (r.Ok? ==> r.value[fromName] == source[toName] && r.value.Keys == dest.Keys + {fromName} &&
                          forall k :: k in dest && k != fromName ==> r.value[k] == dest[k])
  {
  }

  /** Mapping a record forward and the result backward through a Rename restores the
      renamed field, whatever the two destinations held before. */
  lemma RenameRoundTrip(fromName: string, toName: string, source: Record, dest: Record, back: Record, registry: Registry)
    requires fromName in source
    ensures var there := ApplyForward(Rename(fromName, toName), source, dest, registry);
            there.Ok? &&
            var again := ApplyBackward(Rename(fromName, toName), there.value, back, registry);
            again.Ok? && again.value[fromName] == source[fromName]
  {
  }

  /** BiMorph forward writes the forward mapper's image, backward the reverse mapper's. */
  lemma BiMorphDirections(fromName: string, toName: string, forwardMapper: Value -> Value, reverseMapper: Value -> Value,
                          source: Record, dest: Record, registry: Registry)
    ensures var step := BiMorph(fromName, toName, forwardMapper, reverseMapper);
            var r := ApplyForward(step, source, dest, registry);
            && (r.Ok? <==> fromName in source)
            && (r.Ok? ==> r.value == dest[toName := forwardMapper(source[fromName])])
    ensures var step := BiMorph(fromName, toName, forwardMapper, reverseMapper);
            var r := ApplyBackward(step, source, dest, registry);
            && (r.Ok? <==> toName in source)
            && (r.Ok? ==> r.value == dest[fromName := reverseMapper(source[toName])])
  {
  }

  /** When the reverse mapper undoes the forward mapper on the field's value, BiMorph
      forward then backward restores the field. */
  lemma BiMorphRoundTrip(fromName: string, toName: string, forwardMapper: Value -> Value, reverseMapper: Value -> Value,
                         source: Record, dest: Record, back: Record, registry: Registry)
    requires fromName in source
    requires reverseMapper(forwardMapper(source[fromName])) == source[fromName]
    ensures var step := BiMorph(fromName, toName, forwardMapper, reverseMapper);
            var there := ApplyForward(step, source, dest, registry);
            there.Ok? &&
            var again := ApplyBackward(step, there.value, back, registry);
            again.Ok? && again.value[fromName] == source[fromName]
  {
  }

  /** NaturalCopy's `map_backward` is its `map_forward`; after it every listed field
      holds the source's value and every other field is unchanged. */
  lemma NaturalCopyEffect(members: seq<string>, source: Record, dest: Record, registry: Registry)
    ensures ApplyBackward(NaturalCopy(members), source, dest, registry) == ApplyForward(NaturalCopy(members), source, dest, registry)
    ensures var r := ApplyForward(NaturalCopy(members), source, dest, registry);
            && (r.Ok? <==> forall n :: n in members ==> n in source)
            && (r.Ok? ==> forall n :: n in members ==> r.value[n] == source[n])
            && (r.Ok? ==> forall k :: k !in members ==> (k in r.value <==> k in dest) && (k in dest ==> r.value[k] == dest[k]))
  {
  }

  /** NaturalCopy forward then backward restores every listed field. */
  lemma NaturalCopyRoundTrip(members: seq<string>, source: Record, dest: Record, back: Record, registry: Registry)
    requires forall n :: n in members ==> n in source
    ensures var there := ApplyForward(NaturalCopy(members), source, dest, registry);
            there.Ok? &&
            var again := ApplyBackward(NaturalCopy(members), there.value, back, registry);
            again.Ok? && forall n :: n in members ==> again.value[n] == source[n]
  {
  }

  /** NaturalCopyWithFilter leaves a field alone when the filter rejects the source's
      value and copies it otherwise; it covers its members self-paired and has no
      `map_backward`. */
  lemma NaturalCopyWithFilterEffect(dataclassType: TypeName, shouldIgnore: Value -> bool, members: seq<string>,
                                    source: Record, dest: Record, registry: Registry)
    ensures var step := NaturalCopyWithFilter(dataclassType, shouldIgnore, members);
            var r := ApplyForward(step, source, dest, registry);
            && (r.Ok? <==> forall n :: n in members ==> n in source)
            && (r.Ok? ==> forall n :: n in members && !shouldIgnore(source[n]) ==> r.value[n] == source[n])
            && (r.Ok? ==> forall n :: n in members && shouldIgnore(source[n]) ==>
                            (n in r.value <==> n in dest) && (n in dest ==> r.value[n] == dest[n]))
            && (r.Ok? ==> forall k :: k !in members ==> (k in r.value <==> k in dest) && (k in dest ==> r.value[k] == dest[k]))
    ensures var step := NaturalCopyWithFilter(dataclassType, shouldIgnore, members);
            && SupportedMembers(step) == Ok(SelfPaired(members))
            && !HasBackward(step)
  {
  }

  /** The two inspector-driven copies do not depend on the order of their field names:
      two enumerations of one field set succeed together and then build the same record.
      Where they fail, both raise `MissingAttribute`, possibly for different fields. */
  lemma FieldOrderIrrelevant(step: Step, members: seq<string>, source: Record, dest: Record, registry: Registry)
    requires step.NaturalCopyAllField? || step.NaturalCopyWithFilter?
    requires forall n :: n in members <==> n in step.members
    ensures var other := step.(members := members);
            var r1, r2 := ApplyForward(step, source, dest, registry), ApplyForward(other, source, dest, registry);
            && (r1.Ok? <==> r2.Ok?)
            && (r1.Ok? ==> r1 == r2)
            && (r1.Err? ==> r1.error.MissingAttribute? && r2.error.MissingAttribute?)
    ensures var other := step.(members := members);
            ApplyBackward(step, source, dest, registry).Ok? <==> ApplyBackward(other, source, dest, registry).Ok?
    ensures var other := step.(members := members);
            ApplyBackward(step, source, dest, registry).Ok? ==>
              ApplyBackward(step, source, dest, registry) == ApplyBackward(other, source, dest, registry)
  {
    var other := step.(members := members);
    var r1, r2 := ApplyForward(step, source, dest, registry), ApplyForward(other, source, dest, registry);
    if r1.Ok? {
      var m1, m2 := r1.value, r2.value;
      assert m1.Keys == m2.Keys by {
        forall k ensures k in m1 <==> k in m2 {
          assert k in members <==> k in step.members;
        }
      }
      forall k | k in m1 ensures m1[k] == m2[k] {
        assert k in members <==> k in step.members;
      }
      assert m1 == m2;
    }
  }

  /** A sub-object that is `None` is written as `None` without consulting the registry:
      any two registries give the same result. */
  lemma SubMappingNull(fromName: string, sourceType: TypeName, toName: string, destinationType: TypeName,
                       updater: UpdaterKind, source: Record, dest: Record, registry: Registry, other: Registry)
    requires fromName in source && source[fromName] == Null
    ensures var step := SubMapping(fromName, sourceType, toName, destinationType, updater);
            ApplyForward(step, source, dest, registry) == ApplyForward(step, source, dest, other) == Ok(dest[toName := Null])
  {
  }

  /** Any other sub-object is written as the registry maps it to the destination type,
      with the step's updater; a registry failure propagates. */
  lemma SubMappingForward(fromName: string, sourceType: TypeName, toName: string, destinationType: TypeName,
                          updater: UpdaterKind, source: Record, dest: Record, registry: Registry)
    requires fromName in source && source[fromName] != Null
    ensures var step := SubMapping(fromName, sourceType, toName, destinationType, updater);
            var sub := registry(source[fromName], destinationType, updater);
            var r := ApplyForward(step, source, dest, registry);
            && (r.Ok? <==> sub.Ok?)
            && (r.Ok? ==> r.value == dest[toName := sub.value])
            && (r.Err? ==> r.error == sub.error)
  {
  }

  /** SubMapping backward mirrors forward with the roles of the two fields and the two
      types swapped. */
  lemma SubMappingBackward(fromName: string, sourceType: TypeName, toName: string, destinationType: TypeName,
                           updater: UpdaterKind, source: Record, dest: Record, registry: Registry)
    ensures ApplyBackward(SubMapping(fromName, sourceType, toName, destinationType, updater), source, dest, registry) ==
            ApplyForward(SubMapping(toName, destinationType, fromName, sourceType, updater), source, dest, registry)
  {
  }

  /** SubListMapping writes a list as long as the source list whose element `i` is the
      registry's mapping of source element `i`; one failing element fails the step. */
  lemma SubListMappingForward(fromName: string, sourceType: TypeName, toName: string, destinationType: TypeName,
                              updater: UpdaterKind, items: seq<Value>, source: Record, dest: Record, registry: Registry)
    requires fromName in source && source[fromName] == List(items)
    ensures var step := SubListMapping(fromName, sourceType, toName, destinationType, updater);
            var r := ApplyForward(step, source, dest, registry);
            && (r.Ok? <==> forall i :: 0 <= i < |items| ==> registry(items[i], destinationType, updater).Ok?)
            && (r.Ok? ==> r.value.Keys == dest.Keys + {toName} && r.value[toName].List? &&
                          |r.value[toName].items| == |items| &&
                          (forall i :: 0 <= i < |items| ==>
                             r.value[toName].items[i] == registry(items[i], destinationType, updater).value) &&
                          forall k :: k in dest && k != toName ==> r.value[k] == dest[k])
  {
  }

  /** SubListMapping backward mirrors forward with the roles swapped. */
  lemma SubListMappingBackward(fromName: string, sourceType: TypeName, toName: string, destinationType: TypeName,
                               updater: UpdaterKind, source: Record, dest: Record, registry: Registry)
    ensures ApplyBackward(SubListMapping(fromName, sourceType, toName, destinationType, updater), source, dest, registry) ==
            ApplyForward(SubListMapping(toName, destinationType, fromName, sourceType, updater), source, dest, registry)
  {
  }

  /** A sub-list field that does not hold a list raises. */
  lemma SubListMappingNotIterable(fromName: string, sourceType: TypeName, toName: string, destinationType: TypeName,
                                  updater: UpdaterKind, source: Record, dest: Record, registry: Registry)
    requires fromName in source && !source[fromName].List?
    ensures ApplyForward(SubListMapping(fromName, sourceType, toName, destinationType, updater), source, dest, registry) ==
            Err(NotIterable(fromName))
  {
  }

  /** Morph covers nothing and writes the creator's value to its one field. */
  lemma MorphEffect(memberName: string, creator: Record -> Value, source: Record, dest: Record, registry: Registry)
    ensures SupportedMembers(Morph(memberName, creator)) == Ok([])
    ensures var r := ApplyForward(Morph(memberName, creator), source, dest, registry);
            r.Ok? && r.value.Keys == dest.Keys + {memberName} && r.value[memberName] == creator(source) &&
            forall k :: k in dest && k != memberName ==> r.value[k] == dest[k]
  {
  }

  /** Ignore's `map_forward` changes nothing. */
  lemma IgnoreEffect(fromName: string, toName: string, source: Record, dest: Record, registry: Registry)
    ensures ApplyForward(Ignore(fromName, toName), source, dest, registry) == Ok(dest)
    ensures SupportedMembers(Ignore(fromName, toName)) == Ok([(fromName, toName)])
  {
  }
}
