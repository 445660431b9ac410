/** The steps' `map_forward` / `map_backward` as the source runs them: statements that
    update the destination in place through `updater.set_destination_attr`, each
    proved to leave the destination as the corresponding function of Steps says. */
module StepExecution {
  import opened MappingBase
  import opened Steps

  /** The loop of SubListMapping that appends each mapped element to `mapped_values`. */
  method MapElements(values: seq<Value>, target: TypeName, updater: UpdaterKind, registry: Registry)
    returns (r: Result<seq<Value>>)
    ensures r == MapEach(values, target, updater, registry)
  {
    var mapped: seq<Value> := [];
    var i := 0;
    while i < |values|
      invariant 0 <= i <= |values|
      invariant |mapped| == i
      invariant forall k :: 0 <= k < i ==>
                  registry(values[k], target, updater).Ok? && mapped[k] == registry(values[k], target, updater).value
    {
      var sub := registry(values[i], target, updater);
      if sub.Err? {
        return Err(sub.error);
      }
      mapped := mapped + [sub.value];
      i := i + 1;
    }
    assert mapped == MapEach(values, target, updater, registry).value;
    return Ok(mapped);
  }

  /** A destination record under construction. */
  class Destination {
    var fields: Record

    constructor (initial: Record)
      ensures fields == initial
    {
      fields := initial;
    }

    /** `updater.set_destination_attr(destination, name, value)`. */
    method SetDestinationAttr(name: string, value: Value)
      modifies this
      ensures fields == old(fields)[name := value]
    {
      fields := fields[name := value];
    }

    /** The member loop of NaturalCopy.map_forward. */
    method CopyEach(members: seq<string>, source: Record) returns (outcome: Outcome)
      modifies this
      ensures outcome == ToOutcome(CopyMembers(members, source, old(fields)))
      ensures outcome.Pass? ==> fields == CopyMembers(members, source, old(fields)).value
    {
      var i := 0;
      while i < |members|
        invariant 0 <= i <= |members|
        invariant CopyMembers(members[i..], source, fields) == CopyMembers(members, source, old(fields))
      {
        assert members[i..][1..] == members[i + 1..];
        var value := GetAttr(source, members[i]);
        if value.Err? {
          return Fail(value.error);
        }
        SetDestinationAttr(members[i], value.value);
        i := i + 1;
      }
      return Pass;
    }

    /** The member loop of NaturalCopyWithFilter.map_forward: `continue` past a value
        the filter rejects. */
    method CopyEachUnlessIgnored(members: seq<string>, shouldIgnore: Value -> bool, source: Record)
      returns (outcome: Outcome)
      modifies this
      ensures outcome == ToOutcome(FilterCopy(members, shouldIgnore, source, old(fields)))
      ensures outcome.Pass? ==> fields == FilterCopy(members, shouldIgnore, source, old(fields)).value
    {
      var i := 0;
      while i < |members|
        invariant 0 <= i <= |members|
        invariant FilterCopy(members[i..], shouldIgnore, source, fields) ==
                  FilterCopy(members, shouldIgnore, source, old(fields))
      {
        assert members[i..][1..] == members[i + 1..];
        var value := GetAttr(source, members[i]);
        if value.Err? {
          return Fail(value.error);
        }
        i := i + 1;
        if shouldIgnore(value.value) {
          continue;
        }
        SetDestinationAttr(members[i - 1], value.value);
      }
      return Pass;
    }

    /** One direction of SubListMapping. */
    method MapList(readName: string, writeName: string, target: TypeName, updater: UpdaterKind,
                   source: Record, registry: Registry) returns (outcome: Outcome)
      modifies this
      ensures outcome == ToOutcome(MapListField(readName, writeName, target, updater, source, old(fields), registry))
      ensures outcome.Pass? ==> fields == MapListField(readName, writeName, target, updater, source, old(fields), registry).value
    {
      var sourceValues := GetAttr(source, readName);
      if sourceValues.Err? {
        return Fail(sourceValues.error);
      }
      if !sourceValues.value.List? {
        return Fail(NotIterable(readName));
      }
      var mappedValues := MapElements(sourceValues.value.items, target, updater, registry);
      if mappedValues.Err? {
        return Fail(mappedValues.error);
      }
      SetDestinationAttr(writeName, List(mappedValues.value));
      return Pass;
    }

    /** One direction of SubMapping. */
    method MapObject(readName: string, writeName: string, target: TypeName, updater: UpdaterKind,
                     source: Record, registry: Registry) returns (outcome: Outcome)
      modifies this
      ensures outcome == ToOutcome(MapObjectField(readName, writeName, target, updater, source, old(fields), registry))
      ensures outcome.Pass? ==> fields == MapObjectField(readName, writeName, target, updater, source, old(fields), registry).value
    {
      var subObject := GetAttr(source, readName);
      if subObject.Err? {
        return Fail(subObject.error);
      }
      var mappedSubObject := Null;
      if !subObject.value.Null? {
        var sub := registry(subObject.value, target, updater);
        if sub.Err? {
          return Fail(sub.error);
        }
        mappedSubObject := sub.value;
      }
      SetDestinationAttr(writeName, mappedSubObject);
      return Pass;
    }

    /** `step.map_forward(source, self, updater, mapper)`. */
    method MapForward(step: Step, source: Record, registry: Registry) returns (outcome: Outcome)
      modifies this
      ensures outcome == ToOutcome(ApplyForward(step, source, old(fields), registry))
      ensures outcome.Pass? ==> fields == ApplyForward(step, source, old(fields), registry).value
    {
      match step {
        case Rename(f, t) =>
          var value := GetAttr(source, f);
          if value.Err? {
            return Fail(value.error);
          }
          SetDestinationAttr(t, value.value);
          outcome := Pass;
        case BiMorph(f, t, forwardMapper, _) =>
          var value := GetAttr(source, f);
          if value.Err? {
            return Fail(value.error);
          }
          SetDestinationAttr(t, forwardMapper(value.value));
          outcome := Pass;
        case NaturalCopy(members) =>
          outcome := CopyEach(members, source);
        case NaturalCopyAllField(_, members) =>
          outcome := CopyEach(members, source);
        case SubListMapping(f, _, t, destinationType, updater) =>
          outcome := MapList(f, t, destinationType, updater, source, registry);
        case SubMapping(f, _, t, destinationType, updater) =>
          outcome := MapObject(f, t, destinationType, updater, source, registry);
        case Morph(name, creator) =>
          SetDestinationAttr(name, creator(source));
          outcome := Pass;
        case NaturalCopyWithFilter(_, shouldIgnore, members) =>
          outcome := CopyEachUnlessIgnored(members, shouldIgnore, source);
        case Ignore(_, _) =>
          outcome := Pass;
      }
    }

    /** `step.map_backward(source, self, updater, mapper)`; the one-directional steps
        have none. */
    method MapBackward(step: Step, source: Record, registry: Registry) returns (outcome: Outcome)
      modifies this
      ensures outcome == ToOutcome(ApplyBackward(step, source, old(fields), registry))
      ensures outcome.Pass? ==> fields == ApplyBackward(step, source, old(fields), registry).value
    {
      match step {
        case Rename(f, t) =>
          var value := GetAttr(source, t);
          if value.Err? {
            return Fail(value.error);
          }
          SetDestinationAttr(f, value.value);
          outcome := Pass;
        case BiMorph(f, t, _, reverseMapper) =>
          var value := GetAttr(source, t);
          if value.Err? {
            return Fail(value.error);
          }
          SetDestinationAttr(f, reverseMapper(value.value));
          outcome := Pass;
        case NaturalCopy(_) =>
          outcome := MapForward(step, source, registry);
        case NaturalCopyAllField(_, _) =>
          outcome := MapForward(step, source, registry);
        case SubListMapping(f, sourceType, t, _, updater) =>
          outcome := MapList(t, f, sourceType, updater, source, registry);
        case SubMapping(f, sourceType, t, _, updater) =>
          outcome := MapObject(t, f, sourceType, updater, source, registry);
        case Morph(_, _) =>
          outcome := Fail(NoMapBackward);
        case NaturalCopyWithFilter(_, _, _) =>
          outcome := Fail(NoMapBackward);
        case Ignore(_, _) =>
          outcome := Fail(NoMapBackward);
      }
    }
  }
}
