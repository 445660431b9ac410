/** The mapping steps of partial_mapper.py: what each step covers
    (`supported_members`) and what its `map_forward` / `map_backward` do to the
    destination record, as functions of the source and of the old destination. */
module Steps {
  import opened MappingBase

  /** A (source field, destination field) pair of `supported_members`. */
  type MemberPair = (string, string)

  /** The closed family of step classes. The members of the two reflective steps are
      the inspected field names, fixed when the step is constructed. */
  datatype Step =
    | Rename(fromName: string, toName: string)
    | BiMorph(fromName: string, toName: string, forwardMapper: Value -> Value, reverseMapper: Value -> Value)
    | NaturalCopy(members: seq<string>)
    | NaturalCopyAllField(dataclassType: TypeName, members: seq<string>)
    | SubListMapping(fromName: string, sourceType: TypeName, toName: string, destinationType: TypeName, updaterType: UpdaterKind)
    | SubMapping(fromName: string, sourceType: TypeName, toName: string, destinationType: TypeName, updaterType: UpdaterKind)
    | Morph(memberName: string, customValueCreator: Record -> Value)
    | NaturalCopyWithFilter(dataclassType: TypeName, shouldIgnore: Value -> bool, members: seq<string>)
    | Ignore(fromName: string, toName: string)

  /** The name pairs with the same name on both sides. */
  function SelfPaired(names: seq<string>): (r: seq<MemberPair>)
    ensures |r| == |names|
    ensures forall i :: 0 <= i < |names| ==> r[i] == (names[i], names[i])
  {
    seq(|names|, i requires 0 <= i < |names| => (names[i], names[i]))
  }

  /** `step.supported_members`. NaturalCopy's property reads the unbound name
      `members` instead of `self.members`, so for NaturalCopy and its subclass
      NaturalCopyAllField it raises; every other step returns its pairs. */
  function SupportedMembers(step: Step): (r: Result<seq<MemberPair>>)
    ensures r.Err? <==> step.NaturalCopy? || step.NaturalCopyAllField?
    ensures r.Err? ==> r.error == UnboundMembers
    ensures step.Morph? ==> r == Ok([])
    ensures step.NaturalCopyWithFilter? ==> r == Ok(SelfPaired(step.members))
    ensures step.Rename? || step.BiMorph? || step.SubListMapping? || step.SubMapping? || step.Ignore? ==>
              r == Ok([(step.fromName, step.toName)])
  {
    match step
    case Rename(f, t) => Ok([(f, t)])
    case BiMorph(f, t, _, _) => Ok([(f, t)])
    case NaturalCopy(_) => Err(UnboundMembers)
    case NaturalCopyAllField(_, _) => Err(UnboundMembers)
    case SubListMapping(f, _, t, _, _) => Ok([(f, t)])
    case SubMapping(f, _, t, _, _) => Ok([(f, t)])
    case Morph(_, _) => Ok([])
    case NaturalCopyWithFilter(_, _, ms) => Ok(SelfPaired(ms))
    case Ignore(f, t) => Ok([(f, t)])
  }

  /** The step classes derived from IReverseMappingStep, which define `map_backward`. */
  predicate HasBackward(step: Step) {
    step.Rename? || step.BiMorph? || step.NaturalCopy? || step.NaturalCopyAllField? ||
    step.SubListMapping? || step.SubMapping?
  }

  /** The loop of NaturalCopy.map_forward: copy each listed member, in order. */
  function CopyMembers(members: seq<string>, source: Record, dest: Record): (r: Result<Record>)
    ensures r.Ok? <==> forall n :: n in members ==> n in source
    ensures r.Ok? ==> forall k :: k in r.value <==> k in dest || k in members
    ensures r.Ok? ==> forall k :: k in r.value ==> r.value[k] == if k in members then source[k] else dest[k]
    ensures r.Err? ==> exists i :: 0 <= i < |members| && members[i] !in source &&
                                   (forall j :: 0 <= j < i ==> members[j] in source) &&
                                   r.error == MissingAttribute(members[i])
    decreases |members|
  {
    if members == [] then Ok(dest)
    else
      match GetAttr(source, members[0])
      case Err(e) => Err(e)
      case Ok(v) =>
        var r := CopyMembers(members[1..], source, dest[members[0] := v]);
        assert forall n :: n in members <==> n == members[0] || n in members[1..];
        if r.Err? then
          var i :| 0 <= i < |members[1..]| && members[1..][i] !in source &&
                   (forall j :: 0 <= j < i ==> members[1..][j] in source) &&
                   r.error == MissingAttribute(members[1..][i]);
          assert members[i + 1] == members[1..][i];
          assert forall j :: 0 < j < i + 1 ==> members[j] == members[1..][j - 1];
          r
        else r
  }

  /** The loop of NaturalCopyWithFilter.map_forward: copy each listed member unless the
      filter rejects its value. */
  function FilterCopy(members: seq<string>, shouldIgnore: Value -> bool, source: Record, dest: Record): (r: Result<Record>)
    ensures r.Ok? <==> forall n :: n in members ==> n in source
    ensures r.Ok? ==> forall k :: k in r.value <==> k in dest || (k in members && !shouldIgnore(source[k]))
    ensures r.Ok? ==> forall k :: k in r.value ==>
                        r.value[k] == if k in members && !shouldIgnore(source[k]) then source[k] else dest[k]
    ensures r.Err? ==> exists i :: 0 <= i < |members| && members[i] !in source &&
                                   (forall j :: 0 <= j < i ==> members[j] in source) &&
                                   r.error == MissingAttribute(members[i])
    decreases |members|
  {
    if members == [] then Ok(dest)
    else
      match GetAttr(source, members[0])
      case Err(e) => Err(e)
      case Ok(v) =>
        var r := FilterCopy(members[1..], shouldIgnore, source, if shouldIgnore(v) then dest else dest[members[0] := v]);
        assert forall n :: n in members <==> n == members[0] || n in members[1..];
        if r.Err? then
          var i :| 0 <= i < |members[1..]| && members[1..][i] !in source &&
                   (forall j :: 0 <= j < i ==> members[1..][j] in source) &&
                   r.error == MissingAttribute(members[1..][i]);
          assert members[i + 1] == members[1..][i];
          assert forall j :: 0 < j < i + 1 ==> members[j] == members[1..][j - 1];
          r
        else r
  }

  /** The loop of SubListMapping: map every element through the registry, in order;
      the first element the registry fails on raises. */
  function MapEach(values: seq<Value>, target: TypeName, updater: UpdaterKind, registry: Registry): (r: Result<seq<Value>>)
    ensures r.Ok? <==> forall i :: 0 <= i < |values| ==> registry(values[i], target, updater).Ok?
    ensures r.Ok? ==> |r.value| == |values| &&
                      forall i :: 0 <= i < |values| ==> r.value[i] == registry(values[i], target, updater).value
    ensures r.Err? ==> exists i :: 0 <= i < |values| &&
                                   (forall j :: 0 <= j < i ==> registry(values[j], target, updater).Ok?) &&
                                   registry(values[i], target, updater).Err? &&
                                   r.error == registry(values[i], target, updater).error
    decreases |values|
  {
    if values == [] then Ok([])
    else
      match registry(values[0], target, updater)
      case Err(e) => Err(e)
      case Ok(head) =>
        var rest := MapEach(values[1..], target, updater, registry);
        if rest.Err? then
          var i :| 0 <= i < |values[1..]| &&
                   (forall j :: 0 <= j < i ==> registry(values[1..][j], target, updater).Ok?) &&
                   registry(values[1..][i], target, updater).Err? &&
                   rest.error == registry(values[1..][i], target, updater).error;
          assert forall j :: 0 <= j < i + 1 ==> registry(values[j], target, updater).Ok? by {
            forall j | 0 < j < i + 1 ensures registry(values[j], target, updater).Ok? {
              assert values[j] == values[1..][j - 1];
            }
          }
          Err(rest.error)
        else
          assert forall i :: 0 < i < |values| ==> values[i] == values[1..][i - 1];
          Ok([head] + rest.value)
  }

  /** One direction of a sub-list mapping: read the list at `readName`, map each
      element to `target`, write the new list at `writeName`. */
  function MapListField(readName: string, writeName: string, target: TypeName, updater: UpdaterKind,
                        source: Record, dest: Record, registry: Registry): Result<Record>
  {
    match GetAttr(source, readName)
    case Err(e) => Err(e)
    case Ok(vs) =>
      if !vs.List? then Err(NotIterable(readName))
      else
        match MapEach(vs.items, target, updater, registry)
        case Err(e) => Err(e)
        case Ok(mapped) => Ok(dest[writeName := List(mapped)])
  }

  /** One direction of a sub-object mapping: `None` stays `None` without consulting the
      registry; anything else is mapped to `target`. */
  function MapObjectField(readName: string, writeName: string, target: TypeName, updater: UpdaterKind,
                          source: Record, dest: Record, registry: Registry): Result<Record>
  {
    match GetAttr(source, readName)
    case Err(e) => Err(e)
    case Ok(v) =>
      if v.Null? then Ok(dest[writeName := Null])
      else
        match registry(v, target, updater)
        case Err(e) => Err(e)
        case Ok(mapped) => Ok(dest[writeName := mapped])
  }

  /** `step.map_forward(source, destination, updater, mapper)`: the destination record
      afterwards. */
  function ApplyForward(step: Step, source: Record, dest: Record, registry: Registry): Result<Record> {
    match step
    case Rename(f, t) =>
      (match GetAttr(source, f) case Err(e) => Err(e) case Ok(v) => Ok(dest[t := v]))
    case BiMorph(f, t, fw, _) =>
      (match GetAttr(source, f) case Err(e) => Err(e) case Ok(v) => Ok(dest[t := fw(v)]))
    case NaturalCopy(ms) => CopyMembers(ms, source, dest)
    case NaturalCopyAllField(_, ms) => CopyMembers(ms, source, dest)
    case SubListMapping(f, _, t, dt, u) => MapListField(f, t, dt, u, source, dest, registry)
    case SubMapping(f, _, t, dt, u) => MapObjectField(f, t, dt, u, source, dest, registry)
    case Morph(name, creator) => Ok(dest[name := creator(source)])
    case NaturalCopyWithFilter(_, ignore, ms) => FilterCopy(ms, ignore, source, dest)
    case Ignore(_, _) => Ok(dest)
  }

  /** `step.map_backward(...)`: the reverse direction, reading the destination-side
      field of `source` and writing the source-side field. One-directional steps have
      no `map_backward`. */
  function ApplyBackward(step: Step, source: Record, dest: Record, registry: Registry): Result<Record> {
    match step
    case Rename(f, t) =>
      (match GetAttr(source, t) case Err(e) => Err(e) case Ok(v) => Ok(dest[f := v]))
    case BiMorph(f, t, _, rv) =>
      (match GetAttr(source, t) case Err(e) => Err(e) case Ok(v) => Ok(dest[f := rv(v)]))
    case NaturalCopy(_) => ApplyForward(step, source, dest, registry)
    case NaturalCopyAllField(_, _) => ApplyForward(step, source, dest, registry)
    case SubListMapping(f, st, t, _, u) => MapListField(t, f, st, u, source, dest, registry)
    case SubMapping(f, st, t, _, u) => MapObjectField(t, f, st, u, source, dest, registry)
    case Morph(_, _) => Err(NoMapBackward)
    case NaturalCopyWithFilter(_, _, _) => Err(NoMapBackward)
    case Ignore(_, _) => Err(NoMapBackward)
  }

  datatype Direction = Forward | Backward

  /** An entry of an instruction list: a step's bound `map_forward` or `map_backward`. */
  datatype Instruction = Instruction(step: Step, direction: Direction)

  function Apply(instr: Instruction, source: Record, dest: Record, registry: Registry): Result<Record> {
    match instr.direction
    case Forward => ApplyForward(instr.step, source, dest, registry)
    case Backward => ApplyBackward(instr.step, source, dest, registry)
  }

  /** Applying an instruction list in order to one destination, as the registry does;
      the first instruction that raises stops the run. */
  function Run(instrs: seq<Instruction>, source: Record, dest: Record, registry: Registry): Result<Record>
    decreases |instrs|
  {
    if instrs == [] then Ok(dest)
    else
      match Apply(instrs[0], source, dest, registry)
      case Err(e) => Err(e)
      case Ok(d) => Run(instrs[1..], source, d, registry)
  }

  /** `NaturalCopyAllField(dataclass_type)`: copies every inspected field. */
  method NewNaturalCopyAllField(dataclassType: TypeName, inspect: Inspector) returns (step: Step)
    ensures step.NaturalCopyAllField? && step.dataclassType == dataclassType
    ensures IsEnumeration(step.members, inspect(dataclassType).Keys)
  {
    var members := FieldNames(inspect(dataclassType));
    step := NaturalCopyAllField(dataclassType, members);
  }

  /** `NaturalCopyWithFilter(dataclass_type, should_ignore)`. */
  method NewNaturalCopyWithFilter(dataclassType: TypeName, shouldIgnore: Value -> bool, inspect: Inspector)
    returns (step: Step)
    ensures step.NaturalCopyWithFilter? && step.dataclassType == dataclassType && step.shouldIgnore == shouldIgnore
    ensures IsEnumeration(step.members, inspect(dataclassType).Keys)
  {
    var members := FieldNames(inspect(dataclassType));
    step := NaturalCopyWithFilter(dataclassType, shouldIgnore, members);
  }
}
