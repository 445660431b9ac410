# automapping core in Dafny

This project models the mapping-step engine and the completeness-checking builder of
the `automapping` Python library. Two files make up that core:

- `automapping/partial_mapper.py`: `PartialMap` and its nine step classes.
- `automapping/automapper.py`: `AutoMap` and its type-pattern rules.

A mapping is declared as an ordered list of steps. Each step knows:

- which (source field, destination field) pairs it covers (`supported_members`);
- how to write the destination from the source (`map_forward`);
- for the reversible steps, how to write back the other way (`map_backward`).

`PartialMap.build` compiles the steps into two directed instruction lists.
`AutoMap.build` adds three things:

1. It infers same-name copies for the fields both types declare, using its type
   rules.
2. It checks that every other field is covered by some user step.
3. It delegates the compilation to `PartialMap`.

## Shape of the model

| file | module | contents |
|---|---|---|
| `mapping_base.dfy` | `MappingBase` | values, records, errors; the registry, updater and inspector as parameters |
| `steps.dfy` | `Steps` | the `Step` datatype; `supported_members`; `map_forward` and `map_backward` as functions of the source and the old destination; running an instruction list |
| `destination.dfy` | `StepExecution` | the destination as a `Destination` class whose methods update its field map in place, as the source does through `set_destination_attr`; each method is proved to leave the state the matching `Steps` function gives |
| `partial_map.dfy` | `PartialMapping` | `PartialMap.build` as loops building the two lists, proved equal to `Compile` |
| `automap.dfy` | `AutoMapping` | the rules, `_build_common_steps`, `_raise_exception_if_some_attributes_are_forgotten` and `AutoMap.build`: the loops of `_build_common_steps` and of the coverage check, proved against specification functions, and `build`, proved equal to `AutoBuild` |
| `step_laws.dfy` | `StepLaws` | per-step frame conditions, round trips and effects |
| `automap_laws.dfy` | `AutoMapLaws` | when `AutoMap.build` succeeds, what it returns, which error it reports first, and two independence results: from the `strict` flag and from set iteration order |
| `scenarios.dfy` | `Scenarios` | the two round trips of `tests_units/mapper_basic_test.py` and three error cases |

### Modelling choices

- **Records.** A record is `map<string, Value>`. The updater reads a key of the
  source (an absent key raises `MissingAttribute`) and writes a key of the destination.
- **Registry.** `mapper.map(value, type, updater)` is a function parameter
  `Registry` that may fail.
- **Inspector.** The member inspector is a function from a type name to
  `map<string, TypeName>`.
- **Errors.** Every exception becomes an `Err` value. The model records which error
  it is, with the fields and type involved, not the message text.
- **Iteration order.** Two orders are left open.
  - The order in which Python iterates the common-name `set` (`automapper.py`
    line 98) is not specified.
  - Dict keys iterate in insertion order, but the inspector is modelled as a `map`,
    which has no insertion order. So `FieldNames` takes an arbitrary enumeration of
    the inspected field names.
  - For NaturalCopyAllField and NaturalCopyWithFilter, the order affects only which
    missing field the `MissingAttribute` error names. Success, and the record built,
    are the same for every enumeration (`StepLaws.FieldOrderIrrelevant`).
  - The methods choose an arbitrary order.
  - Each method returns that order as a ghost value, or fixes it in its
    postcondition.
  - The specification function for the method takes the order as a parameter.
  - `AutoMapLaws.OrderIrrelevant` shows that, with the shipped rule, the order does
    not change what the built lists do. With other rules it can: a rule whose steps
    write one shared destination field makes the last visited field win.

### Behaviour as written

The model follows the code where it departs from the evident design:

- **`NaturalCopy.supported_members` reads an unbound name.** It reads `members`
  instead of `self.members` (partial_mapper.py:90). Evaluating it raises, and so does
  evaluating it for `NaturalCopyAllField`; the model gives `Err(UnboundMembers)`. As
  a result:
  - a user `NaturalCopy` among the AutoMap common steps always makes `build` raise:
    in the name loop when the two types share a field, and in the coverage check
    otherwise (`AutoMapLaws.UnreadableCommonStepRaises`, `Scenarios.UserNaturalCopyRaises`);
  - a user `NaturalCopy` anywhere in a checked step list fails the coverage check.
- **The skip loop in `_build_common_steps` has no effect.** The `continue` at
  automapper.py:101-103 only continues that inner loop. The loop still evaluates every
  user common step's `supported_members`. A shared field whose types match no rule
  raises even when a user step covers it (`Scenarios.MismatchDespiteUserStep`).
- **A common step without `map_backward` raises at build time.** `PartialMap.build`
  reads `step.map_backward` for every common step. `Morph`, `NaturalCopyWithFilter`
  and `Ignore` define no `map_backward`. The model takes it that the step interface
  (`IMappingStep`, in automapping/abstractions.py) defines none either, so that
  read raises, after the forward list is complete. That file is not part of this
  model.
- **The backward list ends with `map_forward` calls.** It calls `map_forward` of the
  backward steps (partial_mapper.py:29), not `map_backward`.
- **Both coverage checks use the same orientation.** The reverse check passes its
  names in the same order as the forward check: missing source names against first
  components, missing destination names against second components.
- **The destination-side error carries the destination set.** The message at
  automapper.py:141 prints the source set; the model reports the destination set,
  with the destination type.
- **`strict` is never read.**

## Model

| member | source | states |
|---|---|---|
| `MappingBase.GetAttr` | automapping/partial_mapper.py:49 | reading a field succeeds iff the source has it and gives its value; otherwise the error names the field |
| `MappingBase.FieldNames` | automapping/partial_mapper.py:107 | the field list of a reflective step is a duplicate-free enumeration of exactly the inspected field names |
| `Steps.SelfPaired` | automapping/partial_mapper.py:206 | pair `i` is `(names[i], names[i])`, one per name |
| `Steps.SupportedMembers` | automapping/partial_mapper.py:87-91 | raises exactly for NaturalCopy and NaturalCopyAllField (the unbound `members`); Morph covers nothing; the filtered copy covers its fields self-paired; the other steps cover their one (from, to) pair |
| `Steps.HasBackward` | automapping/partial_mapper.py:37-228 | definition: the steps that derive from `IReverseMappingStep` (Rename, BiMorph, NaturalCopy, NaturalCopyAllField, SubListMapping, SubMapping) have a `map_backward`, and Morph, NaturalCopyWithFilter and Ignore do not; `Compile`, `StepLaws.BackwardFrame` and `NaturalCopyWithFilterEffect` state what follows from it |
| `Steps.CopyMembers` | automapping/partial_mapper.py:93-96 | the copy loop succeeds iff every member is in the source; afterwards listed fields hold the source's values and every other field is unchanged; a failure names the first member, in list order, that the source lacks |
| `Steps.FilterCopy` | automapping/partial_mapper.py:208-215 | as the copy loop, except that a field whose value the filter rejects keeps its old value (or stays absent) |
| `Steps.MapEach` | automapping/partial_mapper.py:130-133 | the element loop succeeds iff the registry maps every element; the result has the same length and element `i` is the mapping of element `i`; a failure is the first failing element's error |
| `Steps.MapListField` | automapping/partial_mapper.py:126-148 | definition of one direction of a sub-list mapping; `StepLaws.SubListMappingForward`, `SubListMappingBackward` and `SubListMappingNotIterable` state its effect, and `Destination.MapList` is proved equal to it |
| `Steps.MapObjectField` | automapping/partial_mapper.py:165-177 | definition of one direction of a sub-object mapping; `StepLaws.SubMappingNull`, `SubMappingForward` and `SubMappingBackward` state its effect, and `Destination.MapObject` is proved equal to it |
| `Steps.ApplyForward` | automapping/partial_mapper.py:48-228 | definition of every step's `map_forward`; `StepLaws.ForwardFrame`, `RenameForward`, `BiMorphDirections`, `NaturalCopyEffect`, `NaturalCopyWithFilterEffect`, `SubMappingForward`, `SubListMappingForward`, `MorphEffect` and `IgnoreEffect` state its effects, and `Destination.MapForward` is proved equal to it |
| `Steps.ApplyBackward` | automapping/partial_mapper.py:52-177 | definition of every `map_backward`; `StepLaws.BackwardFrame`, `RenameBackward`, `BiMorphDirections`, `NaturalCopyEffect`, `SubMappingBackward` and `SubListMappingBackward` state its effects and round trips, and `Destination.MapBackward` is proved equal to it |
| `Steps.Apply` | automapping/partial_mapper.py:31-34 | definition: an entry's instruction is a bound `map_forward` or `map_backward`, and calling it calls that method |
| `Steps.Run` | automapping/partial_mapper.py:31-34 | definition of how an entry's list is applied: in order, to one destination, stopping at the first step that raises; `PartialMapping.RunAppend` and the scenarios state its behaviour |
| `Steps.NewNaturalCopyAllField` | automapping/partial_mapper.py:102-109 | the step copies exactly the inspected fields of the dataclass, each once |
| `Steps.NewNaturalCopyWithFilter` | automapping/partial_mapper.py:195-202 | the step keeps the filter and lists exactly the inspected fields, each once |
| `StepExecution.MapElements` | automapping/partial_mapper.py:126-133 | the appending loop returns what `MapEach` specifies |
| `StepExecution.Destination.SetDestinationAttr` | automapping/partial_mapper.py:50 | writes one field and leaves the others |
| `StepExecution.Destination.CopyEach` | automapping/partial_mapper.py:93-96 | the in-place copy loop raises iff `CopyMembers` does and otherwise leaves the destination it specifies |
| `StepExecution.Destination.CopyEachUnlessIgnored` | automapping/partial_mapper.py:208-215 | the in-place loop with `continue` raises iff `FilterCopy` does and otherwise leaves the destination it specifies |
| `StepExecution.Destination.MapList` | automapping/partial_mapper.py:126-148 | one direction of a sub-list mapping, in place: a non-list field raises, a registry failure propagates, otherwise the new list is written |
| `StepExecution.Destination.MapObject` | automapping/partial_mapper.py:165-177 | one direction of a sub-object mapping, in place: `None` is written as `None`, anything else as the registry maps it |
| `StepExecution.Destination.MapForward` | automapping/partial_mapper.py:48-228 | every step's `map_forward`, in place, raises iff `ApplyForward` does and otherwise leaves the destination it gives |
| `StepExecution.Destination.MapBackward` | automapping/partial_mapper.py:52-177 | every reversible step's `map_backward`, in place, agrees with `ApplyBackward`; a one-directional step has none |
| `PartialMapping.Bind` | automapping/partial_mapper.py:17-19 | one bound method per step, in the steps' order |
| `PartialMapping.Compile` | automapping/partial_mapper.py:16-34 | `build` fails iff some common step has no `map_backward`; otherwise it returns two entries, (from, to) first and (to, from) second; the forward list is the common steps' `map_forward` then the forward steps' `map_forward`, of length `|common| + |forward|`; the backward list is the common steps' `map_backward` then the backward steps' `map_forward` |
| `PartialMapping.CompileOk` | automapping/partial_mapper.py:31-34 | the two entries exactly, when every common step is reversible |
| `PartialMapping.ForwardInstructions` | automapping/partial_mapper.py:17-22 | the comprehension and append loop build the forward list |
| `PartialMapping.BackwardInstructions` | automapping/partial_mapper.py:24-29 | the comprehension raises on the first common step with no `map_backward`; otherwise the loops build the backward list |
| `PartialMapping.Build` | automapping/partial_mapper.py:16-34 | `build` returns what `Compile` specifies |
| `PartialMapping.RunAppend` | automapping/partial_mapper.py:17-29 | running a list built as one part followed by another is running the first part and then the second on its result, and a failure in the first part stops the run |
| `AutoMapping.FirstMatchFrom` | automapping/automapper.py:105-112 | the index found is the first rule whose predicate holds; none is found iff no rule matches |
| `AutoMapping.BuiltInPatterns` | automapping/automapper.py:36-42 | definition of the shipped `type_mapper_patterns`; `AutoMapLaws.BuiltInRule` states what it matches and creates |
| `AutoMapping.SynthesizeFor` | automapping/automapper.py:105-112 | definition of the rule loop's result; `FirstMatchFrom` states which rule it takes, and `CreateFromFirstMatch` is proved equal to it |
| `AutoMapping.SynthesizeName` | automapping/automapper.py:99-118 | definition of the name-loop body; `BuildCommonStep` is proved equal to it, and `SynthesizeMeans` states what it yields over a whole order |
| `AutoMapping.CreateFromFirstMatch` | automapping/automapper.py:105-112 | the rule loop with `break` creates the step of the first matching rule |
| `AutoMapping.BuildCommonStep` | automapping/automapper.py:99-118 | for one shared field: the user steps' `supported_members` are evaluated (raising for a NaturalCopy), then the first matching rule's step is taken, and a field with no rule raises "no mapper found" with its name and types |
| `AutoMapping.Synthesize` | automapping/automapper.py:95-120 | a successful synthesis has one step per shared field |
| `AutoMapping.SynthesizeMeans` | automapping/automapper.py:95-120 | the synthesized list succeeds iff every shared field gets a step (and the user steps' pairs can be read), holds the rules' steps in iteration order, and otherwise reports `UnboundMembers` or the first field in that order with no rule |
| `AutoMapping.BuildCommonSteps` | automapping/automapper.py:95-120 | the loop over the name set visits every shared field exactly once and returns what `Synthesize` gives for that visiting order; on success it gives one step per shared field |
| `AutoMapping.TaggedMeans` | automapping/automapper.py:126-129 | a name is tagged on the source side iff some step covers it as a first component, and on the destination side iff as a second component |
| `AutoMapping.Tagged` | automapping/automapper.py:123-129 | definition of the two tag sets; `TaggedMeans` states what they contain |
| `AutoMapping.TagPairs` | automapping/automapper.py:127-129 | the pair loop adds exactly the first components to one set and the second components to the other |
| `AutoMapping.CheckCoverage` | automapping/automapper.py:122-141 | the check passes iff every step's pairs can be read and every missing source (destination) name is a first (second) component of some pair; otherwise it reports the uncovered source names with the source type, and only when there are none, the uncovered destination names with the destination type |
| `AutoMapping.RaiseIfForgotten` | automapping/automapper.py:122-141 | the tagging loops and the two set differences, over the user common steps chained with the given list, give what `CheckCoverage` specifies |
| `AutoMapping.Build` | automapping/automapper.py:62-93 | `build` returns what `AutoBuild` gives for the order in which its set loop visited the shared fields |
| `AutoMapping.AutoBuild` | automapping/automapper.py:62-93 | definition of `AutoMap.build` for one visiting order; `AutoMapLaws.AutoBuildSucceedsIff`, `AutoBuildResult`, `TypeMismatchFirst`, `UnreadableCommonStepRaises`, `CoverageOrder`, `StrictUnused` and `OrderIrrelevant` state its properties |
| `AutoMapLaws.BuiltInRule` | automapping/automapper.py:36-42 | the shipped rule applies iff the two declared types are equal and then creates `NaturalCopy([name])` |
| `AutoMapLaws.SynthesizeBuiltIn` | automapping/automapper.py:98-118 | with the shipped rule, synthesis succeeds iff every shared field has equal types on both sides, gives one single-field copy per field in iteration order, and otherwise names a field whose types differ |
| `AutoMapLaws.ClassifyNames` | automapping/automapper.py:63-76 | common names are the source names that are also destination names; the missing names are the rest of each side; the three sets are disjoint |
| `AutoMapLaws.AutoBuildSucceedsIff` | automapping/automapper.py:62-93 | `build` with the shipped rule succeeds iff the shared fields agree on their types, the user common steps chained with the forward steps cover every unshared field, the same holds for the reverse steps, and every user common step has a `map_backward` |
| `AutoMapLaws.AutoBuildResult` | automapping/automapper.py:84-93 | on success the result is `PartialMap(from, to, copies ++ user common, forward, reverse).build`, spelled out as its two entries |
| `AutoMapLaws.TypeMismatchFirst` | automapping/automapper.py:98-116 | when the user common steps' `supported_members` can be read, a shared field with different types makes `build` raise "no mapper found" for such a field, before any coverage check and whatever the user steps cover |
| `AutoMapLaws.UnreadableCommonStepRaises` | automapping/automapper.py:98-129 | a user common step whose `supported_members` raises makes `build` raise `UnboundMembers` for every rule list, whether or not the types share a field |
| `AutoMapLaws.CoverageOrder` | automapping/automapper.py:78-82 | an incomplete forward list is reported before the reverse list is looked at; an incomplete reverse list is reported only when the forward list is complete |
| `AutoMapLaws.StrictUnused` | automapping/automapper.py:52-60 | changing `strict` changes nothing that `build` computes |
| `AutoMapLaws.CopiesRun` | automapping/automapper.py:36-42 | running the synthesized copies fails iff some copied field is missing from the source, and otherwise writes exactly those fields with the source's values |
| `AutoMapLaws.OrderIrrelevant` | automapping/automapper.py:98 | with the shipped rule, for any two visiting orders of the name set, `build` succeeds for both or for neither, and the two forward lists, and the two backward lists, map every record alike |
| `StepLaws.ForwardFrame` | automapping/partial_mapper.py:48-228 | `map_forward` of any step changes no field outside its targets and, except for the filtered copy, writes every target |
| `StepLaws.BackwardFrame` | automapping/partial_mapper.py:52-177 | `map_backward` changes no field outside its targets and writes every target; a one-directional step has none |
| `StepLaws.RenameForward` | automapping/partial_mapper.py:48-50 | Rename forward sets `dest[to] := src[from]` and changes no other key; a source without `from` raises |
| `StepLaws.RenameBackward` | automapping/partial_mapper.py:52-54 | Rename backward sets `dest[from] := src[to]` and changes no other key |
| `StepLaws.RenameRoundTrip` | automapping/partial_mapper.py:48-54 | Rename forward then backward restores the renamed field |
| `StepLaws.BiMorphDirections` | automapping/partial_mapper.py:70-80 | BiMorph forward writes `f(src[from])` at `to`, backward writes `g(src[to])` at `from`, nothing else |
| `StepLaws.BiMorphRoundTrip` | automapping/partial_mapper.py:70-80 | when `g(f(v)) == v`, BiMorph forward then backward restores the field |
| `StepLaws.NaturalCopyEffect` | automapping/partial_mapper.py:93-99 | NaturalCopy's backward equals its forward; it succeeds iff every listed field is present, after which listed fields equal the source's and unlisted fields are unchanged |
| `StepLaws.NaturalCopyRoundTrip` | automapping/partial_mapper.py:93-99 | NaturalCopy forward then backward restores every listed field |
| `StepLaws.NaturalCopyWithFilterEffect` | automapping/partial_mapper.py:204-215 | a rejected value leaves the destination field unchanged, an accepted one is copied, unlisted fields are unchanged; it covers its fields self-paired and has no `map_backward` |
| `StepLaws.FieldOrderIrrelevant` | automapping/partial_mapper.py:93-109 | for NaturalCopyAllField and NaturalCopyWithFilter, two orders of the same field names succeed together in both directions and then give the same record; when they fail, both raise `MissingAttribute` |
| `StepLaws.SubMappingNull` | automapping/partial_mapper.py:165-170 | a `None` sub-object is written as `None` whatever the registry |
| `StepLaws.SubMappingForward` | automapping/partial_mapper.py:165-170 | any other sub-object is written as the registry maps it to the destination type with the step's updater; a registry failure propagates |
| `StepLaws.SubMappingBackward` | automapping/partial_mapper.py:172-177 | SubMapping backward is forward with fields and types swapped |
| `StepLaws.SubListMappingForward` | automapping/partial_mapper.py:126-136 | the written list has the source list's length and element `i` is the registry's mapping of element `i`; it succeeds iff every element maps; other fields are unchanged |
| `StepLaws.SubListMappingBackward` | automapping/partial_mapper.py:138-148 | SubListMapping backward is forward with fields and types swapped |
| `StepLaws.SubListMappingNotIterable` | automapping/partial_mapper.py:127-130 | a sub-list field that holds no list raises |
| `StepLaws.MorphEffect` | automapping/partial_mapper.py:185-192 | Morph covers nothing and writes the creator's value at its one field only |
| `StepLaws.IgnoreEffect` | automapping/partial_mapper.py:223-228 | Ignore's forward changes nothing; it covers its one pair |
| `Scenarios.PartialMapScenario` | tests_units/mapper_basic_test.py:41-58 | the test's PartialMap maps A('Gabriel', 26, 'a', 'b') to B('Gabriel', 30, 'a', 'b') and back to the original |
| `Scenarios.AutoMapScenario` | tests_units/mapper_basic_test.py:61-71 | the test's AutoMap builds for every visiting order of {a, b} and maps the same records both ways |
| `Scenarios.MissingFieldScenario` | automapping/automapper.py:131-135 | A(x, y) to B(x) with no steps raises for the uncovered source field {y} of A |
| `Scenarios.MismatchDespiteUserStep` | automapping/automapper.py:101-116 | a shared field of types int and str raises "no mapper found" although a user step maps it onto itself |
| `Scenarios.UserNaturalCopyRaises` | automapping/partial_mapper.py:87-91 | a user NaturalCopy among the AutoMap common steps makes `build` raise |

## Left out

- The Mapper registry (`add_mapper`, `map`, type lookup, its errors, any cycle detection): its file is not part of this model. `mapper.map` is the `Registry` parameter.
- How the registry runs an instruction list: its file is not part of this model. `Steps.Run` applies the instructions in order to one destination and stops at the first that raises, and the scenarios start from a destination with every field `None`.
- The updater classes: their file is not part of this model. They are read-a-key and write-a-key on records, and `ObjectDictTypeUpdater`, `ObjectDictDictUpdater` and `DictDictTypeUpdater` are tags handed to the registry.
- `get_dataclass_field_type_by_name` and the `is_dataclass` assertions (partial_mapper.py:104, 197): runtime reflection. The inspector is a parameter, and a failing assertion is not modelled.
- Exception classes and message text: errors are tagged values.
- The user callables (`forward_mapper`, `reverse_mapper`, `should_ignore`, `custom_value_creator`, rule predicates and creators): pure total functions that never raise.
- `Steps.ApplyForward` (Morph): `custom_value_creator(source, updater)` takes the updater too; the model passes only the source record, because the updater is abstracted away.
- `Steps.MapListField`: Python iterates any iterable. The model maps only `List` values, and any other value, strings and `None` included, raises `NotIterable`.
- `Ignore.__init__` has no `self` parameter (partial_mapper.py:219), so constructing it raises in Python. The model can build the step, and gives it only its `supported_members` and its no-op forward.
- The `mapper` argument of both `build` methods and of every `map_forward`/`map_backward` except the sub-mappings: unused.
- Default arguments become explicit parameters, with no behaviour lost: the `None` defaults of the step-list parameters (`common_steps or []`), where the model takes lists; `updater_Type=ObjectDictTypeUpdater` (`partial_mapper.py` lines 113 and 152); `inspect_members=get_dataclass_field_type_by_name` and `strict=True` (`automapper.py` lines 51-52).
- The iteration order of the common-name set, which Python leaves unspecified, is an arbitrary enumeration. `AutoMapLaws.OrderIrrelevant` covers its effect on the built lists with the shipped rule only; with user rules the order can change them.
- The insertion order of the inspector's dict: the inspector is a `map`, so `FieldNames` takes an arbitrary enumeration. This changes only which missing field a NaturalCopyAllField or NaturalCopyWithFilter error names (`StepLaws.FieldOrderIrrelevant`).
- `AutoMapLaws.OrderIrrelevant`: when `build` fails, the order can change which mismatching field the error names. When a run fails, it can change which missing field the error names. The lemma states only that success and the resulting records agree.
- `StepExecution.Destination.CopyEach`, `CopyEachUnlessIgnored`, `MapList`, `MapForward`, `MapBackward`: when a step raises part way (a NaturalCopy missing its second member has already written the first), the fields left behind are not stated, because the registry discards that destination.
- `AutoMapping.CheckCoverage`: the model reports the destination's uncovered set where the source prints the source set (automapper.py:141), because message text is not modelled.
- `type_mapper_patterns` is a mutable class attribute; the model passes the rule list as a parameter (`BuiltInPatterns` is the shipped one).
