/** PartialMap (partial_mapper.py): compiles its step lists into the two directed
    instruction lists that the registry stores. */
module PartialMapping {
  import opened MappingBase
  import opened Steps

  datatype PartialMap = PartialMap(
    fromType: TypeName,
    toType: TypeName,
    commonSteps: seq<Step>,
    forwardSteps: seq<Step>,
    backwardSteps: seq<Step>)

  /** One compiled direction: (from type, to type, instruction list). */
  datatype Entry = Entry(fromType: TypeName, toType: TypeName, instructions: seq<Instruction>)

  /** Each step's method for the given direction, in the steps' order. */
  function Bind(steps: seq<Step>, direction: Direction): (r: seq<Instruction>)
    ensures |r| == |steps|
    ensures forall i :: 0 <= i < |steps| ==> r[i] == Instruction(steps[i], direction)
    decreases |steps|
  {
    if steps == [] then []
    else Bind(steps[..|steps| - 1], direction) + [Instruction(steps[|steps| - 1], direction)]
  }

  /** The forward list of `pm`: every common step's `map_forward`, then every forward
      step's `map_forward`, each group in its own order. */
  ghost predicate IsForwardList(pm: PartialMap, instrs: seq<Instruction>) {
    var c, f := pm.commonSteps, pm.forwardSteps;
    && |instrs| == |c| + |f|
    && (forall i :: 0 <= i < |c| ==> instrs[i] == Instruction(c[i], Forward))
    && (forall j :: 0 <= j < |f| ==> instrs[|c| + j] == Instruction(f[j], Forward))
  }

  /** The backward list of `pm`: every common step's `map_backward`, then every backward
      step's `map_forward`. */
  ghost predicate IsBackwardList(pm: PartialMap, instrs: seq<Instruction>) {
    var c, b := pm.commonSteps, pm.backwardSteps;
    && |instrs| == |c| + |b|
    && (forall i :: 0 <= i < |c| ==> instrs[i] == Instruction(c[i], Backward))
    && (forall j :: 0 <= j < |b| ==> instrs[|c| + j] == Instruction(b[j], Forward))
  }

  /** What `PartialMap.build` returns. Reading `map_backward` of a common step that has
      none raises, after the forward list is complete. */
  function Compile(pm: PartialMap): (r: Result<seq<Entry>>)
    ensures r.Ok? <==> forall i :: 0 <= i < |pm.commonSteps| ==> HasBackward(pm.commonSteps[i])
    ensures r.Err? ==> r.error == NoMapBackward
    ensures r.Ok? ==> |r.value| == 2
    ensures r.Ok? ==> r.value[0].fromType == pm.fromType && r.value[0].toType == pm.toType
    ensures r.Ok? ==> r.value[1].fromType == pm.toType && r.value[1].toType == pm.fromType
    ensures r.Ok? ==> IsForwardList(pm, r.value[0].instructions)
    ensures r.Ok? ==> IsBackwardList(pm, r.value[1].instructions)
  {
    if exists i :: 0 <= i < |pm.commonSteps| && !HasBackward(pm.commonSteps[i]) then Err(NoMapBackward)
    else
      Ok([Entry(pm.fromType, pm.toType, Bind(pm.commonSteps, Forward) + Bind(pm.forwardSteps, Forward)),
          Entry(pm.toType, pm.fromType, Bind(pm.commonSteps, Backward) + Bind(pm.backwardSteps, Forward))])
  }

  /** When every common step has a `map_backward`, `build` returns the two directed
      lists built from the step lists, forward first. */
  lemma CompileOk(pm: PartialMap)
    requires forall i :: 0 <= i < |pm.commonSteps| ==> HasBackward(pm.commonSteps[i])
    ensures Compile(pm) ==
            Ok([Entry(pm.fromType, pm.toType, Bind(pm.commonSteps, Forward) + Bind(pm.forwardSteps, Forward)),
                Entry(pm.toType, pm.fromType, Bind(pm.commonSteps, Backward) + Bind(pm.backwardSteps, Forward))])
  {
  }

  /** The forward half of `PartialMap.build`: a list comprehension over the common
      steps, then an append loop over the forward steps. */
  method ForwardInstructions(pm: PartialMap) returns (instrs: seq<Instruction>)
    ensures instrs == Bind(pm.commonSteps, Forward) + Bind(pm.forwardSteps, Forward)
  {
    var common, forward := pm.commonSteps, pm.forwardSteps;
    instrs := [];
    for i := 0 to |common|
      invariant instrs == Bind(common[..i], Forward)
    {
      assert common[..i + 1][..i] == common[..i];
      instrs := instrs + [Instruction(common[i], Forward)];
    }
    assert common[..|common|] == common;
    for i := 0 to |forward|
      invariant instrs == Bind(common, Forward) + Bind(forward[..i], Forward)
    {
      assert forward[..i + 1][..i] == forward[..i];
      instrs := instrs + [Instruction(forward[i], Forward)];
    }
    assert forward[..|forward|] == forward;
  }

  /** The backward half of `PartialMap.build`: a list comprehension over the common
      steps' `map_backward`, then an append loop over the backward steps' `map_forward`. */
  method BackwardInstructions(pm: PartialMap) returns (r: Result<seq<Instruction>>)
    ensures r.Ok? <==> forall i :: 0 <= i < |pm.commonSteps| ==> HasBackward(pm.commonSteps[i])
    ensures r.Err? ==> r.error == NoMapBackward
    ensures r.Ok? ==> r.value == Bind(pm.commonSteps, Backward) + Bind(pm.backwardSteps, Forward)
  {
    var common, backward := pm.commonSteps, pm.backwardSteps;
    var instrs := [];
    for i := 0 to |common|
      invariant instrs == Bind(common[..i], Backward)
      invariant forall k :: 0 <= k < i ==> HasBackward(common[k])
    {
      if !HasBackward(common[i]) {
        return Err(NoMapBackward);
      }
      assert common[..i + 1][..i] == common[..i];
      instrs := instrs + [Instruction(common[i], Backward)];
    }
    assert common[..|common|] == common;
    for i := 0 to |backward|
      invariant instrs == Bind(common, Backward) + Bind(backward[..i], Forward)
    {
      assert backward[..i + 1][..i] == backward[..i];
      instrs := instrs + [Instruction(backward[i], Forward)];
    }
    assert backward[..|backward|] == backward;
    return Ok(instrs);
  }

  /** `PartialMap.build(mapper)`. The mapper argument is unused by the source and left out. */
  method Build(pm: PartialMap) returns (r: Result<seq<Entry>>)
    ensures r == Compile(pm)
  {
    var forwardInstructions := ForwardInstructions(pm);
    var backwardInstructions := BackwardInstructions(pm);
    if backwardInstructions.Err? {
      return Err(backwardInstructions.error);
    }
    return Ok([Entry(pm.fromType, pm.toType, forwardInstructions),
               Entry(pm.toType, pm.fromType, backwardInstructions.value)]);
  }

  /** Running a concatenated list is running the first part and then the second on its
      result. */
  lemma {:induction false} RunAppend(a: seq<Instruction>, b: seq<Instruction>, source: Record, dest: Record, registry: Registry)
    ensures Run(a + b, source, dest, registry) ==
            match Run(a, source, dest, registry)
            case Err(e) => Err(e)
            case Ok(d) => Run(b, source, d, registry)
    decreases |a|
  {
    if a != [] {
      assert (a + b)[0] == a[0];
      assert (a + b)[1..] == a[1..] + b;
      match Apply(a[0], source, dest, registry)
      case Err(e) =>
      case Ok(d) => RunAppend(a[1..], b, source, d, registry);
    } else {
      assert a + b == b;
    }
  }
}
