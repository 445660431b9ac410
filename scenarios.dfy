/** The concrete mappings of tests_units/mapper_basic_test.py, and three small records
    that show the errors `AutoMap.build` raises. */
module Scenarios {
  import opened MappingBase
  import opened Steps
  import opened PartialMapping
  import opened AutoMapping
  import opened AutoMapLaws

  /** `a_to_b` and `b_to_a` of the test, on integer fields. */
  function AddFour(v: Value): Value { if v.Int? then Int(v.i + 4) else v }
  function SubtractFour(v: Value): Value { if v.Int? then Int(v.i - 4) else v }

  /** The dataclasses A and B of the test, with their declared field types. */
  function TestMembers(t: TypeName): map<string, TypeName> {
    if t == "A" then map["a_name" := "str", "number_a" := "int", "a" := "str", "b" := "str"]
    else if t == "B" then map["b_name" := "str", "number_b" := "int", "a" := "str", "b" := "str"]
    else map[]
  }

  function GabrielA(): Record {
    map["a_name" := Str("Gabriel"), "number_a" := Int(26), "a" := Str("a"), "b" := Str("b")]
  }

  function GabrielB(): Record {
    map["b_name" := Str("Gabriel"), "number_b" := Int(30), "a" := Str("a"), "b" := Str("b")]
  }

  /** `A()` and `B()`: every field defaults to `None`. */
  function EmptyA(): Record { map["a_name" := Null, "number_a" := Null, "a" := Null, "b" := Null] }
  function EmptyB(): Record { map["b_name" := Null, "number_b" := Null, "a" := Null, "b" := Null] }

  function UserCommon(): seq<Step> {
    [Rename("a_name", "b_name"), BiMorph("number_a", "number_b", AddFour, SubtractFour)]
  }

  function TestPartialMap(): PartialMap {
    PartialMap("A", "B", UserCommon() + [NaturalCopy(["a", "b"])], [], [])
  }

  /** A run of two instructions that both succeed. */
  lemma RunTwo(i0: Instruction, i1: Instruction, source: Record, dest: Record, registry: Registry, d1: Record, d2: Record)
    requires Apply(i0, source, dest, registry) == Ok(d1) && Apply(i1, source, d1, registry) == Ok(d2)
    ensures Run([i0, i1], source, dest, registry) == Ok(d2)
  {
    assert [i0, i1][1..] == [i1];
    assert [i1][1..] == [];
    assert Run([i1], source, d1, registry) == Run([], source, d2, registry);
  }

  /** A run of three instructions that all succeed. */
  lemma RunThree(i0: Instruction, i1: Instruction, i2: Instruction, source: Record, dest: Record, registry: Registry,
                 d1: Record, d2: Record, d3: Record)
    requires Apply(i0, source, dest, registry) == Ok(d1) && Apply(i1, source, d1, registry) == Ok(d2)
    requires Apply(i2, source, d2, registry) == Ok(d3)
    ensures Run([i0, i1, i2], source, dest, registry) == Ok(d3)
  {
    assert [i0, i1, i2][1..] == [i1, i2];
    RunTwo(i1, i2, source, d1, registry, d2, d3);
  }

  /** Copying `a` and `b` of a record together. */
  lemma CopyAB(source: Record, dest: Record, registry: Registry)
    requires "a" in source && "b" in source
    ensures ApplyForward(NaturalCopy(["a", "b"]), source, dest, registry) == Ok(dest["a" := source["a"]]["b" := source["b"]])
  {
    var ab := ["a", "b"];
    assert ab[1..] == ["b"];
    assert ab[1..][1..] == [];
  }

  /** The test's forward list on any record with A's fields. */
  lemma PartialMapForwardOn(source: Record, dest: Record, registry: Registry)
    requires "a_name" in source && "number_a" in source && "a" in source && "b" in source
    ensures Run([Instruction(UserCommon()[0], Forward), Instruction(UserCommon()[1], Forward),
                 Instruction(NaturalCopy(["a", "b"]), Forward)], source, dest, registry) ==
            Ok(dest["b_name" := source["a_name"]]["number_b" := AddFour(source["number_a"])]["a" := source["a"]]["b" := source["b"]])
  {
    var d1 := dest["b_name" := source["a_name"]];
    var d2 := d1["number_b" := AddFour(source["number_a"])];
    CopyAB(source, d2, registry);
    RunThree(Instruction(UserCommon()[0], Forward), Instruction(UserCommon()[1], Forward),
             Instruction(NaturalCopy(["a", "b"]), Forward), source, dest, registry,
             d1, d2, d2["a" := source["a"]]["b" := source["b"]]);
  }

  /** The test's backward list on any record with B's fields. */
  lemma PartialMapBackwardOn(source: Record, dest: Record, registry: Registry)
    requires "b_name" in source && "number_b" in source && "a" in source && "b" in source
    ensures Run([Instruction(UserCommon()[0], Backward), Instruction(UserCommon()[1], Backward),
                 Instruction(NaturalCopy(["a", "b"]), Backward)], source, dest, registry) ==
            Ok(dest["a_name" := source["b_name"]]["number_a" := SubtractFour(source["number_b"])]["a" := source["a"]]["b" := source["b"]])
  {
    var e1 := dest["a_name" := source["b_name"]];
    var e2 := e1["number_a" := SubtractFour(source["number_b"])];
    CopyAB(source, e2, registry);
    RunThree(Instruction(UserCommon()[0], Backward), Instruction(UserCommon()[1], Backward),
             Instruction(NaturalCopy(["a", "b"]), Backward), source, dest, registry,
             e1, e2, e2["a" := source["a"]]["b" := source["b"]]);
  }

  /** What the test's lists write, starting from the all-`None` records, is the expected record. */
  lemma ExpectedImageB()
    ensures EmptyB()["b_name" := Str("Gabriel")]["number_b" := Int(30)]["a" := Str("a")]["b" := Str("b")] == GabrielB()
    ensures EmptyB()["a" := Str("a")]["b" := Str("b")]["b_name" := Str("Gabriel")]["number_b" := Int(30)] == GabrielB()
  {
  }

  lemma ExpectedImageA()
    ensures EmptyA()["a_name" := Str("Gabriel")]["number_a" := Int(26)]["a" := Str("a")]["b" := Str("b")] == GabrielA()
    ensures EmptyA()["a" := Str("a")]["b" := Str("b")]["a_name" := Str("Gabriel")]["number_a" := Int(26)] == GabrielA()
  {
  }

  lemma PartialMapForward(registry: Registry)
    ensures Run([Instruction(UserCommon()[0], Forward), Instruction(UserCommon()[1], Forward),
                 Instruction(NaturalCopy(["a", "b"]), Forward)], GabrielA(), EmptyB(), registry) == Ok(GabrielB())
  {
    PartialMapForwardOn(GabrielA(), EmptyB(), registry);
    ExpectedImageB();
  }

  lemma PartialMapBackward(registry: Registry)
    ensures Run([Instruction(UserCommon()[0], Backward), Instruction(UserCommon()[1], Backward),
                 Instruction(NaturalCopy(["a", "b"]), Backward)], GabrielB(), EmptyA(), registry) == Ok(GabrielA())
  {
    PartialMapBackwardOn(GabrielB(), EmptyA(), registry);
    ExpectedImageA();
  }

  /** The PartialMap of the test maps A('Gabriel', 26, 'a', 'b') to B('Gabriel', 30, 'a', 'b')
      and the result back to the original, whatever the registry. */
  lemma PartialMapScenario(registry: Registry)
    ensures var r := Compile(TestPartialMap());
            && r.Ok?
            && r.value[0].fromType == "A" && r.value[0].toType == "B"
            && r.value[1].fromType == "B" && r.value[1].toType == "A"
            && Run(r.value[0].instructions, GabrielA(), EmptyB(), registry) == Ok(GabrielB())
            && Run(r.value[1].instructions, GabrielB(), EmptyA(), registry) == Ok(GabrielA())
  {
    var pm := TestPartialMap();
    assert pm.commonSteps == [UserCommon()[0], UserCommon()[1], NaturalCopy(["a", "b"])];
    CompileOk(pm);
    assert Bind(pm.commonSteps, Forward) + Bind(pm.forwardSteps, Forward) ==
           [Instruction(UserCommon()[0], Forward), Instruction(UserCommon()[1], Forward),
            Instruction(NaturalCopy(["a", "b"]), Forward)];
    assert Bind(pm.commonSteps, Backward) + Bind(pm.backwardSteps, Forward) ==
           [Instruction(UserCommon()[0], Backward), Instruction(UserCommon()[1], Backward),
            Instruction(NaturalCopy(["a", "b"]), Backward)];
    PartialMapForward(registry);
    PartialMapBackward(registry);
  }

  function TestAutoMap(): AutoMap {
    AutoMap("A", "B", UserCommon(), [], [], TestMembers, true)
  }

  lemma TestCommonNames()
    ensures CommonNames(TestAutoMap()) == {"a", "b"}
    ensures MissingSourceNames(TestAutoMap()) == {"a_name", "number_a"}
    ensures MissingDestinationNames(TestAutoMap()) == {"b_name", "number_b"}
  {
    assert SourceNames(TestAutoMap()) == {"a_name", "number_a", "a", "b"};
    assert DestinationNames(TestAutoMap()) == {"b_name", "number_b", "a", "b"};
  }

  /** The AutoMap of the test builds, whatever order it visits the shared fields `a` and
      `b` in, into lists that map A('Gabriel', 26, 'a', 'b') to B('Gabriel', 30, 'a', 'b')
      and back. */
  lemma AutoMapScenario(order: seq<string>, registry: Registry)
    requires IsEnumeration(order, CommonNames(TestAutoMap()))
    ensures var r := AutoBuild(TestAutoMap(), BuiltInPatterns(), order);
            && r.Ok?
            && Run(r.value[0].instructions, GabrielA(), EmptyB(), registry) == Ok(GabrielB())
            && Run(r.value[1].instructions, GabrielB(), EmptyA(), registry) == Ok(GabrielA())
  {
    var am := TestAutoMap();
    TestCommonNames();
    var ab := ["a", "b"];
    assert IsEnumeration(ab, CommonNames(am));
    AutoMapScenarioInOrder(registry);
    OrderIrrelevant(am, ab, order, GabrielA(), EmptyB(), registry);
    OrderIrrelevant(am, ab, order, GabrielB(), EmptyA(), registry);
  }

  /** The user common steps support their two pairs. */
  lemma UserCommonCovers()
    ensures AllSupported(UserCommon())
    ensures CoversSource(UserCommon(), "a_name") && CoversDestination(UserCommon(), "b_name")
    ensures CoversSource(UserCommon(), "number_a") && CoversDestination(UserCommon(), "number_b")
  {
    var u := UserCommon();
    var p0, p1 := ("a_name", "b_name"), ("number_a", "number_b");
    assert SupportedMembers(u[0]) == Ok([p0]);
    assert SupportedMembers(u[1]) == Ok([p1]);
    assert p0 in SupportedMembers(u[0]).value && p1 in SupportedMembers(u[1]).value;
  }

  /** An AutoMap whose only user steps are the test's two, and whose unshared fields are
      the test's, is covered without further steps. */
  lemma CoveredByUserCommon(am: AutoMap)
    requires am.commonSteps == UserCommon()
    requires MissingSourceNames(am) == {"a_name", "number_a"}
    requires MissingDestinationNames(am) == {"b_name", "number_b"}
    ensures Covered(am, [])
  {
    UserCommonCovers();
    var chained := am.commonSteps + [];
    assert chained == UserCommon();
    forall n | n in MissingSourceNames(am) ensures CoversSource(chained, n) {
      assert n == "a_name" || n == "number_a";
    }
    forall n | n in MissingDestinationNames(am) ensures CoversDestination(chained, n) {
      assert n == "b_name" || n == "number_b";
    }
  }

  /** Every unshared field of the test types is covered by the two user common steps. */
  lemma TestCovered()
    ensures Covered(TestAutoMap(), [])
  {
    TestCommonNames();
    CoveredByUserCommon(TestAutoMap());
  }

  /** The AutoMap's list for one direction in the order `a`, `b`. */
  function CopiesThenUser(direction: Direction): seq<Instruction> {
    [Instruction(NaturalCopy(["a"]), direction), Instruction(NaturalCopy(["b"]), direction),
     Instruction(UserCommon()[0], direction), Instruction(UserCommon()[1], direction)]
  }

  /** The AutoMap's list for the order `a`, `b`, on any record with the needed fields. */
  lemma CopiesThenUserOn(direction: Direction, source: Record, dest: Record, registry: Registry)
    requires "a" in source && "b" in source
    requires direction == Forward ==> "a_name" in source && "number_a" in source
    requires direction == Backward ==> "b_name" in source && "number_b" in source
    ensures var copied := dest["a" := source["a"]]["b" := source["b"]];
            Run(CopiesThenUser(direction), source, dest, registry) ==
            if direction == Forward
            then Ok(copied["b_name" := source["a_name"]]["number_b" := AddFour(source["number_a"])])
            else Ok(copied["a_name" := source["b_name"]]["number_a" := SubtractFour(source["number_b"])])
  {
    var copies := [Instruction(NaturalCopy(["a"]), direction), Instruction(NaturalCopy(["b"]), direction)];
    var user := [Instruction(UserCommon()[0], direction), Instruction(UserCommon()[1], direction)];
    var d1 := dest["a" := source["a"]];
    var d2 := d1["b" := source["b"]];
    RunTwo(copies[0], copies[1], source, dest, registry, d1, d2);
    RunAppend(copies, user, source, dest, registry);
    if direction == Forward {
      var d3 := d2["b_name" := source["a_name"]];
      RunTwo(user[0], user[1], source, d2, registry, d3, d3["number_b" := AddFour(source["number_a"])]);
    } else {
      var d3 := d2["a_name" := source["b_name"]];
      RunTwo(user[0], user[1], source, d2, registry, d3, d3["number_a" := SubtractFour(source["number_b"])]);
    }
    assert copies + user == CopiesThenUser(direction);
  }

  lemma AutoMapForward(registry: Registry)
    ensures Run(CopiesThenUser(Forward), GabrielA(), EmptyB(), registry) == Ok(GabrielB())
  {
    CopiesThenUserOn(Forward, GabrielA(), EmptyB(), registry);
    ExpectedImageB();
  }

  lemma AutoMapBackward(registry: Registry)
    ensures Run(CopiesThenUser(Backward), GabrielB(), EmptyA(), registry) == Ok(GabrielA())
  {
    CopiesThenUserOn(Backward, GabrielB(), EmptyA(), registry);
    ExpectedImageA();
  }

  /** The test's AutoMap builds when visiting `a` before `b`. */
  lemma AutoMapBuildsInOrder()
    ensures IsEnumeration(["a", "b"], CommonNames(TestAutoMap()))
    ensures AutoBuild(TestAutoMap(), BuiltInPatterns(), ["a", "b"]).Ok?
  {
    var am := TestAutoMap();
    TestCommonNames();
    assert IsEnumeration(["a", "b"], CommonNames(am));
    TestCovered();
    assert TypesAgree(am) by {
      forall n | n in CommonNames(am) ensures TestMembers("A")[n] == TestMembers("B")[n] {
        assert n == "a" || n == "b";
      }
    }
    AutoBuildSucceedsIff(am, ["a", "b"]);
  }

  /** The copies of `a` and `b` then the user common steps, bound to one direction. */
  lemma CopiesThenUserBound(direction: Direction)
    ensures Bind(Copies(["a", "b"]) + UserCommon(), direction) + Bind([], Forward) == CopiesThenUser(direction)
  {
    var steps := Copies(["a", "b"]) + UserCommon();
    assert steps == [NaturalCopy(["a"]), NaturalCopy(["b"]), UserCommon()[0], UserCommon()[1]];
    var bound := Bind(steps, direction);
    assert |bound| == 4;
    assert Bind([], Forward) == [];
    assert bound + [] == bound;
  }

  /** The two lists the test's AutoMap builds when visiting `a` before `b`. */
  lemma AutoMapListsInOrder()
    ensures IsEnumeration(["a", "b"], CommonNames(TestAutoMap()))
    ensures AutoBuild(TestAutoMap(), BuiltInPatterns(), ["a", "b"]) ==
            Ok([Entry("A", "B", CopiesThenUser(Forward)), Entry("B", "A", CopiesThenUser(Backward))])
  {
    AutoMapBuildsInOrder();
    AutoBuildResult(TestAutoMap(), ["a", "b"]);
    CopiesThenUserBound(Forward);
    CopiesThenUserBound(Backward);
  }

  lemma AutoMapScenarioInOrder(registry: Registry)
    ensures IsEnumeration(["a", "b"], CommonNames(TestAutoMap()))
    ensures var r := AutoBuild(TestAutoMap(), BuiltInPatterns(), ["a", "b"]);
            && r.Ok?
            && Run(r.value[0].instructions, GabrielA(), EmptyB(), registry) == Ok(GabrielB())
            && Run(r.value[1].instructions, GabrielB(), EmptyA(), registry) == Ok(GabrielA())
  {
    AutoMapListsInOrder();
    AutoMapForward(registry);
    AutoMapBackward(registry);
  }

  /** A(x: int, y: int) to B(x: int) with no steps: `y` is not mapped. */
  function SmallMembers(t: TypeName): map<string, TypeName> {
    if t == "A" then map["x" := "int", "y" := "int"]
    else if t == "B" then map["x" := "int"]
    else map[]
  }

  lemma MissingFieldScenario(order: seq<string>)
    requires IsEnumeration(order, CommonNames(AutoMap("A", "B", [], [], [], SmallMembers, true)))
    ensures AutoBuild(AutoMap("A", "B", [], [], [], SmallMembers, true), BuiltInPatterns(), order) ==
            Err(UncoveredSource({"y"}, "A"))
  {
    var am := AutoMap("A", "B", [], [], [], SmallMembers, true);
    assert SourceNames(am) == {"x", "y"};
    assert DestinationNames(am) == {"x"};
    assert CommonNames(am) == {"x"};
    assert MissingSourceNames(am) == {"y"};
    assert MissingDestinationNames(am) == {};
    assert TypesAgree(am);
    assert !CoversSource([], "y");
    CoverageOrder(am, order);
    assert (set n | n in MissingSourceNames(am) && !CoversSource([], n)) == {"y"};
  }

  /** A(x: int) to B(x: str) with a user step that maps `x` onto `x`: the builder still
      looks for a rule for `x` and raises. */
  function MismatchMembers(t: TypeName): map<string, TypeName> {
    if t == "A" then map["x" := "int"]
    else if t == "B" then map["x" := "str"]
    else map[]
  }

  lemma MismatchDespiteUserStep(order: seq<string>)
    requires IsEnumeration(order, CommonNames(AutoMap("A", "B", [Rename("x", "x")], [], [], MismatchMembers, true)))
    ensures AutoBuild(AutoMap("A", "B", [Rename("x", "x")], [], [], MismatchMembers, true), BuiltInPatterns(), order) ==
            Err(NoPatternFor("x", "int", "str"))
  {
    var am := AutoMap("A", "B", [Rename("x", "x")], [], [], MismatchMembers, true);
    assert CommonNames(am) == {"x"};
    assert am.commonSteps[0] == Rename("x", "x");
    assert AllSupported(am.commonSteps);
    assert !TypesAgree(am);
    TypeMismatchFirst(am, order);
  }

  /** A user NaturalCopy among the common steps: reading its `supported_members` raises,
      so `build` fails. */
  lemma UserNaturalCopyRaises(order: seq<string>)
    requires IsEnumeration(order, CommonNames(AutoMap("A", "B", [NaturalCopy(["x"])], [], [], SmallMembers, true)))
    ensures AutoBuild(AutoMap("A", "B", [NaturalCopy(["x"])], [], [], SmallMembers, true), BuiltInPatterns(), order) ==
            Err(UnboundMembers)
  {
    var am := AutoMap("A", "B", [NaturalCopy(["x"])], [], [], SmallMembers, true);
    assert CommonNames(am) == {"x"};
    assert "x" in order;
    assert SupportedMembers(am.commonSteps[0]).Err?;
    assert !AllSupported(am.commonSteps);
    assert forall n :: n in order ==> n == "x";
    SynthesizeErrMeans(order, SmallMembers("A"), SmallMembers("B"), am.commonSteps, BuiltInPatterns());
    SynthesizeOkMeans(order, SmallMembers("A"), SmallMembers("B"), am.commonSteps, BuiltInPatterns());
  }
}
