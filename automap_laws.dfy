/** What `AutoMap.build` computes with the rules it ships with: when it succeeds, what
    it returns, which error it reports first, and that neither the `strict` flag nor the
    iteration order of the common-name set changes the mapping. */
module AutoMapLaws {
  import opened MappingBase
  import opened Steps
  import opened PartialMapping
  import opened AutoMapping

  /** The same-name copies the built-in rule creates for `names`, in that order. */
  function Copies(names: seq<string>): (r: seq<Step>)
    ensures |r| == |names|
    ensures forall i :: 0 <= i < |names| ==> r[i] == NaturalCopy([names[i]])
  {
    seq(|names|, i requires 0 <= i < |names| => NaturalCopy([names[i]]))
  }

  /** The built-in rule matches exactly the fields whose two declared types are equal and
      then gives a single-field NaturalCopy. */
  lemma BuiltInRule(name: string, fromType: TypeName, toType: TypeName)
    ensures SynthesizeFor(BuiltInPatterns(), name, fromType, toType) ==
            if fromType == toType then Some(NaturalCopy([name])) else None
  {
    var patterns := BuiltInPatterns();
    assert FirstMatchFrom(patterns, fromType, toType, 1) == None;
  }

  /** Synthesis with the built-in rule: it succeeds iff every common field has the same
      type on both sides (and the user common steps' `supported_members` can be read),
      produces one copy per name in iteration order, and otherwise names a mismatching
      field. */
  lemma SynthesizeBuiltIn(order: seq<string>, fromMembers: map<string, TypeName>, toMembers: map<string, TypeName>,
                          userCommon: seq<Step>)
    requires forall n :: n in order ==> n in fromMembers && n in toMembers
    ensures var r := Synthesize(order, fromMembers, toMembers, userCommon, BuiltInPatterns());
            && (r.Ok? <==> (order == [] || AllSupported(userCommon)) && forall n :: n in order ==> fromMembers[n] == toMembers[n])
            && (r.Ok? ==> r.value == Copies(order))
            && (r.Err? && AllSupported(userCommon) ==>
                  exists m :: m in order && fromMembers[m] != toMembers[m] && r.error == NoPatternFor(m, fromMembers[m], toMembers[m]))
  {
    forall n | n in order
      ensures SynthesizeFor(BuiltInPatterns(), n, fromMembers[n], toMembers[n]) ==
              if fromMembers[n] == toMembers[n] then Some(NaturalCopy([n])) else None
    {
      BuiltInRule(n, fromMembers[n], toMembers[n]);
    }
    SynthesizeMeans(order, fromMembers, toMembers, userCommon, BuiltInPatterns());
    var r := Synthesize(order, fromMembers, toMembers, userCommon, BuiltInPatterns());
    assert forall i :: 0 <= i < |order| ==> order[i] in order;
    if r.Ok? {
      assert r.value == Copies(order);
    }
  }

  /** Every field both types declare has the same declared type on both sides. */
  ghost predicate TypesAgree(am: AutoMap) {
    forall n :: n in CommonNames(am) ==> am.inspectMembers(am.fromType)[n] == am.inspectMembers(am.toType)[n]
  }

  /** The user common steps chained with `steps` cover every field only the source type
      declares (as a first component) and every field only the destination type declares
      (as a second component). */
  ghost predicate Covered(am: AutoMap, steps: seq<Step>) {
    var chained := am.commonSteps + steps;
    && AllSupported(chained)
    && (forall n :: n in MissingSourceNames(am) ==> CoversSource(chained, n))
    && (forall n :: n in MissingDestinationNames(am) ==> CoversDestination(chained, n))
  }

  lemma AllSupportedPrefix(a: seq<Step>, b: seq<Step>)
    requires AllSupported(a + b)
    ensures AllSupported(a)
  {
    assert forall i :: 0 <= i < |a| ==> (a + b)[i] == a[i];
  }

  /** The common names are exactly the fields of both types; the missing names are the
      rest of each side, and the three sets are disjoint. */
  lemma ClassifyNames(am: AutoMap)
    ensures CommonNames(am) + MissingSourceNames(am) == SourceNames(am)
    ensures CommonNames(am) + MissingDestinationNames(am) == DestinationNames(am)
    ensures CommonNames(am) !! MissingSourceNames(am) && CommonNames(am) !! MissingDestinationNames(am)
    ensures MissingSourceNames(am) !! MissingDestinationNames(am)
  {
  }

  /** Same-name copies have a `map_backward`, so a chain starting with them has one
      everywhere iff its tail does. */
  lemma CopiesHaveBackward(order: seq<string>, common: seq<Step>)
    ensures (forall i :: 0 <= i < |Copies(order) + common| ==> HasBackward((Copies(order) + common)[i])) <==>
            (forall i :: 0 <= i < |common| ==> HasBackward(common[i]))
  {
    var all := Copies(order) + common;
    assert forall i :: 0 <= i < |order| ==> all[i] == NaturalCopy([order[i]]);
    assert forall i :: 0 <= i < |common| ==> all[|order| + i] == common[i];
    if forall i :: 0 <= i < |common| ==> HasBackward(common[i]) {
      forall i | 0 <= i < |all| ensures HasBackward(all[i]) {
        if i >= |order| {
          assert all[i] == common[i - |order|];
        }
      }
    }
  }

  /** With the built-in rule, synthesis over an enumeration of the common names succeeds
      iff the shared fields agree on their types and (when there is a shared field) the
      user common steps' `supported_members` can be read; its steps are then the copies. */
  lemma SynthesizeAgrees(am: AutoMap, order: seq<string>)
    requires IsEnumeration(order, CommonNames(am))
    ensures var r := Synthesize(order, am.inspectMembers(am.fromType), am.inspectMembers(am.toType),
                                am.commonSteps, BuiltInPatterns());
            && (r.Ok? <==> (order == [] || AllSupported(am.commonSteps)) && TypesAgree(am))
            && (r.Ok? ==> r.value == Copies(order))
  {
    SynthesizeBuiltIn(order, am.inspectMembers(am.fromType), am.inspectMembers(am.toType), am.commonSteps);
    assert forall n :: n in order <==> n in CommonNames(am);
  }

  /** With the built-in rule, `build` succeeds iff the shared fields agree on their types,
      both the forward and the reverse step lists (each after the user common steps) cover
      every unshared field, and every user common step has a `map_backward`. */
  lemma AutoBuildSucceedsIff(am: AutoMap, order: seq<string>)
    requires IsEnumeration(order, CommonNames(am))
    ensures AutoBuild(am, BuiltInPatterns(), order).Ok? <==>
            && TypesAgree(am)
            && Covered(am, am.forwardSteps)
            && Covered(am, am.reverseSteps)
            && forall i :: 0 <= i < |am.commonSteps| ==> HasBackward(am.commonSteps[i])
  {
    var synthesized := Synthesize(order, am.inspectMembers(am.fromType), am.inspectMembers(am.toType),
                                  am.commonSteps, BuiltInPatterns());
    var forwardCheck := CheckCoverage(am.commonSteps + am.forwardSteps, MissingSourceNames(am), MissingDestinationNames(am),
                                      am.fromType, am.toType);
    var reverseCheck := CheckCoverage(am.commonSteps + am.reverseSteps, MissingSourceNames(am), MissingDestinationNames(am),
                                      am.fromType, am.toType);
    assert forwardCheck.Pass? <==> Covered(am, am.forwardSteps);
    assert reverseCheck.Pass? <==> Covered(am, am.reverseSteps);
    SynthesizeAgrees(am, order);
    if Covered(am, am.forwardSteps) {
      AllSupportedPrefix(am.commonSteps, am.forwardSteps);
    }
    if synthesized.Ok? && forwardCheck.Pass? && reverseCheck.Pass? {
      CopiesHaveBackward(order, am.commonSteps);
      assert AutoBuild(am, BuiltInPatterns(), order) ==
             Compile(PartialMap(am.fromType, am.toType, Copies(order) + am.commonSteps, am.forwardSteps, am.reverseSteps));
    }
  }

  /** A successful `build` is the compilation of the synthesized steps followed by the
      user common steps. */
  lemma AutoBuildOk(am: AutoMap, patterns: seq<TypePattern>, order: seq<string>)
    requires IsEnumeration(order, CommonNames(am))
    requires AutoBuild(am, patterns, order).Ok?
    ensures var synthesized := Synthesize(order, am.inspectMembers(am.fromType), am.inspectMembers(am.toType),
                                          am.commonSteps, patterns);
            synthesized.Ok? &&
            AutoBuild(am, patterns, order) ==
            Compile(PartialMap(am.fromType, am.toType, synthesized.value + am.commonSteps, am.forwardSteps, am.reverseSteps))
  {
  }

  /** With the built-in rule, a successful `build` compiles the same-name copies followed
      by the user common steps. */
  lemma AutoBuildCopies(am: AutoMap, order: seq<string>)
    requires IsEnumeration(order, CommonNames(am))
    requires AutoBuild(am, BuiltInPatterns(), order).Ok?
    ensures AutoBuild(am, BuiltInPatterns(), order) ==
            Compile(PartialMap(am.fromType, am.toType, Copies(order) + am.commonSteps, am.forwardSteps, am.reverseSteps))
  {
    AutoBuildOk(am, BuiltInPatterns(), order);
    SynthesizeBuiltIn(order, am.inspectMembers(am.fromType), am.inspectMembers(am.toType), am.commonSteps);
  }

  /** On success, `build` returns what `PartialMap(from, to, copies ++ user common, forward,
      reverse).build` returns: the same-name copies come first, in iteration order. */
  lemma AutoBuildResult(am: AutoMap, order: seq<string>)
    requires IsEnumeration(order, CommonNames(am))
    requires AutoBuild(am, BuiltInPatterns(), order).Ok?
    ensures AutoBuild(am, BuiltInPatterns(), order) ==
            Ok([Entry(am.fromType, am.toType, Bind(Copies(order) + am.commonSteps, Forward) + Bind(am.forwardSteps, Forward)),
                Entry(am.toType, am.fromType, Bind(Copies(order) + am.commonSteps, Backward) + Bind(am.reverseSteps, Forward))])
  {
    AutoBuildCopies(am, order);
    var pm := PartialMap(am.fromType, am.toType, Copies(order) + am.commonSteps, am.forwardSteps, am.reverseSteps);
    CompileOk(pm);
  }

  /** A user common step whose `supported_members` raises (a NaturalCopy) makes `build`
      raise that error for every rule list: in the name loop when the types share a
      field, and in the coverage check otherwise. */
  lemma UnreadableCommonStepRaises(am: AutoMap, patterns: seq<TypePattern>, order: seq<string>)
    requires IsEnumeration(order, CommonNames(am))
    requires !AllSupported(am.commonSteps)
    ensures AutoBuild(am, patterns, order) == Err(UnboundMembers)
  {
    var fromMembers, toMembers := am.inspectMembers(am.fromType), am.inspectMembers(am.toType);
    SynthesizeOkIff(order, fromMembers, toMembers, am.commonSteps, patterns);
    SynthesizeErrMeans(order, fromMembers, toMembers, am.commonSteps, patterns);
    if AllSupported(am.commonSteps + am.forwardSteps) {
      AllSupportedPrefix(am.commonSteps, am.forwardSteps);
    }
  }

  /** A shared field whose two types differ makes `build` raise "no mapper found" for some
      such field, before any coverage check and whatever the user steps cover, including
      a user step that lists the field itself. */
  lemma TypeMismatchFirst(am: AutoMap, order: seq<string>)
    requires IsEnumeration(order, CommonNames(am))
    requires AllSupported(am.commonSteps)
    requires !TypesAgree(am)
    ensures var fromMembers, toMembers := am.inspectMembers(am.fromType), am.inspectMembers(am.toType);
            exists m :: m in CommonNames(am) && fromMembers[m] != toMembers[m] &&
                        AutoBuild(am, BuiltInPatterns(), order) == Err(NoPatternFor(m, fromMembers[m], toMembers[m]))
  {
    var fromMembers, toMembers := am.inspectMembers(am.fromType), am.inspectMembers(am.toType);
    SynthesizeBuiltIn(order, fromMembers, toMembers, am.commonSteps);
  }

  /** Once synthesis succeeds, an incomplete forward list is reported (with what the
      forward check reports) before the reverse list is looked at, and an incomplete
      reverse list is reported only when the forward list is complete. Within one check
      an uncovered source field is reported before an uncovered destination field
      (`CheckCoverage`). */
  lemma CoverageOrder(am: AutoMap, order: seq<string>)
    requires IsEnumeration(order, CommonNames(am))
    requires TypesAgree(am) && (CommonNames(am) == {} || AllSupported(am.commonSteps))
    ensures !Covered(am, am.forwardSteps) ==>
              AutoBuild(am, BuiltInPatterns(), order) ==
              Err(CheckCoverage(am.commonSteps + am.forwardSteps, MissingSourceNames(am), MissingDestinationNames(am),
                                am.fromType, am.toType).error)
    ensures Covered(am, am.forwardSteps) && !Covered(am, am.reverseSteps) ==>
              AutoBuild(am, BuiltInPatterns(), order) ==
              Err(CheckCoverage(am.commonSteps + am.reverseSteps, MissingSourceNames(am), MissingDestinationNames(am),
                                am.fromType, am.toType).error)
  {
    var fromMembers, toMembers := am.inspectMembers(am.fromType), am.inspectMembers(am.toType);
    SynthesizeBuiltIn(order, fromMembers, toMembers, am.commonSteps);
    assert order == [] <==> CommonNames(am) == {} by {
      if order != [] { assert order[0] in CommonNames(am); }
      if CommonNames(am) != {} { var n :| n in CommonNames(am); assert n in order; }
    }
  }

  /** The `strict` flag is stored but never read. */
  lemma StrictUnused(am: AutoMap, patterns: seq<TypePattern>, order: seq<string>, strict: bool)
    requires IsEnumeration(order, CommonNames(am))
    ensures CommonNames(am.(strict := strict)) == CommonNames(am)
    ensures AutoBuild(am.(strict := strict), patterns, order) == AutoBuild(am, patterns, order)
  {
  }

  /** Two instruction lists that fail together and otherwise leave the same destination. */
  ghost predicate RunsAlike(a: seq<Instruction>, b: seq<Instruction>, source: Record, dest: Record, registry: Registry) {
    var ra, rb := Run(a, source, dest, registry), Run(b, source, dest, registry);
    (ra.Ok? <==> rb.Ok?) && (ra.Ok? ==> ra.value == rb.value)
  }

  lemma {:induction false} BindAppend(a: seq<Step>, b: seq<Step>, direction: Direction)
    ensures Bind(a + b, direction) == Bind(a, direction) + Bind(b, direction)
  {
    var l, r := Bind(a + b, direction), Bind(a, direction) + Bind(b, direction);
    assert |l| == |r|;
    forall i | 0 <= i < |l| ensures l[i] == r[i] {
      if i < |a| { assert (a + b)[i] == a[i]; } else { assert (a + b)[i] == b[i - |a|]; }
    }
  }

  /** Running the same-name copies, in either direction, fails iff some name is absent
      from the source, and otherwise overwrites exactly those names with the source's
      fields; a name listed twice is simply written twice. */
  lemma {:induction false} CopiesRun(names: seq<string>, direction: Direction, source: Record, dest: Record, registry: Registry)
    ensures var r := Run(Bind(Copies(names), direction), source, dest, registry);
            && (r.Ok? <==> forall n :: n in names ==> n in source)
            && (r.Ok? ==> forall k :: k in r.value <==> k in dest || k in names)
            && (r.Ok? ==> forall k :: k in r.value ==> r.value[k] == if k in names then source[k] else dest[k])
    decreases |names|
  {
    if names != [] {
      var instrs := Bind(Copies(names), direction);
      assert instrs[0] == Instruction(NaturalCopy([names[0]]), direction);
      assert instrs[1..] == Bind(Copies(names[1..]), direction);
      assert forall n :: n in names <==> n == names[0] || n in names[1..];
      match Apply(instrs[0], source, dest, registry)
      case Err(e) =>
      case Ok(d) =>
        CopiesRun(names[1..], direction, source, d, registry);
    }
  }

  /** The same-name copies of two enumerations of one set run alike. */
  lemma CopiesRunAlike(o1: seq<string>, o2: seq<string>, direction: Direction, source: Record, dest: Record, registry: Registry)
    requires forall n :: n in o1 <==> n in o2
    ensures RunsAlike(Bind(Copies(o1), direction), Bind(Copies(o2), direction), source, dest, registry)
  {
    CopiesRun(o1, direction, source, dest, registry);
    CopiesRun(o2, direction, source, dest, registry);
    var r1, r2 := Run(Bind(Copies(o1), direction), source, dest, registry), Run(Bind(Copies(o2), direction), source, dest, registry);
    if r1.Ok? {
      var m1, m2 := r1.value, r2.value;
      assert m1.Keys == m2.Keys by {
        forall k ensures k in m1 <==> k in m2 {
          assert k in o1 <==> k in o2;
        }
      }
      forall k | k in m1 ensures m1[k] == m2[k] {
        assert k in o1 <==> k in o2;
      }
    }
  }

  /** Lists that start with lists that run alike and continue with the same
      instructions run alike. */
  lemma RunsAlikeThen(a: seq<Instruction>, b: seq<Instruction>, rest: seq<Instruction>,
                      source: Record, dest: Record, registry: Registry)
    requires RunsAlike(a, b, source, dest, registry)
    ensures RunsAlike(a + rest, b + rest, source, dest, registry)
  {
    RunAppend(a, rest, source, dest, registry);
    RunAppend(b, rest, source, dest, registry);
  }

  /** A compiled list whose common part starts with `copies`, split after them. */
  lemma SplitAfterCopies(copies: seq<Step>, common: seq<Step>, tail: seq<Step>, direction: Direction)
    ensures Bind(copies + common, direction) + Bind(tail, Forward) ==
            Bind(copies, direction) + (Bind(common, direction) + Bind(tail, Forward))
  {
    BindAppend(copies, common, direction);
  }

  /** The iteration order of the common-name set does not matter: for any two orders,
      `build` succeeds for both or neither, and the two forward lists (and the two
      backward lists) map every record alike. */
  lemma OrderIrrelevant(am: AutoMap, o1: seq<string>, o2: seq<string>, source: Record, dest: Record, registry: Registry)
    requires IsEnumeration(o1, CommonNames(am)) && IsEnumeration(o2, CommonNames(am))
    ensures AutoBuild(am, BuiltInPatterns(), o1).Ok? <==> AutoBuild(am, BuiltInPatterns(), o2).Ok?
    ensures AutoBuild(am, BuiltInPatterns(), o1).Ok? ==>
              var e1, e2 := AutoBuild(am, BuiltInPatterns(), o1).value, AutoBuild(am, BuiltInPatterns(), o2).value;
              && RunsAlike(e1[0].instructions, e2[0].instructions, source, dest, registry)
              && RunsAlike(e1[1].instructions, e2[1].instructions, source, dest, registry)
  {
    AutoBuildSucceedsIff(am, o1);
    AutoBuildSucceedsIff(am, o2);
    if AutoBuild(am, BuiltInPatterns(), o1).Ok? {
      AutoBuildResult(am, o1);
      AutoBuildResult(am, o2);
      SplitAfterCopies(Copies(o1), am.commonSteps, am.forwardSteps, Forward);
      SplitAfterCopies(Copies(o2), am.commonSteps, am.forwardSteps, Forward);
      SplitAfterCopies(Copies(o1), am.commonSteps, am.reverseSteps, Backward);
      SplitAfterCopies(Copies(o2), am.commonSteps, am.reverseSteps, Backward);
      CopiesRunAlike(o1, o2, Forward, source, dest, registry);
      CopiesRunAlike(o1, o2, Backward, source, dest, registry);
      RunsAlikeThen(Bind(Copies(o1), Forward), Bind(Copies(o2), Forward),
                    Bind(am.commonSteps, Forward) + Bind(am.forwardSteps, Forward), source, dest, registry);
      RunsAlikeThen(Bind(Copies(o1), Backward), Bind(Copies(o2), Backward),
                    Bind(am.commonSteps, Backward) + Bind(am.reverseSteps, Forward), source, dest, registry);
    }
  }
}
