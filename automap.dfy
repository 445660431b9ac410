/** AutoMap (automapper.py): infers same-name copies for the fields both record types
    declare, checks that every other field is covered by some step, and delegates
    the compilation to PartialMap. */
module AutoMapping {
  import opened MappingBase
  import opened Steps
  import opened PartialMapping

  /** `LambdaMatch(match, create_step)`: a type-pattern rule. `create_step` may return
      `None`, which the builder treats like no match. */
  datatype TypePattern = LambdaMatch(
    matches: (TypeName, TypeName) -> bool,
    createStep: (string, string, TypeName, TypeName) -> Option<Step>)

  /** `AutoMap.type_mapper_patterns` as shipped: equal declared types give a
      single-field NaturalCopy. */
  function BuiltInPatterns(): seq<TypePattern> {
    [LambdaMatch((fromType: TypeName, toType: TypeName) => fromType == toType,
                 (fromName: string, toName: string, fromType: TypeName, toType: TypeName) => Some(NaturalCopy([fromName])))]
  }

  /** Index of the first rule whose predicate holds, searching from `start`. */
  function FirstMatchFrom(patterns: seq<TypePattern>, fromType: TypeName, toType: TypeName, start: nat): (r: Option<nat>)
    requires start <= |patterns|
    ensures r.Some? ==> start <= r.value < |patterns| && patterns[r.value].matches(fromType, toType) &&
                        forall j :: start <= j < r.value ==> !patterns[j].matches(fromType, toType)
    ensures r.None? ==> forall j :: start <= j < |patterns| ==> !patterns[j].matches(fromType, toType)
    decreases |patterns| - start
  {
    if start == |patterns| then None
    else if patterns[start].matches(fromType, toType) then Some(start)
    else FirstMatchFrom(patterns, fromType, toType, start + 1)
  }

  /** The step the rules give for a common field: the first matching rule's creation. */
  function SynthesizeFor(patterns: seq<TypePattern>, name: string, fromType: TypeName, toType: TypeName): Option<Step> {
    match FirstMatchFrom(patterns, fromType, toType, 0)
    case None => None
    case Some(i) => patterns[i].createStep(name, name, fromType, toType)
  }

  /** The rule loop of `_build_common_steps`, which stops at the first match. */
  method CreateFromFirstMatch(patterns: seq<TypePattern>, name: string, fromType: TypeName, toType: TypeName)
    returns (mappingStep: Option<Step>)
    ensures mappingStep == SynthesizeFor(patterns, name, fromType, toType)
  {
    mappingStep := None;
    var p := 0;
    while p < |patterns|
      invariant 0 <= p <= |patterns|
      invariant forall j :: 0 <= j < p ==> !patterns[j].matches(fromType, toType)
    {
      if patterns[p].matches(fromType, toType) {
        mappingStep := patterns[p].createStep(name, name, fromType, toType);
        assert FirstMatchFrom(patterns, fromType, toType, 0) == Some(p);
        return;
      }
      p := p + 1;
    }
    assert FirstMatchFrom(patterns, fromType, toType, 0) == None;
  }

  /** Evaluating `supported_members` of every step raises nothing. */
  predicate AllSupported(steps: seq<Step>) {
    forall i :: 0 <= i < |steps| ==> SupportedMembers(steps[i]).Ok?
  }

  /** The step `_build_common_steps` produces for one common name: first the
      `supported_members` of every user common step are evaluated (the `continue` there
      only continues that inner loop, so it has no other effect), then the rules are
      asked; no rule, or a rule creating `None`, raises. */
  function SynthesizeName(name: string, fromType: TypeName, toType: TypeName,
                          userCommon: seq<Step>, patterns: seq<TypePattern>): Result<Step>
  {
    if !AllSupported(userCommon) then Err(UnboundMembers)
    else
      match SynthesizeFor(patterns, name, fromType, toType)
      case None => Err(NoPatternFor(name, fromType, toType))
      case Some(step) => Ok(step)
  }

  /** `_build_common_steps` over the common names taken in the order `order`. */
  ghost function Synthesize(order: seq<string>, fromMembers: map<string, TypeName>, toMembers: map<string, TypeName>,
                            userCommon: seq<Step>, patterns: seq<TypePattern>): (r: Result<seq<Step>>)
    requires forall n :: n in order ==> n in fromMembers && n in toMembers
    ensures r.Ok? ==> |r.value| == |order|
    decreases |order|
  {
    if order == [] then Ok([])
    else
      var init := order[..|order| - 1];
      var name := order[|order| - 1];
      assert forall n :: n in init ==> n in order;
      var prev := Synthesize(init, fromMembers, toMembers, userCommon, patterns);
      if prev.Err? then prev
      else
        match SynthesizeName(name, fromMembers[name], toMembers[name], userCommon, patterns)
        case Err(e) => Err(e)
        case Ok(step) => Ok(prev.value + [step])
  }

  /** Synthesis succeeds iff every shared field gets a step from the rules (and, when there
      is one, the user common steps' `supported_members` can be read). */
  lemma {:induction false} SynthesizeOkIff(order: seq<string>, fromMembers: map<string, TypeName>, toMembers: map<string, TypeName>,
                                           userCommon: seq<Step>, patterns: seq<TypePattern>)
    requires forall n :: n in order ==> n in fromMembers && n in toMembers
    ensures Synthesize(order, fromMembers, toMembers, userCommon, patterns).Ok? <==>
            (order == [] || AllSupported(userCommon)) &&
            forall i :: 0 <= i < |order| ==> SynthesizeFor(patterns, order[i], fromMembers[order[i]], toMembers[order[i]]).Some?
    decreases |order|
  {
    if order != [] {
      var init := order[..|order| - 1];
      assert forall n :: n in init ==> n in order;
      assert forall i :: 0 <= i < |init| ==> init[i] == order[i];
      SynthesizeOkIff(init, fromMembers, toMembers, userCommon, patterns);
    }
  }

  /** A successful synthesis holds the rules' steps in iteration order. */
  lemma {:induction false} SynthesizeOkSteps(order: seq<string>, fromMembers: map<string, TypeName>, toMembers: map<string, TypeName>,
                                             userCommon: seq<Step>, patterns: seq<TypePattern>)
    requires forall n :: n in order ==> n in fromMembers && n in toMembers
    ensures var r := Synthesize(order, fromMembers, toMembers, userCommon, patterns);
            r.Ok? ==> |r.value| == |order| &&
                      forall i :: 0 <= i < |order| ==>
                        var rule := SynthesizeFor(patterns, order[i], fromMembers[order[i]], toMembers[order[i]]);
                        rule.Some? && r.value[i] == rule.value
    decreases |order|
  {
    if order != [] {
      var init := order[..|order| - 1];
      assert forall n :: n in init ==> n in order;
      assert forall i :: 0 <= i < |init| ==> init[i] == order[i];
      SynthesizeOkSteps(init, fromMembers, toMembers, userCommon, patterns);
    }
  }

  /** Both directions of the success case together. */
  lemma SynthesizeOkMeans(order: seq<string>, fromMembers: map<string, TypeName>, toMembers: map<string, TypeName>,
                          userCommon: seq<Step>, patterns: seq<TypePattern>)
    requires forall n :: n in order ==> n in fromMembers && n in toMembers
    ensures var r := Synthesize(order, fromMembers, toMembers, userCommon, patterns);
            && (r.Ok? <==> (order == [] || AllSupported(userCommon)) &&
                           forall i :: 0 <= i < |order| ==> SynthesizeFor(patterns, order[i], fromMembers[order[i]], toMembers[order[i]]).Some?)
            && (r.Ok? ==> forall i :: 0 <= i < |order| ==>
                            r.value[i] == SynthesizeFor(patterns, order[i], fromMembers[order[i]], toMembers[order[i]]).value)
  {
    SynthesizeOkIff(order, fromMembers, toMembers, userCommon, patterns);
    SynthesizeOkSteps(order, fromMembers, toMembers, userCommon, patterns);
  }

  /** A failed synthesis reports `UnboundMembers` when the user common steps'
      `supported_members` cannot be read, and otherwise the first field in iteration order
      that no rule gives a step for. */
  lemma {:induction false} SynthesizeErrMeans(order: seq<string>, fromMembers: map<string, TypeName>, toMembers: map<string, TypeName>,
                                              userCommon: seq<Step>, patterns: seq<TypePattern>)
    requires forall n :: n in order ==> n in fromMembers && n in toMembers
    ensures var r := Synthesize(order, fromMembers, toMembers, userCommon, patterns);
            && (r.Err? && AllSupported(userCommon) ==>
                  exists i :: 0 <= i < |order| &&
                    (forall j :: 0 <= j < i ==> SynthesizeFor(patterns, order[j], fromMembers[order[j]], toMembers[order[j]]).Some?) &&
                    SynthesizeFor(patterns, order[i], fromMembers[order[i]], toMembers[order[i]]).None? &&
                    r.error == NoPatternFor(order[i], fromMembers[order[i]], toMembers[order[i]]))
            && (r.Err? && !AllSupported(userCommon) ==> r.error == UnboundMembers)
    decreases |order|
  {
    if order != [] {
      var init := order[..|order| - 1];
      var name := order[|order| - 1];
      assert forall n :: n in init ==> n in order;
      assert forall i :: 0 <= i < |init| ==> init[i] == order[i];
      SynthesizeErrMeans(init, fromMembers, toMembers, userCommon, patterns);
      var prev := Synthesize(init, fromMembers, toMembers, userCommon, patterns);
      if prev.Ok? && AllSupported(userCommon) && SynthesizeFor(patterns, name, fromMembers[name], toMembers[name]).None? {
        SynthesizeOkMeans(init, fromMembers, toMembers, userCommon, patterns);
        assert order[|order| - 1] == name;
      }
    }
  }

  /** Both characterizations of synthesis together. */
  lemma SynthesizeMeans(order: seq<string>, fromMembers: map<string, TypeName>, toMembers: map<string, TypeName>,
                        userCommon: seq<Step>, patterns: seq<TypePattern>)
    requires forall n :: n in order ==> n in fromMembers && n in toMembers
    ensures var r := Synthesize(order, fromMembers, toMembers, userCommon, patterns);
            && (r.Ok? <==> (order == [] || AllSupported(userCommon)) &&
                           forall i :: 0 <= i < |order| ==> SynthesizeFor(patterns, order[i], fromMembers[order[i]], toMembers[order[i]]).Some?)
            && (r.Ok? ==> forall i :: 0 <= i < |order| ==>
                            r.value[i] == SynthesizeFor(patterns, order[i], fromMembers[order[i]], toMembers[order[i]]).value)
            && (r.Err? && AllSupported(userCommon) ==>
                  exists i :: 0 <= i < |order| &&
                    (forall j :: 0 <= j < i ==> SynthesizeFor(patterns, order[j], fromMembers[order[j]], toMembers[order[j]]).Some?) &&
                    SynthesizeFor(patterns, order[i], fromMembers[order[i]], toMembers[order[i]]).None? &&
                    r.error == NoPatternFor(order[i], fromMembers[order[i]], toMembers[order[i]]))
            && (r.Err? && !AllSupported(userCommon) ==> r.error == UnboundMembers)
  {
    SynthesizeOkMeans(order, fromMembers, toMembers, userCommon, patterns);
    SynthesizeErrMeans(order, fromMembers, toMembers, userCommon, patterns);
  }

  /** Once synthesis has raised, later names are never reached. */
  lemma {:induction false} SynthesizeStops(p: seq<string>, q: seq<string>, fromMembers: map<string, TypeName>,
                                           toMembers: map<string, TypeName>, userCommon: seq<Step>, patterns: seq<TypePattern>)
    requires forall n :: n in p + q ==> n in fromMembers && n in toMembers
    requires Synthesize(p, fromMembers, toMembers, userCommon, patterns).Err?
    ensures Synthesize(p + q, fromMembers, toMembers, userCommon, patterns) == Synthesize(p, fromMembers, toMembers, userCommon, patterns)
    decreases |q|
  {
    if q == [] {
      assert p + q == p;
    } else {
      var q' := q[..|q| - 1];
      assert (p + q)[..|p + q| - 1] == p + q';
      assert forall n :: n in p + q' ==> n in p + q;
      SynthesizeStops(p, q', fromMembers, toMembers, userCommon, patterns);
    }
  }

  lemma EnumerationSplit(done: seq<string>, name: string, rest: seq<string>, names: set<string>, remaining: set<string>)
    requires Distinct(done) && (forall x :: x in done <==> x in names - remaining) && remaining <= names
    requires name in remaining && IsEnumeration(rest, remaining - {name})
    ensures IsEnumeration(done + [name] + rest, names)
  {
    var s := done + [name] + rest;
    forall i, j | 0 <= i < j < |s| ensures s[i] != s[j] {
      if j < |done| {
      } else if j == |done| {
        assert s[i] in done;
      } else if i < |done| {
        assert s[i] in done && s[j] in rest;
      } else if i == |done| {
        assert s[j] in rest;
      } else {
        assert s[i] == rest[i - |done| - 1] && s[j] == rest[j - |done| - 1];
      }
    }
    forall x ensures x in s <==> x in names {
      if x in s {
        var k :| 0 <= k < |s| && s[k] == x;
        if k < |done| { assert x in done; } else if k > |done| { assert x in rest; }
      }
      if x in names {
        if x in done { } else if x == name { assert s[|done|] == x; } else {
          assert x in rest;
          var k :| 0 <= k < |rest| && rest[k] == x;
          assert s[|done| + 1 + k] == x;
        }
      }
    }
  }

  /** Synthesis over one more name extends the steps or raises for that name. */
  lemma SynthesizeSnoc(order: seq<string>, name: string, fromMembers: map<string, TypeName>, toMembers: map<string, TypeName>,
                       userCommon: seq<Step>, patterns: seq<TypePattern>, steps: seq<Step>)
    requires forall n :: n in order + [name] ==> n in fromMembers && n in toMembers
    requires Synthesize(order, fromMembers, toMembers, userCommon, patterns) == Ok(steps)
    ensures Synthesize(order + [name], fromMembers, toMembers, userCommon, patterns) ==
            match SynthesizeName(name, fromMembers[name], toMembers[name], userCommon, patterns)
            case Err(e) => Err(e)
            case Ok(step) => Ok(steps + [step])
  {
    assert (order + [name])[..|order|] == order;
  }

  /** Synthesis that raises at `name` raises the same error whatever names follow. */
  lemma SynthesizeRaisesAt(order: seq<string>, name: string, rest: seq<string>,
                           fromMembers: map<string, TypeName>, toMembers: map<string, TypeName>,
                           userCommon: seq<Step>, patterns: seq<TypePattern>, steps: seq<Step>, e: Error)
    requires forall n :: n in order + [name] + rest ==> n in fromMembers && n in toMembers
    requires Synthesize(order, fromMembers, toMembers, userCommon, patterns) == Ok(steps)
    requires SynthesizeName(name, fromMembers[name], toMembers[name], userCommon, patterns) == Err(e)
    ensures Synthesize(order + [name] + rest, fromMembers, toMembers, userCommon, patterns) == Err(e)
  {
    assert forall n :: n in order + [name] ==> n in order + [name] + rest;
    SynthesizeSnoc(order, name, fromMembers, toMembers, userCommon, patterns, steps);
    SynthesizeStops(order + [name], rest, fromMembers, toMembers, userCommon, patterns);
  }

  /** A visit that gives a step keeps the loop's bookkeeping: the visited names stay an
      enumeration of the names taken out of the remaining set, and synthesis over them
      gives the steps collected so far. */
  lemma VisitExtends(order: seq<string>, name: string, names: set<string>, remaining: set<string>,
                     fromMembers: map<string, TypeName>, toMembers: map<string, TypeName>,
                     userCommon: seq<Step>, patterns: seq<TypePattern>, steps: seq<Step>, step: Step)
    requires names <= fromMembers.Keys && names <= toMembers.Keys && remaining <= names && name in remaining
    requires Distinct(order) && forall x :: x in order <==> x in names - remaining
    requires Synthesize(order, fromMembers, toMembers, userCommon, patterns) == Ok(steps)
    requires SynthesizeName(name, fromMembers[name], toMembers[name], userCommon, patterns) == Ok(step)
    ensures Distinct(order + [name]) && forall x :: x in order + [name] <==> x in names - (remaining - {name})
    ensures Synthesize(order + [name], fromMembers, toMembers, userCommon, patterns) == Ok(steps + [step])
  {
    var next := order + [name];
    forall i, j | 0 <= i < j < |next| ensures next[i] != next[j] {
      if j == |order| { assert next[i] in order; }
    }
    SynthesizeSnoc(order, name, fromMembers, toMembers, userCommon, patterns, steps);
  }

  /** The body of the name loop of `_build_common_steps`. */
  method BuildCommonStep(name: string, fromType: TypeName, toType: TypeName,
                         userCommon: seq<Step>, patterns: seq<TypePattern>) returns (r: Result<Step>)
    ensures r == SynthesizeName(name, fromType, toType, userCommon, patterns)
  {
    for k := 0 to |userCommon|
      invariant AllSupported(userCommon[..k])
    {
      assert userCommon[..k + 1][..k] == userCommon[..k];
      var members := SupportedMembers(userCommon[k]);
      if members.Err? {
        return Err(members.error);
      }
      if (name, name) in members.value {
        continue;
      }
    }
    assert userCommon[..|userCommon|] == userCommon;
    var mappingStep := CreateFromFirstMatch(patterns, name, fromType, toType);
    if mappingStep.None? {
      return Err(NoPatternFor(name, fromType, toType));
    }
    return Ok(mappingStep.value);
  }

  /** `_build_common_steps(common_member_names, from_members, to_members)`. Python
      iterates the set of common names in an order the language leaves open; `order`
      is the order taken (for an early raise, completed by the names never reached). */
  method BuildCommonSteps(commonNames: set<string>, fromMembers: map<string, TypeName>, toMembers: map<string, TypeName>,
                          userCommon: seq<Step>, patterns: seq<TypePattern>)
    returns (r: Result<seq<Step>>, ghost order: seq<string>)
    requires commonNames <= fromMembers.Keys && commonNames <= toMembers.Keys
    ensures IsEnumeration(order, commonNames)
    ensures r == Synthesize(order, fromMembers, toMembers, userCommon, patterns)
    ensures r.Ok? ==> |r.value| == |commonNames|
  {
    var commonSteps: seq<Step> := [];
    order := [];
    var remaining := commonNames;
    while remaining != {}
      invariant remaining <= commonNames
      invariant Distinct(order) && forall x :: x in order <==> x in commonNames - remaining
      invariant Synthesize(order, fromMembers, toMembers, userCommon, patterns) == Ok(commonSteps)
      decreases remaining
    {
      var name :| name in remaining;
      ghost var rest := SomeEnumeration(remaining - {name});
      ghost var full := order + [name] + rest;
      EnumerationSplit(order, name, rest, commonNames, remaining);
      assert forall n :: n in full ==> n in fromMembers && n in toMembers;
      var mappingStep := BuildCommonStep(name, fromMembers[name], toMembers[name], userCommon, patterns);
      if mappingStep.Err? {
        r := Err(mappingStep.error);
        SynthesizeRaisesAt(order, name, rest, fromMembers, toMembers, userCommon, patterns, commonSteps, mappingStep.error);
        order := full;
        return;
      }
      VisitExtends(order, name, commonNames, remaining, fromMembers, toMembers, userCommon, patterns, commonSteps, mappingStep.value);
      commonSteps := commonSteps + [mappingStep.value];
      order := order + [name];
      remaining := remaining - {name};
    }
    EnumerationLength(order, commonNames);
    r := Ok(commonSteps);
  }

  /** `name` is the first component of a pair some step supports. */
  ghost predicate CoversSource(steps: seq<Step>, name: string) {
    exists i, p :: 0 <= i < |steps| && SupportedMembers(steps[i]).Ok? && p in SupportedMembers(steps[i]).value && p.0 == name
  }

  /** `name` is the second component of a pair some step supports. */
  ghost predicate CoversDestination(steps: seq<Step>, name: string) {
    exists i, p :: 0 <= i < |steps| && SupportedMembers(steps[i]).Ok? && p in SupportedMembers(steps[i]).value && p.1 == name
  }

  function Firsts(pairs: seq<MemberPair>): set<string> { set p | p in pairs :: p.0 }
  function Seconds(pairs: seq<MemberPair>): set<string> { set p | p in pairs :: p.1 }

  /** The sets `tagged_from_member_names` and `tagged_to_member_names` after the
      tagging loop has seen `steps`. */
  function Tagged(steps: seq<Step>): (set<string>, set<string>)
    requires AllSupported(steps)
    decreases |steps|
  {
    if steps == [] then ({}, {})
    else
      var prev := Tagged(steps[..|steps| - 1]);
      var pairs := SupportedMembers(steps[|steps| - 1]).value;
      (prev.0 + Firsts(pairs), prev.1 + Seconds(pairs))
  }

  /** The first set of `Tagged` holds exactly the names some step supports as a source. */
  lemma {:induction false} TaggedSourceMeans(steps: seq<Step>)
    requires AllSupported(steps)
    ensures forall n :: n in Tagged(steps).0 <==> CoversSource(steps, n)
    decreases |steps|
  {
    if steps != [] {
      var init, last := steps[..|steps| - 1], steps[|steps| - 1];
      TaggedSourceMeans(init);
      var pairs := SupportedMembers(last).value;
      forall n ensures n in Tagged(steps).0 <==> CoversSource(steps, n) {
        if CoversSource(steps, n) {
          var i, p :| 0 <= i < |steps| && SupportedMembers(steps[i]).Ok? && p in SupportedMembers(steps[i]).value && p.0 == n;
          if i < |init| { assert init[i] == steps[i]; assert CoversSource(init, n); }
        }
        if n in Tagged(init).0 {
          var i, p :| 0 <= i < |init| && SupportedMembers(init[i]).Ok? && p in SupportedMembers(init[i]).value && p.0 == n;
          assert steps[i] == init[i];
        }
        if n in Firsts(pairs) {
          var p :| p in pairs && p.0 == n;
          assert steps[|steps| - 1] == last;
        }
      }
    }
  }

  /** The second set of `Tagged` holds exactly the names some step supports as a destination. */
  lemma {:induction false} TaggedDestinationMeans(steps: seq<Step>)
    requires AllSupported(steps)
    ensures forall n :: n in Tagged(steps).1 <==> CoversDestination(steps, n)
    decreases |steps|
  {
    if steps != [] {
      var init, last := steps[..|steps| - 1], steps[|steps| - 1];
      TaggedDestinationMeans(init);
      var pairs := SupportedMembers(last).value;
      forall n ensures n in Tagged(steps).1 <==> CoversDestination(steps, n) {
        if CoversDestination(steps, n) {
          var i, p :| 0 <= i < |steps| && SupportedMembers(steps[i]).Ok? && p in SupportedMembers(steps[i]).value && p.1 == n;
          if i < |init| { assert init[i] == steps[i]; assert CoversDestination(init, n); }
        }
        if n in Tagged(init).1 {
          var i, p :| 0 <= i < |init| && SupportedMembers(init[i]).Ok? && p in SupportedMembers(init[i]).value && p.1 == n;
          assert steps[i] == init[i];
        }
        if n in Seconds(pairs) {
          var p :| p in pairs && p.1 == n;
          assert steps[|steps| - 1] == last;
        }
      }
    }
  }

  /** The tagging loop tags exactly the names the steps support, on each side. */
  lemma TaggedMeans(steps: seq<Step>)
    requires AllSupported(steps)
    ensures forall n :: n in Tagged(steps).0 <==> CoversSource(steps, n)
    ensures forall n :: n in Tagged(steps).1 <==> CoversDestination(steps, n)
  {
    TaggedSourceMeans(steps);
    TaggedDestinationMeans(steps);
  }

  /** `_raise_exception_if_some_attributes_are_forgotten(steps, from_names, to_names)`,
      where `steps` is already chained after the user common steps: an uncovered source
      name is reported before an uncovered destination name. */
  ghost function CheckCoverage(steps: seq<Step>, fromNames: set<string>, toNames: set<string>,
                               fromType: TypeName, toType: TypeName): (o: Outcome)
    ensures o.Pass? <==> AllSupported(steps) && (forall n :: n in fromNames ==> CoversSource(steps, n)) &&
                         (forall n :: n in toNames ==> CoversDestination(steps, n))
    ensures !AllSupported(steps) ==> o == Fail(UnboundMembers)
    ensures AllSupported(steps) && (exists n :: n in fromNames && !CoversSource(steps, n)) ==>
              o == Fail(UncoveredSource((set n | n in fromNames && !CoversSource(steps, n)), fromType))
    ensures AllSupported(steps) && (forall n :: n in fromNames ==> CoversSource(steps, n)) &&
            (exists n :: n in toNames && !CoversDestination(steps, n)) ==>
              o == Fail(UncoveredDestination((set n | n in toNames && !CoversDestination(steps, n)), toType))
  {
    if !AllSupported(steps) then Fail(UnboundMembers)
    else
      var tags := Tagged(steps);
      TaggedMeans(steps);
      var sourceWithout := fromNames - tags.0;
      assert sourceWithout == set n | n in fromNames && !CoversSource(steps, n);
      if sourceWithout != {} then Fail(UncoveredSource(sourceWithout, fromType))
      else
        assert forall n :: n in fromNames ==> n !in sourceWithout;
        var destinationWithout := toNames - tags.1;
        assert destinationWithout == set n | n in toNames && !CoversDestination(steps, n);
        if destinationWithout != {} then Fail(UncoveredDestination(destinationWithout, toType))
        else
          assert forall n :: n in toNames ==> n !in destinationWithout;
          Pass
  }

  /** The pair loop of the tagging: add both components of every pair. */
  method TagPairs(pairs: seq<MemberPair>, taggedFrom: set<string>, taggedTo: set<string>)
    returns (newFrom: set<string>, newTo: set<string>)
    ensures newFrom == taggedFrom + Firsts(pairs) && newTo == taggedTo + Seconds(pairs)
  {
    newFrom, newTo := taggedFrom, taggedTo;
    for j := 0 to |pairs|
      invariant newFrom == taggedFrom + Firsts(pairs[..j])
      invariant newTo == taggedTo + Seconds(pairs[..j])
    {
      assert pairs[..j + 1] == pairs[..j] + [pairs[j]];
      newFrom := newFrom + {pairs[j].0};
      newTo := newTo + {pairs[j].1};
    }
    assert pairs[..|pairs|] == pairs;
  }

  /** `_raise_exception_if_some_attributes_are_forgotten`: the tagging loop over
      `chain(self.common_steps, steps)`, then the two set-difference checks. */
  method RaiseIfForgotten(userCommon: seq<Step>, steps: seq<Step>, fromNames: set<string>, toNames: set<string>,
                          fromType: TypeName, toType: TypeName) returns (o: Outcome)
    ensures o == CheckCoverage(userCommon + steps, fromNames, toNames, fromType, toType)
  {
    var all := userCommon + steps;
    var taggedFrom: set<string> := {};
    var taggedTo: set<string> := {};
    for i := 0 to |all|
      invariant AllSupported(all[..i])
      invariant (taggedFrom, taggedTo) == Tagged(all[..i])
    {
      assert all[..i + 1][..i] == all[..i];
      var members := SupportedMembers(all[i]);
      if members.Err? {
        return Fail(members.error);
      }
      taggedFrom, taggedTo := TagPairs(members.value, taggedFrom, taggedTo);
    }
    assert all[..|all|] == all;
    var sourceWithout := fromNames - taggedFrom;
    if |sourceWithout| > 0 {
      return Fail(UncoveredSource(sourceWithout, fromType));
    }
    var destinationWithout := toNames - taggedTo;
    if |destinationWithout| > 0 {
      return Fail(UncoveredDestination(destinationWithout, toType));
    }
    return Pass;
  }

  /** An AutoMap builder as constructed: the two record types, the user's steps, the
      member inspector and the (unused) strictness flag. */
  datatype AutoMap = AutoMap(
    fromType: TypeName,
    toType: TypeName,
    commonSteps: seq<Step>,
    forwardSteps: seq<Step>,
    reverseSteps: seq<Step>,
    inspectMembers: Inspector,
    strict: bool)

  ghost function SourceNames(am: AutoMap): set<string> { am.inspectMembers(am.fromType).Keys }
  ghost function DestinationNames(am: AutoMap): set<string> { am.inspectMembers(am.toType).Keys }
  ghost function CommonNames(am: AutoMap): set<string> { SourceNames(am) * DestinationNames(am) }
  ghost function MissingSourceNames(am: AutoMap): set<string> { SourceNames(am) - DestinationNames(am) }
  ghost function MissingDestinationNames(am: AutoMap): set<string> { DestinationNames(am) - SourceNames(am) }

  /** `AutoMap.build(mapper)` when the common names are iterated in the order `order`. */
  ghost function AutoBuild(am: AutoMap, patterns: seq<TypePattern>, order: seq<string>): Result<seq<Entry>>
    requires IsEnumeration(order, CommonNames(am))
  {
    var fromMembers := am.inspectMembers(am.fromType);
    var toMembers := am.inspectMembers(am.toType);
    var synthesized := Synthesize(order, fromMembers, toMembers, am.commonSteps, patterns);
    if synthesized.Err? then Err(synthesized.error)
    else
      var forwardCheck := CheckCoverage(am.commonSteps + am.forwardSteps, MissingSourceNames(am), MissingDestinationNames(am),
                                        am.fromType, am.toType);
      if forwardCheck.Fail? then Err(forwardCheck.error)
      else
        var reverseCheck := CheckCoverage(am.commonSteps + am.reverseSteps, MissingSourceNames(am), MissingDestinationNames(am),
                                          am.fromType, am.toType);
        if reverseCheck.Fail? then Err(reverseCheck.error)
        else Compile(PartialMap(am.fromType, am.toType, synthesized.value + am.commonSteps, am.forwardSteps, am.reverseSteps))
  }

  /** `AutoMap.build(mapper)`, with `patterns` standing for the class attribute
      `AutoMap.type_mapper_patterns`. The mapper argument is unused and left out. */
  method Build(am: AutoMap, patterns: seq<TypePattern>) returns (r: Result<seq<Entry>>, ghost order: seq<string>)
    ensures IsEnumeration(order, CommonNames(am))
    ensures r == AutoBuild(am, patterns, order)
  {
    var fromMembers := am.inspectMembers(am.fromType);
    var sourceMemberNames := fromMembers.Keys;
    var toMembers := am.inspectMembers(am.toType);
    var destinationMemberNames := toMembers.Keys;
    var commonMemberNames := sourceMemberNames * destinationMemberNames;

    var commonSteps;
    commonSteps, order := BuildCommonSteps(commonMemberNames, fromMembers, toMembers, am.commonSteps, patterns);
    if commonSteps.Err? {
      return Err(commonSteps.error), order;
    }

    var missingSourceMembers := sourceMemberNames - destinationMemberNames;
    var missingDestinationMembers := destinationMemberNames - sourceMemberNames;

    var forwardCheck := RaiseIfForgotten(am.commonSteps, am.forwardSteps, missingSourceMembers, missingDestinationMembers,
                                         am.fromType, am.toType);
    if forwardCheck.Fail? {
      return Err(forwardCheck.error), order;
    }
    var reverseCheck := RaiseIfForgotten(am.commonSteps, am.reverseSteps, missingSourceMembers, missingDestinationMembers,
                                         am.fromType, am.toType);
    if reverseCheck.Fail? {
      return Err(reverseCheck.error), order;
    }

    r := PartialMapping.Build(PartialMap(am.fromType, am.toType, commonSteps.value + am.commonSteps,
                                          am.forwardSteps, am.reverseSteps));
  }
}
