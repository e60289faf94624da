/**
 * The `SkipForQuirks` method rule: a test method declares, in order, the
 * quirks it cannot cope with, and the rule replaces the test by an ignore
 * statement for the first of them that the target server has.
 */
module SkipRules {
  import opened Wrappers
  import opened Quirks
  import opened Statements

  /** The target descriptor, reduced to the part the rule consults. */
  datatype ServiceDefinition = ServiceDefinition(quirks: set<Quirk>)
  {
    predicate HasQuirk(q: Quirk)
    {
      q in quirks
    }
  }

  /** A test method with the quirks of its `@SkipForQuirks` annotation, if it has one. */
  datatype FrameworkMethod = FrameworkMethod(name: string, skipForQuirks: Option<seq<Quirk>>)

  /** The test instance the rule is applied to: an `S3TestBase` carrying its target, or any other object. */
  datatype TestInstance = S3Test(target: ServiceDefinition) | OtherTest

  /** `k` is the position of the first declared quirk that the target has. */
  ghost predicate FirstMatch(declared: seq<Quirk>, target: ServiceDefinition, k: int)
  {
    && 0 <= k < |declared|
    && target.HasQuirk(declared[k])
    && forall j :: 0 <= j < k ==> !target.HasQuirk(declared[j])
  }

  /** The search loop of `apply`: the first declared quirk the target has. */
  function FirstQuirkIndex(declared: seq<Quirk>, target: ServiceDefinition): (r: Option<nat>)
    ensures r.Some? ==> FirstMatch(declared, target, r.value)
    ensures r.None? <==> forall j :: 0 <= j < |declared| ==> !target.HasQuirk(declared[j])
  {
    if |declared| == 0 then None
    else if target.HasQuirk(declared[0]) then Some(0)
    else
      match FirstQuirkIndex(declared[1..], target)
      case None => None
      case Some(k) => Some(k + 1)
  }

  /** `SkipForQuirksRule.apply`: the statement JUnit evaluates in place of `base`. */
  function Apply(base: Statement, testMethod: FrameworkMethod, test: TestInstance): (r: Statement)
    ensures testMethod.skipForQuirks.None? || test.OtherTest? ==> r == base
    ensures testMethod.skipForQuirks.Some? && test.S3Test? ==>
      var declared := testMethod.skipForQuirks.value;
      && ((forall j :: 0 <= j < |declared| ==> !test.target.HasQuirk(declared[j])) ==> r == base)
      && (forall k :: FirstMatch(declared, test.target, k) ==> r == IgnoreStatement(base, Some(declared[k])))
  {
    match testMethod.skipForQuirks
    case None => base
    case Some(declared) =>
      match test
      case OtherTest => base
      case S3Test(target) =>
        match FirstQuirkIndex(declared, target)
        case Some(k) => IgnoreStatement(base, Some(declared[k]))
        case None => base
  }

  /** There is at most one first match, so the quirk `Apply` picks is determined. */
  lemma FirstMatchUnique(declared: seq<Quirk>, target: ServiceDefinition, i: int, k: int)
    requires FirstMatch(declared, target, i) && FirstMatch(declared, target, k)
    ensures i == k
  {
  }

  /**
   * Evaluating what `Apply` returns: a test whose declared quirks meet the
   * target's is skipped with the first such quirk as reason and its body is
   * never run; any other test evaluates exactly as `base` does.
   */
  lemma ApplyThenEvaluate(base: Statement, testMethod: FrameworkMethod, test: TestInstance)
    ensures
      var r := Evaluate(Apply(base, testMethod, test));
      if testMethod.skipForQuirks.Some? && test.S3Test?
         && exists j :: 0 <= j < |testMethod.skipForQuirks.value| && test.target.HasQuirk(testMethod.skipForQuirks.value[j])
      then
        r.evaluated == []
        && exists k :: FirstMatch(testMethod.skipForQuirks.value, test.target, k)
                       && r.completion == Thrown(AssumptionViolated(SkipReason(Some(testMethod.skipForQuirks.value[k]))))
      else r == Evaluate(base)
  {
    if testMethod.skipForQuirks.Some? && test.S3Test? {
      var declared := testMethod.skipForQuirks.value;
      var found := FirstQuirkIndex(declared, test.target);
      if found.Some? {
        assert FirstMatch(declared, test.target, found.value);
      }
    }
  }

  /** A target with the checksum quirk skips a test that declares it, with the exact reason text. */
  lemma ChecksumScenario(base: Statement, name: string)
    ensures
      var target := S3Test(ServiceDefinition({CHECKSUMS_NOT_SUPPORTED}));
      && Evaluate(Apply(base, FrameworkMethod(name, Some([CHECKSUMS_NOT_SUPPORTED])), target))
         == Evaluation(Thrown(AssumptionViolated("Ignored due to quirk CHECKSUMS_NOT_SUPPORTED")), [])
      && Apply(base, FrameworkMethod(name, None), target) == base
  {
    assert FirstMatch([CHECKSUMS_NOT_SUPPORTED], ServiceDefinition({CHECKSUMS_NOT_SUPPORTED}), 0);
    assert SkipReason(Some(CHECKSUMS_NOT_SUPPORTED)) == "Ignored due to quirk CHECKSUMS_NOT_SUPPORTED";
  }
}
