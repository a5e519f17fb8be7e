/** The library's default loader: no workflow or job hooks, and step hooks
    found by rewriting the legacy server's step class name into the name of
    the library's own migration class. Java reflection is replaced by a
    registry from class names to hooks. */
module DefaultLoader {
  import opened Wrappers
  import opened Errors

  /** Package of the legacy server's step classes. */
  const AnthillPrefix: string := "com.urbancode.anthill3."

  /** Package of the library's default step migrations. */
  const MigratePrefix: string := "net.epicforce.migrate.ahp.migrate.default."

  /** Appended to the rewritten name to form the migration class name. */
  const ClassSuffix: string := "Migrate"

  predicate OccursAt(s: string, p: string, i: nat) {
    i + |p| <= |s| && s[i..i + |p|] == p
  }

  predicate IsSuffix(p: string, s: string) {
    |p| <= |s| && s[|s| - |p|..] == p
  }

  /** Java's String.replace(target, replacement) for a non-empty target:
      scanning left to right, every occurrence of target that does not
      overlap an earlier replaced one is replaced. */
  function ReplaceAll(s: string, target: string, replacement: string): (r: string)
    requires |target| > 0
    ensures |replacement| == |target| ==> |r| == |s|
    ensures |replacement| >= |target| ==> |r| >= |s|
    ensures |replacement| <= |target| ==> |r| <= |s|
    decreases |s|
  {
    if |s| < |target| then s
    else if s[..|target|] == target then
      replacement + ReplaceAll(s[|target|..], target, replacement)
    else
      [s[0]] + ReplaceAll(s[1..], target, replacement)
  }

  /** Text without an occurrence of the target comes back unchanged. */
  lemma {:induction false} ReplaceAllWithoutTarget(s: string, target: string, replacement: string)
    requires |target| > 0
    requires forall i: nat :: !OccursAt(s, target, i)
    ensures ReplaceAll(s, target, replacement) == s
    decreases |s|
  {
    if |s| < |target| {
    } else {
      assert !OccursAt(s, target, 0);
      assert s[0..|target|] == s[..|target|];
      forall i: nat
        ensures !OccursAt(s[1..], target, i)
      {
        assert !OccursAt(s, target, i + 1);
        if i + |target| <= |s[1..]| {
          assert s[1..][i..i + |target|] == s[i + 1..i + 1 + |target|];
        }
      }
      ReplaceAllWithoutTarget(s[1..], target, replacement);
    }
  }

  /** A leading occurrence is replaced, and the scan resumes after it. */
  lemma ReplaceAllLeading(s: string, target: string, replacement: string)
    requires |target| > 0
    requires IsPrefix(target, s)
    ensures ReplaceAll(s, target, replacement)
            == replacement + ReplaceAll(s[|target|..], target, replacement)
  {
  }

  /** The first occurrence of the target, wherever it is, is replaced: the
      text before it is kept and the scan resumes right after it, so later
      occurrences are replaced in turn. */
  lemma {:induction false} ReplaceAllFirstOccurrence(s: string, target: string, replacement: string, k: nat)
    requires |target| > 0
    requires OccursAt(s, target, k)
    requires forall i: nat :: i < k ==> !OccursAt(s, target, i)
    ensures ReplaceAll(s, target, replacement)
            == s[..k] + replacement + ReplaceAll(s[k + |target|..], target, replacement)
    decreases k
  {
    if k == 0 {
      FirstOccurrenceAtStart(s, target, replacement);
    } else {
      OccurrenceShifts(s, target, k);
      ReplaceAllFirstOccurrence(s[1..], target, replacement, k - 1);
      FirstOccurrenceStep(s, target, replacement, k);
    }
  }

  /** The base case: an occurrence at the very start. */
  lemma FirstOccurrenceAtStart(s: string, target: string, replacement: string)
    requires |target| > 0 && OccursAt(s, target, 0)
    ensures ReplaceAll(s, target, replacement)
            == s[..0] + replacement + ReplaceAll(s[0 + |target|..], target, replacement)
  {
    assert s[0..|target|] == s[..|target|];
    ReplaceAllLeading(s, target, replacement);
    assert s[..0] + replacement == replacement;
  }

  /** The inductive step: an occurrence further in is reached by keeping
      the first character, which does not start an occurrence. */
  lemma FirstOccurrenceStep(s: string, target: string, replacement: string, k: nat)
    requires |target| > 0 && 0 < k && OccursAt(s, target, k) && !OccursAt(s, target, 0)
    requires ReplaceAll(s[1..], target, replacement)
             == s[1..][..k - 1] + replacement + ReplaceAll(s[1..][k - 1 + |target|..], target, replacement)
    ensures ReplaceAll(s, target, replacement)
            == s[..k] + replacement + ReplaceAll(s[k + |target|..], target, replacement)
  {
    var tail := s[1..];
    var rest := ReplaceAll(s[k + |target|..], target, replacement);
    ReplaceAllSkipsNonOccurrence(s, target, replacement);
    assert tail[k - 1 + |target|..] == s[k + |target|..];
    assert s[..k] == [s[0]] + tail[..k - 1];
    ConcatRegroups([s[0]], tail[..k - 1], replacement, rest);
  }

  /** Regrouping a four-part concatenation. */
  lemma ConcatRegroups(a: string, b: string, c: string, d: string)
    ensures a + (b + c + d) == (a + b) + c + d
  {
  }

  /** Where the target does not start the text, its first character is
      kept and the scan moves on by one. */
  lemma ReplaceAllSkipsNonOccurrence(s: string, target: string, replacement: string)
    requires |target| > 0 && |target| < |s|
    requires !OccursAt(s, target, 0)
    ensures ReplaceAll(s, target, replacement) == [s[0]] + ReplaceAll(s[1..], target, replacement)
  {
    assert s[0..|target|] == s[..|target|];
  }

  /** Dropping the first character moves the first occurrence one place to
      the left. */
  lemma OccurrenceShifts(s: string, target: string, k: nat)
    requires 0 < k && OccursAt(s, target, k)
    requires forall i: nat :: i < k ==> !OccursAt(s, target, i)
    ensures OccursAt(s[1..], target, k - 1)
    ensures forall i: nat :: i < k - 1 ==> !OccursAt(s[1..], target, i)
  {
    var tail := s[1..];
    assert tail[k - 1..k - 1 + |target|] == s[k..k + |target|];
    forall i: nat | i < k - 1
      ensures !OccursAt(tail, target, i)
    {
      assert !OccursAt(s, target, i + 1);
      assert tail[i..i + |target|] == s[i + 1..i + 1 + |target|];
    }
  }

  /** When the target occurs only at the very start, the result is the
      replacement followed by the rest of the text. */
  lemma ReplaceAllOnlyAtStart(s: string, target: string, replacement: string)
    requires |target| > 0
    requires IsPrefix(target, s)
    requires forall i: nat :: 0 < i ==> !OccursAt(s, target, i)
    ensures ReplaceAll(s, target, replacement) == replacement + s[|target|..]
  {
    var rest := s[|target|..];
    forall i: nat
      ensures !OccursAt(rest, target, i)
    {
      assert !OccursAt(s, target, i + |target|);
      if i + |target| <= |rest| {
        assert rest[i..i + |target|] == s[i + |target|..i + |target| + |target|];
      }
    }
    ReplaceAllWithoutTarget(rest, target, replacement);
  }

  /** The result of a replacement starts with the replacement whenever the
      text starts with the target. */
  lemma ReplaceAllKeepsLeadingReplacement(s: string, target: string, replacement: string)
    requires |target| > 0
    requires IsPrefix(target, s)
    ensures IsPrefix(replacement, ReplaceAll(s, target, replacement))
  {
    ReplaceAllLeading(s, target, replacement);
  }

  /** loadWorkflowClass: the default migration has no workflow hook. */
  function LoadWorkflowClass<H>(): (r: Option<H>)
    ensures r.None?
  {
    None
  }

  /** loadJobClass: the default migration has no job hook. */
  function LoadJobClass<H>(): (r: Option<H>)
    ensures r.None?
  {
    None
  }

  /** The name of the migration class for a legacy step class: rejected with
      an UnsupportedClassException unless it is in the legacy package, and
      otherwise every occurrence of the legacy package name is rewritten and
      "Migrate" appended. */
  function StepClassName(stepName: string): (r: Result<string, MigrateError>)
    ensures r.Failure? <==> !IsPrefix(AnthillPrefix, stepName)
    ensures r.Failure? ==>
              r.error == MigrateError(UnsupportedClass,
                           "Cannot process Anthill Step with class: " + stepName)
    ensures r.Success? ==>
              IsPrefix(MigratePrefix, r.value) && IsSuffix(ClassSuffix, r.value)
  {
    if !IsPrefix(AnthillPrefix, stepName) then
      Failure(MigrateError(UnsupportedClass,
                           "Cannot process Anthill Step with class: " + stepName))
    else
      ReplaceAllKeepsLeadingReplacement(stepName, AnthillPrefix, MigratePrefix);
      var name := ReplaceAll(stepName, AnthillPrefix, MigratePrefix) + ClassSuffix;
      assert name[..|MigratePrefix|]
             == ReplaceAll(stepName, AnthillPrefix, MigratePrefix)[..|MigratePrefix|];
      Success(name)
  }

  /** A step name whose legacy package occurs only at its start maps to the
      default package name, the rest of the step name, and "Migrate". */
  lemma StepClassNameSinglePrefix(stepName: string)
    requires IsPrefix(AnthillPrefix, stepName)
    requires forall i: nat :: 0 < i ==> !OccursAt(stepName, AnthillPrefix, i)
    ensures StepClassName(stepName)
            == Success(MigratePrefix + stepName[|AnthillPrefix|..] + ClassSuffix)
  {
    ReplaceAllOnlyAtStart(stepName, AnthillPrefix, MigratePrefix);
  }

  /** A step name in which the legacy package occurs a second time has both
      occurrences rewritten: Java's String.replace replaces every
      occurrence, not only the leading one. */
  lemma StepClassNameSecondOccurrence(mid: string, tail: string)
    requires forall i: nat :: i < |mid| ==> !OccursAt(mid + AnthillPrefix + tail, AnthillPrefix, i)
    requires forall i: nat :: !OccursAt(tail, AnthillPrefix, i)
    ensures StepClassName(AnthillPrefix + mid + AnthillPrefix + tail)
            == Success(MigratePrefix + mid + MigratePrefix + tail + ClassSuffix)
  {
    var s := AnthillPrefix + mid + AnthillPrefix + tail;
    var rest := mid + AnthillPrefix + tail;
    assert s == AnthillPrefix + rest;
    assert s[..|AnthillPrefix|] == AnthillPrefix && s[|AnthillPrefix|..] == rest;
    ReplaceAllLeading(s, AnthillPrefix, MigratePrefix);
    assert rest[|mid|..|mid| + |AnthillPrefix|] == AnthillPrefix;
    ReplaceAllFirstOccurrence(rest, AnthillPrefix, MigratePrefix, |mid|);
    assert rest[..|mid|] == mid && rest[|mid| + |AnthillPrefix|..] == tail;
    ReplaceAllWithoutTarget(tail, AnthillPrefix, MigratePrefix);
    assert ReplaceAll(s, AnthillPrefix, MigratePrefix) == MigratePrefix + (mid + MigratePrefix + tail);
    ConcatRegroups(MigratePrefix, mid, MigratePrefix, tail);
    assert StepClassName(s) == Success(ReplaceAll(s, AnthillPrefix, MigratePrefix) + ClassSuffix);
  }

  /** AbstractLoader.loadClass with reflection replaced by a registry: a
      class that is not registered raises an UnsupportedClassException whose
      cause is the ClassNotFoundException naming the class. */
  function LoadClass<H>(registry: map<string, H>, className: string): (r: Result<H, MigrateError>)
    ensures r.Success? <==> className in registry
    ensures r.Success? ==> r.value == registry[className]
    ensures r.Failure? ==>
              r.error.kind == UnsupportedClass &&
              IsPrefix("Unsupported class: " + className, r.error.message)
  {
    if className in registry then Success(registry[className])
    else
      var msg := "Unsupported class: " + className;
      assert (msg + ": " + className)[..|msg|] == msg;
      Failure(MigrateError(UnsupportedClass, msg + ": " + className))
  }

  /** loadStepClass: the hook registered under the rewritten class name. A
      name outside the legacy package is rejected before any lookup, so the
      registry plays no part in that answer. */
  function LoadStepClass<H>(registry: map<string, H>, stepName: string): (r: Result<H, MigrateError>)
    ensures !IsPrefix(AnthillPrefix, stepName) ==>
              r == Failure(MigrateError(UnsupportedClass,
                             "Cannot process Anthill Step with class: " + stepName))
    ensures r.Success? <==>
              IsPrefix(AnthillPrefix, stepName) &&
              ReplaceAll(stepName, AnthillPrefix, MigratePrefix) + ClassSuffix in registry
    ensures r.Success? ==>
              r.value == registry[ReplaceAll(stepName, AnthillPrefix, MigratePrefix) + ClassSuffix]
    ensures r.Failure? ==> r.error.kind == UnsupportedClass
  {
    match StepClassName(stepName)
    case Failure(e) => Failure(e)
    case Success(name) => LoadClass(registry, name)
  }
}
