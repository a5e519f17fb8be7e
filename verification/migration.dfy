/** The migration engine (Migration.java): its status lifecycle, the guard
    and traversal of run(), the skip and error handling, the job counter and
    the progress figure. The collaborators run() calls (session, workflow
    store, loader, hooks) are replaced by scripted outcomes, so run() becomes
    a pure function from (state, script) to (state, trace of calls made). */
module MigrationEngine {
  import opened Wrappers
  import opened Errors
  import JobLayout
  import DefaultLoader

  /*************************************************************************
   * Status and state
   *************************************************************************/

  datatype Status = NeedSetup | Ready | Running | Error | Success | Closed
  {
    /** The integer constant Migration uses for this status. */
    function Code(): int {
      match this
      case NeedSetup => 0
      case Ready => 1
      case Running => 2
      case Error => 3
      case Success => 4
      case Closed => -1
    }

    /** SUCCESS, ERROR and CLOSED: the states getProgress reports as done. */
    predicate IsTerminal() {
      this == Status.Success || this == Error || this == Closed
    }
  }

  /** The status a getStatus() value stands for, if any. */
  function StatusOf(code: int): (r: Option<Status>)
    ensures r.Some? ==> r.value.Code() == code
    ensures forall s: Status :: s.Code() == code ==> r == Some(s)
  {
    if code == 0 then Some(NeedSetup)
    else if code == 1 then Some(Ready)
    else if code == 2 then Some(Running)
    else if code == 3 then Some(Error)
    else if code == 4 then Some(Status.Success)
    else if code == -1 then Some(Closed)
    else None
  }

  /** The engine-owned fields of a Migration. */
  datatype Migration = Migration(
    status: Status,
    error: Option<MigrateError>,
    workflowId: Option<int>,
    workflowName: Option<string>,
    numSteps: nat,
    migratedStepCount: nat)

  /** A freshly constructed Migration. */
  const Initial: Migration := Migration(NeedSetup, None, None, None, 0, 0)

  /*************************************************************************
   * Setters, close, progress
   *************************************************************************/

  /** setWorkflowId: the id is always stored; only a non-null id given while
      NEED_SETUP moves the status, to READY. */
  function SetWorkflowId(m: Migration, id: Option<int>): (r: Migration)
    ensures r.workflowId == id
    ensures m.status == NeedSetup && id.Some? ==> r.status == Ready
    ensures !(m.status == NeedSetup && id.Some?) ==> r.status == m.status
    ensures r.(status := m.status, workflowId := m.workflowId) == m
  {
    m.(status := if m.status == NeedSetup && id.Some? then Ready else m.status,
       workflowId := id)
  }

  /** A series of setWorkflowId calls. */
  function SetWorkflowIds(m: Migration, ids: seq<Option<int>>): Migration
    decreases |ids|
  {
    if |ids| == 0 then m else SetWorkflowIds(SetWorkflowId(m, ids[0]), ids[1..])
  }

  /** After any series of setWorkflowId calls the engine is READY iff it
      already was, or it needed setup and some call gave a non-null id; a
      later null id does not undo READY. Otherwise the status is untouched,
      and the id is the last one given. */
  lemma {:induction false} SetWorkflowIdsStatus(m: Migration, ids: seq<Option<int>>)
    ensures var r := SetWorkflowIds(m, ids);
            && (r.status == Ready <==>
                  m.status == Ready ||
                  (m.status == NeedSetup && exists i :: 0 <= i < |ids| && ids[i].Some?))
            && (r.status != Ready ==> r.status == m.status)
            && r.workflowId == (if |ids| == 0 then m.workflowId else ids[|ids| - 1])
    decreases |ids|
  {
    if |ids| > 0 {
      var m1 := SetWorkflowId(m, ids[0]);
      SetWorkflowIdsStatus(m1, ids[1..]);
      if m.status == NeedSetup && !ids[0].Some? {
        if exists i :: 0 <= i < |ids| && ids[i].Some? {
          var i :| 0 <= i < |ids| && ids[i].Some?;
          assert ids[1..][i - 1].Some?;
        }
      }
    }
  }

  /** setError: records the error and marks the engine ERROR. */
  function SetError(m: Migration, e: MigrateError): (r: Migration)
    ensures r.status == Error && r.error == Some(e)
    ensures r.(status := m.status, error := m.error) == m
  {
    m.(status := Error, error := Some(e))
  }

  /** close: marks the engine CLOSED; the session release it also performs
      is not part of the state. */
  function Close(m: Migration): (r: Migration)
    ensures r.status == Closed
    ensures r.(status := m.status) == m
  {
    m.(status := Closed)
  }

  /** Math.round(100 * migrated / total) in exact arithmetic: the nearest
      integer, halves rounded up. */
  function RoundPercent(migrated: nat, total: nat): (q: int)
    requires total > 0
    ensures total * (2 * q - 1) <= 200 * migrated < total * (2 * q + 1)
  {
    var q := (200 * migrated + total) / (2 * total);
    assert 2 * total * q <= 200 * migrated + total < 2 * total * q + 2 * total;
    q
  }

  /** getProgress: 100 in a terminal state; otherwise 0 when no job total
      is known yet, else the rounded percentage of jobs done, held at 99. */
  function Progress(m: Migration): (p: int)
    ensures m.status.IsTerminal() <==> p == 100
    ensures !m.status.IsTerminal() ==> 0 <= p <= 99
    ensures !m.status.IsTerminal() && m.numSteps == 0 ==> p == 0
    ensures !m.status.IsTerminal() && m.numSteps > 0 ==>
              (p == 99 <==> 200 * m.migratedStepCount >= 197 * m.numSteps)
    ensures !m.status.IsTerminal() && m.numSteps > 0 && p < 99 ==>
              m.numSteps * (2 * p - 1) <= 200 * m.migratedStepCount < m.numSteps * (2 * p + 1)
  {
    if m.status.IsTerminal() then 100
    else if m.numSteps == 0 then 0
    else
      var ret := RoundPercent(m.migratedStepCount, m.numSteps);
      ProgressCap(m.migratedStepCount, m.numSteps, ret);
      if ret >= 100 then 99 else ret
  }

  lemma MulMonotone(n: nat, a: int, b: int)
    requires a <= b
    ensures n * a <= n * b
  {
  }

  lemma MulCancel(n: int, a: int, b: int)
    requires n > 0 && n * a < n * b
    ensures a < b
  {
    if a >= b {
      MulMonotone(n, b, a);
    }
  }

  lemma ProgressCap(migrated: nat, total: nat, q: int)
    requires total > 0
    requires total * (2 * q - 1) <= 200 * migrated < total * (2 * q + 1)
    ensures q >= 0
    ensures q >= 99 <==> 200 * migrated >= 197 * total
  {
    MulCancel(total, 0, 2 * q + 1);
    if q >= 99 {
      MulMonotone(total, 197, 2 * q - 1);
    }
    if 200 * migrated >= 197 * total {
      MulCancel(total, 197, 2 * q + 1);
    }
  }

  /** Before any job has been counted a running engine reports 0, not the
      "1 to 100" its documentation promises. */
  lemma ProgressStartsAtZero(m: Migration)
    requires !m.status.IsTerminal()
    requires m.migratedStepCount == 0
    ensures Progress(m) == 0
  {
    var p := Progress(m);
    if m.numSteps > 0 {
      MulCancel(m.numSteps, 2 * p - 1, 1);
    }
  }

  /** Progress never goes down as jobs are counted. */
  lemma ProgressMonotone(m: Migration, more: nat)
    requires !m.status.IsTerminal()
    requires m.migratedStepCount <= more
    ensures Progress(m) <= Progress(m.(migratedStepCount := more))
  {
    var m2 := m.(migratedStepCount := more);
    var p1, p2 := Progress(m), Progress(m2);
    if m.numSteps > 0 && p1 < 99 && p2 < 99 {
      MulCancel(m.numSteps, 2 * p1 - 1, 2 * p2 + 1);
    }
  }

  /*************************************************************************
   * Collaborator scripts
   *************************************************************************/

  /** What a call into a collaborator did: returned normally or threw. */
  datatype Outcome = Ok | Throws(raised: Raised)

  /** An AbstractWorkflow or AbstractJob instance, given by what its preRun
      and postRun calls do. */
  datatype Hook = Hook(preRun: Outcome, postRun: Outcome)

  /** What loadWorkflowClass or loadJobClass did: returned a hook or null,
      or threw. */
  datatype HookLoad = Loaded(hook: Option<Hook>) | LoadFails(raised: Raised)

  /** An active step of a job: its class name, what loadStepClass did for
      it, and what the loaded hook's run did. */
  datatype Step = Step(className: string, resolve: Outcome, run: Outcome)

  /** A job of the workflow, with what loadJobClass did at its turn (a
      fresh instance for each job) and its active steps in order. */
  datatype Job = Job(name: string, hookLoad: HookLoad, steps: seq<Step>)

  /** What opening the session and looking up the workflow by id did: the
      session bind or the creation of the unit of work threw before any
      lookup, the lookup threw, it found nothing, or it found the workflow
      (with its name and possibly null definition). */
  datatype Restore =
    | SessionFails(raised: Raised)
    | RestoreFails(raised: Raised)
    | Missing
    | Found(name: string, definition: Option<seq<seq<JobLayout.Vertex<Job>>>>)

  datatype Script = Script(restore: Restore, workflowHook: HookLoad)

  /** The calls run() makes on collaborators, in order. */
  datatype Event =
    | Bind
    | RestoreWorkflow
    | LoadWorkflowClass
    | WorkflowPreRun
    | LoadJobClass(job: nat)
    | JobPreRun(job: nat)
    | LoadStepClass(job: nat, step: nat)
    | StepRun(job: nat, step: nat)
    | JobPostRun(job: nat)
    | WorkflowPostRun
    | Unbind
  {
    /** A preRun or postRun call on a workflow or job hook. */
    predicate IsHookCall() {
      WorkflowPreRun? || WorkflowPostRun? || JobPreRun? || JobPostRun?
    }

    /** A call made during the turn of job j. */
    predicate InJob(j: nat) {
      (LoadJobClass? || JobPreRun? || LoadStepClass? || StepRun? || JobPostRun?) && job == j
    }
  }

  /** How a block was left: normally or by an exception. */
  datatype Exit = Normal | Raise(raised: Raised)

  datatype Traced = Traced(exit: Exit, trace: seq<Event>)

  /*************************************************************************
   * The traversal
   *************************************************************************/

  /** A step that lets the job go on: its class loads and its run returns
      or throws a SkipException. */
  predicate Passes(st: Step) {
    st.resolve.Ok? && (st.run.Ok? || st.run.raised.IsSkip())
  }

  /** What a step that does not pass throws: the loader's exception, or
      else the one from its run. */
  function FailureOf(st: Step): Raised
    requires !Passes(st)
  {
    if st.resolve.Throws? then st.resolve.raised else st.run.raised
  }

  /** The calls the step loop of job j makes when every step from s up to
      e passes: each step's class is loaded, then its hook run. */
  function StepCalls(j: nat, s: nat, e: nat): seq<Event>
    decreases e - s
  {
    if e <= s then [] else [LoadStepClass(j, s), StepRun(j, s)] + StepCalls(j, s + 1, e)
  }

  /** The first step from s on that does not pass, or |steps| if all do. */
  function FirstFailure(steps: seq<Step>, s: nat): (f: nat)
    requires s <= |steps|
    ensures s <= f <= |steps|
    ensures forall k :: s <= k < f ==> Passes(steps[k])
    ensures f < |steps| ==> !Passes(steps[f])
    decreases |steps| - s
  {
    if s == |steps| || !Passes(steps[s]) then s else FirstFailure(steps, s + 1)
  }

  /** The calls the step loop of job j makes when the steps from s up to
      f pass and step f (the one given as failed) does not: the passing
      steps' calls, then step f's class load, then its run only if that
      load succeeded. Nothing follows. */
  function AbortedStepCalls(j: nat, s: nat, f: nat, failed: Step): seq<Event> {
    StepCalls(j, s, f) + [LoadStepClass(j, f)] + (if failed.resolve.Ok? then [StepRun(j, f)] else [])
  }

  /** The step loop of job j from step s on. A SkipException from a step's
      run is swallowed and the loop goes on; anything thrown by
      loadStepClass, or any other exception from run, leaves the loop. */
  function RunSteps(j: nat, steps: seq<Step>, s: nat): (r: Traced)
    requires s <= |steps|
    ensures r.exit.Normal? <==> FirstFailure(steps, s) == |steps|
    ensures r.exit.Normal? ==> r.trace == StepCalls(j, s, |steps|)
    ensures r.exit.Raise? ==> r.exit.raised == FailureOf(steps[FirstFailure(steps, s)])
    ensures r.exit.Raise? ==>
              var f := FirstFailure(steps, s);
              r.trace == AbortedStepCalls(j, s, f, steps[f])
    ensures forall e :: e in r.trace ==> (e.LoadStepClass? || e.StepRun?) && e.InJob(j)
    decreases |steps| - s
  {
    if s == |steps| then Traced(Normal, [])
    else
      var st := steps[s];
      if st.resolve.Throws? then Traced(Raise(st.resolve.raised), [LoadStepClass(j, s)])
      else if st.run.Throws? && !st.run.raised.IsSkip() then
        Traced(Raise(st.run.raised), [LoadStepClass(j, s), StepRun(j, s)])
      else
        var rest := RunSteps(j, steps, s + 1);
        Traced(rest.exit, [LoadStepClass(j, s), StepRun(j, s)] + rest.trace)
  }

  /** Every step of a job passes. */
  predicate AllPass(steps: seq<Step>) {
    forall k :: 0 <= k < |steps| ==> Passes(steps[k])
  }

  /** No hook, or a hook whose preRun returns normally. */
  predicate StartsNormally(hook: Option<Hook>) {
    hook.None? || hook.value.preRun.Ok?
  }

  /** What leaves the per-job try block for an exception thrown inside it:
      a SkipException is swallowed, anything else passes through. */
  function PastJobCatch(t: Raised): (e: Exit)
    ensures e.Normal? <==> t.IsSkip()
    ensures e.Raise? ==> e.raised == t
  {
    if t.IsSkip() then Normal else Raise(t)
  }

  /** The body of the per-job try block: preRun, the step loop, postRun.
      The first of them to throw ends the body with its exception. */
  function JobBody(j: nat, hook: Option<Hook>, steps: seq<Step>): (r: Traced)
    ensures hook.Some? && hook.value.preRun.Throws? ==>
              r == Traced(Raise(hook.value.preRun.raised), [JobPreRun(j)])
    ensures StartsNormally(hook) && !AllPass(steps) ==>
              var f := FirstFailure(steps, 0);
              && f < |steps|
              && r.exit == Raise(FailureOf(steps[f]))
              && r.trace == (if hook.Some? then [JobPreRun(j)] else []) + AbortedStepCalls(j, 0, f, steps[f])
    ensures StartsNormally(hook) && AllPass(steps) && hook.Some? ==>
              && r.exit == (if hook.value.postRun.Throws? then Raise(hook.value.postRun.raised) else Normal)
              && r.trace == [JobPreRun(j)] + StepCalls(j, 0, |steps|) + [JobPostRun(j)]
    ensures hook.None? && AllPass(steps) ==> r == Traced(Normal, StepCalls(j, 0, |steps|))
    ensures forall e :: e in r.trace ==> e.InJob(j)
  {
    var pre := if hook.Some? then [JobPreRun(j)] else [];
    if hook.Some? && hook.value.preRun.Throws? then
      Traced(Raise(hook.value.preRun.raised), pre)
    else
      var loop := RunSteps(j, steps, 0);
      if loop.exit.Raise? then Traced(loop.exit, pre + loop.trace)
      else if hook.Some? then
        Traced(if hook.value.postRun.Throws? then Raise(hook.value.postRun.raised) else Normal,
               pre + loop.trace + [JobPostRun(j)])
      else Traced(Normal, loop.trace)
  }

  /** One turn of the job loop: loadJobClass, outside the try block, then
      the body, with a SkipException from it swallowed. A failed hook load,
      and any other exception from preRun, a step or postRun, escapes. */
  function RunJob(j: nat, job: Job): (r: Traced)
    ensures |r.trace| > 0 && r.trace[0] == LoadJobClass(j)
    ensures forall e :: e in r.trace ==> e.InJob(j)
    ensures job.hookLoad.Loaded? ==>
              r.trace == [LoadJobClass(j)] + JobBody(j, job.hookLoad.hook, job.steps).trace
    ensures job.hookLoad.LoadFails? ==> r == Traced(Raise(job.hookLoad.raised), [LoadJobClass(j)])
    ensures job.hookLoad.Loaded? && r.exit.Raise? ==> !r.exit.raised.IsSkip()
    ensures job.hookLoad.Loaded? ==>
              var hook := job.hookLoad.hook;
              && (hook.Some? && hook.value.preRun.Throws? ==>
                    r.exit == PastJobCatch(hook.value.preRun.raised))
              && (StartsNormally(hook) && !AllPass(job.steps) ==>
                    r.exit == PastJobCatch(FailureOf(job.steps[FirstFailure(job.steps, 0)])))
              && (StartsNormally(hook) && AllPass(job.steps) && hook.Some? && hook.value.postRun.Throws? ==>
                    r.exit == PastJobCatch(hook.value.postRun.raised))
              && (StartsNormally(hook) && AllPass(job.steps) && (hook.None? || hook.value.postRun.Ok?) ==>
                    r.exit == Normal)
  {
    match job.hookLoad
    case LoadFails(t) => Traced(Raise(t), [LoadJobClass(j)])
    case Loaded(hook) =>
      var body := JobBody(j, hook, job.steps);
      Traced(if body.exit.Raise? then PastJobCatch(body.exit.raised) else Normal,
             [LoadJobClass(j)] + body.trace)
  }

  datatype JobsRun = JobsRun(exit: Exit, count: nat, trace: seq<Event>)

  /** Each job's turn of the job loop, job i being the i-th job in the
      layout's depth order. */
  function Turns(jobs: seq<Job>): (r: seq<Traced>)
    ensures |r| == |jobs|
    ensures forall i :: 0 <= i < |jobs| ==> r[i] == RunJob(i, jobs[i])
  {
    seq(|jobs|, i requires 0 <= i < |jobs| => RunJob(i, jobs[i]))
  }

  /** The calls of a series of turns, one turn after the other. */
  function Concat(ts: seq<Traced>): seq<Event>
    decreases |ts|
  {
    if |ts| == 0 then [] else ts[0].trace + Concat(ts[1..])
  }

  /** A finished turn's calls come before those of the rest of the loop. */
  lemma LoopTraceStep(turns: seq<Traced>, j: nat, rest: JobsRun)
    requires j + 1 + rest.count <= |turns|
    requires rest.exit.Raise? ==> j + 1 + rest.count < |turns|
    requires rest.trace == Concat(turns[j + 1..j + 1 + rest.count]) +
                           (if rest.exit.Raise? then turns[j + 1 + rest.count].trace else [])
    ensures turns[j].trace + rest.trace ==
            Concat(turns[j..j + 1 + rest.count]) +
            (if rest.exit.Raise? then turns[j + 1 + rest.count].trace else [])
  {
    var n := rest.count;
    assert turns[j..j + 1 + n][1..] == turns[j + 1..j + 1 + n];
    assert Concat(turns[j..j + 1 + n]) == turns[j].trace + Concat(turns[j + 1..j + 1 + n]);
  }

  /** The job loop from turn j on: each job that finishes, normally or by a
      job-level skip, is counted; the first job that throws ends the loop. */
  function JobLoop(turns: seq<Traced>, j: nat): (r: JobsRun)
    requires j <= |turns|
    ensures r.count <= |turns| - j
    ensures forall i :: j <= i < j + r.count ==> turns[i].exit.Normal?
    ensures r.exit.Normal? ==> r.count == |turns| - j
    ensures r.exit.Raise? ==> j + r.count < |turns| && turns[j + r.count].exit == r.exit
    ensures r.trace == Concat(turns[j..j + r.count]) +
                       (if r.exit.Raise? then turns[j + r.count].trace else [])
    decreases |turns| - j
  {
    if j == |turns| then
      assert turns[j..j] == [];
      JobsRun(Normal, 0, [])
    else if turns[j].exit.Raise? then
      assert turns[j..j] == [];
      JobsRun(turns[j].exit, 0, turns[j].trace)
    else
      var rest := JobLoop(turns, j + 1);
      LoopTraceStep(turns, j, rest);
      JobsRun(rest.exit, rest.count + 1, turns[j].trace + rest.trace)
  }

  /** The whole job loop over the jobs in depth order. */
  function RunJobs(jobs: seq<Job>): (r: JobsRun)
    ensures r.count <= |jobs|
    ensures forall i :: 0 <= i < r.count ==> RunJob(i, jobs[i]).exit.Normal?
    ensures r.exit.Normal? ==> r.count == |jobs|
    ensures r.exit.Raise? ==> r.count < |jobs| && RunJob(r.count, jobs[r.count]).exit == r.exit
    ensures r.trace == Concat(Turns(jobs)[..r.count]) +
                       (if r.exit.Raise? then RunJob(r.count, jobs[r.count]).trace else [])
  {
    var turns := Turns(jobs);
    var r := JobLoop(turns, 0);
    assert turns[0..r.count] == turns[..r.count];
    r
  }

  predicate IsDigit(c: char) {
    '0' <= c <= '9'
  }

  predicate AllDigits(s: string) {
    forall i :: 0 <= i < |s| ==> IsDigit(s[i])
  }

  /** The number a string of decimal digits denotes, most significant
      digit first. */
  function DecimalValue(s: string): int
    decreases |s|
  {
    if |s| == 0 then 0
    else 10 * DecimalValue(s[..|s| - 1]) + (s[|s| - 1] as int - '0' as int)
  }

  /** String.valueOf of a non-negative long: decimal digits denoting n,
      with no leading zero. */
  function NatToDecimal(n: nat): (r: string)
    ensures |r| > 0 && AllDigits(r)
    ensures DecimalValue(r) == n
    ensures r[0] == '0' ==> n == 0 && r == "0"
    decreases n
  {
    var digit := ['0' + (n % 10) as char];
    if n < 10 then digit
    else
      var front := NatToDecimal(n / 10);
      assert (front + digit)[..|front|] == front;
      front + digit
  }

  /** String.valueOf of a possibly-null Long: "null", or the digits of the
      value's magnitude, after a minus sign when it is negative. */
  function IdToString(id: Option<int>): (r: string)
    ensures id.None? ==> r == "null"
    ensures id.Some? && id.value >= 0 ==> AllDigits(r) && DecimalValue(r) == id.value
    ensures id.Some? && id.value < 0 ==>
              |r| > 1 && r[0] == '-' && AllDigits(r[1..]) && DecimalValue(r[1..]) == -id.value
    ensures id.Some? ==>
              var digits := if id.value < 0 then r[1..] else r;
              |digits| > 0 && (digits[0] == '0' ==> digits == "0")
  {
    if id.None? then "null"
    else if id.value < 0 then
      var digits := NatToDecimal(-id.value);
      assert ("-" + digits)[1..] == digits;
      "-" + digits
    else NatToDecimal(id.value)
  }

  /** The error for a workflow id the store does not know. */
  function MissingWorkflow(id: Option<int>): MigrateError {
    MigrateError(General, "Workflow ID " + IdToString(id) + " does not exist!")
  }

  /** run()'s error when the engine was never given a workflow id. */
  const NotReady: MigrateError :=
    MigrateError(General, "Migrate is not in a ready state -- did you " +
                          "remember to use setWorkflowId before running?")

  /** run()'s error for any other status but READY. */
  const InUse: MigrateError :=
    MigrateError(General, "This Migrate object is already in use and " +
                          "cannot be re-run.  Please instance a new " +
                          "Migrate class.")

  datatype Attempt = Attempt(exit: Exit, state: Migration, trace: seq<Event>)

  /** Whether run()'s body completes for a script: the session opens, the
      workflow is found, the workflow hook (if any) loads and its preRun
      returns, every job finishes, and the hook's postRun returns. */
  predicate Completes(script: Script) {
    && script.restore.Found?
    && script.workflowHook.Loaded?
    && (script.workflowHook.hook.Some? ==>
          script.workflowHook.hook.value.preRun.Ok? && script.workflowHook.hook.value.postRun.Ok?)
    && RunJobs(JobLayout.Build(script.restore.definition).allJobs).exit.Normal?
  }

  /** The body of run()'s try block, from bind to the workflow's postRun:
      the first collaborator to throw ends it with its exception. The job
      total is set only once the workflow's preRun has returned. */
  function Traverse(m: Migration, script: Script): (r: Attempt)
    ensures r.exit.Normal? <==> Completes(script)
    ensures r.state.(workflowName := m.workflowName, numSteps := m.numSteps,
                     migratedStepCount := m.migratedStepCount) == m
    ensures script.restore.SessionFails? ==> r == Attempt(Raise(script.restore.raised), m, [])
    ensures !script.restore.SessionFails? ==> |r.trace| > 0 && r.trace[0] == RestoreWorkflow
    ensures script.restore.RestoreFails? ==> r.exit == Raise(script.restore.raised)
    ensures script.restore.Missing? ==> r.exit == Raise(Migrate(MissingWorkflow(m.workflowId)))
    ensures script.restore.RestoreFails? || script.restore.Missing? ==>
              r.state == m && r.trace == [RestoreWorkflow]
    ensures script.restore.Found? ==>
              var wh := script.workflowHook;
              var named := m.(workflowName := Some(script.restore.name));
              var jobs := JobLayout.Build(script.restore.definition).allJobs;
              var loop := RunJobs(jobs);
              && r.state.workflowName == Some(script.restore.name)
              && (wh.LoadFails? ==>
                    && r.exit == Raise(wh.raised)
                    && r.state == named
                    && r.trace == [RestoreWorkflow, LoadWorkflowClass])
              && (wh.Loaded? && wh.hook.Some? && wh.hook.value.preRun.Throws? ==>
                    && r.exit == Raise(wh.hook.value.preRun.raised)
                    && r.state == named
                    && r.trace == [RestoreWorkflow, LoadWorkflowClass, WorkflowPreRun])
              && (wh.Loaded? && StartsNormally(wh.hook) ==>
                    && r.state.numSteps == |jobs|
                    && r.state.migratedStepCount == m.migratedStepCount + loop.count
                    && r.trace == [RestoreWorkflow, LoadWorkflowClass] +
                                  (if wh.hook.Some? then [WorkflowPreRun] else []) + loop.trace +
                                  (if wh.hook.Some? && loop.exit.Normal? then [WorkflowPostRun] else []))
              && (wh.Loaded? && StartsNormally(wh.hook) && loop.exit.Raise? ==> r.exit == loop.exit)
              && (wh.Loaded? && wh.hook.Some? && wh.hook.value.preRun.Ok? && loop.exit.Normal? ==>
                    && (wh.hook.value.postRun.Throws? ==> r.exit == Raise(wh.hook.value.postRun.raised))
                    && r.trace[|r.trace| - 1] == WorkflowPostRun)
  {
    match script.restore
    case SessionFails(t) => Attempt(Raise(t), m, [])
    case RestoreFails(t) => Attempt(Raise(t), m, [RestoreWorkflow])
    case Missing => Attempt(Raise(Migrate(MissingWorkflow(m.workflowId))), m, [RestoreWorkflow])
    case Found(name, def) =>
      var named := m.(workflowName := Some(name));
      var jobs := JobLayout.Build(def).allJobs;
      match script.workflowHook
      case LoadFails(t) => Attempt(Raise(t), named, [RestoreWorkflow, LoadWorkflowClass])
      case Loaded(hook) =>
        var pre := [RestoreWorkflow, LoadWorkflowClass] + (if hook.Some? then [WorkflowPreRun] else []);
        if hook.Some? && hook.value.preRun.Throws? then
          Attempt(Raise(hook.value.preRun.raised), named, pre)
        else
          var loop := RunJobs(jobs);
          var counted := named.(numSteps := |jobs|,
                                migratedStepCount := named.migratedStepCount + loop.count);
          if loop.exit.Raise? then Attempt(loop.exit, counted, pre + loop.trace)
          else if hook.Some? then
            Attempt(if hook.value.postRun.Throws? then Raise(hook.value.postRun.raised) else Normal,
                    counted, pre + loop.trace + [WorkflowPostRun])
          else Attempt(Normal, counted, pre + loop.trace)
  }

  datatype RunResult = RunResult(after: Migration, trace: seq<Event>)

  /** run(). When not READY it only records ERROR with one of two messages
      and calls nothing. From READY it binds the session, runs the body and
      always unbinds; it ends in SUCCESS exactly when the body completes and
      otherwise in ERROR with the classified exception of the first
      collaborator that threw, never throwing itself. */
  function Run(m: Migration, script: Script): (r: RunResult)
    ensures m.status != Ready ==>
              && r.trace == []
              && r.after.status == Error
              && r.after.error == Some(if m.status == NeedSetup then NotReady else InUse)
              && r.after.(status := m.status, error := m.error) == m
    ensures m.status == Ready ==>
              && (r.after.status == Status.Success <==> Completes(script))
              && (r.after.status == Error <==> !Completes(script))
              && |r.trace| >= 2
              && r.trace[0] == Bind
              && r.trace[|r.trace| - 1] == Unbind
              && (script.restore.SessionFails? <==> r.trace == [Bind, Unbind])
              && (!script.restore.SessionFails? ==> r.trace[1] == RestoreWorkflow)
    ensures r.after.status == Status.Success ==>
              && r.after.error == m.error
              && script.restore.Found?
              && r.after.numSteps == |JobLayout.Build(script.restore.definition).allJobs|
              && r.after.migratedStepCount == m.migratedStepCount + r.after.numSteps
              && (script.workflowHook.hook.Some? ==> r.trace[|r.trace| - 2] == WorkflowPostRun)
    ensures r.after.workflowId == m.workflowId
    ensures m.status == Ready ==>
              r.after.workflowName ==
              (if script.restore.Found? then Some(script.restore.name) else m.workflowName)
  {
    if m.status != Ready then
      RunResult(m.(status := Error, error := Some(if m.status == NeedSetup then NotReady else InUse)), [])
    else
      var a := Traverse(m.(status := Running), script);
      var after := if a.exit.Normal? then a.state.(status := Status.Success)
                   else a.state.(status := Error, error := Some(Classify(a.exit.raised)));
      RunResult(after, [Bind] + a.trace + [Unbind])
  }

  /*************************************************************************
   * Properties of run()
   *************************************************************************/

  /** An ERROR from READY carries the classified exception of the first
      collaborator that threw: the session, the restore, the workflow
      class load, the workflow hook's preRun, the job loop or the hook's
      postRun; a missing workflow reports its id. */
  lemma RunReportsFirstException(m: Migration, script: Script)
    requires m.status == Ready
    ensures script.restore.SessionFails? || script.restore.RestoreFails? ==>
              Run(m, script).after.error == Some(Classify(script.restore.raised))
    ensures script.restore.Missing? ==> Run(m, script).after.error == Some(MissingWorkflow(m.workflowId))
    ensures script.restore.Found? ==>
              var wh := script.workflowHook;
              var loop := RunJobs(JobLayout.Build(script.restore.definition).allJobs);
              var after := Run(m, script).after;
              && (wh.LoadFails? ==> after.error == Some(Classify(wh.raised)))
              && (wh.Loaded? && wh.hook.Some? && wh.hook.value.preRun.Throws? ==>
                    after.error == Some(Classify(wh.hook.value.preRun.raised)))
              && (wh.Loaded? && StartsNormally(wh.hook) && loop.exit.Raise? ==>
                    after.error == Some(Classify(loop.exit.raised)))
              && (wh.Loaded? && wh.hook.Some? && wh.hook.value.preRun.Ok? &&
                  loop.exit.Normal? && wh.hook.value.postRun.Throws? ==>
                    after.error == Some(Classify(wh.hook.value.postRun.raised)))
  {
    var a := Traverse(m.(status := Running), script);
    assert Run(m, script).after.error == (if a.exit.Normal? then m.error else Some(Classify(a.exit.raised)));
  }

  /** When the workflow lookup throws or finds nothing, run() calls only
      bind, the lookup and unbind. */
  lemma RunCallsOnFailedLookup(m: Migration, script: Script)
    requires m.status == Ready
    requires script.restore.RestoreFails? || script.restore.Missing?
    ensures Run(m, script).trace == [Bind, RestoreWorkflow, Unbind]
  {
  }

  /** When loadWorkflowClass throws, run() calls bind, the lookup, that
      load and unbind, and nothing else. */
  lemma RunCallsOnFailedWorkflowLoad(m: Migration, script: Script)
    requires m.status == Ready
    requires script.restore.Found? && script.workflowHook.LoadFails?
    ensures Run(m, script).trace == [Bind, RestoreWorkflow, LoadWorkflowClass, Unbind]
  {
  }

  /** When the workflow hook's preRun throws, run() calls bind, the lookup,
      the load, that preRun and unbind: no job is loaded and the hook's
      postRun is not called. */
  lemma RunCallsOnFailedWorkflowPreRun(m: Migration, script: Script)
    requires m.status == Ready
    requires script.restore.Found? && script.workflowHook.Loaded?
    requires script.workflowHook.hook.Some? && script.workflowHook.hook.value.preRun.Throws?
    ensures Run(m, script).trace == [Bind, RestoreWorkflow, LoadWorkflowClass, WorkflowPreRun, Unbind]
  {
    var a := Traverse(m.(status := Running), script);
    assert a.trace == [RestoreWorkflow, LoadWorkflowClass, WorkflowPreRun];
    RunWrapsTraverse(m, script);
    PreRunCallsBracketed();
  }

  lemma PreRunCallsBracketed()
    ensures [Bind] + [RestoreWorkflow, LoadWorkflowClass, WorkflowPreRun] + [Unbind] ==
            [Bind, RestoreWorkflow, LoadWorkflowClass, WorkflowPreRun, Unbind]
  {
  }

  /** From READY, run()'s calls are bind, the try block's calls, unbind. */
  lemma RunWrapsTraverse(m: Migration, script: Script)
    requires m.status == Ready
    ensures Run(m, script).trace == [Bind] + Traverse(m.(status := Running), script).trace + [Unbind]
  {
  }

  /** The calls of run() from READY once the workflow hook's preRun (if
      any) has returned: bind, the lookup, the workflow class load, that
      preRun, the job loop's calls, the hook's postRun only if the loop
      finished, and unbind. */
  lemma RunCallsThroughJobLoop(m: Migration, script: Script)
    requires m.status == Ready
    ensures script.restore.Found? && script.workflowHook.Loaded? &&
            StartsNormally(script.workflowHook.hook) ==>
              var hooked := script.workflowHook.hook.Some?;
              var loop := RunJobs(JobLayout.Build(script.restore.definition).allJobs);
              Run(m, script).trace ==
                [Bind, RestoreWorkflow, LoadWorkflowClass] +
                (if hooked then [WorkflowPreRun] else []) + loop.trace +
                (if hooked && loop.exit.Normal? then [WorkflowPostRun] else []) +
                [Unbind]
  {
    if script.restore.Found? && script.workflowHook.Loaded? && StartsNormally(script.workflowHook.hook) {
      var a := Traverse(m.(status := Running), script);
      var hooked := script.workflowHook.hook.Some?;
      var loop := RunJobs(JobLayout.Build(script.restore.definition).allJobs);
      var pre := if hooked then [WorkflowPreRun] else [];
      var post := if hooked && loop.exit.Normal? then [WorkflowPostRun] else [];
      assert a.trace == [RestoreWorkflow, LoadWorkflowClass] + pre + loop.trace + post;
      assert Run(m, script).trace == [Bind] + a.trace + [Unbind];
      BracketRegroups(pre, loop.trace, post);
    }
  }

  lemma BracketRegroups(pre: seq<Event>, calls: seq<Event>, post: seq<Event>)
    ensures [Bind] + ([RestoreWorkflow, LoadWorkflowClass] + pre + calls + post) + [Unbind] ==
            [Bind, RestoreWorkflow, LoadWorkflowClass] + pre + calls + post + [Unbind]
  {
  }

  /** An ERROR raised before the job loop (by the session, the lookup, a
      missing workflow, the workflow class load or the workflow hook's
      preRun) leaves the job total and the job counter as they were; the
      workflow name is set only once the workflow has been found. */
  lemma EarlyErrorKeepsCounters(m: Migration, script: Script)
    requires m.status == Ready
    ensures !(script.restore.Found? && script.workflowHook.Loaded? &&
              StartsNormally(script.workflowHook.hook)) ==>
              var after := Run(m, script).after;
              && after.status == Error
              && after.numSteps == m.numSteps
              && after.migratedStepCount == m.migratedStepCount
              && after.workflowName ==
                 (if script.restore.Found? then Some(script.restore.name) else m.workflowName)
  {
    var a := Traverse(m.(status := Running), script);
    assert Run(m, script).after.numSteps == a.state.numSteps;
  }

  /** Every call of a series of turns belongs to one of the turns. */
  lemma {:induction false} ConcatMembers(ts: seq<Traced>, e: Event)
    requires e in Concat(ts)
    ensures exists i :: 0 <= i < |ts| && e in ts[i].trace
    decreases |ts|
  {
    if e !in ts[0].trace {
      ConcatMembers(ts[1..], e);
      var i :| 0 <= i < |ts| - 1 && e in ts[1..][i].trace;
      assert e in ts[i + 1].trace;
    }
  }

  /** The job loop makes no call for a job after the one it stopped at:
      every call belongs to a counted job or, when the loop aborts, to the
      job that threw. */
  lemma JobLoopStopsAtThrowingJob(jobs: seq<Job>)
    ensures var r := RunJobs(jobs);
            forall e :: e in r.trace ==>
              exists i :: 0 <= i < r.count + (if r.exit.Raise? then 1 else 0) && e.InJob(i)
  {
    var r := RunJobs(jobs);
    var turns := Turns(jobs);
    forall e | e in r.trace
      ensures exists i :: 0 <= i < r.count + (if r.exit.Raise? then 1 else 0) && e.InJob(i)
    {
      if e in Concat(turns[..r.count]) {
        ConcatMembers(turns[..r.count], e);
        var i :| 0 <= i < r.count && e in turns[..r.count][i].trace;
        assert e.InJob(i);
      } else {
        assert e.InJob(r.count);
      }
    }
  }

  /** Once SUCCESS, ERROR or CLOSED, an engine stays done: setWorkflowId
      does not revive it, run() records "already in use" and calls nothing,
      close and setError keep it terminal, and progress reads 100. */
  lemma TerminalIsFinal(m: Migration, id: Option<int>, script: Script, e: MigrateError)
    requires m.status.IsTerminal()
    ensures SetWorkflowId(m, id).status == m.status
    ensures Run(m, script).after.status == Error
    ensures Run(m, script).after.error == Some(InUse)
    ensures Run(m, script).trace == []
    ensures Close(m).status.IsTerminal() && SetError(m, e).status.IsTerminal()
    ensures Progress(m) == 100
  {
  }

  /** An engine whose id was never set fails run() with "not in a ready
      state" and calls no collaborator. */
  lemma RunWithoutSetup(script: Script)
    ensures Run(Initial, script).after.status == Error
    ensures Run(Initial, script).after.error == Some(NotReady)
    ensures Run(Initial, script).trace == []
  {
  }

  /** Replacing a step's SkipException by a normal return changes nothing
      about the step loop from any point on. */
  lemma {:induction false} SkippedStepLoop(j: nat, steps: seq<Step>, k: nat, s: nat)
    requires k < |steps| && s <= |steps|
    requires steps[k].resolve.Ok? && steps[k].run.Throws? && steps[k].run.raised.IsSkip()
    ensures RunSteps(j, steps, s) == RunSteps(j, steps[k := steps[k].(run := Ok)], s)
    decreases |steps| - s
  {
    if s < |steps| {
      SkippedStepLoop(j, steps, k, s + 1);
    }
  }

  /** A SkipException from a step's run is swallowed: the job behaves as if
      the step had returned normally, so its later steps and its postRun
      still run. */
  lemma SkippedStepIsSwallowed(j: nat, job: Job, k: nat)
    requires k < |job.steps|
    requires job.steps[k].resolve.Ok? && job.steps[k].run.Throws? && job.steps[k].run.raised.IsSkip()
    ensures RunJob(j, job) == RunJob(j, job.(steps := job.steps[k := job.steps[k].(run := Ok)]))
  {
    SkippedStepLoop(j, job.steps, k, 0);
  }

  /** A SkipException from a job's preRun abandons that job's steps and
      postRun, yet the job loop counts the job and goes on. */
  lemma SkippedJobPreRun(j: nat, job: Job)
    requires job.hookLoad.Loaded? && job.hookLoad.hook.Some?
    requires var h := job.hookLoad.hook.value; h.preRun.Throws? && h.preRun.raised.IsSkip()
    ensures RunJob(j, job) == Traced(Normal, [LoadJobClass(j), JobPreRun(j)])
  {
  }

  /** A SkipException from a job's postRun, after all its steps passed, is
      swallowed: the job counts as done. */
  lemma SkippedJobPostRun(j: nat, job: Job)
    requires job.hookLoad.Loaded? && job.hookLoad.hook.Some?
    requires var h := job.hookLoad.hook.value;
             h.preRun.Ok? && h.postRun.Throws? && h.postRun.raised.IsSkip()
    requires forall k :: 0 <= k < |job.steps| ==> Passes(job.steps[k])
    ensures RunJob(j, job).exit == Normal
    ensures RunJob(j, job).trace[|RunJob(j, job).trace| - 1] == JobPostRun(j)
  {
  }

  /** A failure to load a step's class, or any non-skip exception from a
      step, leaves the job with that exception: it is not swallowed at job
      level, so it aborts the run. */
  lemma FailingStepAbortsJob(j: nat, job: Job, f: nat)
    requires job.hookLoad.Loaded?
    requires job.hookLoad.hook.Some? ==> job.hookLoad.hook.value.preRun.Ok?
    requires f < |job.steps| && !Passes(job.steps[f]) && !FailureOf(job.steps[f]).IsSkip()
    requires forall k :: 0 <= k < f ==> Passes(job.steps[k])
    ensures RunJob(j, job).exit == Raise(FailureOf(job.steps[f]))
  {
    assert FirstFailure(job.steps, 0) == f;
  }

  /** When the job loop aborts, the run ends in ERROR with the classified
      exception, and the job counter has counted exactly the jobs before the
      failing one, each of which finished. */
  lemma AbortedRunCountsFinishedJobs(m: Migration, name: string,
                                     def: Option<seq<seq<JobLayout.Vertex<Job>>>>, hook: Option<Hook>)
    requires m.status == Ready
    requires hook.Some? ==> hook.value.preRun.Ok?
    requires RunJobs(JobLayout.Build(def).allJobs).exit.Raise?
    ensures var jobs := JobLayout.Build(def).allJobs;
            var loop := RunJobs(jobs);
            var r := Run(m, Script(Found(name, def), Loaded(hook)));
            && r.after.status == Error
            && r.after.error == Some(Classify(loop.exit.raised))
            && r.after.migratedStepCount == m.migratedStepCount + loop.count
            && loop.count < |jobs|
            && (forall i :: 0 <= i < loop.count ==> RunJob(i, jobs[i]).exit.Normal?)
            && RunJob(loop.count, jobs[loop.count]).exit.Raise?
  {
  }

  /** A SkipException from the workflow's preRun is not swallowed: it is a
      MigrateException, so the run ends in ERROR with it, before any job is
      counted or even the job total set. */
  lemma WorkflowPreRunSkipIsError(m: Migration, name: string,
                                  def: Option<seq<seq<JobLayout.Vertex<Job>>>>, h: Hook)
    requires m.status == Ready
    requires h.preRun.Throws? && h.preRun.raised.IsSkip()
    ensures var r := Run(m, Script(Found(name, def), Loaded(Some(h))));
            && r.after.status == Error
            && r.after.error == Some(h.preRun.raised.error)
            && r.after.error.value.kind == Skip
            && r.after.numSteps == m.numSteps
            && r.after.migratedStepCount == m.migratedStepCount
            && r.trace == [Bind, RestoreWorkflow, LoadWorkflowClass, WorkflowPreRun, Unbind]
  {
  }

  /** Likewise a SkipException from the workflow's postRun, raised after all
      jobs were counted, ends the run in ERROR. */
  lemma WorkflowPostRunSkipIsError(m: Migration, name: string,
                                   def: Option<seq<seq<JobLayout.Vertex<Job>>>>, h: Hook)
    requires m.status == Ready
    requires h.preRun.Ok? && h.postRun.Throws? && h.postRun.raised.IsSkip()
    requires RunJobs(JobLayout.Build(def).allJobs).exit.Normal?
    ensures var r := Run(m, Script(Found(name, def), Loaded(Some(h))));
            && r.after.status == Error
            && r.after.error == Some(h.postRun.raised.error)
            && r.after.migratedStepCount
               == m.migratedStepCount + |JobLayout.Build(def).allJobs|
  {
  }

  /*************************************************************************
   * run() with the default loader
   *************************************************************************/

  /** What loadStepClass of the default loader does for a step class. */
  function DefaultResolve<H>(registry: map<string, H>, className: string): (o: Outcome)
    ensures o.Ok? <==> DefaultLoader.LoadStepClass(registry, className).Success?
    ensures o.Throws? ==>
              o.raised == Migrate(DefaultLoader.LoadStepClass(registry, className).error) &&
              o.raised.error.kind == UnsupportedClass
  {
    match DefaultLoader.LoadStepClass(registry, className)
    case Success(_) => Ok
    case Failure(e) => Throws(Migrate(e))
  }

  /** A job as the default loader presents it: no job hook, and each step's
      class resolved through the registry. */
  predicate DefaultJob<H>(registry: map<string, H>, job: Job) {
    && job.hookLoad == Loaded(DefaultLoader.LoadJobClass())
    && forall k :: 0 <= k < |job.steps| ==>
         job.steps[k].resolve == DefaultResolve(registry, job.steps[k].className)
  }

  /** A script as the default loader presents it. */
  predicate DefaultScript<H>(registry: map<string, H>, script: Script) {
    && script.workflowHook == Loaded(DefaultLoader.LoadWorkflowClass())
    && (script.restore.Found? && script.restore.definition.Some? ==>
          var levels := script.restore.definition.value;
          forall d, i :: 0 <= d < |levels| && 0 <= i < |levels[d]| ==>
            DefaultJob(registry, levels[d][i].data))
  }

  lemma DefaultJobsInOrder<H>(registry: map<string, H>, script: Script)
    requires DefaultScript(registry, script) && script.restore.Found?
    ensures var jobs := JobLayout.Build(script.restore.definition).allJobs;
            forall i :: 0 <= i < |jobs| ==> DefaultJob(registry, jobs[i])
  {
    var def := script.restore.definition;
    if def.Some? {
      var jobs := JobLayout.Build(def).allJobs;
      JobLayout.AllJobsInDepthOrder(def.value);
      forall i | 0 <= i < |jobs|
        ensures DefaultJob(registry, jobs[i])
      {
        assert jobs[i] in jobs;
      }
    }
  }

  lemma NoHookJobCalls(j: nat, job: Job)
    requires job.hookLoad == Loaded(None)
    ensures forall e :: e in RunJob(j, job).trace ==> !e.IsHookCall()
  {
    var loop := RunSteps(j, job.steps, 0);
    assert JobBody(j, None, job.steps).trace == loop.trace;
    assert RunJob(j, job).trace == [LoadJobClass(j)] + loop.trace;
  }

  lemma {:induction false} NoJobHookCalls(turns: seq<Traced>, j: nat)
    requires j <= |turns|
    requires forall i, e :: 0 <= i < |turns| && e in turns[i].trace ==> !e.IsHookCall()
    ensures forall e :: e in JobLoop(turns, j).trace ==> !e.IsHookCall()
    decreases |turns| - j
  {
    if j < |turns| && turns[j].exit.Normal? {
      NoJobHookCalls(turns, j + 1);
      assert JobLoop(turns, j).trace == turns[j].trace + JobLoop(turns, j + 1).trace;
    }
  }

  /** The job loop over jobs the default loader presents calls no hook. */
  lemma DefaultJobLoopCallsNoHooks<H>(registry: map<string, H>, jobs: seq<Job>)
    requires forall i :: 0 <= i < |jobs| ==> DefaultJob(registry, jobs[i])
    ensures forall e :: e in RunJobs(jobs).trace ==> !e.IsHookCall()
  {
    forall i | 0 <= i < |jobs|
      ensures forall e :: e in Turns(jobs)[i].trace ==> !e.IsHookCall()
    {
      NoHookJobCalls(i, jobs[i]);
    }
    NoJobHookCalls(Turns(jobs), 0);
  }

  /** Without a workflow hook the body of run() restores the workflow, and
      if it is found loads the (absent) workflow hook and runs the jobs. */
  lemma UnhookedTraverse(m: Migration, script: Script)
    requires script.workflowHook == Loaded(None)
    ensures Traverse(m, script).trace
            == if script.restore.SessionFails? then []
               else [RestoreWorkflow] +
                    (if script.restore.Found?
                     then [LoadWorkflowClass] + RunJobs(JobLayout.Build(script.restore.definition).allJobs).trace
                     else [])
  {
    match script.restore
    case Found(_, def) =>
      var loop := RunJobs(JobLayout.Build(def).allJobs);
      assert Traverse(m, script).trace == [RestoreWorkflow, LoadWorkflowClass] + [] + loop.trace + [];
      UnhookedCallsRegroup(loop.trace);
    case _ =>
  }

  lemma UnhookedCallsRegroup(calls: seq<Event>)
    ensures [RestoreWorkflow, LoadWorkflowClass] + [] + calls + [] ==
            [RestoreWorkflow] + ([LoadWorkflowClass] + calls)
  {
  }

  /** With the default loader no workflow or job hook is ever called: the
      default loadWorkflowClass and loadJobClass return null. */
  lemma DefaultLoaderCallsNoHooks<H>(registry: map<string, H>, m: Migration, script: Script)
    requires DefaultScript(registry, script)
    ensures forall e :: e in Run(m, script).trace ==> !e.IsHookCall()
  {
    if m.status == Ready {
      DefaultTraverseCallsNoHooks(registry, m.(status := Running), script);
      RunWrapsTraverse(m, script);
    }
  }

  lemma DefaultTraverseCallsNoHooks<H>(registry: map<string, H>, m: Migration, script: Script)
    requires DefaultScript(registry, script)
    ensures forall e :: e in Traverse(m, script).trace ==> !e.IsHookCall()
  {
    UnhookedTraverse(m, script);
    if script.restore.Found? {
      DefaultJobsInOrder(registry, script);
      DefaultJobLoopCallsNoHooks(registry, JobLayout.Build(script.restore.definition).allJobs);
    }
  }

  /** Under the default loader a job with a step outside the legacy
      server's package throws out of its turn. */
  lemma ForeignStepFailsJob<H>(registry: map<string, H>, x: nat, job: Job, k: nat)
    requires DefaultJob(registry, job)
    requires k < |job.steps| && !IsPrefix(DefaultLoader.AnthillPrefix, job.steps[k].className)
    ensures RunJob(x, job).exit.Raise?
  {
    assert job.steps[k].resolve.Throws?;
    var f := FirstFailure(job.steps, 0);
    assert f <= k;
    assert !FailureOf(job.steps[f]).IsSkip();
    assert JobBody(x, None, job.steps) == RunSteps(x, job.steps, 0);
  }

  /** With the default loader, a workflow holding a step whose class lies
      outside the legacy server's package never migrates successfully. */
  lemma DefaultLoaderRejectsForeignStep<H>(registry: map<string, H>, m: Migration, script: Script,
                                           d: nat, i: nat, k: nat)
    requires DefaultScript(registry, script)
    requires script.restore.Found? && script.restore.definition.Some?
    requires var levels := script.restore.definition.value;
             && d < |levels| && i < |levels[d]| && k < |levels[d][i].data.steps|
             && !IsPrefix(DefaultLoader.AnthillPrefix, levels[d][i].data.steps[k].className)
    ensures Run(m, script).after.status != Status.Success
  {
    ForeignStepBlocksCompletion(registry, script, d, i, k);
  }

  lemma ForeignStepBlocksCompletion<H>(registry: map<string, H>, script: Script, d: nat, i: nat, k: nat)
    requires DefaultScript(registry, script)
    requires script.restore.Found? && script.restore.definition.Some?
    requires var levels := script.restore.definition.value;
             && d < |levels| && i < |levels[d]| && k < |levels[d][i].data.steps|
             && !IsPrefix(DefaultLoader.AnthillPrefix, levels[d][i].data.steps[k].className)
    ensures !Completes(script)
  {
    var levels: seq<seq<JobLayout.Vertex<Job>>> := script.restore.definition.value;
    var job := levels[d][i].data;
    var jobs := JobLayout.Build(script.restore.definition).allJobs;
    JobLayout.AllJobsInDepthOrder(levels);
    assert job in jobs;
    var x :| 0 <= x < |jobs| && jobs[x] == job;
    ForeignStepFailsJob(registry, x, job, k);
    assert !RunJobs(jobs).exit.Normal?;
  }
}
