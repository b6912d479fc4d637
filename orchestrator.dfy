/** The orchestrator: it yields `analyze_pdf`, `summarize_text` and
    `write_summary` in turn, each under a retry policy of at most 3 attempts
    with a first retry interval of 5000 ms, feeds each step's result to the
    next, and returns the last step's result. A step that fails on every
    attempt raises out of its `yield`, so the orchestration ends failed and no
    later step runs.

    The durable runtime that replays the generator is not modelled. What it
    delivers to the orchestration is: one activity outcome per attempt, in
    order. `Apply` is the effect of one such outcome, `Run` the effect of a
    sequence of them, and the class `Orchestrator` performs the same steps on
    mutable state. */
module Orchestration {
  import opened Wrappers

  const MaxAttempts: nat := 3
  const FirstRetryIntervalMs: nat := 5000

  /** The activities, in the order the orchestrator yields them. */
  const Activities: seq<string> := ["analyze_pdf", "summarize_text", "write_summary"]
  const StepCount: nat := 3

  datatype Status = Running | Completed | Failed

  /** What one attempt of an activity comes back with: its return value, or
      the exception it raised. */
  datatype Outcome = Succeeded(value: string) | Raised(error: string)

  /** The value an activity is called with: a string, or the dictionary
      `{"blob": ..., "summary": ...}`. */
  datatype ActivityInput = Text(text: string) | Record(blob: string, summary: string)

  /** One attempt of one step, as the history records it. `delayMs` is the
      wait before the attempt. */
  datatype Attempt = Attempt(step: nat, activity: string, number: nat, delayMs: nat,
                             input: ActivityInput, outcome: Outcome)

  /** The orchestration: the current step and how many attempts it has had,
      the status, the results of the steps that succeeded, every attempt so
      far, and the final result or error. */
  datatype State = State(step: nat, attempt: nat, status: Status, outputs: seq<string>,
                         history: seq<Attempt>, result: Option<string>, error: Option<string>)

  /** The orchestration before anything has run: at `analyze_pdf`, with no
      attempt recorded. */
  function Init(): (r: State)
    ensures Ready(r) && r.status == Running && r.step == 0 && r.history == []
  {
    State(0, 0, Running, [], [], None, None)
  }

  /** The wait before attempt `number`: none before the first, the retry
      interval before each retry (the backoff coefficient is 1). */
  function RetryDelay(number: nat): (d: nat)
    ensures number <= 1 ==> d == 0
    ensures number > 1 ==> d == FirstRetryIntervalMs
  {
    if number <= 1 then 0 else FirstRetryIntervalMs
  }

  /** The data flow: step 0 gets the blob name, step 1 the text step 0
      produced, step 2 the record of the blob name and step 1's summary. */
  function StepInput(blob: string, outputs: seq<string>, step: nat): (input: ActivityInput)
    requires step < StepCount && step <= |outputs|
    ensures step == 0 ==> input == Text(blob)
    ensures step == 1 ==> input == Text(outputs[0])
    ensures step == 2 ==> input == Record(blob, outputs[1])
  {
    if step == 0 then Text(blob)
    else if step == 1 then Text(outputs[0])
    else Record(blob, outputs[1])
  }

  /** Number of attempts of step `k` in `h`. */
  function AttemptsAt(h: seq<Attempt>, k: nat): nat
  {
    if h == [] then 0
    else AttemptsAt(h[..|h| - 1], k) + (if h[|h| - 1].step == k then 1 else 0)
  }

  /** Attempt `b` may come right after attempt `a`: a retry of the same step
      after a failure, or the first attempt of the next step after a success. */
  predicate Follows(a: Attempt, b: Attempt)
  {
    || (b.step == a.step && b.number == a.number + 1 && a.outcome.Raised?)
    || (b.step == a.step + 1 && b.number == 1 && a.outcome.Succeeded?)
  }

  /** The history starts with the first attempt of step 0 and each attempt
      follows the one before it. */
  predicate Sequential(h: seq<Attempt>)
  {
    && (|h| > 0 ==> h[0].step == 0 && h[0].number == 1)
    && (forall i :: 0 < i < |h| ==> Follows(h[i - 1], h[i]))
  }

  /** One recorded attempt names the right activity, is within the attempt
      bound, waited the policy's delay, got the input the data flow gives its
      step and, if it succeeded, produced that step's output. */
  predicate AttemptWf(blob: string, outputs: seq<string>, a: Attempt)
  {
    && a.step < StepCount
    && a.step <= |outputs|
    && a.activity == Activities[a.step]
    && 1 <= a.number <= MaxAttempts
    && a.delayMs == RetryDelay(a.number)
    && a.input == StepInput(blob, outputs, a.step)
    && (a.outcome.Succeeded? ==> a.step < |outputs| && a.outcome.value == outputs[a.step])
  }

  /** Status, step, attempt count, outputs and final values agree, and the
      history has room for no more than the attempts made so far. */
  predicate Shape(s: State)
  {
    && |s.outputs| == s.step <= StepCount
    && (s.status == Running ==>
          s.step < StepCount && s.attempt < MaxAttempts && s.result == None && s.error == None)
    && (s.status == Failed ==>
          s.step < StepCount && s.attempt == MaxAttempts && s.result == None && s.error.Some?)
    && (s.status == Completed ==>
          && s.step == StepCount && s.attempt == 0 && s.error == None
          && s.result == Some(s.outputs[StepCount - 1]))
    && |s.history| <= MaxAttempts * s.step + s.attempt
  }

  /** The last recorded attempt is where the orchestration stands: a failure
      of the current step (the error of a failed orchestration), or the
      success of the step before it. */
  predicate Linked(s: State)
  {
    var h := s.history;
    && (|h| == 0 ==> s.step == 0 && s.attempt == 0)
    && (|h| > 0 && h[|h| - 1].outcome.Raised? ==>
          h[|h| - 1].step == s.step && h[|h| - 1].number == s.attempt)
    && (|h| > 0 && h[|h| - 1].outcome.Succeeded? ==>
          h[|h| - 1].step + 1 == s.step && s.attempt == 0)
    && (s.status == Failed ==>
          |h| > 0 && h[|h| - 1].outcome.Raised? && s.error == Some(h[|h| - 1].outcome.error))
  }

  /** The current step has had `attempt` attempts, later steps none, and no
      step more than the bound. */
  ghost predicate Counted(s: State)
  {
    && AttemptsAt(s.history, s.step) == s.attempt
    && (forall k :: s.step < k ==> AttemptsAt(s.history, k) == 0)
    && (forall k :: AttemptsAt(s.history, k) <= MaxAttempts)
  }

  predicate AllAttemptsWf(blob: string, outputs: seq<string>, h: seq<Attempt>)
  {
    forall i :: 0 <= i < |h| ==> AttemptWf(blob, outputs, h[i])
  }

  /** The orchestration invariant. */
  ghost predicate Wf(blob: string, s: State)
  {
    && Shape(s)
    && AllAttemptsWf(blob, s.outputs, s.history)
    && Sequential(s.history)
    && Linked(s)
    && Counted(s)
  }

  /** What delivering an outcome needs: a running orchestration is at one of
      the steps, and the outputs of the steps before it are known. */
  predicate Ready(s: State)
  {
    s.status == Running ==> s.step < StepCount && s.step <= |s.outputs|
  }

  /** Delivering one activity outcome. While running, the current step's
      attempt is recorded; a success moves to the next step (completing after
      the last one), a failure is retried until the attempts are exhausted and
      then fails the orchestration. Once it has ended, a delivery changes
      nothing. */
  function Apply(blob: string, s: State, o: Outcome): (r: State)
    requires Ready(s)
    ensures Ready(r)
    ensures s.status != Running ==> r == s
    ensures s.status == Running ==> |r.history| == |s.history| + 1 && r.history[..|s.history|] == s.history
    ensures s.status == Running ==> r.history[|s.history|] == NextAttempt(blob, s, o)
  {
    if s.status != Running then s
    else
      var number := s.attempt + 1;
      var a := Attempt(s.step, Activities[s.step], number, RetryDelay(number),
                       StepInput(blob, s.outputs, s.step), o);
      var h := s.history + [a];
      assert h[..|s.history|] == s.history;
      match o
      case Succeeded(v) =>
        if s.step + 1 == StepCount then State(StepCount, 0, Completed, s.outputs + [v], h, Some(v), None)
        else State(s.step + 1, 0, Running, s.outputs + [v], h, None, None)
      case Raised(e) =>
        if number == MaxAttempts then State(s.step, number, Failed, s.outputs, h, None, Some(e))
        else State(s.step, number, Running, s.outputs, h, None, None)
  }

  lemma AttemptsAtAppend(h: seq<Attempt>, a: Attempt, k: nat)
    ensures AttemptsAt(h + [a], k) == AttemptsAt(h, k) + (if a.step == k then 1 else 0)
  {
    assert (h + [a])[..|h|] == h;
  }

  /** A success appended to the outputs leaves every recorded attempt well formed. */
  lemma AttemptsStayWf(blob: string, outputs: seq<string>, v: string, h: seq<Attempt>)
    requires AllAttemptsWf(blob, outputs, h)
    ensures AllAttemptsWf(blob, outputs + [v], h)
  {
    forall i | 0 <= i < |h|
      ensures AttemptWf(blob, outputs + [v], h[i])
    {
      var a := h[i];
      assert StepInput(blob, outputs + [v], a.step) == StepInput(blob, outputs, a.step);
    }
  }

  /** The attempt a running orchestration records next. */
  function NextAttempt(blob: string, s: State, o: Outcome): Attempt
    requires Ready(s) && s.status == Running
  {
    Attempt(s.step, Activities[s.step], s.attempt + 1, RetryDelay(s.attempt + 1),
            StepInput(blob, s.outputs, s.step), o)
  }

  lemma ApplyRecordsNextAttempt(blob: string, s: State, o: Outcome)
    requires Wf(blob, s) && s.status == Running
    ensures Apply(blob, s, o).history == s.history + [NextAttempt(blob, s, o)]
  {
  }

  lemma CountedPreserved(blob: string, s: State, o: Outcome)
    requires Wf(blob, s) && s.status == Running
    ensures Counted(Apply(blob, s, o))
  {
    var r := Apply(blob, s, o);
    var a := NextAttempt(blob, s, o);
    ApplyRecordsNextAttempt(blob, s, o);
    forall k: nat
      ensures AttemptsAt(r.history, k) == AttemptsAt(s.history, k) + (if s.step == k then 1 else 0)
    {
      AttemptsAtAppend(s.history, a, k);
    }
  }

  lemma AttemptsPreserved(blob: string, s: State, o: Outcome)
    requires Wf(blob, s) && s.status == Running
    ensures AllAttemptsWf(blob, Apply(blob, s, o).outputs, Apply(blob, s, o).history)
  {
    var r := Apply(blob, s, o);
    var a := NextAttempt(blob, s, o);
    ApplyRecordsNextAttempt(blob, s, o);
    if o.Succeeded? {
      AttemptsStayWf(blob, s.outputs, o.value, s.history);
      assert StepInput(blob, r.outputs, s.step) == StepInput(blob, s.outputs, s.step);
    }
    assert AttemptWf(blob, r.outputs, a);
  }

  lemma SequentialAppend(h: seq<Attempt>, a: Attempt)
    requires Sequential(h)
    requires |h| == 0 ==> a.step == 0 && a.number == 1
    requires |h| > 0 ==> Follows(h[|h| - 1], a)
    ensures Sequential(h + [a])
  {
    var h' := h + [a];
    forall i | 0 < i < |h'|
      ensures Follows(h'[i - 1], h'[i])
    {
      if i < |h| {
        assert h'[i - 1] == h[i - 1] && h'[i] == h[i];
      }
    }
  }

  lemma SequentialPreserved(blob: string, s: State, o: Outcome)
    requires Wf(blob, s) && s.status == Running
    ensures Sequential(Apply(blob, s, o).history)
  {
    var a := NextAttempt(blob, s, o);
    ApplyRecordsNextAttempt(blob, s, o);
    SequentialAppend(s.history, a);
  }

  /** Every delivery preserves the orchestration invariant. */
  lemma ApplyPreservesWf(blob: string, s: State, o: Outcome)
    requires Wf(blob, s)
    ensures Wf(blob, Apply(blob, s, o))
  {
    if s.status == Running {
      ApplyRecordsNextAttempt(blob, s, o);
      CountedPreserved(blob, s, o);
      AttemptsPreserved(blob, s, o);
      SequentialPreserved(blob, s, o);
    }
  }

  /** Delivering a sequence of outcomes in order; what arrives after the
      orchestration has ended is ignored. */
  function RunFrom(blob: string, s: State, outcomes: seq<Outcome>): (r: State)
    requires Ready(s)
    ensures Ready(r)
    ensures s.status != Running ==> r == s
    ensures s.status == Running && r.status == Running ==> |r.history| == |s.history| + |outcomes|
    decreases |outcomes|
  {
    if outcomes == [] || s.status != Running then s
    else RunFrom(blob, Apply(blob, s, outcomes[0]), outcomes[1..])
  }

  /** The orchestration for `blob` after the outcomes have been delivered. */
  function Run(blob: string, outcomes: seq<Outcome>): (r: State)
    ensures Ready(r)
    ensures r.status == Running ==> |r.history| == |outcomes|
  {
    RunFrom(blob, Init(), outcomes)
  }

  lemma {:induction false} RunFromPreservesWf(blob: string, s: State, outcomes: seq<Outcome>)
    requires Wf(blob, s)
    ensures Wf(blob, RunFrom(blob, s, outcomes))
    decreases |outcomes|
  {
    if outcomes != [] && s.status == Running {
      ApplyPreservesWf(blob, s, outcomes[0]);
      RunFromPreservesWf(blob, Apply(blob, s, outcomes[0]), outcomes[1..]);
    }
  }

  /** Every run satisfies the orchestration invariant. */
  lemma RunWf(blob: string, outcomes: seq<Outcome>)
    ensures Wf(blob, Run(blob, outcomes))
  {
    RunFromPreservesWf(blob, Init(), outcomes);
  }

  // ---------------------------------------------------------------------
  // Properties of a run

  /** Deliveries only append to the history; while still running, each
      delivery has appended exactly one attempt. */
  lemma {:induction false} RunFromExtends(blob: string, s: State, outcomes: seq<Outcome>)
    requires Ready(s)
    ensures var r := RunFrom(blob, s, outcomes);
            && |s.history| <= |r.history|
            && r.history[..|s.history|] == s.history
            && (r.status == Running ==> |r.history| == |s.history| + |outcomes|)
    decreases |outcomes|
  {
    if outcomes != [] && s.status == Running {
      var s' := Apply(blob, s, outcomes[0]);
      RunFromExtends(blob, s', outcomes[1..]);
      var r := RunFrom(blob, s, outcomes);
      assert r.history[..|s'.history|][..|s.history|] == r.history[..|s.history|];
    }
  }

  /** Delivering `os` and then `more` is delivering `os + more`. */
  lemma {:induction false} RunFromAppend(blob: string, s: State, os: seq<Outcome>, more: seq<Outcome>)
    requires Ready(s)
    ensures RunFrom(blob, s, os + more) == RunFrom(blob, RunFrom(blob, s, os), more)
    decreases |os|
  {
    if os == [] {
      assert os + more == more;
    } else if s.status == Running {
      assert (os + more)[0] == os[0] && (os + more)[1..] == os[1..] + more;
      RunFromAppend(blob, Apply(blob, s, os[0]), os[1..], more);
    } else {
      assert RunFrom(blob, s, os) == s;
    }
  }

  /** Replaying a longer sequence of outcomes never rewrites what a shorter
      one recorded, and an orchestration that has ended stays as it is
      whatever is delivered afterwards. */
  lemma RunIsAppendOnly(blob: string, os: seq<Outcome>, more: seq<Outcome>)
    ensures var r, r' := Run(blob, os), Run(blob, os + more);
            && |r.history| <= |r'.history|
            && r'.history[..|r.history|] == r.history
            && (r.status != Running ==> r' == r)
  {
    RunFromAppend(blob, Init(), os, more);
    RunFromExtends(blob, Run(blob, os), more);
    if Run(blob, os).status != Running {
      assert RunFrom(blob, Run(blob, os), more) == Run(blob, os);
    }
  }

  /** Every orchestration ends, completed or failed, after at most
      3 steps x 3 attempts deliveries. */
  lemma RunTerminates(blob: string, os: seq<Outcome>)
    requires |os| >= MaxAttempts * StepCount
    ensures Run(blob, os).status != Running
  {
    RunWf(blob, os);
    RunFromExtends(blob, Init(), os);
  }

  /** Step numbers never decrease along the history. */
  lemma {:induction false} StepsNonDecreasing(h: seq<Attempt>, i: nat, j: nat)
    requires Sequential(h)
    requires i <= j < |h|
    ensures h[i].step <= h[j].step
    decreases j
  {
    if i < j {
      StepsNonDecreasing(h, i, j - 1);
      assert Follows(h[j - 1], h[j]);
    }
  }

  /** An attempt of step n + 1 is preceded by a success of step n. */
  lemma {:induction false} PredecessorSucceeded(h: seq<Attempt>, j: nat)
    requires Sequential(h)
    requires j < |h| && h[j].step > 0
    ensures exists i :: 0 <= i < j && h[i].step == h[j].step - 1 && h[i].outcome.Succeeded?
    decreases j
  {
    assert j > 0;
    assert Follows(h[j - 1], h[j]);
    if h[j - 1].step == h[j].step {
      PredecessorSucceeded(h, j - 1);
    }
  }

  /** Strict ordering: `summarize_text` is attempted only after
      `analyze_pdf` has succeeded, and `write_summary` only after
      `summarize_text` has succeeded; steps are attempted in order. */
  lemma StrictOrdering(blob: string, os: seq<Outcome>, i: nat, j: nat)
    requires j < |Run(blob, os).history|
    ensures var h := Run(blob, os).history;
            && (i <= j ==> h[i].step <= h[j].step)
            && (h[j].step > 0 ==>
                  exists p :: 0 <= p < j && h[p].step == h[j].step - 1 && h[p].outcome.Succeeded?)
  {
    RunWf(blob, os);
    var h := Run(blob, os).history;
    if i <= j {
      StepsNonDecreasing(h, i, j);
    }
    if h[j].step > 0 {
      PredecessorSucceeded(h, j);
    }
  }

  /** Attempt number m of a step is preceded by its m - 1 earlier attempts,
      all of them failures. */
  lemma {:induction false} RetriesFollowFailures(h: seq<Attempt>, j: nat, m: nat)
    requires Sequential(h)
    requires j < |h| && m < h[j].number
    ensures m <= j
    ensures h[j - m].step == h[j].step && h[j - m].number == h[j].number - m
    ensures m > 0 ==> h[j - m].outcome.Raised?
    decreases m
  {
    if m > 0 {
      RetriesFollowFailures(h, j, m - 1);
      var k := j - (m - 1);
      assert k > 0;
      assert Follows(h[k - 1], h[k]);
    }
  }

  /** The retry policy: every attempt is one of at most 3 of its step; the
      first waits nothing, and each retry waits 5000 ms and comes right after
      a failure of the same step. */
  lemma RetryPolicy(blob: string, os: seq<Outcome>, j: nat, k: nat)
    requires j < |Run(blob, os).history|
    ensures var h := Run(blob, os).history;
            && AttemptsAt(h, k) <= MaxAttempts
            && 1 <= h[j].number <= MaxAttempts
            && (h[j].number == 1 ==> h[j].delayMs == 0)
            && (h[j].number > 1 ==>
                  && h[j].delayMs == FirstRetryIntervalMs
                  && j > 0 && h[j - 1].step == h[j].step && h[j - 1].outcome.Raised?)
  {
    RunWf(blob, os);
    var s := Run(blob, os);
    var h := s.history;
    assert AttemptWf(blob, s.outputs, h[j]);
    if h[j].number > 1 {
      RetriesFollowFailures(h, j, 1);
    }
  }

  /** A failed orchestration's last three attempts are the three failed
      attempts of its current step. */
  lemma FailedAfterThreeAttempts(blob: string, s: State)
    requires Wf(blob, s) && s.status == Failed
    ensures var h := s.history;
            && |h| >= MaxAttempts
            && h[|h| - 1].step == s.step && h[|h| - 1].number == 3 && h[|h| - 1].outcome.Raised?
            && h[|h| - 2].step == s.step && h[|h| - 2].number == 2 && h[|h| - 2].outcome.Raised?
            && h[|h| - 3].step == s.step && h[|h| - 3].number == 1 && h[|h| - 3].outcome.Raised?
  {
    var h := s.history;
    RetriesFollowFailures(h, |h| - 1, 2);
    RetriesFollowFailures(h, |h| - 1, 1);
  }

  /** Fail fast: an orchestration ends failed only after its current step has
      failed 3 times in a row (the last 3 attempts), with the last failure as
      its error, and no later step has been attempted. */
  lemma FailFast(blob: string, os: seq<Outcome>)
    requires Run(blob, os).status == Failed
    ensures var s := Run(blob, os);
            var h := s.history;
            && |h| >= MaxAttempts
            && h[|h| - 1].step == s.step && h[|h| - 1].number == 3 && h[|h| - 1].outcome.Raised?
            && h[|h| - 2].step == s.step && h[|h| - 2].number == 2 && h[|h| - 2].outcome.Raised?
            && h[|h| - 3].step == s.step && h[|h| - 3].number == 1 && h[|h| - 3].outcome.Raised?
            && s.error == Some(h[|h| - 1].outcome.error)
            && (forall i :: 0 <= i < |h| ==> h[i].step <= s.step)
            && (forall k :: s.step < k ==> AttemptsAt(h, k) == 0)
  {
    RunWf(blob, os);
    FailedAfterThreeAttempts(blob, Run(blob, os));
  }

  /** An attempt that has a successor either succeeded or left room for a retry. */
  lemma FollowedOnlyAfterRoom(blob: string, s: State, j: nat)
    requires Wf(blob, s)
    requires j + 1 < |s.history|
    ensures s.history[j].outcome.Succeeded? || s.history[j].number < MaxAttempts
  {
    var h := s.history;
    assert Follows(h[j], h[j + 1]);
    assert AttemptWf(blob, s.outputs, h[j + 1]);
  }

  /** In a well-formed state, a third failure of a step is the last attempt
      recorded, and the orchestration has failed at that step with it. */
  lemma WfThirdFailureEnds(blob: string, s: State, j: nat)
    requires Wf(blob, s)
    requires j < |s.history|
    requires s.history[j].number == MaxAttempts && s.history[j].outcome.Raised?
    ensures j == |s.history| - 1
    ensures s.status == Failed && s.step == s.history[j].step
    ensures s.error == Some(s.history[j].outcome.error)
  {
    if j < |s.history| - 1 {
      FollowedOnlyAfterRoom(blob, s, j);
      assert false;
    }
  }

  /** Fail fast, from the other side: whichever step fails its third attempt,
      that attempt is the last one ever made; the orchestration has failed
      there with that error, and nothing delivered afterwards changes it. */
  lemma ThirdFailureEndsRun(blob: string, os: seq<Outcome>, j: nat, more: seq<Outcome>)
    requires j < |Run(blob, os).history|
    requires Run(blob, os).history[j].number == MaxAttempts
    requires Run(blob, os).history[j].outcome.Raised?
    ensures var s := Run(blob, os);
            && j == |s.history| - 1
            && s.status == Failed && s.step == s.history[j].step
            && s.error == Some(s.history[j].outcome.error)
            && Run(blob, os + more) == s
  {
    RunWf(blob, os);
    WfThirdFailureEnds(blob, Run(blob, os), j);
    RunIsAppendOnly(blob, os, more);
  }

  /** The attempts a sequence of deliveries appends record those outcomes, in
      the order they were delivered, one per delivery. */
  lemma {:induction false} RunFromRecordsOutcomes(blob: string, s: State, os: seq<Outcome>)
    requires Ready(s)
    ensures var r := RunFrom(blob, s, os);
            && |s.history| <= |r.history| <= |s.history| + |os|
            && forall i :: |s.history| <= i < |r.history| ==> r.history[i].outcome == os[i - |s.history|]
    decreases |os|
  {
    if os != [] && s.status == Running {
      var s' := Apply(blob, s, os[0]);
      RunFromRecordsOutcomes(blob, s', os[1..]);
      var r := RunFrom(blob, s, os);
      RunFromExtends(blob, s', os[1..]);
      assert r.history[|s.history|] == s'.history[|s.history|];
      forall i | |s.history| <= i < |r.history|
        ensures r.history[i].outcome == os[i - |s.history|]
      {
        if i > |s.history| {
          assert os[1..][i - |s'.history|] == os[i - |s.history|];
        }
      }
    }
  }

  /** The history of a run records the delivered outcomes in order: attempt i
      came back with the i-th outcome. */
  lemma RunRecordsOutcomes(blob: string, os: seq<Outcome>)
    ensures var h := Run(blob, os).history;
            && |h| <= |os|
            && forall i :: 0 <= i < |h| ==> h[i].outcome == os[i]
  {
    RunFromRecordsOutcomes(blob, Init(), os);
  }

  /** The data flow of a well-formed orchestration. */
  lemma WfDataFlow(blob: string, s: State, i: nat, j: nat)
    requires Wf(blob, s)
    requires i < |s.history| && j < |s.history|
    ensures var h := s.history;
            && (h[j].step == 0 ==> h[j].input == Text(blob))
            && (h[i].step == 0 && h[i].outcome.Succeeded? && h[j].step == 1 ==>
                  h[j].input == Text(h[i].outcome.value))
            && (h[i].step == 1 && h[i].outcome.Succeeded? && h[j].step == 2 ==>
                  h[j].input == Record(blob, h[i].outcome.value))
            && (s.status == Completed ==>
                  && h[|h| - 1].step == 2 && h[|h| - 1].outcome.Succeeded?
                  && s.result == Some(h[|h| - 1].outcome.value))
  {
    var h := s.history;
    assert AttemptWf(blob, s.outputs, h[i]);
    assert AttemptWf(blob, s.outputs, h[j]);
    if s.status == Completed {
      assert AttemptWf(blob, s.outputs, h[|h| - 1]);
    }
  }

  /** Data flow: `analyze_pdf` gets the blob name; `summarize_text` gets
      exactly the text `analyze_pdf` returned; `write_summary` gets the blob
      name and exactly the summary `summarize_text` returned; a completed
      orchestration's result is what `write_summary` returned. */
  lemma DataFlow(blob: string, os: seq<Outcome>, i: nat, j: nat)
    requires i < |Run(blob, os).history| && j < |Run(blob, os).history|
    ensures var s := Run(blob, os);
            var h := s.history;
            && (h[j].step == 0 ==> h[j].input == Text(blob))
            && (h[i].step == 0 && h[i].outcome.Succeeded? && h[j].step == 1 ==>
                  h[j].input == Text(h[i].outcome.value))
            && (h[i].step == 1 && h[i].outcome.Succeeded? && h[j].step == 2 ==>
                  h[j].input == Record(blob, h[i].outcome.value))
            && (s.status == Completed ==>
                  && h[|h| - 1].step == 2 && h[|h| - 1].outcome.Succeeded?
                  && s.result == Some(h[|h| - 1].outcome.value))
  {
    RunWf(blob, os);
    WfDataFlow(blob, Run(blob, os), i, j);
  }

  /** One delivery to a running orchestration, unfolded. */
  lemma RunFromStep(blob: string, s: State, os: seq<Outcome>)
    requires Ready(s) && s.status == Running && os != []
    ensures RunFrom(blob, s, os) == RunFrom(blob, Apply(blob, s, os[0]), os[1..])
  {
  }

  /** An activity that fails on every attempt is attempted exactly 3 times,
      with the retry delays 0, 5000 and 5000 ms, and nothing after it runs. */
  lemma PermanentFailure(blob: string, os: seq<Outcome>)
    requires |os| >= MaxAttempts
    requires forall i :: 0 <= i < |os| ==> os[i].Raised?
    ensures var s := Run(blob, os);
            && s.status == Failed && s.step == 0 && |s.history| == 3
            && s.history[0].step == 0 && s.history[0].number == 1 && s.history[0].delayMs == 0
            && s.history[1].step == 0 && s.history[1].number == 2
            && s.history[1].delayMs == FirstRetryIntervalMs
            && s.history[2].step == 0 && s.history[2].number == 3
            && s.history[2].delayMs == FirstRetryIntervalMs
  {
    var s1 := Apply(blob, Init(), os[0]);
    var s2 := Apply(blob, s1, os[1]);
    var s3 := Apply(blob, s2, os[2]);
    RunFromStep(blob, Init(), os);
    assert os[1..][0] == os[1] && os[1..][1..] == os[2..];
    RunFromStep(blob, s1, os[1..]);
    assert os[2..][0] == os[2] && os[2..][1..] == os[3..];
    RunFromStep(blob, s2, os[2..]);
    assert s3.status == Failed;
    assert Run(blob, os) == s3;
  }

  /** Three successes complete the orchestration, each step attempted once,
      with the result of `write_summary` as its result. */
  lemma HappyPath(blob: string, text: string, summary: string, name: string)
    ensures var s := Run(blob, [Succeeded(text), Succeeded(summary), Succeeded(name)]);
            && s.status == Completed && s.result == Some(name)
            && |s.history| == 3
            && s.history[0].input == Text(blob)
            && s.history[1].input == Text(text)
            && s.history[2].input == Record(blob, summary)
  {
    var os := [Succeeded(text), Succeeded(summary), Succeeded(name)];
    var s1 := Apply(blob, Init(), os[0]);
    var s2 := Apply(blob, s1, os[1]);
    var s3 := Apply(blob, s2, os[2]);
    RunFromStep(blob, Init(), os);
    assert os[1..] == [Succeeded(summary), Succeeded(name)];
    RunFromStep(blob, s1, os[1..]);
    assert os[1..][1..] == [Succeeded(name)];
    RunFromStep(blob, s2, os[1..][1..]);
    assert Run(blob, os) == s3;
  }

  /** A transient failure is retried: `summarize_text` failing twice and then
      succeeding still lets the orchestration complete, with the summary of
      the third attempt passed on to `write_summary`. */
  lemma TransientFailureRecovers(blob: string, text: string, e1: string, e2: string,
                                 summary: string, name: string)
    ensures var s := Run(blob, [Succeeded(text), Raised(e1), Raised(e2), Succeeded(summary), Succeeded(name)]);
            && s.status == Completed && s.result == Some(name)
            && |s.history| == 5
            && s.history[1].step == 1 && s.history[2].step == 1 && s.history[3].step == 1
            && s.history[3].number == 3 && s.history[3].outcome == Succeeded(summary)
            && s.history[4].input == Record(blob, summary)
  {
    var os := [Succeeded(text), Raised(e1), Raised(e2), Succeeded(summary), Succeeded(name)];
    var s1 := Apply(blob, Init(), os[0]);
    var s2 := Apply(blob, s1, os[1]);
    var s3 := Apply(blob, s2, os[2]);
    var s4 := Apply(blob, s3, os[3]);
    var s5 := Apply(blob, s4, os[4]);
    RunFromStep(blob, Init(), os);
    RunFromStep(blob, s1, os[1..]);
    assert os[1..][1..] == os[2..];
    RunFromStep(blob, s2, os[2..]);
    assert os[2..][1..] == os[3..];
    RunFromStep(blob, s3, os[3..]);
    assert os[3..][1..] == os[4..];
    RunFromStep(blob, s4, os[4..]);
    assert os[4..][1..] == [];
    assert Run(blob, os) == s5;
  }

  // ---------------------------------------------------------------------
  // The orchestration as mutable state

  /** One orchestration instance. Its fields are those of `State`; `Resume`
      delivers one activity outcome and `Drive` delivers outcomes until the
      orchestration ends or they run out. */
  class Orchestrator {
    const blob: string
    var step: nat
    var attempt: nat
    var status: Status
    var outputs: seq<string>
    var history: seq<Attempt>
    var result: Option<string>
    var error: Option<string>

    function Snapshot(): State
      reads this
    {
      State(step, attempt, status, outputs, history, result, error)
    }

    ghost predicate Valid()
      reads this
    {
      Wf(blob, Snapshot())
    }

    /** `context.get_input()` is the blob name; nothing has run yet. */
    constructor (blobName: string)
      ensures blob == blobName && Snapshot() == Init() && Valid()
    {
      blob := blobName;
      step, attempt, status := 0, 0, Running;
      outputs, history := [], [];
      result, error := None, None;
    }

    /** One outcome of the pending `yield context.call_activity_with_retry`. */
    method Resume(o: Outcome)
      requires Valid()
      modifies this
      ensures Valid()
      ensures Snapshot() == Apply(blob, old(Snapshot()), o)
    {
      ghost var r := Apply(blob, Snapshot(), o);
      ApplyPreservesWf(blob, Snapshot(), o);
      if status != Running {
        return;
      }
      var number := attempt + 1;
      history := history + [Attempt(step, Activities[step], number, RetryDelay(number),
                                    StepInput(blob, outputs, step), o)];
      assert history == r.history;
      match o {
        case Succeeded(v) =>
          outputs := outputs + [v];
          step, attempt := step + 1, 0;
          if step == StepCount {
            status, result := Completed, Some(v);
          }
        case Raised(e) =>
          attempt := number;
          if attempt == MaxAttempts {
            status, error := Failed, Some(e);
          }
      }
      assert Snapshot() == r;
    }

    /** Delivers the outcomes in order while the orchestration runs, and says
        how many it took. */
    method Drive(outcomes: seq<Outcome>) returns (consumed: nat)
      requires Valid()
      modifies this
      ensures Valid()
      ensures Snapshot() == RunFrom(blob, old(Snapshot()), outcomes)
      ensures consumed <= |outcomes|
      ensures consumed < |outcomes| ==> status != Running
      ensures |history| == |old(history)| + consumed
    {
      consumed := 0;
      while consumed < |outcomes| && status == Running
        invariant Valid()
        invariant consumed <= |outcomes|
        invariant RunFrom(blob, Snapshot(), outcomes[consumed..]) == RunFrom(blob, old(Snapshot()), outcomes)
        invariant |history| == |old(history)| + consumed
      {
        assert outcomes[consumed..][1..] == outcomes[consumed + 1..];
        Resume(outcomes[consumed]);
        consumed := consumed + 1;
      }
    }
  }

  /** One orchestration for `blobName` from start, driven by the outcomes. */
  method Orchestrate(blobName: string, outcomes: seq<Outcome>) returns (s: State, consumed: nat)
    ensures s == Run(blobName, outcomes)
    ensures consumed <= |outcomes| && |s.history| == consumed
    ensures consumed < |outcomes| ==> s.status != Running
  {
    var o := new Orchestrator(blobName);
    consumed := o.Drive(outcomes);
    s := o.Snapshot();
  }
}
