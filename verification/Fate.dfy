/**
 * What a run meets from outside, and what that makes of it: the control flow of
 * deploy/workflows.py as a function of its environment and of its stages' errors.
 */
module Fates {
  import opened Base
  import opened Events
  import opened Models
  import opened Deployment
  import opened RunFacts
  import opened Shuffle
  import opened Coverage

  datatype Config = Config(
    deploymentId: string,
    target: Version,
    source: Version,
    stages: seq<nat>,
    maxRetries: nat,
    ids: seq<ServerId>)

  // Indexed by the number of awaits that the run has made: whether an abort signal
  // arrives, what a governance checkpoint decides and puts on record, what a health
  // check finds and does to statuses, whether the stage activity raises, what looks
  // at the engine's abort event find, and whether the delay is over before an abort
  // is seen.
  datatype Environment = Environment(
    signal: nat -> bool,
    verdict: nat -> Decision,
    records: nat -> seq<Body>,
    healthy: nat -> bool,
    statuses: nat -> map<ServerId, ServerStatus>,
    raises: nat -> Option<(bool, bool)>,
    abortSeen: nat -> nat -> bool,
    timesOut: nat -> bool)
  {
    ghost predicate Valid() {
      forall t: nat, b | b in records(t) :: Inert(b)
    }

    // Health checks change no status.
    ghost predicate Calm() {
      forall t: nat :: statuses(t) == map[]
    }

    // An abort has come in before the run (`early`), or by the time of `t` awaits.
    ghost predicate Heard(early: bool, t: nat)
      decreases t
    {
      if t == 0 then early else Heard(early, t - 1) || signal(t - 1)
    }

    lemma {:induction false} HeardIs(early: bool, t: nat)
      ensures Heard(early, t) <==> early || exists i: nat :: i < t && signal(i)
      decreases t
    {
      if t > 0 { HeardIs(early, t - 1); }
    }

    lemma {:induction false} HeardStays(early: bool, t: nat, u: nat)
      requires t <= u
      ensures Heard(early, t) ==> Heard(early, u)
      decreases u
    {
      if t < u { HeardStays(early, t, u - 1); }
    }

    // Whether a check at `t`, or one of the retries after it, passes. A retry comes
    // after a sleep, a check and its event.
    ghost predicate Recovers(t: nat, retries: nat)
      decreases retries
    {
      healthy(t) || (retries > 0 && Recovers(t + 3, retries - 1))
    }

    // The `i`-th check of a series that starts at `first`.
    ghost predicate CheckAt(first: nat, i: nat) {
      healthy(first + 3 * i)
    }

    lemma {:induction false} RecoversIs(first: nat, retries: nat)
      ensures Recovers(first, retries) <==> exists i: nat :: i <= retries && CheckAt(first, i)
      decreases retries
    {
      assert CheckAt(first, 0) <==> healthy(first);
      if retries > 0 {
        var next := first + 3;
        RecoversIs(next, retries - 1);
        if exists i: nat :: i <= retries - 1 && CheckAt(next, i) {
          var i: nat :| i <= retries - 1 && CheckAt(next, i);
          assert CheckAt(first, i + 1);
        }
        if exists i: nat :: 0 < i <= retries && CheckAt(first, i) {
          var i: nat :| 0 < i <= retries && CheckAt(first, i);
          assert CheckAt(next, i - 1);
        }
      }
    }

    // As many as there are failed checks before the first that passes, or all.
    lemma {:induction false} RetriesIs(first: nat, retries: nat, n: nat)
      requires n <= retries && (forall i: nat | i < n :: !CheckAt(first, i)) && (n == retries || CheckAt(first, n))
      ensures Retries(first, retries) == n
      decreases retries
    {
      assert CheckAt(first, 0) <==> healthy(first);
      if n > 0 {
        var next := first + 3;
        forall i: nat | i < n - 1 ensures !CheckAt(next, i) {
          assert !CheckAt(first, i + 1);
        }
        assert n < retries ==> CheckAt(next, n - 1);
        RetriesIs(next, retries - 1, n - 1);
      }
    }

    // How many retries are made.
    ghost function Retries(t: nat, retries: nat): (n: nat)
      ensures n <= retries
      ensures !Recovers(t, retries) ==> n == retries
      decreases retries
    {
      if healthy(t) || retries == 0 then 0 else 1 + Retries(t + 3, retries - 1)
    }

    // A series of checks from `first` has come to `checked`, with `left` retries to go.
    ghost predicate ChecksOn(first: nat, retries: nat, checked: nat, left: nat) {
      && Recovers(first, retries) == Recovers(checked, left)
      && first + 3 * Retries(first, retries) == checked + 3 * Retries(checked, left)
    }

    lemma CheckMore(first: nat, retries: nat, checked: nat, left: nat)
      requires ChecksOn(first, retries, checked, left) && !healthy(checked) && left > 0
      ensures ChecksOn(first, retries, checked + 3, left - 1)
    {
    }

    lemma ChecksEnd(first: nat, retries: nat, checked: nat, left: nat)
      requires ChecksOn(first, retries, checked, left) && (healthy(checked) || left == 0)
      ensures Recovers(first, retries) == healthy(checked) && checked == first + 3 * Retries(first, retries)
    {
    }

    // What may be wrong with a stage whose activity starts at `t`.
    ghost predicate Errs(hasEngine: bool, t: nat, error: Option<StageError>) {
      && (raises(t).Some? ==> error == Some(Raised(raises(t).value.0, raises(t).value.1)))
      && (error.Some? && error.value.Raised? ==> raises(t).Some?)
      && (error == Some(AbortMidStage) ==> hasEngine && exists i :: abortSeen(t)(i))
    }
  }

  // What the run raises, told apart as its handler tells them apart.
  datatype Raising = AbortSignal | StageFailed(error: StageError) | HealthFailed | RollbackMandated | NoServers

  predicate SaysAbort(x: Raising) {
    x == AbortSignal || (x.StageFailed? && (x.error == AbortMidStage || (x.error.Raised? && x.error.mentionsAbort)))
  }

  predicate Recoverable(x: Raising) {
    || x == HealthFailed || x == RollbackMandated
    || (x.StageFailed? && (x.error.UpdateFailed? || x.error == UnderProvisioned || (x.error.Raised? && x.error.mentionsShortfall)))
  }

  // ---------- One stage ----------

  // Why a run leaves the stage loop, and after how many awaits: refused by the first
  // checkpoint or one of a stage's; an abort found with nothing lost, or found right
  // after a stage's activity; no server to deploy to; a stage's error; failing health
  // checks (before regions are quarantined); a rollback ordered by a checkpoint.
  datatype Cause =
    | Refused
    | Vetoed(stage: nat, at: nat)
    | Caught(stage: nat, at: nat)
    | Lost(stage: nat, at: nat)
    | Empty(stage: nat, at: nat)
    | Erred(stage: nat, at: nat)
    | Unwell(stage: nat, at: nat)
    | Mandated(stage: nat, at: nat)
    | Completes(at: nat)

  function StageOf(cause: Cause): nat {
    if cause.Refused? || cause.Completes? then 0 else cause.stage
  }

  // The look at the abort flag after stage checks that pass, by the look before the stage.
  ghost function LookAfter(env: Environment, c: Config, look: nat): nat {
    look + 7 + 3 * env.Retries(look + 5, c.maxRetries)
  }

  // The cause for which stage `k`, which begins with the look at the abort flag after
  // `look` awaits, is the last, if it is. `failed` is whether it reports an error.
  ghost function AtStage(env: Environment, c: Config, early: bool, k: nat, look: nat, failed: bool): Option<Cause> {
    var checked := LookAfter(env, c, look);
    if env.Heard(early, look) then Some(Caught(k, look))
    else if env.verdict(look) == Block then Some(Vetoed(k, look + 1))
    else if env.Heard(early, look + 4) then Some(Lost(k, look + 4))
    else if c.ids == [] then Some(Empty(k, look + 4))
    else if failed then Some(if env.Heard(early, look + 5) then Caught(k, look + 5) else Erred(k, look + 5))
    else if !env.Recovers(look + 5, c.maxRetries) then Some(Unwell(k, checked))
    else if env.Heard(early, checked) then Some(Caught(k, checked))
    else if env.verdict(checked) == Block then Some(Vetoed(k, checked + 1))
    else if env.verdict(checked) == MandateRollback then Some(Mandated(k, checked + 1))
    else if k + 1 < |c.stages| && env.Heard(early, checked + 3) && !env.timesOut(checked + 2) then Some(Caught(k, checked + 3))
    else None
  }

  // ---------- All stages ----------

  // When the look at the abort flag before stage `k` is made.
  ghost function Look(env: Environment, c: Config, k: nat): (look: nat)
    ensures look >= 4
  {
    if k == 0 then 4 else LookAfter(env, c, Look(env, c, k - 1)) + 3
  }

  predicate FailedAt(results: seq<StageResult>, k: nat) {
    k < |results| && results[k].error != None
  }

  ghost function CauseFrom(env: Environment, c: Config, early: bool, results: seq<StageResult>, k: nat): Cause
    decreases |c.stages| - k
  {
    var look := Look(env, c, k);
    if k >= |c.stages| then Completes(look - 1) else
    var cause := AtStage(env, c, early, k, look, FailedAt(results, k));
    if cause.Some? then cause.value else CauseFrom(env, c, early, results, k + 1)
  }

  ghost function CauseOf(env: Environment, c: Config, early: bool, results: seq<StageResult>): Cause {
    if env.verdict(3) == Block then Refused else CauseFrom(env, c, early, results, 0)
  }

  // The run gets to stage `k` if no stage before it reports an error.
  ghost predicate Passes(env: Environment, c: Config, early: bool, k: nat) {
    if k == 0 then env.verdict(3) != Block
    else Passes(env, c, early, k - 1) && AtStage(env, c, early, k - 1, Look(env, c, k - 1), false) == None
  }

  lemma PassedOne(env: Environment, c: Config, early: bool, results: seq<StageResult>, k: nat)
    requires k < |c.stages| && AtStage(env, c, early, k, Look(env, c, k), false) == None && !FailedAt(results, k)
    ensures CauseFrom(env, c, early, results, k) == CauseFrom(env, c, early, results, k + 1)
  {
  }

  lemma {:induction false} PassedOn(env: Environment, c: Config, early: bool, results: seq<StageResult>, k: nat)
    requires Passes(env, c, early, k) && k <= |c.stages| && k <= |results| && Errorless(results[..k])
    ensures CauseOf(env, c, early, results) == CauseFrom(env, c, early, results, k)
  {
    if k > 0 {
      assert Errorless(results[..k - 1]) && !FailedAt(results, k - 1) by { InitPrefix(results, k - 1); }
      PassedOn(env, c, early, results, k - 1);
      PassedOne(env, c, early, results, k - 1);
    }
  }

  lemma StageOfCause(env: Environment, c: Config, early: bool, k: nat, look: nat, failed: bool)
    ensures var cause := AtStage(env, c, early, k, look, failed); cause.Some? ==> StageOf(cause.value) == k
  {
  }

  // The run ends in stage `k` if it gets there and there is a cause for it.
  lemma CauseHere(env: Environment, c: Config, early: bool, results: seq<StageResult>, k: nat)
    requires Passes(env, c, early, k) && k < |c.stages| && k <= |results| && Errorless(results[..k])
    ensures var cause := AtStage(env, c, early, k, Look(env, c, k), FailedAt(results, k));
            cause.Some? ==> CauseOf(env, c, early, results) == cause.value && StageOf(cause.value) == k
  {
    PassedOn(env, c, early, results, k);
    StageOfCause(env, c, early, k, Look(env, c, k), FailedAt(results, k));
  }

  lemma CleanStep(env: Environment, c: Config, early: bool, k: nat, here: Option<Cause>)
    requires k < |c.stages| && here == AtStage(env, c, early, k, Look(env, c, k), false)
    ensures CauseFrom(env, c, early, [], k) == if here.Some? then here.value else CauseFrom(env, c, early, [], k + 1)
    ensures here.Some? ==> StageOf(here.value) == k
  {
  }

  lemma PassesBack(env: Environment, c: Config, early: bool, k: nat)
    requires k > 0 && Passes(env, c, early, k)
    ensures Passes(env, c, early, k - 1) && AtStage(env, c, early, k - 1, Look(env, c, k - 1), false) == None
  {
  }

  lemma StartsClean(env: Environment, c: Config, early: bool)
    requires Passes(env, c, early, 0)
    ensures CauseOf(env, c, early, []) == CauseFrom(env, c, early, [], 0)
  {
  }

  lemma {:induction false} PassedClean(env: Environment, c: Config, early: bool, k: nat)
    requires Passes(env, c, early, k) && k <= |c.stages|
    ensures CauseOf(env, c, early, []) == CauseFrom(env, c, early, [], k)
  {
    if k == 0 {
      StartsClean(env, c, early);
    } else {
      PassesBack(env, c, early, k);
      PassedClean(env, c, early, k - 1);
      CleanStep(env, c, early, k - 1, None);
    }
  }

  lemma PassesNext(env: Environment, c: Config, early: bool, k: nat)
    requires Passes(env, c, early, k) && AtStage(env, c, early, k, Look(env, c, k), false) == None
    ensures Passes(env, c, early, k + 1)
  {
  }

  lemma {:induction false} PassesUpTo(env: Environment, c: Config, early: bool, from: nat, k: nat)
    requires Passes(env, c, early, from) && from <= |c.stages|
    requires var cause := CauseFrom(env, c, early, [], from); cause.Lost? && cause.stage == k
    ensures k < |c.stages| && Passes(env, c, early, k)
    ensures AtStage(env, c, early, k, Look(env, c, k), false) == Some(CauseFrom(env, c, early, [], from))
    decreases |c.stages| - from
  {
    if from < |c.stages| {
      var here := AtStage(env, c, early, from, Look(env, c, from), false);
      CleanStep(env, c, early, from, here);
      if here == None {
        PassesNext(env, c, early, from);
        PassesUpTo(env, c, early, from + 1, k);
      }
    }
  }

  // ---------- Why it stops ----------

  ghost predicate OnePasses(env: Environment, first: nat, retries: nat) {
    exists i: nat :: i <= retries && env.CheckAt(first, i)
  }

  // Nothing stops the run in stage `k`: no look finds an abort, both checkpoints let
  // it go on, it reports no error, one of its checks passes, and the delay is over
  // before an abort is seen.
  ghost predicate GoesThrough(env: Environment, c: Config, early: bool, results: seq<StageResult>, k: nat) {
    var look, checked := Look(env, c, k), LookAfter(env, c, Look(env, c, k));
    var first := look + 5;
    && c.ids != [] && !FailedAt(results, k)
    && !env.Heard(early, look) && env.verdict(look) != Block && !env.Heard(early, look + 4)
    && OnePasses(env, first, c.maxRetries)
    && !env.Heard(early, checked) && env.verdict(checked) == Allow
    && (k + 1 < |c.stages| && env.Heard(early, checked + 3) ==> env.timesOut(checked + 2))
  }

  lemma NoneIs(env: Environment, c: Config, early: bool, results: seq<StageResult>, k: nat)
    ensures AtStage(env, c, early, k, Look(env, c, k), FailedAt(results, k)) == None <==> GoesThrough(env, c, early, results, k)
  {
    var first := Look(env, c, k) + 5;
    assert env.Recovers(first, c.maxRetries) <==> OnePasses(env, first, c.maxRetries) by {
      env.RecoversIs(first, c.maxRetries);
    }
  }

  lemma {:induction false} CompletesFrom(env: Environment, c: Config, early: bool, results: seq<StageResult>, k: nat)
    requires k <= |c.stages|
    ensures CauseFrom(env, c, early, results, k).Completes? <==>
              forall j: nat | k <= j < |c.stages| :: GoesThrough(env, c, early, results, j)
    decreases |c.stages| - k
  {
    if k < |c.stages| {
      NoneIs(env, c, early, results, k);
      StoppingIs(env, c, early, results, k);
      CompletesFrom(env, c, early, results, k + 1);
    }
  }

  lemma StoppingIs(env: Environment, c: Config, early: bool, results: seq<StageResult>, k: nat)
    requires k < |c.stages|
    ensures var here := AtStage(env, c, early, k, Look(env, c, k), FailedAt(results, k));
            && CauseFrom(env, c, early, results, k) == (if here.Some? then here.value else CauseFrom(env, c, early, results, k + 1))
            && (here.Some? ==> !here.value.Completes? && !here.value.Refused?)
  {
  }

  // A run completes exactly if the first checkpoint lets it start and nothing stops it
  // in any stage.
  lemma CompletesExactly(env: Environment, c: Config, early: bool, results: seq<StageResult>)
    ensures CauseOf(env, c, early, results).Completes? <==>
              env.verdict(3) != Block && forall k: nat | k < |c.stages| :: GoesThrough(env, c, early, results, k)
  {
    CompletesFrom(env, c, early, results, 0);
  }

  // An abort comes before everything else: whatever else stops the run, the look at the
  // flag before it had found none. Checks are not looked up on.
  ghost predicate AbortFirst(env: Environment, c: Config, early: bool, cause: Cause) {
    match cause
    case Caught(_, at) => env.Heard(early, at)
    case Lost(_, at) => env.Heard(early, at)
    case Vetoed(_, at) => at > 0 && !env.Heard(early, at - 1)
    case Mandated(_, at) => at > 0 && !env.Heard(early, at - 1)
    case Empty(_, at) => !env.Heard(early, at)
    case Erred(_, at) => !env.Heard(early, at)
    case Unwell(k, _) => !env.Heard(early, Look(env, c, k) + 4)
    case _ => true
  }

  lemma StopsUnaborted(env: Environment, c: Config, early: bool, k: nat, look: nat, failed: bool)
    requires look == Look(env, c, k)
    ensures var here := AtStage(env, c, early, k, look, failed);
            here.Some? ==> AbortFirst(env, c, early, here.value)
  {
  }

  lemma {:induction false} AbortsFirst(env: Environment, c: Config, early: bool, results: seq<StageResult>, k: nat)
    ensures AbortFirst(env, c, early, CauseFrom(env, c, early, results, k))
    decreases |c.stages| - k
  {
    if k < |c.stages| {
      StopsUnaborted(env, c, early, k, Look(env, c, k), FailedAt(results, k));
      StoppingIs(env, c, early, results, k);
      AbortsFirst(env, c, early, results, k + 1);
    }
  }

  // With checks that pass at once, a stage takes ten awaits.
  lemma {:induction false} LookIs(env: Environment, c: Config, k: nat)
    requires forall t: nat :: env.healthy(t)
    ensures Look(env, c, k) == 4 + 10 * k
  {
    if k > 0 { LookIs(env, c, k - 1); }
  }

  // The run gets to stage `k`, which no checkpoint refuses, and the first abort comes
  // in on one of the four awaits after the look at the flag.
  ghost predicate LostIn(env: Environment, c: Config, early: bool, k: nat) {
    && k < |c.stages| && Passes(env, c, early, k) && !env.Heard(early, Look(env, c, k))
    && env.verdict(Look(env, c, k)) != Block && env.Heard(early, Look(env, c, k) + 4)
  }

  lemma LostHere(env: Environment, c: Config, early: bool, k: nat)
    requires LostIn(env, c, early, k)
    ensures CauseOf(env, c, early, []) == Lost(k, Look(env, c, k) + 4)
  {
    PassedClean(env, c, early, k);
    CleanStep(env, c, early, k, Some(Lost(k, Look(env, c, k) + 4)));
  }

  lemma LostAtStage(env: Environment, c: Config, early: bool, k: nat, look: nat)
    ensures var here := AtStage(env, c, early, k, look, false);
            here.Some? && here.value.Lost? ==>
              !env.Heard(early, look) && env.verdict(look) != Block && env.Heard(early, look + 4)
  {
  }

  lemma LostOnlyHere(env: Environment, c: Config, early: bool, k: nat)
    requires var cause := CauseOf(env, c, early, []); cause.Lost? && cause.stage == k
    ensures LostIn(env, c, early, k)
  {
    PassesUpTo(env, c, early, 0, k);
    LostAtStage(env, c, early, k, Look(env, c, k));
  }

  // Without errors, those are exactly the runs that forget a stage.
  lemma LostExactly(env: Environment, c: Config, early: bool, k: nat)
    ensures var cause := CauseOf(env, c, early, []); (cause.Lost? && cause.stage == k) <==> LostIn(env, c, early, k)
  {
    if LostIn(env, c, early, k) {
      LostHere(env, c, early, k);
    } else {
      var cause := CauseOf(env, c, early, []);
      if cause.Lost? && cause.stage == k { LostOnlyHere(env, c, early, k); }
    }
  }

  // ---------- The ending ----------

  // What the handler makes of an exception after `t` awaits.
  ghost function Handling(env: Environment, early: bool, x: Raising, t: nat): Ending {
    if SaysAbort(x) || env.Heard(early, t) then EndRolledBack
    else if !Recoverable(x) then EndFailed
    else if env.verdict(t) == Block then EndViolation
    else EndRolledBack
  }

  function HandledBy(ending: Ending, t: nat): nat {
    match ending
    case EndRolledBack => t + 7
    case EndViolation => t + 2
    case _ => t + 1
  }

  // What was raised, if anything was, and when: `regions` are then quarantined after
  // failing health checks, each with an event.
  ghost function RaisedBy(results: seq<StageResult>, cause: Cause, regions: nat): Option<(Raising, nat)> {
    match cause
    case Caught(_, at) => Some((AbortSignal, at))
    case Lost(_, at) => Some((AbortSignal, at))
    case Empty(_, at) => Some((NoServers, at))
    case Erred(k, at) => if FailedAt(results, k) then Some((StageFailed(results[k].error.value), at)) else None
    case Unwell(_, at) => Some((HealthFailed, at + 1 + regions))
    case Mandated(_, at) => Some((RollbackMandated, at))
    case _ => None
  }

  // The ending, and the number of awaits by then.
  ghost function EndOf(env: Environment, c: Config, early: bool, results: seq<StageResult>, regions: nat): (Ending, nat) {
    var cause := CauseOf(env, c, early, results);
    var raised := RaisedBy(results, cause, regions);
    if raised.Some? then
      var ending := Handling(env, early, raised.value.0, raised.value.1);
      (ending, HandledBy(ending, raised.value.1))
    else match cause
      case Vetoed(_, at) => (EndViolation, at + 1)
      case Completes(at) => (EndCompleted, at + 2)
      case _ => (EndViolation, 5)
  }

  // ---------- Without trouble ----------

  ghost predicate Smooth(env: Environment, early: bool) {
    && !early
    && forall t: nat :: !env.signal(t) && env.verdict(t) == Allow && env.healthy(t)
  }

  lemma {:induction false} NothingHeard(env: Environment, t: nat)
    requires Smooth(env, false)
    ensures !env.Heard(false, t)
  {
    if t > 0 { NothingHeard(env, t - 1); }
  }

  lemma SmoothStage(env: Environment, c: Config, k: nat, look: nat)
    requires Smooth(env, false) && c.ids != []
    ensures AtStage(env, c, false, k, look, false) == None
    ensures AtStage(env, c, false, k, look, true) == Some(Erred(k, look + 5))
  {
    NothingHeard(env, look);
    NothingHeard(env, look + 4);
    NothingHeard(env, look + 5);
    NothingHeard(env, LookAfter(env, c, look));
    NothingHeard(env, LookAfter(env, c, look) + 3);
  }

  // No signal, checkpoints that allow, passing checks and no error: the run completes.
  lemma {:induction false} SmoothCause(env: Environment, c: Config, results: seq<StageResult>, k: nat)
    requires Smooth(env, false) && c.ids != [] && k <= |c.stages|
    ensures var cause := CauseFrom(env, c, false, results, k);
            cause.Completes? || (cause.Erred? && FailedAt(results, cause.stage))
    decreases |c.stages| - k
  {
    if k < |c.stages| {
      SmoothStage(env, c, k, Look(env, c, k));
      SmoothCause(env, c, results, k + 1);
    }
  }
}
