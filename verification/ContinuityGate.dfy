/**
  When one attempt of a job counts as done, and how a job walks through its attempts.
 */
module ContinuityGate {
  import opened Wrappers

  datatype ErrorClass = Stall | Resource | Quota | Location | Capability | Auth | Network | Execution

  /** What is observed about one artifact; an unreadable artifact carries an error. */
  datatype Fact = Fact(path: string, present: bool, size: int, mtime: int, sha256: Option<string>, error: bool)

  /** `ssh` is the transport; the artifacts may live on another side than the transport. */
  datatype Attempt = Attempt(
    id: string,
    ssh: bool,
    artifactsOverSsh: bool,
    hostKnown: bool,
    fallbackOn: set<ErrorClass>)

  datatype Job = Job(
    id: string,
    dependsOn: seq<string>,
    attempts: seq<Attempt>,
    validationRequired: bool,
    acceptExisting: bool)

  /** A validator that was not configured, one that ran, or one that could not be run. */
  datatype Validator = NotConfigured | Ran(ok: bool, returncode: int) | CouldNotRun

  /** Everything the outside answers during one attempt. */
  datatype Observed = Observed(
    processCode: int,
    publishFails: bool,
    validator: Validator,
    before: seq<Fact>,
    after: seq<Fact>,
    errorClass: ErrorClass)

  datatype Verdict = Verdict(ok: bool, returncode: int)

  /** The return code once publishing is done; only a clean exit is published. */
  function PublishedCode(seen: Observed): int {
    if seen.processCode == 0 && seen.publishFails then 2 else seen.processCode
  }

  /** The validator's verdict after a clean exit; a required validator that is missing fails. */
  function Validation(job: Job, seen: Observed): Option<Verdict> {
    if PublishedCode(seen) != 0 then None
    else
      match seen.validator
      case CouldNotRun => Some(Verdict(false, 2))
      case NotConfigured => if job.validationRequired then Some(Verdict(false, 2)) else None
      case Ran(ok, code) => Some(Verdict(ok, code))
  }

  function FinalCode(job: Job, seen: Observed): int {
    var verdict := Validation(job, seen);
    if verdict.None? || verdict.value.ok then PublishedCode(seen)
    else if verdict.value.returncode == 0 then 2
    else verdict.value.returncode
  }

  /** The artifacts looked at after the attempt: none at all when they should be on an
      SSH host the inventory does not know. */
  function Facts(attempt: Attempt, seen: Observed): seq<Fact> {
    if attempt.artifactsOverSsh && !attempt.hostKnown then [] else seen.after
  }

  /** The last baseline row for a path. */
  function Baseline(before: seq<Fact>, path: string): Option<Fact> {
    if before == [] then None
    else if before[|before| - 1].path == path then Some(before[|before| - 1])
    else Baseline(before[..|before| - 1], path)
  }

  function Hashed(fact: Fact): bool { fact.sha256.Some? && fact.sha256.value != "" }

  /** The artifact is there and is not what was there before. */
  predicate Changed(before: seq<Fact>, fact: Fact) {
    var base := Baseline(before, fact.path);
    && fact.present
    && (|| base.None? || !base.value.present
        || (Hashed(base.value) && Hashed(fact) && fact.sha256 != base.value.sha256)
        || (!Hashed(base.value) && (fact.size != base.value.size || fact.mtime != base.value.mtime)))
  }

  predicate Fresh(seen: Observed, facts: seq<Fact>) {
    && (forall k :: 0 <= k < |seen.before| ==> !seen.before[k].error)
    && (forall k :: 0 <= k < |facts| ==> Changed(seen.before, facts[k]))
  }

  predicate FreshEnough(job: Job, seen: Observed, facts: seq<Fact>) {
    if job.acceptExisting then Validation(job, seen).Some? && Validation(job, seen).value.ok
    else Fresh(seen, facts)
  }

  predicate Complete(fact: Fact) { fact.present && fact.size > 0 && Hashed(fact) }

  predicate ArtifactsOk(job: Job, attempt: Attempt, seen: Observed) {
    var facts := Facts(attempt, seen);
    if facts == [] then FinalCode(job, seen) == 0
    else (forall k :: 0 <= k < |facts| ==> Complete(facts[k])) && FreshEnough(job, seen, facts)
  }

  /** The completion gate. */
  predicate Completes(job: Job, attempt: Attempt, seen: Observed) {
    FinalCode(job, seen) == 0 && ArtifactsOk(job, attempt, seen)
  }

  /** The process exited cleanly, its output was published, and the validator agreed
      wherever there is one or one is required. */
  ghost predicate RanClean(job: Job, seen: Observed) {
    && seen.processCode == 0 && !seen.publishFails
    && !seen.validator.CouldNotRun?
    && (seen.validator.Ran? ==> seen.validator.ok)
    && (job.validationRequired ==> seen.validator.Ran?)
  }

  /** Exactly what completion means when artifacts were observed: a clean run, artifacts
      that all exist, are non-empty and hashed, and that either differ from an
      error-free baseline or, where existing ones are accepted, have a passing validator. */
  lemma GateMeaning(job: Job, attempt: Attempt, seen: Observed)
    requires Facts(attempt, seen) != []
    ensures Completes(job, attempt, seen) <==>
      && RanClean(job, seen)
      && (forall k :: 0 <= k < |seen.after| ==> Complete(seen.after[k]))
      && (if job.acceptExisting then seen.validator.Ran? else Fresh(seen, seen.after))
  {
  }

  /** Without observed artifacts the return code alone decides, even for a job that
      requires artifacts on a host the inventory does not know. */
  lemma GateWithoutFacts(job: Job, attempt: Attempt, seen: Observed)
    ensures Facts(attempt, seen) == [] ==> (Completes(job, attempt, seen) <==> RanClean(job, seen))
    ensures Facts(attempt, seen) == [] <==> seen.after == [] || (attempt.artifactsOverSsh && !attempt.hostKnown)
  {
  }

  // ----- the attempt walk

  predicate ResourceFallback(class_: ErrorClass, attempts: seq<Attempt>, k: nat)
    requires k < |attempts|
  {
    class_.Resource? && exists j :: k < j < |attempts| && attempts[j].ssh
  }

  predicate MovesOn(attempts: seq<Attempt>, k: nat, class_: ErrorClass)
    requires k < |attempts|
  {
    k + 1 < |attempts| && (class_ in attempts[k].fallbackOn || ResourceFallback(class_, attempts, k))
  }

  datatype WalkEnd = CompletedAt(attempt: nat) | FailedAt(attempt: nat)

  /** `seen(k)` is what the outside answers if attempt `k` is made. */
  function Walk(job: Job, seen: nat -> Observed, k: nat): (end: WalkEnd)
    requires k < |job.attempts|
    ensures k <= end.attempt < |job.attempts|
    decreases |job.attempts| - k
  {
    if Completes(job, job.attempts[k], seen(k)) then CompletedAt(k)
    else if MovesOn(job.attempts, k, seen(k).errorClass) then Walk(job, seen, k + 1)
    else FailedAt(k)
  }

  /** The walk stops at the first attempt that completes or may not be followed; every
      attempt before it failed with a class that its fallbacks name, or with a resource
      stop while an SSH attempt lay ahead. */
  lemma {:induction false} WalkMeaning(job: Job, seen: nat -> Observed, k: nat)
    requires k < |job.attempts|
    ensures var end := Walk(job, seen, k);
      && (forall j :: k <= j < end.attempt ==>
            !Completes(job, job.attempts[j], seen(j)) && MovesOn(job.attempts, j, seen(j).errorClass))
      && (end.CompletedAt? <==> Completes(job, job.attempts[end.attempt], seen(end.attempt)))
      && (end.FailedAt? ==> !MovesOn(job.attempts, end.attempt, seen(end.attempt).errorClass))
    decreases |job.attempts| - k
  {
    if !Completes(job, job.attempts[k], seen(k)) && MovesOn(job.attempts, k, seen(k).errorClass) {
      WalkMeaning(job, seen, k + 1);
    }
  }

  /** The rule meant for resource stops is that they only ever lead to an SSH attempt. */
  ghost predicate OnlyToSsh(attempts: seq<Attempt>, k: nat)
    requires k < |attempts|
  {
    MovesOn(attempts, k, Resource) ==> attempts[k + 1].ssh
  }

  /** It holds exactly if the next attempt is an SSH one, or there is no way on at all: this
      is the last attempt, or its fallbacks do not name resource and no SSH attempt is left. */
  lemma ResourceRuleMeaning(attempts: seq<Attempt>, k: nat)
    requires k < |attempts|
    ensures OnlyToSsh(attempts, k) <==>
      || k + 1 == |attempts|
      || attempts[k + 1].ssh
      || (Resource !in attempts[k].fallbackOn && forall j :: k < j < |attempts| ==> !attempts[j].ssh)
  {
    if k + 1 < |attempts| && !attempts[k + 1].ssh && Resource !in attempts[k].fallbackOn {
      assert ResourceFallback(Resource, attempts, k) <==> exists j :: k < j < |attempts| && attempts[j].ssh;
    }
  }

  /** A local attempt with another local one and then an SSH one behind it rotates to the
      second local attempt. */
  lemma ResourceRotatesLocally(a: Attempt, b: Attempt, c: Attempt)
    requires !b.ssh && c.ssh && Resource !in a.fallbackOn
    ensures MovesOn([a, b, c], 0, Resource) && !OnlyToSsh([a, b, c], 0)
  {
    assert [a, b, c][2].ssh;
  }
}
