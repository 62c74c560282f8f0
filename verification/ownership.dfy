/** internal/core: the ownership record, who may act under it, and its three transitions. */
module Ownerships {
  import opened Wrappers
  import opened Text
  import opened Timestamps

  const ACTIVE := "ACTIVE"
  const RELEASED := "RELEASED"

  datatype Ownership = Ownership(
    status: string, workerID: string, sessionID: string, generation: Uint64, agent: string,
    acquiredAt: Time, releasedAt: Option<Time>, purpose: string)

  datatype Actor = Actor(workerID: string, sessionID: string, generation: Uint64)

  const MAX_FIELD_BYTES: nat := 4096

  predicate SingleLine(field: string) {
    '\r' !in field && '\n' !in field && |field| <= MAX_FIELD_BYTES
  }

  predicate ValidOwnership(o: Ownership) {
    && o.status in {ACTIVE, RELEASED}
    && Trim(o.workerID) != "" && Trim(o.agent) != "" && Trim(o.purpose) != ""
    && !IsNone(Trim(o.sessionID))
    && (o.status == ACTIVE ==> Trim(o.sessionID) != "" && o.generation != 0)
    && (o.status == RELEASED ==> (Trim(o.sessionID) == "" <==> o.generation == 0))
    && SingleLine(o.workerID) && SingleLine(o.sessionID) && SingleLine(o.agent) && SingleLine(o.purpose)
    && !IsZero(o.acquiredAt)
    && (o.status == ACTIVE ==> o.releasedAt.None?)
    && (o.status == RELEASED ==> o.releasedAt.Some? && !Before(o.releasedAt.value, o.acquiredAt))
  }

  /** The actor holds exactly this claim. */
  predicate ValidActiveActor(o: Ownership, a: Actor) {
    && ValidOwnership(o) && o.status == ACTIVE
    && Trim(a.workerID) != "" && Trim(a.sessionID) != "" && a.generation != 0
    && o.workerID == Trim(a.workerID) && o.sessionID == Trim(a.sessionID) && o.generation == a.generation
  }

  datatype AcquireRequest = AcquireRequest(workerID: string, sessionID: string, agent: string, purpose: string, at: Time)

  function Acquire(current: Ownership, request: AcquireRequest): Option<Ownership> {
    if !ValidOwnership(current) || current.status != RELEASED || current.generation == MAX_UINT64 then None
    else
      var next := Ownership(ACTIVE, Trim(request.workerID), Trim(request.sessionID), current.generation + 1,
                            Trim(request.agent), request.at, None, Trim(request.purpose));
      if ValidOwnership(next) then Some(next) else None
  }

  function Released(current: Ownership, at: Time): Option<Ownership> {
    var next := current.(status := RELEASED, releasedAt := Some(at));
    if ValidOwnership(next) then Some(next) else None
  }

  function Release(current: Ownership, actor: Actor, at: Time): Option<Ownership> {
    if !ValidActiveActor(current, actor) then None else Released(current, at)
  }

  datatype StaleRequest = StaleRequest(controllerID: string, reason: string, at: Time)

  datatype RecoveryAudit = RecoveryAudit(
    controllerID: string, reason: string, oldWorkerID: string, oldSessionID: string, oldAgent: string,
    oldGeneration: Uint64, oldAcquiredAt: Time, recoveredAt: Time)

  function RecoverStale(current: Ownership, request: StaleRequest): Option<(Ownership, RecoveryAudit)> {
    var controller, reason := Trim(request.controllerID), Trim(request.reason);
    if !ValidOwnership(current) || current.status != ACTIVE || controller == "" || reason == ""
      || IsZero(request.at) || Before(request.at, current.acquiredAt) then None
    else
      var next := Released(current, request.at);
      if next.None? then None
      else Some((next.value, RecoveryAudit(controller, reason, current.workerID, current.sessionID, current.agent,
                                           current.generation, current.acquiredAt, request.at)))
  }

  // ----- One transition, one step up -----

  /** Where an ownership stands in the one line every workspace's ownership moves along. */
  function Rank(o: Ownership): nat {
    2 * o.generation + if o.status == RELEASED then 1 else 0
  }

  predicate Follows(next: Ownership, current: Ownership) {
    ValidOwnership(next) && ValidOwnership(current) && Rank(next) == Rank(current) + 1
  }

  /** Each transition goes up by exactly one; acquiring never reuses a generation, releasing never changes it. */
  lemma TransitionsClimb(current: Ownership, request: AcquireRequest, actor: Actor, at: Time, stale: StaleRequest)
    ensures Acquire(current, request).Some? ==> Follows(Acquire(current, request).value, current)
    ensures Release(current, actor, at).Some? ==> Follows(Release(current, actor, at).value, current)
    ensures RecoverStale(current, stale).Some? ==> Follows(RecoverStale(current, stale).value.0, current)
  {
    hide Seconds, Trim, IsNone, SingleLine;
  }

  /** No actor of an earlier generation passes once the ownership has moved past it. */
  lemma OldActorsAreFenced(o: Ownership, a: Actor)
    requires Rank(o) > 2 * a.generation
    ensures !ValidActiveActor(o, a)
  {
  }

  /** Acquire and Release are each other's gate: exactly one of them can apply to a valid ownership. */
  lemma GatesAlternate(o: Ownership, request: AcquireRequest, actor: Actor, at: Time)
    requires ValidOwnership(o)
    ensures !(Acquire(o, request).Some? && Release(o, actor, at).Some?)
    ensures Acquire(o, request).Some? ==> o.generation < MAX_UINT64 && ValidActiveActor(Acquire(o, request).value,
      Actor(request.workerID, request.sessionID, o.generation + 1))
    ensures Release(o, actor, at).Some? ==> !ValidActiveActor(Release(o, actor, at).value, actor)
  {
    hide Seconds, Trim, IsNone, SingleLine;
    TrimFacts(request.workerID);
    TrimFacts(request.sessionID);
  }

  datatype ResumeOutcome = AcquireAvailable | OwnedByCaller | BlockedByOther | BlockedBySession | ExpiredGeneration

  /** Resume on a workspace whose ownership file has been read. */
  function Resume(owner: Ownership, actor: Actor): Option<ResumeOutcome> {
    var workerID, sessionID := Trim(actor.workerID), Trim(actor.sessionID);
    if workerID == "" || sessionID == "" then None
    else if owner.status == RELEASED then Some(AcquireAvailable)
    else if owner.workerID != workerID then Some(BlockedByOther)
    else if owner.sessionID != sessionID then Some(BlockedBySession)
    else if owner.generation != actor.generation then Some(ExpiredGeneration)
    else Some(OwnedByCaller)
  }

  /** Resume says "yours" to exactly the actors that pass the check before every shared write. */
  lemma ResumeAgreesWithActorCheck(owner: Ownership, actor: Actor)
    requires ValidOwnership(owner)
    ensures Resume(owner, actor) == Some(OwnedByCaller) <==> ValidActiveActor(owner, actor)
  {
    hide Seconds, Trim, IsNone, SingleLine;
  }
}
