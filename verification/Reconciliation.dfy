/**
 The write-ahead obligation that protects one exact staged object until an
 authoritative disposition is recorded.
 */
module Reconciliation {
  import opened Base
  import opened Upload

  const MAXIMUM_INT32: nat := 0x7fff_ffff
  const MAXIMUM_CLAIM_TIMEOUT: Time := 15 * MINUTE

  datatype Disposition = Pending | Claimed | Retained | Deleted

  datatype Obligation = Obligation(
    upload: nat, evidence: nat, attempt: nat, cipher: Object,
    state: Disposition, version: nat, claim: nat, availableAt: Time,
    lease: Option<Time>, createdAt: Time, updatedAt: Time, resolvedAt: Option<Time>)

  predicate Resolved(d: Disposition) { d == Retained || d == Deleted }

  predicate ValidObligation(o: Obligation) {
    && 0 < o.attempt <= MAXIMUM_INT32 && o.claim <= MAXIMUM_INT32 && o.version >= 1
    && 0 < o.createdAt <= o.updatedAt && o.createdAt <= o.availableAt
    && match o.state
       case Pending => o.lease.None? && o.resolvedAt.None?
       case Claimed => o.claim != 0 && o.lease.Some? && o.updatedAt < o.lease.value && o.resolvedAt.None?
       case Retained => o.lease.None? && o.resolvedAt == Some(o.updatedAt)
       case Deleted => o.lease.None? && o.resolvedAt == Some(o.updatedAt)
  }

  /** Every transition ends by restoring, which refuses an inconsistent record. */
  function Restore(o: Obligation): Option<Obligation> {
    if ValidObligation(o) then Some(o) else None
  }

  /** An obligation outlives the upload lease: recovery may not start before it. */
  function ForObject(u: Intent, cipher: Object, createdAt: Time): Option<Obligation> {
    if u.state != Uploading || u.attempt == 0 || u.lease.None? then None
    else
      var available := if u.lease.value < createdAt then createdAt else u.lease.value;
      Restore(Obligation(u.id, u.evidence, u.attempt, cipher, Pending, 1, 0, available,
                         None, createdAt, createdAt, None))
  }

  function ClaimForRecovery(o: Obligation, now: Time, timeout: Time): Option<Obligation> {
    if now == 0 || timeout == 0 || timeout > MAXIMUM_CLAIM_TIMEOUT || o.claim >= MAXIMUM_INT32 then None
    else
      var ready := o.state == Pending && o.availableAt <= now;
      var expired := o.state == Claimed && o.lease.Some? && o.lease.value <= now;
      if !ready && !expired then None
      else Restore(o.(state := Claimed, version := o.version + 1, claim := o.claim + 1,
                      updatedAt := now, lease := Some(now + timeout)))
  }

  function Retry(o: Obligation, now: Time, delay: Time): Option<Obligation> {
    if o.state != Claimed || now == 0 || delay == 0 then None
    else Restore(o.(state := Pending, version := o.version + 1, availableAt := now + delay,
                    lease := None, updatedAt := now))
  }

  function Resolve(o: Obligation, disposition: Disposition, now: Time): Option<Obligation> {
    if (o.state != Pending && o.state != Claimed) || !Resolved(disposition) || now == 0 then None
    else Restore(o.(state := disposition, version := o.version + 1, lease := None,
                    updatedAt := now, resolvedAt := Some(now)))
  }

  /**
   An obligation is opened for the current attempt of an uploading intent, pending, and may be
   recovered neither before the lease ends nor before it was written.
   */
  lemma OpenedExactly(u: Intent, cipher: Object, createdAt: Time)
    requires ValidIntent(u)
    ensures ForObject(u, cipher, createdAt).Some? <==>
      u.state == Uploading && 0 < u.attempt <= 0x7fff_ffff && createdAt > 0
    ensures ForObject(u, cipher, createdAt).Some? ==>
      var o := ForObject(u, cipher, createdAt).value;
      && o.upload == u.id && o.evidence == u.evidence && o.attempt == u.attempt && o.cipher == cipher
      && o.state == Pending && o.version == 1 && o.claim == 0 && o.createdAt == createdAt
      && o.availableAt >= u.lease.value && o.availableAt >= createdAt
      && o.availableAt in {u.lease.value, createdAt}
  {
  }

  /** What identifies an obligation and its object, which no transition may touch. */
  predicate SameObligation(o: Obligation, n: Obligation) {
    && n.upload == o.upload && n.evidence == o.evidence && n.attempt == o.attempt && n.cipher == o.cipher
    && n.createdAt == o.createdAt
  }

  /** A step of a valid obligation: one version further, at this time, still valid, the same obligation. */
  ghost predicate Steps(o: Obligation, n: Obligation, now: Time) {
    && ValidObligation(n) && SameObligation(o, n) && n.version == o.version + 1 && n.updatedAt == now
  }

  /** A recovery claim takes an available obligation, or one whose claim ran out, for at most fifteen minutes. */
  lemma RecoveryClaimedExactly(o: Obligation, now: Time, timeout: Time)
    requires ValidObligation(o)
    ensures ClaimForRecovery(o, now, timeout).Some? <==>
      && o.createdAt <= now && 0 < timeout <= 900_000_000 && o.claim < 0x7fff_ffff
      && ((o.state == Pending && o.availableAt <= now)
          || (o.state == Claimed && o.lease.Some? && o.lease.value <= now))
    ensures ClaimForRecovery(o, now, timeout).Some? ==>
      var n := ClaimForRecovery(o, now, timeout).value;
      && Steps(o, n, now) && n.state == Claimed && n.claim == o.claim + 1 && n.lease == Some(now + timeout)
      && n.availableAt == o.availableAt
  {
  }

  /** Only a claimed obligation is put back, and it becomes available after the delay. */
  lemma RetriedExactly(o: Obligation, now: Time, delay: Time)
    requires ValidObligation(o)
    ensures Retry(o, now, delay).Some? <==> o.state == Claimed && o.createdAt <= now && delay > 0
    ensures Retry(o, now, delay).Some? ==>
      var n := Retry(o, now, delay).value;
      && Steps(o, n, now) && n.state == Pending && n.claim == o.claim && n.availableAt == now + delay && n.lease.None?
  {
  }

  /** An obligation is resolved once, as retained or deleted. */
  lemma ResolvedExactly(o: Obligation, d: Disposition, now: Time)
    requires ValidObligation(o)
    ensures Resolve(o, d, now).Some? <==>
      (o.state == Pending || o.state == Claimed) && (d == Retained || d == Deleted) && o.createdAt <= now
    ensures Resolve(o, d, now).Some? ==>
      var n := Resolve(o, d, now).value;
      && Steps(o, n, now) && n.state == d && n.claim == o.claim && n.resolvedAt == Some(now) && n.lease.None?
  {
  }
}
