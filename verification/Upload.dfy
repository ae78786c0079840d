/**
 The evidence-upload intent: a fenced, leased, versioned aggregate whose five
 transitions never revalidate their result, and the preflight that decides
 whether a request replays, claims or conflicts.
 */
module Upload {
  import opened Base

  const MAXIMUM_ATTEMPT_TIMEOUT: Time := 15 * MINUTE
  const MINIMUM_ATTEMPT_TIMEOUT: Time := MINUTE
  const MAXIMUM_INTENT_LIFETIME: Time := 60 * MINUTE

  datatype State = Issued | Uploading | Accepted | Rejected | Expired

  datatype Error = VersionConflict | Conflict | IntentExpired | MetadataMismatch

  /** The immutable placement an accepted asset must repeat field by field. */
  datatype Binding = Binding(
    subject: string, verification: string, requirementKey: string, registry: string,
    evidenceType: string, artefact: string, acquisitionMethod: string,
    assurances: seq<string>, region: string, retentionClass: string)

  /** One exact immutable ciphertext version; the key is derived from the evidence identifier. */
  datatype Object = Object(evidence: nat, version: nat)

  datatype Asset = Asset(
    evidence: nat, binding: Binding, contentRevision: nat, available: bool, verified: bool,
    version: nat, cipher: Object, plaintextDigest: string, mediaType: string)

  datatype Intent = Intent(
    id: nat, evidence: nat, binding: Binding,
    expectedBytes: nat, expectedDigest: string, mediaType: string,
    state: State, version: nat, attempt: nat, attemptTimeout: Time,
    lease: Option<Time>, createdAt: Time, updatedAt: Time, expiresAt: Time,
    acceptedAt: Option<Time>, rejectionReason: string)

  predicate IsSeparator(c: char) { c == '.' || c == '_' || c == '-' }

  predicate ValidClassification(v: string) {
    && 0 < |v| <= 200
    && 'a' <= v[0] <= 'z'
    && (forall i :: 0 <= i < |v| ==> 'a' <= v[i] <= 'z' || '0' <= v[i] <= '9' || IsSeparator(v[i]))
    && (forall i :: 0 <= i < |v| && IsSeparator(v[i]) ==> i + 1 < |v| && !IsSeparator(v[i + 1]))
    && (exists i :: 0 <= i < |v| && IsSeparator(v[i]))
  }

  /** What restoring a row from durable state checks about its lifecycle. */
  predicate ValidIntent(u: Intent) {
    && MINIMUM_ATTEMPT_TIMEOUT <= u.attemptTimeout <= MAXIMUM_ATTEMPT_TIMEOUT
    && u.version >= 1 && u.expectedBytes >= 1
    && 0 < u.createdAt <= u.updatedAt
    && u.createdAt < u.expiresAt <= u.createdAt + MAXIMUM_INTENT_LIFETIME
    && ValidState(u)
  }

  predicate ValidState(u: Intent) {
    match u.state
    case Issued =>
      u.lease.None? && u.acceptedAt.None? && u.rejectionReason == "" && u.updatedAt < u.expiresAt
    case Uploading =>
      && u.attempt != 0 && u.lease.Some? && u.acceptedAt.None? && u.rejectionReason == ""
      && u.updatedAt < u.lease.value <= u.expiresAt
    case Accepted =>
      && u.attempt != 0 && u.lease.None? && u.acceptedAt == Some(u.updatedAt)
      && u.rejectionReason == "" && u.updatedAt < u.expiresAt
    case Rejected =>
      && u.attempt != 0 && u.lease.None? && u.acceptedAt.None?
      && ValidClassification(u.rejectionReason) && u.updatedAt < u.expiresAt
    case Expired =>
      u.lease.None? && u.acceptedAt.None? && u.rejectionReason == "" && u.expiresAt <= u.updatedAt
  }

  /** A freshly issued intent, as created. */
  predicate Fresh(u: Intent) {
    && ValidIntent(u) && u.state == Issued && u.version == 1 && u.attempt == 0
    && u.updatedAt == u.createdAt
  }

  function Min(a: Time, b: Time): Time { if b < a then b else a }

  function ClaimAttempt(u: Intent, expectedVersion: nat, now: Time): Result<Intent, Error> {
    if expectedVersion != u.version then Failure(VersionConflict)
    else if now == 0 || now < u.updatedAt then Failure(Conflict)
    else if u.expiresAt <= now then Failure(IntentExpired)
    else if u.state == Uploading && u.lease.Some? && now < u.lease.value then Failure(Conflict)
    else if u.state != Issued && u.state != Uploading then Failure(Conflict)
    else Success(u.(state := Uploading, version := u.version + 1, attempt := u.attempt + 1,
                    updatedAt := now, lease := Some(Min(now + u.attemptTimeout, u.expiresAt))))
  }

  function FailAttempt(u: Intent, expectedVersion: nat, attempt: nat, now: Time): Result<Intent, Error> {
    if expectedVersion != u.version then Failure(VersionConflict)
    else if u.state != Uploading || u.attempt != attempt then Failure(Conflict)
    else if now == 0 || now < u.updatedAt then Failure(Conflict)
    else Success(u.(version := u.version + 1, updatedAt := now, lease := None,
                    state := if u.expiresAt <= now then Expired else Issued))
  }

  predicate Binds(u: Intent, asset: Asset) {
    && asset.evidence == u.evidence && asset.binding == u.binding && asset.contentRevision == 1
    && asset.available && asset.verified && asset.version == 1
  }

  /** The current fenced attempt, still inside its lease and the intent's lifetime. */
  predicate LeaseHeld(u: Intent, attempt: nat, now: Time) {
    && u.state == Uploading && u.attempt == attempt && u.lease.Some? && now != 0
    && u.updatedAt <= now < u.lease.value && now < u.expiresAt
  }

  function Accept(u: Intent, expectedVersion: nat, attempt: nat, asset: Asset,
                  plaintextBytes: nat, now: Time): Result<Intent, Error> {
    if expectedVersion != u.version then Failure(VersionConflict)
    else if !LeaseHeld(u, attempt, now) || plaintextBytes != u.expectedBytes || !Binds(u, asset) then Failure(Conflict)
    else if asset.plaintextDigest != u.expectedDigest || asset.mediaType != u.mediaType then Failure(Conflict)
    else Success(u.(state := Accepted, version := u.version + 1, updatedAt := now,
                    lease := None, acceptedAt := Some(now)))
  }

  function Reject(u: Intent, expectedVersion: nat, attempt: nat, reason: string, now: Time): Result<Intent, Error> {
    if expectedVersion != u.version then Failure(VersionConflict)
    else if !LeaseHeld(u, attempt, now) || !ValidClassification(reason) then Failure(Conflict)
    else Success(u.(state := Rejected, version := u.version + 1, updatedAt := now,
                    lease := None, rejectionReason := reason))
  }

  function Expire(u: Intent, expectedVersion: nat, now: Time): Result<Intent, Error> {
    if expectedVersion != u.version then Failure(VersionConflict)
    else if now == 0 || now < u.expiresAt || (u.state != Issued && u.state != Uploading) then Failure(Conflict)
    else Success(u.(state := Expired, version := u.version + 1, updatedAt := now, lease := None))
  }

  datatype Command =
    | Claim(expectedVersion: nat, now: Time)
    | Fail(expectedVersion: nat, attempt: nat, now: Time)
    | AcceptAsset(expectedVersion: nat, attempt: nat, asset: Asset, bytes: nat, now: Time)
    | RejectWith(expectedVersion: nat, attempt: nat, reason: string, now: Time)
    | Close(expectedVersion: nat, now: Time)

  function Apply(u: Intent, c: Command): Result<Intent, Error> {
    match c
    case Claim(v, now) => ClaimAttempt(u, v, now)
    case Fail(v, a, now) => FailAttempt(u, v, a, now)
    case AcceptAsset(v, a, asset, bytes, now) => Accept(u, v, a, asset, bytes, now)
    case RejectWith(v, a, reason, now) => Reject(u, v, a, reason, now)
    case Close(v, now) => Expire(u, v, now)
  }

  predicate Terminal(s: State) { s == Accepted || s == Rejected || s == Expired }

  /** The fields no transition may touch. */
  predicate SameIntent(u: Intent, w: Intent) {
    && u.id == w.id && u.evidence == w.evidence && u.binding == w.binding
    && u.expectedBytes == w.expectedBytes && u.expectedDigest == w.expectedDigest
    && u.mediaType == w.mediaType && u.attemptTimeout == w.attemptTimeout
    && u.createdAt == w.createdAt && u.expiresAt == w.expiresAt
  }

  /**
   Although no transition revalidates, each keeps the whole restore-time
   invariant, advances the version by one, never moves time back, touches only
   lifecycle fields and leaves no terminal state.
   */
  lemma TransitionSound(u: Intent, c: Command)
    requires ValidIntent(u) && Apply(u, c).Success?
    ensures var w := Apply(u, c).value;
            && ValidIntent(w) && w.version == u.version + 1 && w.updatedAt == c.now >= u.updatedAt
            && SameIntent(u, w) && !Terminal(u.state)
            && w.attempt == u.attempt + (if c.Claim? then 1 else 0)
            && (w.state == Uploading <==> c.Claim?) && (w.state == Accepted <==> c.AcceptAsset?)
            && c.expectedVersion == u.version
            && (c.Claim? ==> w.lease.value <= c.now + 900_000_000)
  {
  }

  /** When each command succeeds, on the fields of the intent and of the command alone. */
  ghost predicate Allowed(u: Intent, c: Command) {
    && c.expectedVersion == u.version && u.updatedAt <= c.now && c.now != 0
    && match c
       case Claim(_, now) =>
         now < u.expiresAt && (u.state == Issued || (u.state == Uploading && u.lease.Some? && u.lease.value <= now))
       case Fail(_, attempt, _) => u.state == Uploading && u.attempt == attempt
       case AcceptAsset(_, attempt, asset, bytes, now) =>
         && u.state == Uploading && u.attempt == attempt && u.lease.Some? && now < u.lease.value && now < u.expiresAt
         && asset.evidence == u.evidence && asset.binding == u.binding && asset.contentRevision == 1
         && asset.available && asset.verified && asset.version == 1
         && bytes == u.expectedBytes && asset.plaintextDigest == u.expectedDigest && asset.mediaType == u.mediaType
       case RejectWith(_, attempt, reason, now) =>
         && u.state == Uploading && u.attempt == attempt && u.lease.Some? && now < u.lease.value && now < u.expiresAt
         && ValidClassification(reason)
       case Close(_, now) => u.expiresAt <= now && (u.state == Issued || u.state == Uploading)
  }

  /** A command succeeds exactly when it is allowed, and otherwise says what was wrong. */
  lemma SucceedsExactly(u: Intent, c: Command)
    requires ValidIntent(u)
    ensures Apply(u, c).Success? <==> Allowed(u, c)
    ensures Apply(u, c) == Failure(VersionConflict) <==> c.expectedVersion != u.version
    ensures Apply(u, c) == Failure(IntentExpired) <==>
      c.Claim? && c.expectedVersion == u.version && u.updatedAt <= c.now && u.expiresAt <= c.now
    ensures Apply(u, c) != Failure(MetadataMismatch)
  {
  }

  /** What a successful command leaves behind, beyond what no command touches. */
  lemma EffectExactly(u: Intent, c: Command)
    requires ValidIntent(u) && Apply(u, c).Success?
    ensures var w := Apply(u, c).value;
            match c
            case Claim(_, now) =>
              && w.attempt == u.attempt + 1 && w.lease.Some?
              && w.lease.value <= now + u.attemptTimeout && w.lease.value <= u.expiresAt
              && w.lease.value in {now + u.attemptTimeout, u.expiresAt}
            case Fail(_, _, now) => w.attempt == u.attempt && (w.state == Expired <==> u.expiresAt <= now)
                && (w.state == Issued <==> now < u.expiresAt)
            case AcceptAsset(_, _, _, _, now) => w.state == Accepted && w.acceptedAt == Some(now)
            case RejectWith(_, _, reason, _) => w.state == Rejected && w.rejectionReason == reason
            case Close(_, _) => w.state == Expired
  {
  }

  /** A whole history of successful commands, oldest first. */
  ghost predicate History(u0: Intent, commands: seq<Command>, states: seq<Intent>) {
    && Fresh(u0)
    && |states| == |commands| + 1 && states[0] == u0
    && forall i :: 0 <= i < |commands| ==> Apply(states[i], commands[i]) == Success(states[i + 1])
  }

  lemma {:induction false} HistoryInvariant(u0: Intent, commands: seq<Command>, states: seq<Intent>, n: nat)
    requires History(u0, commands, states) && n <= |commands|
    ensures ValidIntent(states[n]) && states[n].version == n + 1 && SameIntent(u0, states[n])
    ensures forall m :: 0 <= m <= n ==> states[m].updatedAt <= states[n].updatedAt
    decreases n
  {
    if n > 0 {
      HistoryInvariant(u0, commands, states, n - 1);
      TransitionSound(states[n - 1], commands[n - 1]);
    }
  }

  /** Nothing follows a terminal state. */
  lemma TerminalIsLast(u0: Intent, commands: seq<Command>, states: seq<Intent>, n: nat)
    requires History(u0, commands, states) && n <= |commands| && Terminal(states[n].state)
    ensures n == |commands|
  {
    if n < |commands| {
      HistoryInvariant(u0, commands, states, n);
      assert Apply(states[n], commands[n]) == Success(states[n + 1]);
      TransitionSound(states[n], commands[n]);
    }
  }

  /** The asset repeats what the intent declared about it. */
  ghost predicate Repeats(a: Asset, u: Intent) {
    && a.evidence == u.evidence && a.binding == u.binding && a.contentRevision == 1 && a.available && a.verified
    && a.version == 1 && a.plaintextDigest == u.expectedDigest && a.mediaType == u.mediaType
  }

  /** What was accepted is what was declared when the intent was issued, byte count included. */
  lemma AcceptedIsDeclared(u0: Intent, commands: seq<Command>, states: seq<Intent>)
    requires History(u0, commands, states) && states[|commands|].state == Accepted
    ensures var n := |commands|;
            && n > 0 && commands[n - 1].AcceptAsset?
            && var c := commands[n - 1];
               c.bytes == u0.expectedBytes && Repeats(c.asset, u0) && c.now < u0.expiresAt
  {
    var n := |commands|;
    AcceptedAttemptClaimedTwoVersionsEarlier(u0, commands, states);
    HistoryInvariant(u0, commands, states, n - 1);
    SucceedsExactly(states[n - 1], commands[n - 1]);
  }

  datatype Preflight = Replay(intent: Intent) | Proceed(intent: Intent) | Refuse(error: Error)

  datatype Metadata = Metadata(expectedVersion: nat, length: nat, mediaType: string, digest: string)

  /** Begin, after the principal has been matched to the intent. */
  function Begin(u: Intent, m: Metadata, now: Time): Preflight {
    if m.length != u.expectedBytes || m.mediaType != u.mediaType || m.digest != u.expectedDigest
    then Refuse(MetadataMismatch)
    else if u.state == Accepted then
      if m.expectedVersion == u.version || (m.expectedVersion > 0 && m.expectedVersion + 2 == u.version)
      then Replay(u) else Refuse(VersionConflict)
    else if u.state == Uploading && m.expectedVersion + 1 == u.version then Refuse(Conflict)
    else if m.expectedVersion != u.version then Refuse(VersionConflict)
    else match ClaimAttempt(u, m.expectedVersion, now)
         case Success(w) => Proceed(w)
         case Failure(e) => Refuse(e)
  }

  /**
   An accepted history at version V ends with a claim presented at V-2 and the
   acceptance of that very claim at V-1, so V >= 3 and the attempt matches.
   */
  lemma AcceptedAttemptClaimedTwoVersionsEarlier(u0: Intent, commands: seq<Command>, states: seq<Intent>)
    requires History(u0, commands, states) && states[|commands|].state == Accepted
    ensures var n := |commands|; var V := states[n].version;
            && V >= 3 && n == V - 1
            && commands[n - 1].AcceptAsset? && commands[n - 1].expectedVersion == V - 1
            && commands[n - 2].Claim? && commands[n - 2].expectedVersion == V - 2
            && commands[n - 1].attempt == states[n - 1].attempt == states[n].attempt
            && commands[n - 1].now < states[n - 1].lease.value
  {
    var n := |commands|;
    HistoryInvariant(u0, commands, states, n);
    assert n > 0;
    HistoryInvariant(u0, commands, states, n - 1);
    TransitionSound(states[n - 1], commands[n - 1]);
    assert states[n - 1].state == Uploading;
    assert n - 1 > 0;
    HistoryInvariant(u0, commands, states, n - 2);
    TransitionSound(states[n - 2], commands[n - 2]);
  }

  /**
   Against an accepted intent, preflight never claims again, and replays exactly
   the terminal version and the version the winning claim presented.
   */
  lemma AcceptedReplayWindow(u0: Intent, commands: seq<Command>, states: seq<Intent>, m: Metadata, now: Time)
    requires History(u0, commands, states) && states[|commands|].state == Accepted
    ensures var n := |commands|; var u := states[n];
            var metadataMatches := m.length == u0.expectedBytes && m.mediaType == u0.mediaType
                && m.digest == u0.expectedDigest;
            && !Begin(u, m, now).Proceed?
            && n >= 2
            && (Begin(u, m, now) == Replay(u) <==>
                metadataMatches && m.expectedVersion in {u.version, commands[n - 2].expectedVersion})
  {
    AcceptedAttemptClaimedTwoVersionsEarlier(u0, commands, states);
    HistoryInvariant(u0, commands, states, |commands|);
  }

  /** Against any other valid intent, preflight claims exactly when the metadata match and the claim is allowed. */
  lemma PreflightProceedsExactly(u: Intent, m: Metadata, now: Time)
    requires ValidIntent(u)
    ensures Begin(u, m, now).Proceed? <==>
      && m.length == u.expectedBytes && m.mediaType == u.mediaType && m.digest == u.expectedDigest
      && Allowed(u, Claim(m.expectedVersion, now))
    ensures Begin(u, m, now).Proceed? ==> Success(Begin(u, m, now).intent) == Apply(u, Claim(m.expectedVersion, now))
    ensures Begin(u, m, now).Replay? ==> u.state == Accepted && Begin(u, m, now).intent == u
    ensures Begin(u, m, now) == Refuse(VersionConflict) ==>
      m.expectedVersion != u.version && !(u.state == Uploading && m.expectedVersion + 1 == u.version)
    ensures u.state == Uploading && m.expectedVersion + 1 == u.version ==>
      Begin(u, m, now) in {Refuse(MetadataMismatch), Refuse(Conflict)}
    ensures Begin(u, m, now) == Refuse(IntentExpired) ==> u.expiresAt <= now && m.expectedVersion == u.version
    ensures Begin(u, m, now) == Refuse(MetadataMismatch) <==>
      !(m.length == u.expectedBytes && m.mediaType == u.mediaType && m.digest == u.expectedDigest)
  {
    SucceedsExactly(u, Claim(m.expectedVersion, now));
  }
}
