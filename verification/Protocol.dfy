/**
 Uploaders, recovery workers and an orphan sweeper sharing one durable store and
 one object store. Every database transaction and every object-store call is one
 event; actors may stall, crash or act on stale readings between any two events.
 */
module Protocol {
  import opened Base
  import opened Upload
  import opened Reconciliation

  const CLOCK_SKEW_ALLOWANCE: Time := 5 * MINUTE
  const MINIMUM_ORPHAN_AGE: Time := MAXIMUM_ATTEMPT_TIMEOUT + CLOCK_SKEW_ALLOWANCE

  /** One claimed whole-body attempt: the primary key of an obligation. */
  datatype Attempt = Attempt(upload: nat, number: nat)

  /** `Accepting` holds the acceptance transaction open after its clock reading. */
  datatype Phase =
    | Streaming | Staged | Recorded | Accepting
    | Discarding(recorded: bool) | Resolving | RecordingOrphan | Failing

  /** A process inside UploadAcceptanceService.Accept; `claim` is the intent preflight returned. */
  datatype Uploader = Uploader(claim: Intent, phase: Phase, asset: Asset, at: Time)

  /** A process inside ReconciliationService.ReconcileNext, holding its claimed obligation. */
  datatype Worker =
    | Inspecting(o: Obligation)
    | Judging(o: Obligation, seen: Intent)
    | Deleting(o: Obligation)
    | Completing(o: Obligation, verdict: Disposition)
    | Retrying(o: Obligation)

  /** History of one stored version: who put it, when, and the provider's timestamp. */
  datatype Put = Put(owner: Attempt, at: Time, modifiedAt: Time)

  /**
   `puts` and `leases` record history. Guards read from them only that a version is new
   and the provider's timestamp of a stored version, which its inventory reports.
   */
  datatype System = System(
    clock: Time,
    uploads: map<nat, Intent>, assets: map<nat, Asset>, obligations: map<Attempt, Obligation>,
    inventory: set<Object>,
    uploaders: map<nat, Uploader>, workers: map<nat, Worker>, condemned: map<nat, Object>,
    puts: map<Object, Put>, leases: map<Attempt, Time>)

  const INITIAL := System(0, map[], map[], map[], {}, map[], map[], map[], map[], map[])

  datatype Event =
    | Tick(clock: Time)
    | Issue(intent: Intent)
    | Lapse(id: nat, expectedVersion: nat, now: Time)
    // the uploader
    | Claim(p: nat, id: nat, expectedVersion: nat, now: Time)
    | Store(p: nat, asset: Asset, modifiedAt: Time, after: Phase)
    | StoreNothing(p: nat)
    | Write(p: nat, now: Time, written: bool, reported: bool)
    | RefuseBody(p: nat)
    | Lock(p: nat, bytes: nat)
    | Commit(p: nat, bytes: nat)
    | CommitNothing(p: nat, unknown: bool)
    | Discard(p: nat, gone: bool, reported: bool)
    | ResolveDiscarded(p: nat, applied: bool)
    | WriteOrphan(p: nat, now: Time, written: bool, reported: bool)
    | Release(p: nat, reason: string, now: Time, applied: bool)
    | UploaderCrash(p: nat)
    // the recovery worker
    | Recover(w: nat, key: Attempt, now: Time, timeout: Time)
    | ReadUpload(w: nat)
    | ReadAsset(w: nat)
    | ReadFails(w: nat)
    | DeleteObject(w: nat, gone: bool, reported: bool)
    | Complete(w: nat, now: Time, applied: bool)
    | PutBack(w: nat, now: Time, delay: Time, applied: bool)
    | WorkerCrash(w: nat)
    // the orphan sweeper
    | Condemn(z: nat, cipher: Object, now: Time, age: Time)
    | Sweep(z: nat, gone: bool)
    | SweeperCrash(z: nat)

  function KeyOf(u: Intent): Attempt { Attempt(u.id, u.attempt) }

  function KeyOfObligation(o: Obligation): Attempt { Attempt(o.upload, o.attempt) }

  predicate At(s: System, p: nat, phase: Phase) { p in s.uploaders && s.uploaders[p].phase == phase }

  predicate CanApply(s: System, id: nat, c: Command) {
    id in s.uploads && c.now <= s.clock && Apply(s.uploads[id], c).Success?
  }

  /** The write-ahead insert: at most one obligation per attempt, replay must match exactly. */
  predicate CanWrite(s: System, u: Uploader, now: Time, written: bool, reported: bool) {
    var o := ForObject(u.claim, u.asset.cipher, now);
    && now <= s.clock
    && (written ==> o.Some? && KeyOf(u.claim) !in s.obligations)
    && (reported ==> o.Some?)
    && (reported && !written ==> KeyOf(u.claim) in s.obligations && s.obligations[KeyOf(u.claim)] == o.value)
  }

  /** The durable reference check consulted before an orphan is deleted. */
  predicate Referenced(s: System, cipher: Object) {
    || (exists e :: e in s.assets && s.assets[e].cipher == cipher)
    || (exists k :: k in s.obligations && s.obligations[k].cipher == cipher && s.obligations[k].state != Deleted)
  }

  /** The fence every worker write carries: the exact version and claim it holds. */
  predicate HoldsClaim(s: System, o: Obligation) {
    var k := KeyOfObligation(o);
    k in s.obligations && s.obligations[k].version == o.version && s.obligations[k].claim == o.claim
  }

  predicate CanAccept(s: System, u: Uploader, bytes: nat) {
    && u.claim.id in s.uploads
    && Accept(s.uploads[u.claim.id], u.claim.version, u.claim.attempt, u.asset, bytes, u.at).Success?
  }

  /** The acceptance transaction reads the clock while it holds the row locks. */
  predicate CanLock(s: System, u: Uploader, bytes: nat) {
    && CanAccept(s, u, bytes) && u.at <= s.clock
    && var current := s.uploads[u.claim.id];
       current.lease.Some? && s.clock < current.lease.value && s.clock < current.expiresAt
  }

  /** It commits at any later time, if the asset is new and the obligation it retains is pending. */
  predicate CanCommit(s: System, u: Uploader, bytes: nat) {
    var k := KeyOf(u.claim);
    && CanAccept(s, u, bytes) && s.uploads[u.claim.id].evidence !in s.assets
    && k in s.obligations && s.obligations[k].state == Pending && s.obligations[k].cipher == u.asset.cipher
  }

  /** recordFailure rejects only for a classified reason inside the lease, otherwise it releases the attempt. */
  function FailureCommand(claim: Intent, reason: string, now: Time): Command {
    if reason != "" && now < claim.expiresAt && claim.lease.Some? && now < claim.lease.value
    then RejectWith(claim.version, claim.attempt, reason, now)
    else Fail(claim.version, claim.attempt, now)
  }

  predicate CanIssue(s: System, u: Intent) {
    && Fresh(u) && u.id !in s.uploads && u.createdAt <= s.clock
    && (forall i :: i in s.uploads ==> s.uploads[i].evidence != u.evidence)
  }

  /** A new version under the evidence's key, stamped by a provider clock within the allowed skew. */
  predicate CanStore(s: System, p: nat, asset: Asset, modifiedAt: Time, after: Phase) {
    && after in {Staged, Discarding(false), Failing}
    && At(s, p, Streaming) && asset.cipher !in s.puts && asset.cipher.evidence == s.uploaders[p].claim.evidence
    && asset.evidence == s.uploaders[p].claim.evidence
    && s.clock <= modifiedAt + CLOCK_SKEW_ALLOWANCE && modifiedAt <= s.clock + CLOCK_SKEW_ALLOWANCE
  }

  predicate CanResolveDiscarded(s: System, p: nat, applied: bool) {
    && At(s, p, Resolving)
    && (applied ==>
        var u := s.uploaders[p]; var k := KeyOf(u.claim);
        && k in s.obligations && s.obligations[k].cipher == u.asset.cipher
        && (s.obligations[k].state == Deleted || Resolve(s.obligations[k], Deleted, u.at).Some?))
  }

  predicate CanRecover(s: System, w: nat, k: Attempt, now: Time, timeout: Time) {
    && w !in s.workers && k in s.obligations && now <= s.clock
    && ClaimForRecovery(s.obligations[k], now, timeout).Some?
  }

  predicate CanComplete(s: System, w: nat, now: Time, applied: bool) {
    && w in s.workers && s.workers[w].Completing?
    && (applied ==> var o := s.workers[w].o;
        && now <= s.clock && HoldsClaim(s, o)
        && Resolve(s.obligations[KeyOfObligation(o)], s.workers[w].verdict, now).Some?)
  }

  predicate CanPutBack(s: System, w: nat, now: Time, delay: Time, applied: bool) {
    && w in s.workers && s.workers[w].Retrying?
    && (applied ==> var o := s.workers[w].o;
        && now <= s.clock && HoldsClaim(s, o)
        && Retry(s.obligations[KeyOfObligation(o)], now, delay).Some?)
  }

  /** Old by the provider's clock and protected by no durable reference. */
  predicate Unprotected(s: System, cipher: Object, now: Time, age: Time) {
    && cipher in s.puts && now <= s.clock
    && s.puts[cipher].modifiedAt + age <= now && !Referenced(s, cipher)
  }

  predicate Condemnable(s: System, cipher: Object, now: Time, age: Time) {
    MINIMUM_ORPHAN_AGE <= age && Unprotected(s, cipher, now, age)
  }

  predicate CanCondemn(s: System, z: nat, cipher: Object, now: Time, age: Time) {
    z !in s.condemned && Condemnable(s, cipher, now, age)
  }

  predicate ByWorker(e: Event) {
    || e.Recover? || e.ReadUpload? || e.ReadAsset? || e.ReadFails?
    || e.DeleteObject? || e.Complete? || e.PutBack? || e.WorkerCrash?
  }

  predicate BySweeper(e: Event) { e.Condemn? || e.Sweep? || e.SweeperCrash? }

  predicate UploadEnabled(s: System, e: Event)
    requires !ByWorker(e) && !BySweeper(e)
  {
    match e
    case Tick(t) => s.clock <= t
    case Issue(u) => CanIssue(s, u)
    case Lapse(id, v, now) => CanApply(s, id, Close(v, now))
    case Claim(p, id, v, now) => p !in s.uploaders && CanApply(s, id, Command.Claim(v, now))
    case Store(p, asset, modifiedAt, after) => CanStore(s, p, asset, modifiedAt, after)
    case StoreNothing(p) => At(s, p, Streaming)
    case Write(p, now, written, reported) => At(s, p, Staged) && CanWrite(s, s.uploaders[p], now, written, reported)
    case RefuseBody(p) => At(s, p, Recorded)
    case Lock(p, bytes) => At(s, p, Recorded) && CanLock(s, s.uploaders[p], bytes)
    case Commit(p, bytes) => At(s, p, Accepting) && CanCommit(s, s.uploaders[p], bytes)
    case CommitNothing(p, _) => At(s, p, Recorded) || At(s, p, Accepting)
    case Discard(p, gone, reported) => p in s.uploaders && s.uploaders[p].phase.Discarding? && (reported ==> gone)
    case ResolveDiscarded(p, applied) => CanResolveDiscarded(s, p, applied)
    case WriteOrphan(p, now, written, reported) =>
      At(s, p, RecordingOrphan) && CanWrite(s, s.uploaders[p], now, written, reported)
    case Release(p, reason, now, applied) =>
      && At(s, p, Failing)
      && (applied ==> CanApply(s, s.uploaders[p].claim.id, FailureCommand(s.uploaders[p].claim, reason, now)))
    case UploaderCrash(p) => p in s.uploaders
  }

  predicate WorkerEnabled(s: System, e: Event)
    requires ByWorker(e)
  {
    match e
    case Recover(w, k, now, timeout) => CanRecover(s, w, k, now, timeout)
    case ReadUpload(w) => w in s.workers && s.workers[w].Inspecting? && s.workers[w].o.upload in s.uploads
    case ReadAsset(w) => w in s.workers && s.workers[w].Judging?
    case ReadFails(w) => w in s.workers && (s.workers[w].Inspecting? || s.workers[w].Judging?)
    case DeleteObject(w, gone, reported) => w in s.workers && s.workers[w].Deleting? && (reported ==> gone)
    case Complete(w, now, applied) => CanComplete(s, w, now, applied)
    case PutBack(w, now, delay, applied) => CanPutBack(s, w, now, delay, applied)
    case WorkerCrash(w) => w in s.workers
  }

  predicate SweeperEnabled(s: System, e: Event)
    requires BySweeper(e)
  {
    match e
    case Condemn(z, cipher, now, age) => CanCondemn(s, z, cipher, now, age)
    case Sweep(z, _) => z in s.condemned
    case SweeperCrash(z) => z in s.condemned
  }

  predicate Enabled(s: System, e: Event) {
    if ByWorker(e) then WorkerEnabled(s, e) else if BySweeper(e) then SweeperEnabled(s, e) else UploadEnabled(s, e)
  }

  function SetUploader(s: System, p: nat, u: Uploader): System { s.(uploaders := s.uploaders[p := u]) }

  function WithPhase(s: System, p: nat, phase: Phase): System
    requires p in s.uploaders
  {
    SetUploader(s, p, s.uploaders[p].(phase := phase))
  }

  function DropUploader(s: System, p: nat): System { s.(uploaders := s.uploaders - {p}) }

  function SetWorker(s: System, w: nat, worker: Worker): System { s.(workers := s.workers[w := worker]) }

  function DropWorker(s: System, w: nat): System { s.(workers := s.workers - {w}) }

  function SetObligation(s: System, k: Attempt, o: Obligation): System { s.(obligations := s.obligations[k := o]) }

  function Transition(s: System, id: nat, c: Command): System
    requires CanApply(s, id, c)
  {
    s.(uploads := s.uploads[id := Apply(s.uploads[id], c).value])
  }

  function AddObligation(s: System, u: Uploader, now: Time, written: bool): System
    requires written ==> ForObject(u.claim, u.asset.cipher, now).Some?
  {
    if written then SetObligation(s, KeyOf(u.claim), ForObject(u.claim, u.asset.cipher, now).value) else s
  }

  function Remove(s: System, cipher: Object, gone: bool): System {
    if gone then s.(inventory := s.inventory - {cipher}) else s
  }

  const NO_ASSET := Asset(0, Binding("", "", "", "", "", "", "", [], "", ""), 0, false, false, 0, Object(0, 0), "", "")

  function ClaimEffect(s: System, p: nat, id: nat, v: nat, now: Time): System
    requires CanApply(s, id, Command.Claim(v, now))
  {
    var u := Apply(s.uploads[id], Command.Claim(v, now)).value;
    SetUploader(Transition(s, id, Command.Claim(v, now)), p, Uploader(u, Streaming, NO_ASSET, now))
      .(leases := if u.lease.Some? then s.leases[KeyOf(u) := u.lease.value] else s.leases)
  }

  /** The put took effect; `after` says whether it was prepared, failed later, or was reported as failed itself. */
  function StoreEffect(s: System, p: nat, asset: Asset, modifiedAt: Time, after: Phase): System
    requires p in s.uploaders
  {
    SetUploader(s, p, s.uploaders[p].(phase := after, asset := asset))
      .(inventory := s.inventory + {asset.cipher},
        puts := s.puts[asset.cipher := Put(KeyOf(s.uploaders[p].claim), s.clock, modifiedAt)])
  }

  function WriteEffect(s: System, p: nat, now: Time, written: bool, reported: bool): System
    requires p in s.uploaders && CanWrite(s, s.uploaders[p], now, written, reported)
  {
    var u := s.uploaders[p];
    SetUploader(AddObligation(s, u, now, written), p,
      u.(at := now, phase := if reported then Recorded else Discarding(false)))
  }

  function RetainedBy(o: Obligation, at: Time): Obligation {
    o.(state := Retained, version := o.version + 1, lease := None, updatedAt := at, resolvedAt := Some(at))
  }

  function CommitEffect(s: System, p: nat, bytes: nat): System
    requires At(s, p, Accepting) && CanCommit(s, s.uploaders[p], bytes)
  {
    var u := s.uploaders[p];
    var k := KeyOf(u.claim);
    DropUploader(s, p).(
      uploads := s.uploads[u.claim.id :=
        Accept(s.uploads[u.claim.id], u.claim.version, u.claim.attempt, u.asset, bytes, u.at).value],
      assets := s.assets[u.asset.evidence := u.asset],
      obligations := s.obligations[k := RetainedBy(s.obligations[k], u.at)])
  }

  function DiscardEffect(s: System, p: nat, gone: bool, reported: bool): System
    requires p in s.uploaders && s.uploaders[p].phase.Discarding?
  {
    var u := s.uploaders[p];
    WithPhase(Remove(s, u.asset.cipher, gone), p,
      if u.phase.recorded then (if reported then Resolving else Failing)
      else (if reported then Failing else RecordingOrphan))
  }

  function ResolveDiscardedEffect(s: System, p: nat, applied: bool): System
    requires CanResolveDiscarded(s, p, applied)
  {
    var u := s.uploaders[p];
    var k := KeyOf(u.claim);
    WithPhase(if applied && s.obligations[k].state != Deleted
              then SetObligation(s, k, Resolve(s.obligations[k], Deleted, u.at).value) else s,
              p, Failing)
  }

  function WriteOrphanEffect(s: System, p: nat, now: Time, written: bool, reported: bool): System
    requires p in s.uploaders && CanWrite(s, s.uploaders[p], now, written, reported)
  {
    var s1 := AddObligation(s, s.uploaders[p], now, written);
    if reported then WithPhase(s1, p, Failing) else DropUploader(s1, p)
  }

  function RecoverEffect(s: System, w: nat, k: Attempt, now: Time, timeout: Time): System
    requires CanRecover(s, w, k, now, timeout)
  {
    var o := ClaimForRecovery(s.obligations[k], now, timeout).value;
    SetWorker(SetObligation(s, k, o), w, Inspecting(o))
  }

  /** determineAndApply, once the asset lookup has answered. */
  function Judge(s: System, o: Obligation, seen: Intent): Worker {
    if seen.evidence != o.evidence then Retrying(o)
    else if seen.state == Accepted then
      if o.evidence !in s.assets then Retrying(o)
      else if seen.attempt != o.attempt || s.assets[o.evidence].cipher != o.cipher then Retrying(o)
      else Completing(o, Retained)
    else if o.evidence in s.assets then Retrying(o)
    else Deleting(o)
  }

  function DeleteEffect(s: System, w: nat, gone: bool, reported: bool): System
    requires w in s.workers
  {
    var o := s.workers[w].o;
    SetWorker(Remove(s, o.cipher, gone), w, if reported then Completing(o, Deleted) else Retrying(o))
  }

  function CompleteEffect(s: System, w: nat, now: Time, applied: bool): System
    requires CanComplete(s, w, now, applied)
  {
    var k := KeyOfObligation(s.workers[w].o);
    DropWorker(if applied then SetObligation(s, k, Resolve(s.obligations[k], s.workers[w].verdict, now).value)
      else s, w)
  }

  function PutBackEffect(s: System, w: nat, now: Time, delay: Time, applied: bool): System
    requires CanPutBack(s, w, now, delay, applied)
  {
    var k := KeyOfObligation(s.workers[w].o);
    DropWorker(if applied then SetObligation(s, k, Retry(s.obligations[k], now, delay).value) else s, w)
  }

  function NextWorker(s: System, e: Event): System
    requires ByWorker(e) && WorkerEnabled(s, e)
  {
    match e
    case Recover(w, k, now, timeout) => RecoverEffect(s, w, k, now, timeout)
    case ReadUpload(w) => SetWorker(s, w, Judging(s.workers[w].o, s.uploads[s.workers[w].o.upload]))
    case ReadAsset(w) => SetWorker(s, w, Judge(s, s.workers[w].o, s.workers[w].seen))
    case ReadFails(w) => SetWorker(s, w, Retrying(s.workers[w].o))
    case DeleteObject(w, gone, reported) => DeleteEffect(s, w, gone, reported)
    case Complete(w, now, applied) => CompleteEffect(s, w, now, applied)
    case PutBack(w, now, delay, applied) => PutBackEffect(s, w, now, delay, applied)
    case WorkerCrash(w) => DropWorker(s, w)
  }

  function NextSweeper(s: System, e: Event): System
    requires BySweeper(e) && SweeperEnabled(s, e)
  {
    match e
    case Condemn(z, cipher, _, _) => s.(condemned := s.condemned[z := cipher])
    case Sweep(z, gone) => Remove(s, s.condemned[z], gone).(condemned := s.condemned - {z})
    case SweeperCrash(z) => s.(condemned := s.condemned - {z})
  }

  function NextUpload(s: System, e: Event): System
    requires !ByWorker(e) && !BySweeper(e) && UploadEnabled(s, e)
  {
    match e
    case Tick(t) => s.(clock := t)
    case Issue(u) => s.(uploads := s.uploads[u.id := u])
    case Lapse(id, v, now) => Transition(s, id, Close(v, now))
    case Claim(p, id, v, now) => ClaimEffect(s, p, id, v, now)
    case Store(p, asset, modifiedAt, after) => StoreEffect(s, p, asset, modifiedAt, after)
    case StoreNothing(p) => WithPhase(s, p, Failing)
    case Write(p, now, written, reported) => WriteEffect(s, p, now, written, reported)
    case RefuseBody(p) => WithPhase(s, p, Discarding(true))
    case Lock(p, _) => WithPhase(s, p, Accepting)
    case Commit(p, bytes) => CommitEffect(s, p, bytes)
    case CommitNothing(p, unknown) => if unknown then DropUploader(s, p) else WithPhase(s, p, Discarding(true))
    case Discard(p, gone, reported) => DiscardEffect(s, p, gone, reported)
    case ResolveDiscarded(p, applied) => ResolveDiscardedEffect(s, p, applied)
    case WriteOrphan(p, now, written, reported) => WriteOrphanEffect(s, p, now, written, reported)
    case Release(p, reason, now, applied) =>
      var claim := s.uploaders[p].claim;
      DropUploader(if applied then Transition(s, claim.id, FailureCommand(claim, reason, now)) else s, p)
    case UploaderCrash(p) => DropUploader(s, p)
  }

  function Next(s: System, e: Event): System
    requires Enabled(s, e)
  {
    if ByWorker(e) then NextWorker(s, e) else if BySweeper(e) then NextSweeper(s, e) else NextUpload(s, e)
  }
}
