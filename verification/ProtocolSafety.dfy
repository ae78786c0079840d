/** The inductive invariant of the upload protocol and its preservation, event by event. */
module ProtocolSafety {
  import opened Base
  import opened Upload
  import opened Reconciliation
  import opened Protocol

  /** No durable asset points at this exact version. */
  predicate Unreferenced(s: System, cipher: Object) {
    forall e :: e in s.assets ==> s.assets[e].cipher != cipher
  }

  predicate LeaseOver(s: System, k: Attempt) { k in s.leases && s.leases[k] <= s.clock }

  predicate UploadInv(s: System, id: nat)
    requires id in s.uploads
  {
    var u := s.uploads[id];
    && u.id == id && ValidIntent(u)
    && (u.state == Uploading ==> KeyOf(u) in s.leases && s.leases[KeyOf(u)] == u.lease.value)
    && (u.state == Accepted ==> u.evidence in s.assets && Holds(s, KeyOf(u), s.assets[u.evidence].cipher))
  }

  /** The version belongs to this attempt, and the attempt's obligation retains it. */
  predicate Holds(s: System, k: Attempt, c: Object) {
    && c in s.puts && s.puts[c].owner == k
    && k in s.obligations && s.obligations[k].state == Retained && s.obligations[k].cipher == c
  }

  predicate Uploads(s: System) {
    && (forall id :: id in s.uploads ==> UploadInv(s, id))
    && (forall i, j :: i in s.uploads && j in s.uploads && s.uploads[i].evidence == s.uploads[j].evidence ==> i == j)
    && (forall k :: k in s.leases ==> k.upload in s.uploads && k.number <= s.uploads[k.upload].attempt)
  }

  /** The accepted object is present: the property the whole protocol exists for. */
  predicate AssetInv(s: System, e: nat)
    requires e in s.assets
  {
    var a := s.assets[e];
    && a.evidence == e && a.cipher in s.inventory && a.cipher in s.puts
    && var k := s.puts[a.cipher].owner;
       k.upload in s.uploads && s.uploads[k.upload].state == Accepted
       && s.uploads[k.upload].attempt == k.number && s.uploads[k.upload].evidence == e
  }

  predicate Assets(s: System) { forall e :: e in s.assets ==> AssetInv(s, e) }

  predicate ObjectInv(s: System, cipher: Object)
    requires cipher in s.puts
  {
    var put := s.puts[cipher];
    && put.owner in s.leases && s.leases[put.owner] <= put.at + MAXIMUM_ATTEMPT_TIMEOUT
    && put.at <= put.modifiedAt + CLOCK_SKEW_ALLOWANCE
  }

  predicate Objects(s: System) {
    && s.inventory <= s.puts.Keys
    && (forall c :: c in s.puts ==> ObjectInv(s, c))
  }

  predicate HasObject(phase: Phase) { phase != Streaming && phase != Failing }

  predicate Early(phase: Phase) { phase == Streaming || phase == Staged }

  /** Phases in which the uploader knows that its obligation was written. */
  predicate Written(phase: Phase) {
    phase == Recorded || phase == Accepting || phase == Discarding(true) || phase == Resolving
  }

  /** The obligation is as it was written: no worker has ever claimed it. */
  predicate Untouched(s: System, k: Attempt) {
    k in s.obligations && s.obligations[k].state == Pending && s.obligations[k].claim == 0
  }

  predicate UploaderInv(s: System, p: nat)
    requires p in s.uploaders
  {
    ClaimInv(s, s.uploaders[p]) && ObjectHeld(s, s.uploaders[p])
  }

  predicate ClaimInv(s: System, u: Uploader) {
    var c := u.claim;
    var k := KeyOf(c);
    && c.id in s.uploads && c.state == Uploading && c.lease.Some? && k in s.leases && s.leases[k] == c.lease.value
    && c.updatedAt <= s.clock && c.lease.value <= c.updatedAt + MAXIMUM_ATTEMPT_TIMEOUT
    && c.evidence == s.uploads[c.id].evidence && c.attempt <= s.uploads[c.id].attempt
    && c.version <= s.uploads[c.id].version
    && (c.version == s.uploads[c.id].version ==> c == s.uploads[c.id])
    && !(s.uploads[c.id].state == Accepted && s.uploads[c.id].attempt == c.attempt)
  }

  /** What an uploader may rely on about its object and its obligation. */
  predicate ObjectHeld(s: System, u: Uploader) {
    var k := KeyOf(u.claim);
    && (HasObject(u.phase) ==>
        u.asset.cipher in s.puts && s.puts[u.asset.cipher].owner == k && u.asset.evidence == u.claim.evidence)
    && (Early(u.phase) ==> k !in s.obligations)
    && (Written(u.phase) ==> k in s.obligations && s.obligations[k].cipher == u.asset.cipher)
    && (Written(u.phase) ==> s.obligations[k].createdAt == u.at)
    && (u.phase == Staged || u.phase == Recorded ==> LeaseOver(s, k) || u.asset.cipher in s.inventory)
    && (u.phase == Accepting && Untouched(s, k) ==> u.asset.cipher in s.inventory)
    && (u.phase == Resolving ==> u.asset.cipher !in s.inventory)
  }

  /** The claim is a fence: no two live uploaders hold the same attempt. */
  predicate DistinctAttempts(uploaders: map<nat, Uploader>) {
    forall p, q :: p in uploaders && q in uploaders && KeyOf(uploaders[p].claim) == KeyOf(uploaders[q].claim) ==> p == q
  }

  predicate Uploaders(s: System) {
    && (forall p :: p in s.uploaders ==> UploaderInv(s, p))
    && DistinctAttempts(s.uploaders)
  }

  predicate ObligationInv(s: System, k: Attempt)
    requires k in s.obligations
  {
    var o := s.obligations[k];
    && KeyOfObligation(o) == k && k in s.leases && k.upload in s.uploads && ValidObligation(o) && o.createdAt <= s.clock
    && o.evidence == s.uploads[k.upload].evidence
    && o.cipher in s.puts && s.puts[o.cipher].owner == k
    && (if o.claim == 0 then o.state != Claimed && s.leases[k] <= o.availableAt else LeaseOver(s, k))
    && (o.state == Retained ==> o.evidence in s.assets && s.assets[o.evidence].cipher == o.cipher)
    && (o.state == Deleted ==> o.cipher !in s.inventory)
  }

  predicate Obligations(s: System) { forall k :: k in s.obligations ==> ObligationInv(s, k) }

  /** A worker's copy is a claimed version of the obligation, and the same as the durable one while versions agree. */
  predicate CopyOf(o: Obligation, durable: Obligation) {
    && o.cipher == durable.cipher && o.evidence == durable.evidence && 0 < o.claim <= durable.claim
    && o.version <= durable.version && (o.version == durable.version ==> o == durable)
  }

  predicate WorkerInv(s: System, w: nat)
    requires w in s.workers
  {
    var o := s.workers[w].o;
    var k := KeyOfObligation(o);
    && k in s.obligations && k.upload in s.uploads && LeaseOver(s, k) && CopyOf(o, s.obligations[k])
    && match s.workers[w]
       case Inspecting(_) => true
       case Judging(_, seen) => seen.state == Accepted ==> s.uploads[k.upload] == seen
       case Deleting(_) => Unreferenced(s, o.cipher)
       case Completing(_, verdict) =>
         if verdict == Retained then o.evidence in s.assets && s.assets[o.evidence].cipher == o.cipher
         else verdict == Deleted && o.cipher !in s.inventory
       case Retrying(_) => true
  }

  predicate Workers(s: System) { forall w :: w in s.workers ==> WorkerInv(s, w) }

  /** No acceptance of this version can still commit: an open one finds its obligation deleted. */
  predicate NotPending(s: System, c: Object) {
    forall p :: p in s.uploaders && s.uploaders[p].phase == Accepting && s.uploaders[p].asset.cipher == c ==>
      KeyOf(s.uploaders[p].claim) in s.obligations && s.obligations[KeyOf(s.uploaders[p].claim)].state == Deleted
  }

  /** Past its lease, referenced by nothing, and never to be accepted. */
  predicate Dead(s: System, c: Object) {
    c in s.puts && LeaseOver(s, s.puts[c].owner) && Unreferenced(s, c) && NotPending(s, c)
  }

  predicate Sweepers(s: System) { forall z :: z in s.condemned ==> Dead(s, s.condemned[z]) }

  predicate Inv(s: System) {
    Uploads(s) && Assets(s) && Objects(s) && Uploaders(s) && Obligations(s) && Workers(s) && Sweepers(s)
  }

  // ---- what every event does to the state, as seen by the actors it does not move ----

  predicate UploadEvolves(u: Intent, w: Intent) {
    && w.evidence == u.evidence && u.attempt <= w.attempt && u.version <= w.version
    && (u.version == w.version || u.state == Accepted ==> w == u)
  }

  /** What an obligation protects never changes, its counters only grow, and a resolved one is final. */
  predicate ObligationEvolves(o: Obligation, n: Obligation) {
    && n.cipher == o.cipher && n.evidence == o.evidence && n.createdAt == o.createdAt
    && o.claim <= n.claim && o.version <= n.version && (o.version == n.version ==> n == o)
    && (Resolved(o.state) ==> n == o)
  }

  predicate NoDeleter(s: System, c: Object) {
    forall w :: w in s.workers && s.workers[w].Deleting? ==> s.workers[w].o.cipher != c
  }

  /** A new asset comes from an open acceptance whose obligation is pending and whose object no worker is deleting. */
  predicate AssetArrives(s: System, c: Object) { c in s.puts && NoDeleter(s, c) && !NotPending(s, c) }

  /** An acceptance that opens does so while its lease runs. */
  predicate AcceptanceOpens(s: System, t: System, p: nat)
    requires p in t.uploaders
  {
    var u := t.uploaders[p];
    && u.asset.cipher in s.puts && s.puts[u.asset.cipher].owner == KeyOf(u.claim)
    && !LeaseOver(s, KeyOf(u.claim)) && t.clock == s.clock && t.leases == s.leases
  }

  predicate Grows<K, V(==)>(a: map<K, V>, b: map<K, V>) { forall k :: k in a ==> k in b && b[k] == a[k] }

  predicate UploadsEvolve(a: map<nat, Intent>, b: map<nat, Intent>) {
    forall id :: id in a ==> id in b && UploadEvolves(a[id], b[id])
  }

  predicate ObligationsEvolve(a: map<Attempt, Obligation>, b: map<Attempt, Obligation>) {
    forall k :: k in a ==> k in b && ObligationEvolves(a[k], b[k])
  }

  /** A version once stored and deleted never returns. */
  predicate NothingReturns(s: System, inventory: set<Object>) {
    forall c :: c in inventory ==> c in s.inventory || c !in s.puts
  }

  predicate AssetsArrive(s: System, assets: map<nat, Asset>) {
    forall e :: e in assets && e !in s.assets ==> AssetArrives(s, assets[e].cipher)
  }

  predicate AcceptancesEvolve(s: System, t: System) {
    forall p :: p in t.uploaders && t.uploaders[p].phase == Accepting ==>
      (p in s.uploaders && s.uploaders[p] == t.uploaders[p]) || AcceptanceOpens(s, t, p)
  }

  predicate Evolves(s: System, t: System) {
    && s.clock <= t.clock && Grows(s.leases, t.leases) && Grows(s.puts, t.puts) && Grows(s.assets, t.assets)
    && UploadsEvolve(s.uploads, t.uploads) && ObligationsEvolve(s.obligations, t.obligations)
    && NothingReturns(s, t.inventory) && AssetsArrive(s, t.assets) && AcceptancesEvolve(s, t)
  }

  lemma DeadStaysDead(s: System, t: System, c: Object)
    requires Evolves(s, t) && Dead(s, c)
    ensures Dead(t, c)
  {
  }

  lemma UnreferencedStable(s: System, t: System, w: nat)
    requires Evolves(s, t) && w in s.workers && s.workers[w].Deleting? && Unreferenced(s, s.workers[w].o.cipher)
    ensures Unreferenced(t, s.workers[w].o.cipher)
  {
  }

  lemma WorkerStable(s: System, t: System, w: nat)
    requires Obligations(s) && Evolves(s, t)
    requires w in s.workers && w in t.workers && t.workers[w] == s.workers[w] && WorkerInv(s, w)
    ensures WorkerInv(t, w)
  {
    if s.workers[w].Deleting? { UnreferencedStable(s, t, w); }
  }

  lemma ObligationStable(s: System, t: System, k: Attempt)
    requires Evolves(s, t) && k in s.obligations && ObligationInv(s, k)
    requires k in t.obligations && t.obligations[k] == s.obligations[k]
    ensures ObligationInv(t, k)
  {
  }

  lemma AssetsStable(s: System, t: System)
    requires Evolves(s, t) && Assets(s)
    requires forall c :: c in s.inventory && c !in t.inventory ==> Unreferenced(s, c)
    requires forall e :: e in t.assets ==> e in s.assets || AssetInv(t, e)
    ensures Assets(t)
  {
  }

  /** Nobody waits for this version: its lease is over, and no open acceptance of it finds its obligation untouched. */
  predicate NotAwaited(s: System, c: Object) {
    && c in s.puts && LeaseOver(s, s.puts[c].owner)
    && forall p :: p in s.uploaders && s.uploaders[p].phase == Accepting && s.uploaders[p].asset.cipher == c ==>
         !Untouched(s, KeyOf(s.uploaders[p].claim))
  }

  lemma ClaimStable(s: System, t: System, u: Uploader)
    requires Evolves(s, t) && ClaimInv(s, u)
    requires var c := u.claim;
             t.uploads[c.id] == s.uploads[c.id]
               || !(t.uploads[c.id].state == Accepted && t.uploads[c.id].attempt == c.attempt)
    ensures ClaimInv(t, u)
  {
  }

  lemma UntouchedBefore(s: System, t: System, k: Attempt)
    requires Evolves(s, t) && k in s.obligations && ObligationInv(s, k) && Untouched(t, k)
    ensures Untouched(s, k)
  {
  }

  lemma HeldStable(s: System, t: System, p: nat)
    requires Evolves(s, t) && Obligations(s) && p in s.uploaders && ObjectHeld(s, s.uploaders[p])
    requires var u := s.uploaders[p];
             && (Early(u.phase) ==> KeyOf(u.claim) !in t.obligations)
             && (u.asset.cipher in s.inventory && u.asset.cipher !in t.inventory && HasObject(u.phase) ==>
                 NotAwaited(s, u.asset.cipher))
    ensures ObjectHeld(t, s.uploaders[p])
  {
    var u := s.uploaders[p];
    var k := KeyOf(u.claim);
    if u.phase == Accepting && Untouched(t, k) { UntouchedBefore(s, t, k); }
  }

  lemma UploaderStable(s: System, t: System, p: nat)
    requires Evolves(s, t) && Obligations(s)
    requires p in s.uploaders && p in t.uploaders && t.uploaders[p] == s.uploaders[p] && UploaderInv(s, p)
    requires var u := s.uploaders[p];
             && (Early(u.phase) ==> KeyOf(u.claim) !in t.obligations)
             && (u.asset.cipher in s.inventory && u.asset.cipher !in t.inventory && HasObject(u.phase) ==>
                 NotAwaited(s, u.asset.cipher))
    requires var c := s.uploaders[p].claim;
             t.uploads[c.id] == s.uploads[c.id]
               || !(t.uploads[c.id].state == Accepted && t.uploads[c.id].attempt == c.attempt)
    ensures UploaderInv(t, p)
  {
    hide ClaimInv, ObjectHeld;
    ClaimStable(s, t, s.uploaders[p]);
    HeldStable(s, t, p);
  }

  predicate UploadersMove(s: System, t: System) {
    forall p :: p in t.uploaders ==>
      && p in s.uploaders && t.uploaders[p].claim == s.uploaders[p].claim
      && (t.uploaders[p] == s.uploaders[p] || UploaderInv(t, p))
  }

  predicate ObligationsMove(s: System, t: System) {
    forall k :: k in t.obligations ==>
      (k in s.obligations && t.obligations[k] == s.obligations[k]) || ObligationInv(t, k)
  }

  predicate WorkersMove(s: System, t: System) {
    forall w :: w in t.workers ==> (w in s.workers && t.workers[w] == s.workers[w]) || WorkerInv(t, w)
  }

  predicate SweepersMove(s: System, t: System) {
    forall z :: z in t.condemned ==> (z in s.condemned && t.condemned[z] == s.condemned[z]) || Dead(t, t.condemned[z])
  }

  /** New obligations belong to uploaders past their early phases. */
  predicate NoneEarly(s: System, t: System) {
    forall p :: p in t.uploaders && Early(t.uploaders[p].phase) ==>
      KeyOf(t.uploaders[p].claim) in t.obligations ==> KeyOf(t.uploaders[p].claim) in s.obligations
  }

  lemma UploadersStable(s: System, t: System)
    requires Evolves(s, t) && Uploaders(s) && Obligations(s) && UploadersMove(s, t) && NoneEarly(s, t)
    requires forall c :: c in s.inventory && c !in t.inventory ==> NotAwaited(s, c)
    requires forall id :: id in s.uploads ==> t.uploads[id] == s.uploads[id] || t.uploads[id].state != Accepted
    ensures Uploaders(t)
  {
    hide NotAwaited, ClaimInv, ObjectHeld;
    forall p | p in t.uploaders ensures UploaderInv(t, p) {
      if t.uploaders[p] == s.uploaders[p] {
        assert UploaderInv(s, p);
        EarlyIsNew(s, p);
        ClaimKnown(s, p);
        hide UploaderInv, Evolves, Obligations;
        UploaderStable(s, t, p);
      }
    }
  }

  lemma EarlyIsNew(s: System, p: nat)
    requires p in s.uploaders && UploaderInv(s, p)
    ensures Early(s.uploaders[p].phase) ==> KeyOf(s.uploaders[p].claim) !in s.obligations
  {
    hide ClaimInv;
  }

  lemma ClaimKnown(s: System, p: nat)
    requires p in s.uploaders && UploaderInv(s, p)
    ensures s.uploaders[p].claim.id in s.uploads
  {
    hide ObjectHeld;
  }

  lemma WorkersStable(s: System, t: System)
    requires Obligations(s) && Evolves(s, t) && Workers(s) && WorkersMove(s, t)
    ensures Workers(t)
  {
    forall w | w in t.workers ensures WorkerInv(t, w) {
      if w in s.workers && t.workers[w] == s.workers[w] { WorkerStable(s, t, w); }
    }
  }

  lemma SweepersStable(s: System, t: System)
    requires Evolves(s, t) && Sweepers(s) && SweepersMove(s, t)
    ensures Sweepers(t)
  {
    forall z | z in t.condemned ensures Dead(t, t.condemned[z]) {
      if z in s.condemned && t.condemned[z] == s.condemned[z] { DeadStaysDead(s, t, t.condemned[z]); }
    }
  }

  lemma ObligationsStable(s: System, t: System)
    requires Evolves(s, t) && Obligations(s) && ObligationsMove(s, t)
    ensures Obligations(t)
  {
    forall k | k in t.obligations ensures ObligationInv(t, k) {
      if k in s.obligations && t.obligations[k] == s.obligations[k] { ObligationStable(s, t, k); }
    }
  }

  lemma UploadsStable(s: System, t: System)
    requires Evolves(s, t) && Uploads(s) && t.uploads == s.uploads && t.leases == s.leases
    ensures Uploads(t)
  {
  }

  /** Events that leave uploads, assets, leases and the object store alone. */
  predicate Quiet(s: System, t: System) {
    && t.uploads == s.uploads && t.assets == s.assets && t.leases == s.leases && t.puts == s.puts
    && t.inventory == s.inventory && s.clock <= t.clock && AcceptancesEvolve(s, t)
    && ObligationsEvolve(s.obligations, t.obligations)
  }

  lemma QuietEvolves(s: System, t: System)
    requires Quiet(s, t)
    ensures Evolves(s, t)
  {
  }

  lemma ObjectsStable(s: System, t: System)
    requires Objects(s) && t.puts == s.puts && t.inventory <= s.inventory
    requires forall k :: k in s.leases ==> k in t.leases && t.leases[k] == s.leases[k]
    ensures Objects(t)
  {
  }

  lemma QuietKeeps(s: System, t: System)
    requires Inv(s) && Quiet(s, t) && NoneEarly(s, t)
    requires UploadersMove(s, t) && ObligationsMove(s, t) && WorkersMove(s, t) && SweepersMove(s, t)
    ensures Inv(t)
  {
    hide Uploads, Assets, Objects, Uploaders, Obligations, Workers, Sweepers;
    hide Evolves, UploadersMove, ObligationsMove, WorkersMove, SweepersMove, NoneEarly;
    QuietEvolves(s, t);
    UploadsStable(s, t);
    ObjectsStable(s, t);
    AssetsStable(s, t);
    UploadersStable(s, t);
    ObligationsStable(s, t);
    WorkersStable(s, t);
    SweepersStable(s, t);
  }

  // ---- each event ----

  lemma TickKeeps(s: System, time: Time)
    requires Inv(s) && s.clock <= time
    ensures Inv(s.(clock := time))
  {
    hide Inv, UploaderInv, ObligationInv, WorkerInv, Dead;
    QuietKeeps(s, s.(clock := time));
  }

  /** Events that move one upload and perhaps its uploader, but no object. */
  lemma Assemble(s: System, t: System)
    requires Inv(s) && Evolves(s, t) && Uploads(t) && Assets(t) && Objects(t) && Uploaders(t)
    requires ObligationsMove(s, t) && t.workers == s.workers && t.condemned == s.condemned
    ensures Inv(t)
  {
    hide Uploads, Assets, Objects, Uploaders, Obligations, Workers, Sweepers, Evolves, ObligationsMove, WorkerInv, Dead;
    ObligationsStable(s, t);
    WorkersStable(s, t);
    SweepersStable(s, t);
  }

  lemma IssueUploads(s: System, u: Intent)
    requires Uploads(s) && CanIssue(s, u)
    ensures Uploads(s.(uploads := s.uploads[u.id := u]))
  {
    var t := s.(uploads := s.uploads[u.id := u]);
    forall id | id in t.uploads ensures UploadInv(t, id) {
      if id != u.id { assert UploadInv(s, id); }
    }
  }

  lemma IssueEvolves(s: System, u: Intent)
    requires u.id !in s.uploads
    ensures Evolves(s, s.(uploads := s.uploads[u.id := u]))
  {
  }

  /** Only uploads move, and none becomes accepted. */
  lemma UploadMoves(s: System, t: System)
    requires Inv(s) && t == s.(uploads := t.uploads) && Evolves(s, t) && Uploads(t)
    requires forall id :: id in s.uploads ==> t.uploads[id] == s.uploads[id] || t.uploads[id].state != Accepted
    ensures Inv(t)
  {
    hide Uploads, Assets, Objects, Uploaders, Obligations, Workers, Sweepers, Evolves, UploaderInv, ObligationInv;
    ObjectsStable(s, t);
    AssetsStable(s, t);
    UploadersStable(s, t);
    Assemble(s, t);
  }

  lemma IssueKeeps(s: System, u: Intent)
    requires Inv(s) && CanIssue(s, u)
    ensures Inv(s.(uploads := s.uploads[u.id := u]))
  {
    IssueUploads(s, u);
    IssueEvolves(s, u);
    UploadMoves(s, s.(uploads := s.uploads[u.id := u]));
  }

  lemma UploadReplaced(s: System, t: System, id: nat)
    requires Uploads(s) && Evolves(s, t) && id in s.uploads && id in t.uploads
    requires t.uploads == s.uploads[id := t.uploads[id]] && UploadInv(t, id)
    requires forall k :: k in t.leases ==> k in s.leases || k == KeyOf(t.uploads[id])
    ensures Uploads(t)
  {
    forall i | i in t.uploads ensures UploadInv(t, i) {
      if i != id {
        assert UploadInv(s, i);
        hide Evolves;
        UploadStays(s, t, i);
      }
    }
    assert UploadEvolves(s.uploads[id], t.uploads[id]) && t.uploads[id].id == id;
    hide UploadInv, Evolves;
    ReplacedFrame(s, t, id);
  }

  lemma ReplacedFrame(s: System, t: System, id: nat)
    requires Uploads(s) && id in s.uploads && id in t.uploads && t.uploads == s.uploads[id := t.uploads[id]]
    requires UploadEvolves(s.uploads[id], t.uploads[id]) && t.uploads[id].id == id
    requires forall k :: k in t.leases ==> k in s.leases || k == KeyOf(t.uploads[id])
    ensures forall i, j :: i in t.uploads && j in t.uploads && t.uploads[i].evidence == t.uploads[j].evidence ==> i == j
    ensures forall k :: k in t.leases ==> k.upload in t.uploads && k.number <= t.uploads[k.upload].attempt
  {
    hide UploadInv;
  }

  lemma UploadStays(s: System, t: System, i: nat)
    requires Evolves(s, t) && i in s.uploads && UploadInv(s, i) && i in t.uploads && t.uploads[i] == s.uploads[i]
    ensures UploadInv(t, i)
  {
  }

  lemma TransitionEvolves(s: System, id: nat, c: Command)
    requires CanApply(s, id, c) && ValidIntent(s.uploads[id])
    ensures Evolves(s, Transition(s, id, c))
  {
    TransitionSound(s.uploads[id], c);
  }

  /** A lifecycle step that neither claims nor accepts. */
  lemma TransitionUploads(s: System, id: nat, c: Command)
    requires Uploads(s) && CanApply(s, id, c) && !c.Claim? && !c.AcceptAsset?
    ensures Uploads(Transition(s, id, c)) && Transition(s, id, c).uploads[id].state != Accepted
  {
    var t := Transition(s, id, c);
    assert UploadInv(s, id);
    TransitionEvolves(s, id, c);
    TransitionSound(s.uploads[id], c);
    UploadReplaced(s, t, id);
  }

  lemma UploadOf(s: System, id: nat)
    requires Inv(s) && id in s.uploads
    ensures UploadInv(s, id)
  {
  }

  lemma TransitionKeeps(s: System, id: nat, c: Command)
    requires Inv(s) && CanApply(s, id, c) && !c.Claim? && !c.AcceptAsset?
    ensures Inv(Transition(s, id, c))
  {
    UploadOf(s, id);
    TransitionUploads(s, id, c);
    assert ValidIntent(s.uploads[id]);
    hide Inv, Evolves, Uploads, UploadInv, ValidIntent, Apply, CanApply;
    TransitionEvolves(s, id, c);
    TransitionShape(s, id, c);
    hide Transition;
    UploadMoves(s, Transition(s, id, c));
  }

  lemma TransitionShape(s: System, id: nat, c: Command)
    requires CanApply(s, id, c) && Transition(s, id, c).uploads[id].state != Accepted
    ensures var t := Transition(s, id, c);
            && t == s.(uploads := t.uploads)
            && forall i :: i in s.uploads ==>
                 i in t.uploads && (t.uploads[i] == s.uploads[i] || t.uploads[i].state != Accepted)
  {
    hide Apply;
  }

  /** What a successful claim leaves behind: the fields the rest of the proof needs. */
  predicate ClaimShape(s: System, t: System, p: nat, id: nat, now: Time) {
    && id in s.uploads && id in t.uploads
    && var u := t.uploads[id];
       && ValidIntent(u) && u.state == Uploading && u.id == id && u.attempt == s.uploads[id].attempt + 1
       && u.version == s.uploads[id].version + 1 && u.evidence == s.uploads[id].evidence
           && u.updatedAt == now <= s.clock
       && s.uploads[id].state != Accepted && u.lease.value <= now + MAXIMUM_ATTEMPT_TIMEOUT
       && t == s.(uploads := s.uploads[id := u], leases := s.leases[KeyOf(u) := u.lease.value],
                  uploaders := s.uploaders[p := Uploader(u, Streaming, NO_ASSET, now)])
       && KeyOf(u) !in s.leases
  }

  lemma ClaimHasShape(s: System, p: nat, id: nat, v: nat, now: Time)
    requires Uploads(s) && CanApply(s, id, Command.Claim(v, now))
    ensures ClaimShape(s, ClaimEffect(s, p, id, v, now), p, id, now)
  {
    assert UploadInv(s, id);
    TransitionSound(s.uploads[id], Command.Claim(v, now));
  }

  lemma ClaimStep(s: System, t: System, p: nat, id: nat, now: Time)
    requires Uploads(s) && ClaimShape(s, t, p, id, now)
    ensures Evolves(s, t)
  {
    assert UploadInv(s, id);
    hide Uploads, Evolves;
    NewcomerEvolves(s, t, p, id, t.uploads[id]);
  }

  lemma NewcomerEvolves(s: System, t: System, p: nat, id: nat, u: Intent)
    requires id in s.uploads && UploadEvolves(s.uploads[id], u) && KeyOf(u) !in s.leases && u.lease.Some?
    requires p in t.uploaders && t.uploaders[p].phase == Streaming
    requires t == s.(uploads := s.uploads[id := u], leases := s.leases[KeyOf(u) := u.lease.value],
                     uploaders := s.uploaders[p := t.uploaders[p]])
    ensures Evolves(s, t)
  {
  }

  lemma ClaimEvolves(s: System, t: System, p: nat, id: nat, now: Time)
    requires Uploads(s) && ClaimShape(s, t, p, id, now)
    ensures Evolves(s, t) && Uploads(t)
  {
    ClaimStep(s, t, p, id, now);
    hide Evolves, Uploads;
    UploadReplaced(s, t, id);
  }

  lemma ClaimSparesUploader(s: System, t: System, p: nat, id: nat, now: Time, q: nat)
    requires Uploads(s) && Obligations(s) && q in s.uploaders && UploaderInv(s, q) && p != q
    requires ClaimShape(s, t, p, id, now) && Evolves(s, t)
    ensures KeyOf(s.uploaders[q].claim) != KeyOf(t.uploads[id]) && UploaderInv(t, q)
  {
    UploaderStable(s, t, q);
  }

  lemma AddDistinct(uploaders: map<nat, Uploader>, p: nat, u: Uploader)
    requires DistinctAttempts(uploaders)
    requires forall q :: q in uploaders && q != p ==> KeyOf(uploaders[q].claim) != KeyOf(u.claim)
    ensures DistinctAttempts(uploaders[p := u])
  {
  }

  lemma ClaimNewcomer(s: System, t: System, p: nat, id: nat, now: Time)
    requires Obligations(s) && ClaimShape(s, t, p, id, now)
    ensures p in t.uploaders && UploaderInv(t, p)
  {
    assert forall k :: k in s.obligations ==> ObligationInv(s, k);
  }

  lemma ClaimUploaders(s: System, t: System, p: nat, id: nat, now: Time)
    requires Uploads(s) && Obligations(s) && Uploaders(s) && p !in s.uploaders && ClaimShape(s, t, p, id, now)
    requires Evolves(s, t)
    ensures Uploaders(t)
  {
    forall q | q in s.uploaders
      ensures KeyOf(s.uploaders[q].claim) != KeyOf(t.uploads[id]) && UploaderInv(t, q)
    {
      ClaimSparesUploader(s, t, p, id, now, q);
    }
    ClaimNewcomer(s, t, p, id, now);
    AddDistinct(s.uploaders, p, t.uploaders[p]);
    assert t.uploaders == s.uploaders[p := t.uploaders[p]];
  }

  lemma ClaimKeeps(s: System, p: nat, id: nat, v: nat, now: Time)
    requires Inv(s) && p !in s.uploaders && CanApply(s, id, Command.Claim(v, now))
    ensures Inv(ClaimEffect(s, p, id, v, now))
  {
    var t := ClaimEffect(s, p, id, v, now);
    ClaimHasShape(s, p, id, v, now);
    hide ClaimEffect;
    ClaimEvolves(s, t, p, id, now);
    ClaimUploaders(s, t, p, id, now);
    ClaimFrame(s, t, p, id, now);
    hide ClaimShape, Uploads, Assets, Objects, Uploaders, Obligations, Workers, Sweepers, Evolves, ObligationInv;
    ObjectsStable(s, t);
    AssetsStable(s, t);
    Assemble(s, t);
  }

  lemma ClaimFrame(s: System, t: System, p: nat, id: nat, now: Time)
    requires ClaimShape(s, t, p, id, now)
    ensures t.assets == s.assets && t.inventory == s.inventory && t.puts == s.puts && t.obligations == s.obligations
    ensures t.workers == s.workers && t.condemned == s.condemned && Grows(s.leases, t.leases)
  {
    hide ValidIntent;
  }

  lemma StoreEvolves(s: System, p: nat, asset: Asset, modifiedAt: Time, after: Phase)
    requires CanStore(s, p, asset, modifiedAt, after)
    ensures Evolves(s, StoreEffect(s, p, asset, modifiedAt, after))
  {
  }

  lemma StoreObjects(s: System, p: nat, asset: Asset, modifiedAt: Time, after: Phase)
    requires Objects(s) && CanStore(s, p, asset, modifiedAt, after) && UploaderInv(s, p)
    ensures Objects(StoreEffect(s, p, asset, modifiedAt, after))
    ensures UploaderInv(StoreEffect(s, p, asset, modifiedAt, after), p)
  {
  }

  lemma StoreUploaders(s: System, p: nat, asset: Asset, modifiedAt: Time, after: Phase)
    requires Uploads(s) && Uploaders(s) && Obligations(s) && CanStore(s, p, asset, modifiedAt, after)
    requires UploaderInv(StoreEffect(s, p, asset, modifiedAt, after), p)
    ensures Uploaders(StoreEffect(s, p, asset, modifiedAt, after))
  {
    hide Evolves, UploadInv, UploaderInv;
    StoreEvolves(s, p, asset, modifiedAt, after);
    StoreFrame(s, p, asset, modifiedAt, after);
    hide StoreEffect, CanStore, UploadersMove, Uploaders, Uploads, Obligations, NoneEarly;
    UploadersStable(s, StoreEffect(s, p, asset, modifiedAt, after));
  }

  lemma StoreFrame(s: System, p: nat, asset: Asset, modifiedAt: Time, after: Phase)
    requires p in s.uploaders && UploaderInv(StoreEffect(s, p, asset, modifiedAt, after), p)
    ensures var t := StoreEffect(s, p, asset, modifiedAt, after);
        UploadersMove(s, t) && NoneEarly(s, t) && t.uploads == s.uploads && s.inventory <= t.inventory
  {
    hide UploaderInv;
  }

  lemma StoreKeeps(s: System, p: nat, asset: Asset, modifiedAt: Time, after: Phase)
    requires Inv(s) && CanStore(s, p, asset, modifiedAt, after)
    ensures Inv(StoreEffect(s, p, asset, modifiedAt, after))
  {
    var t := StoreEffect(s, p, asset, modifiedAt, after);
    UploaderOf(s, p);
    hide Uploads, Assets, Objects, Uploaders, Obligations, Workers, Sweepers, Evolves, UploaderInv, ObligationInv;
    StoreEvolves(s, p, asset, modifiedAt, after);
    StoreObjects(s, p, asset, modifiedAt, after);
    StoreUploaders(s, p, asset, modifiedAt, after);
    hide CanStore;
    UploadsStable(s, t);
    AssetsStable(s, t);
    Assemble(s, t);
  }

  lemma UploaderMoves(s: System, t: System)
    requires Inv(s) && t == s.(uploaders := t.uploaders) && UploadersMove(s, t) && AcceptancesEvolve(s, t)
    requires NoneEarly(s, t)
    ensures Inv(t)
  {
    hide Inv, UploaderInv, ObligationInv, WorkerInv, Dead;
    QuietKeeps(s, t);
  }

  lemma WorkerMoves(s: System, t: System)
    requires Inv(s) && t == s.(workers := t.workers) && WorkersMove(s, t)
    ensures Inv(t)
  {
    hide Inv, UploaderInv, ObligationInv, WorkerInv, Dead;
    QuietKeeps(s, t);
  }

  lemma UploaderStep(s: System, p: nat, u: Uploader)
    requires Inv(s) && p in s.uploaders && u.claim == s.uploaders[p].claim && UploaderInv(SetUploader(s, p, u), p)
    requires u.phase == Accepting ==> AcceptanceOpens(s, SetUploader(s, p, u), p)
    ensures Inv(SetUploader(s, p, u))
  {
    hide Inv, UploaderInv, AcceptanceOpens;
    UploaderMoves(s, SetUploader(s, p, u));
  }

  lemma WorkerStep(s: System, w: nat, worker: Worker)
    requires Inv(s) && WorkerInv(SetWorker(s, w, worker), w)
    ensures Inv(SetWorker(s, w, worker))
  {
    hide Inv, WorkerInv;
    WorkerMoves(s, SetWorker(s, w, worker));
  }

  /** Which moves an uploader's own invariant allows. */
  lemma UploaderCanMove(s: System, p: nat, u: Uploader)
    requires p in s.uploaders && UploaderInv(s, p) && u.claim == s.uploaders[p].claim && !Early(u.phase)
    requires u.phase != Recorded && u.phase != Accepting
    requires HasObject(u.phase) ==> HasObject(s.uploaders[p].phase) && u.asset == s.uploaders[p].asset
    requires Written(u.phase) ==> Written(s.uploaders[p].phase) && u.at == s.uploaders[p].at
    requires u.phase == Resolving ==> u.asset.cipher !in s.inventory
    ensures UploaderInv(SetUploader(s, p, u), p)
  {
    ClaimSame(s, SetUploader(s, p, u), u);
  }

  lemma ClaimSame(s: System, t: System, u: Uploader)
    requires ClaimInv(s, Uploader(u.claim, Failing, NO_ASSET, 0)) && t.uploads == s.uploads && t.leases == s.leases
    requires t.clock == s.clock
    ensures ClaimInv(t, u)
  {
  }

  lemma ObligationMoves(s: System, k: Attempt, o: Obligation)
    requires Inv(s) && (k in s.obligations ==> ObligationEvolves(s.obligations[k], o))
    requires NoneEarly(s, SetObligation(s, k, o))
    requires ObligationInv(SetObligation(s, k, o), k)
    ensures Inv(SetObligation(s, k, o))
  {
    hide Inv, UploaderInv, ObligationInv, WorkerInv, Dead;
    QuietKeeps(s, SetObligation(s, k, o));
  }

  lemma WriteMoves(s: System, p: nat, now: Time, written: bool)
    requires Inv(s) && p in s.uploaders && HasObject(s.uploaders[p].phase) && !Early(s.uploaders[p].phase)
    requires now <= s.clock
    requires written ==> ForObject(s.uploaders[p].claim, s.uploaders[p].asset.cipher, now).Some?
                         && KeyOf(s.uploaders[p].claim) !in s.obligations
    ensures Inv(AddObligation(s, s.uploaders[p], now, written))
  {
    if written {
      var u := s.uploaders[p];
      assert UploaderInv(s, p);
      WriteObligation(s, u, now);
      OnlyOneEarly(s, p, ForObject(u.claim, u.asset.cipher, now).value);
      hide Inv;
      ObligationMoves(s, KeyOf(u.claim), ForObject(u.claim, u.asset.cipher, now).value);
    }
  }

  lemma WriteObligation(s: System, u: Uploader, now: Time)
    requires ClaimInv(s, u) && ObjectHeld(s, u) && HasObject(u.phase) && now <= s.clock
    requires ForObject(u.claim, u.asset.cipher, now).Some?
    ensures ObligationInv(SetObligation(s, KeyOf(u.claim), ForObject(u.claim, u.asset.cipher, now).value),
        KeyOf(u.claim))
  {
  }

  /** No other uploader works on the attempt whose obligation is written. */
  lemma OnlyOneEarly(s: System, p: nat, o: Obligation)
    requires Uploaders(s) && p in s.uploaders && !Early(s.uploaders[p].phase)
    ensures NoneEarly(s, SetObligation(s, KeyOf(s.uploaders[p].claim), o))
  {
  }

  /** The uploader after its write: it has the object it staged and, if told so, the obligation it wrote. */
  lemma WriterHolds(s: System, t: System, p: nat, now: Time, written: bool, reported: bool)
    requires At(s, p, Staged) && UploaderInv(s, p) && CanWrite(s, s.uploaders[p], now, written, reported)
    requires t == WriteEffect(s, p, now, written, reported)
    ensures UploaderInv(t, p)
  {
    ClaimSame(s, t, t.uploaders[p]);
  }

  lemma WriteKeeps(s: System, p: nat, now: Time, written: bool, reported: bool)
    requires Inv(s) && At(s, p, Staged) && CanWrite(s, s.uploaders[p], now, written, reported)
    ensures Inv(WriteEffect(s, p, now, written, reported))
  {
    hide Inv;
    UploaderOf(s, p);
    WriterHolds(s, WriteEffect(s, p, now, written, reported), p, now, written, reported);
    hide UploaderInv, ForObject;
    PhaseKeeps(s, p, Discarding(false));
    var s1 := WithPhase(s, p, Discarding(false));
    WriteMoves(s1, p, now, written);
    var s2 := AddObligation(s1, s1.uploaders[p], now, written);
    var u := s.uploaders[p].(at := now, phase := if reported then Recorded else Discarding(false));
    assert WriteEffect(s, p, now, written, reported) == SetUploader(s2, p, u);
    UploaderStep(s2, p, u);
  }

  lemma UploaderOf(s: System, p: nat)
    requires Inv(s) && p in s.uploaders
    ensures UploaderInv(s, p)
  {
  }

  lemma WorkerOf(s: System, w: nat)
    requires Inv(s) && w in s.workers
    ensures WorkerInv(s, w) && ObligationInv(s, KeyOfObligation(s.workers[w].o))
  {
  }

  lemma PhaseKeeps(s: System, p: nat, phase: Phase)
    requires Inv(s) && p in s.uploaders
    requires phase != Failing ==> (phase.Discarding? || phase == RecordingOrphan) && HasObject(s.uploaders[p].phase)
    requires phase == Discarding(true) ==> Written(s.uploaders[p].phase)
    ensures Inv(WithPhase(s, p, phase))
  {
    hide Inv;
    UploaderOf(s, p);
    UploaderCanMove(s, p, s.uploaders[p].(phase := phase));
    hide UploaderInv;
    UploaderStep(s, p, s.uploaders[p].(phase := phase));
  }

  lemma WriteOrphanKeeps(s: System, p: nat, now: Time, written: bool, reported: bool)
    requires Inv(s) && At(s, p, RecordingOrphan) && CanWrite(s, s.uploaders[p], now, written, reported)
    ensures Inv(WriteOrphanEffect(s, p, now, written, reported))
  {
    WriteMoves(s, p, now, written);
    var s1 := AddObligation(s, s.uploaders[p], now, written);
    if reported { PhaseKeeps(s1, p, Failing); } else { DropUploaderKeeps(s1, p); }
  }

  lemma DropUploaderKeeps(s: System, p: nat)
    requires Inv(s)
    ensures Inv(DropUploader(s, p))
  {
    hide Inv, UploaderInv, AcceptanceOpens;
    UploaderMoves(s, DropUploader(s, p));
  }

  // ---- acceptance ----

  lemma LockKeeps(s: System, p: nat, bytes: nat)
    requires Inv(s) && At(s, p, Recorded) && CanLock(s, s.uploaders[p], bytes)
    ensures Inv(WithPhase(s, p, Accepting))
  {
    hide Inv;
    UploaderOf(s, p);
    LockInLease(s, p, bytes);
    LockHolds(s, p);
    hide UploaderInv, AcceptanceOpens, CanLock;
    UploaderStep(s, p, s.uploaders[p].(phase := Accepting));
  }

  lemma LockHolds(s: System, p: nat)
    requires At(s, p, Recorded) && UploaderInv(s, p) && !LeaseOver(s, KeyOf(s.uploaders[p].claim))
    ensures UploaderInv(WithPhase(s, p, Accepting), p)
  {
    ClaimSame(s, WithPhase(s, p, Accepting), s.uploaders[p].(phase := Accepting));
  }

  lemma LockInLease(s: System, p: nat, bytes: nat)
    requires At(s, p, Recorded) && UploaderInv(s, p) && CanLock(s, s.uploaders[p], bytes)
    ensures !LeaseOver(s, KeyOf(s.uploaders[p].claim))
    ensures AcceptanceOpens(s, WithPhase(s, p, Accepting), p)
  {
  }

  /** The object is stored and no worker is about to delete it. */
  predicate Safe(s: System, p: nat) {
    p in s.uploaders && s.uploaders[p].asset.cipher in s.inventory && NoDeleter(s, s.uploaders[p].asset.cipher)
  }

  predicate CommitShape(s: System, u: Uploader) {
    var k := KeyOf(u.claim);
    && u.claim.id in s.uploads && s.uploads[u.claim.id] == u.claim && u.claim.state == Uploading
    && u.asset.cipher in s.inventory && u.asset.cipher in s.puts && s.puts[u.asset.cipher].owner == k
    && u.asset.evidence == u.claim.evidence && u.claim.evidence !in s.assets
    && k in s.obligations && s.obligations[k].cipher == u.asset.cipher && s.obligations[k].createdAt == u.at
    && s.obligations[k].state == Pending && NoDeleter(s, u.asset.cipher)
  }

  /** The acceptance hits exactly the claimed record. */
  lemma CommitHitsClaim(s: System, p: nat, bytes: nat)
    requires Inv(s) && At(s, p, Accepting) && CanCommit(s, s.uploaders[p], bytes) && Safe(s, p)
    ensures CommitShape(s, s.uploaders[p])
  {
    assert UploaderInv(s, p);
  }

  lemma CommitArrives(s: System, p: nat)
    requires At(s, p, Accepting) && CommitShape(s, s.uploaders[p])
    ensures !NotPending(s, s.uploaders[p].asset.cipher)
  {
  }

  lemma ObligationUpdated(a: map<Attempt, Obligation>, k: Attempt, o: Obligation)
    requires k in a && ObligationEvolves(a[k], o)
    ensures ObligationsEvolve(a, a[k := o])
  {
  }

  lemma UploadUpdated(a: map<nat, Intent>, id: nat, u: Intent)
    requires id in a && UploadEvolves(a[id], u)
    ensures UploadsEvolve(a, a[id := u])
  {
  }

  lemma AssetAdded(s: System, e: nat, a: Asset)
    requires e !in s.assets && AssetArrives(s, a.cipher)
    ensures Grows(s.assets, s.assets[e := a]) && AssetsArrive(s, s.assets[e := a])
  {
  }

  lemma CommitEvolves(s: System, p: nat, bytes: nat)
    requires At(s, p, Accepting) && CanCommit(s, s.uploaders[p], bytes) && CommitShape(s, s.uploaders[p])
    ensures Evolves(s, CommitEffect(s, p, bytes))
  {
    var t := CommitEffect(s, p, bytes);
    var u := s.uploaders[p];
    var k := KeyOf(u.claim);
    CommitArrives(s, p);
    UploadUpdated(s.uploads, u.claim.id, t.uploads[u.claim.id]);
    ObligationUpdated(s.obligations, k, t.obligations[k]);
    AssetAdded(s, u.asset.evidence, u.asset);
    hide NotPending, NoDeleter, UploadsEvolve, ObligationsEvolve, AssetsArrive, CanCommit, CommitShape;
  }

  lemma CommitUploads(s: System, p: nat, bytes: nat)
    requires Uploads(s) && Assets(s) && At(s, p, Accepting) && CanCommit(s, s.uploaders[p], bytes)
    requires CommitShape(s, s.uploaders[p]) && Evolves(s, CommitEffect(s, p, bytes))
    ensures Uploads(CommitEffect(s, p, bytes)) && Assets(CommitEffect(s, p, bytes))
  {
    var u := s.uploaders[p];
    var t := CommitEffect(s, p, bytes);
    assert UploadInv(s, u.claim.id);
    TransitionSound(u.claim, AcceptAsset(u.claim.version, u.claim.attempt, u.asset, bytes, u.at));
    assert UploadInv(t, u.claim.id) && AssetInv(t, u.asset.evidence);
    CommitFrame(s, p, bytes);
    hide Evolves, CommitEffect, ValidIntent, UploadInv, AssetInv, CanCommit;
    UploadReplaced(s, t, u.claim.id);
    AssetsStable(s, t);
  }

  lemma CommitFrame(s: System, p: nat, bytes: nat)
    requires At(s, p, Accepting) && CanCommit(s, s.uploaders[p], bytes)
    ensures var t := CommitEffect(s, p, bytes); var u := s.uploaders[p];
            && u.claim.id in t.uploads && t.uploads == s.uploads[u.claim.id := t.uploads[u.claim.id]]
            && t.leases == s.leases && t.inventory == s.inventory && t.assets == s.assets[u.asset.evidence := u.asset]
  {
  }

  lemma CommitOther(s: System, p: nat, bytes: nat, q: nat)
    requires Obligations(s) && At(s, p, Accepting) && CanCommit(s, s.uploaders[p], bytes)
    requires CommitShape(s, s.uploaders[p]) && Evolves(s, CommitEffect(s, p, bytes))
    requires q in s.uploaders && q != p && UploaderInv(s, q)
    requires KeyOf(s.uploaders[q].claim) != KeyOf(s.uploaders[p].claim)
    ensures UploaderInv(CommitEffect(s, p, bytes), q)
  {
    hide Evolves, Obligations;
    UploaderStable(s, CommitEffect(s, p, bytes), q);
  }

  lemma CommitUploaders(s: System, p: nat, bytes: nat)
    requires Uploaders(s) && Obligations(s) && At(s, p, Accepting) && CanCommit(s, s.uploaders[p], bytes)
    requires CommitShape(s, s.uploaders[p]) && Evolves(s, CommitEffect(s, p, bytes))
    ensures Uploaders(CommitEffect(s, p, bytes))
  {
    forall q | q in s.uploaders - {p} ensures UploaderInv(CommitEffect(s, p, bytes), q) {
      assert UploaderInv(s, q);
      assert KeyOf(s.uploaders[q].claim) != KeyOf(s.uploaders[p].claim);
      CommitOther(s, p, bytes, q);
    }
  }

  lemma CommitObligations(s: System, p: nat, bytes: nat)
    requires Obligations(s) && At(s, p, Accepting) && CanCommit(s, s.uploaders[p], bytes)
    requires CommitShape(s, s.uploaders[p])
    ensures ObligationsMove(s, CommitEffect(s, p, bytes))
  {
    var k := KeyOf(s.uploaders[p].claim);
    assert ObligationInv(s, k);
    assert ObligationInv(CommitEffect(s, p, bytes), k);
  }

  lemma CommitRest(s: System, p: nat, bytes: nat)
    requires Objects(s) && At(s, p, Accepting) && CanCommit(s, s.uploaders[p], bytes)
    ensures var t := CommitEffect(s, p, bytes);
            Objects(t) && t.workers == s.workers && t.condemned == s.condemned
  {
  }

  lemma CommitKeeps(s: System, p: nat, bytes: nat)
    requires Inv(s) && At(s, p, Accepting) && CanCommit(s, s.uploaders[p], bytes) && Safe(s, p)
    ensures Inv(CommitEffect(s, p, bytes))
  {
    var t := CommitEffect(s, p, bytes);
    hide Uploads, Assets, Objects, Uploaders, Obligations, Workers, Sweepers, Evolves, ObligationsMove;
    hide CommitEffect, CommitShape, Safe, CanCommit;
    CommitHitsClaim(s, p, bytes);
    CommitEvolves(s, p, bytes);
    CommitUploads(s, p, bytes);
    CommitUploaders(s, p, bytes);
    CommitObligations(s, p, bytes);
    CommitRest(s, p, bytes);
    Assemble(s, t);
  }

  /** An acceptance that commits before any worker claimed its obligation is safe. */
  lemma UntouchedIsSafe(s: System, p: nat)
    requires Inv(s) && At(s, p, Accepting) && Untouched(s, KeyOf(s.uploaders[p].claim))
    ensures Safe(s, p)
  {
    hide Inv;
    UploaderOf(s, p);
    hide ClaimInv;
    forall w | w in s.workers && s.workers[w].Deleting? ensures s.workers[w].o.cipher != s.uploaders[p].asset.cipher {
      WorkerTouches(s, w);
    }
  }

  /** A worker's attempt owns its object, and its obligation was claimed. */
  lemma WorkerTouches(s: System, w: nat)
    requires Inv(s) && w in s.workers
    ensures var k := KeyOfObligation(s.workers[w].o);
            && s.workers[w].o.cipher in s.puts && s.puts[s.workers[w].o.cipher].owner == k
            && !Untouched(s, k)
  {
    WorkerOf(s, w);
    hide Inv;
  }

  /** While the lease runs no worker has claimed the obligation. */
  lemma LeaseMeansUntouched(s: System, p: nat, bytes: nat)
    requires Inv(s) && At(s, p, Accepting) && CanCommit(s, s.uploaders[p], bytes)
    requires !LeaseOver(s, KeyOf(s.uploaders[p].claim))
    ensures Untouched(s, KeyOf(s.uploaders[p].claim))
  {
    assert ObligationInv(s, KeyOf(s.uploaders[p].claim));
  }

  // ---- deletion ----

  /** Why a version may go: nobody waits for it, or its own uploader is discarding it. */
  predicate Removable(s: System, c: Object) {
    && c in s.puts && Unreferenced(s, c)
    && (|| NotAwaited(s, c)
        || exists p :: p in s.uploaders && KeyOf(s.uploaders[p].claim) == s.puts[c].owner
            && s.uploaders[p].phase.Discarding?)
  }

  lemma RemoveEvolves(s: System, c: Object, gone: bool)
    ensures Evolves(s, Remove(s, c, gone))
  {
  }

  lemma RemoveUploaders(s: System, c: Object, gone: bool)
    requires Uploaders(s) && Obligations(s) && Removable(s, c) && Evolves(s, Remove(s, c, gone))
    ensures Uploaders(Remove(s, c, gone))
  {
    var t := Remove(s, c, gone);
    hide Evolves;
    forall p | p in t.uploaders ensures UploaderInv(t, p) {
      assert UploaderInv(s, p);
      RemoveUploader(s, c, gone, p);
    }
  }

  lemma RemoveUploader(s: System, c: Object, gone: bool, p: nat)
    requires Obligations(s) && DistinctAttempts(s.uploaders) && Removable(s, c) && Evolves(s, Remove(s, c, gone))
    requires p in s.uploaders && UploaderInv(s, p)
    ensures UploaderInv(Remove(s, c, gone), p)
  {
    if NotAwaited(s, c) || s.uploaders[p].asset.cipher != c || !HasObject(s.uploaders[p].phase) {
      hide Evolves;
      UploaderStable(s, Remove(s, c, gone), p);
    } else {
      assert s.uploaders[p].phase.Discarding?;
      ClaimSame(s, Remove(s, c, gone), s.uploaders[p]);
    }
  }

  lemma RemoveKeeps(s: System, c: Object, gone: bool)
    requires Inv(s) && Removable(s, c)
    ensures Inv(Remove(s, c, gone))
  {
    var t := Remove(s, c, gone);
    hide Uploads, Assets, Objects, Uploaders, Obligations, Workers, Sweepers, Evolves, ObligationInv, NotAwaited;
    RemoveEvolves(s, c, gone);
    RemoveUploaders(s, c, gone);
    UploadsStable(s, t);
    ObjectsStable(s, t);
    AssetsStable(s, t);
    Assemble(s, t);
  }

  /** While an attempt's uploader lives, nothing references that attempt's object. */
  lemma LiveUploaderUnreferenced(s: System, p: nat)
    requires Assets(s) && p in s.uploaders && UploaderInv(s, p) && HasObject(s.uploaders[p].phase)
    ensures Unreferenced(s, s.uploaders[p].asset.cipher)
  {
    forall e | e in s.assets ensures s.assets[e].cipher != s.uploaders[p].asset.cipher { assert AssetInv(s, e); }
  }

  lemma DiscardRemoves(s: System, p: nat, gone: bool)
    requires Inv(s) && p in s.uploaders && s.uploaders[p].phase.Discarding?
    ensures Inv(Remove(s, s.uploaders[p].asset.cipher, gone))
  {
    assert UploaderInv(s, p);
    LiveUploaderUnreferenced(s, p);
    assert Removable(s, s.uploaders[p].asset.cipher);
    hide Inv;
    RemoveKeeps(s, s.uploaders[p].asset.cipher, gone);
  }

  lemma DiscardKeeps(s: System, p: nat, gone: bool, reported: bool)
    requires Inv(s) && p in s.uploaders && s.uploaders[p].phase.Discarding? && (reported ==> gone)
    ensures Inv(DiscardEffect(s, p, gone, reported))
  {
    hide Inv;
    DiscardRemoves(s, p, gone);
    var s1 := Remove(s, s.uploaders[p].asset.cipher, gone);
    UploaderOf(s1, p);
    hide UploaderInv;
    var v := DiscardEffect(s, p, gone, reported).uploaders[p];
    UploaderCanMove(s1, p, v);
    assert DiscardEffect(s, p, gone, reported) == SetUploader(s1, p, v);
    UploaderStep(s1, p, v);
  }

  /** A sound step of one existing obligation. */
  predicate SoundStep(s: System, k: Attempt, o: Obligation) {
    && k in s.obligations && ObligationEvolves(s.obligations[k], o)
    && ObligationInv(SetObligation(s, k, o), k) && NoneEarly(s, SetObligation(s, k, o))
  }

  lemma ResolveSound(s: System, k: Attempt, d: Disposition, now: Time)
    requires k in s.obligations && ObligationInv(s, k) && Resolve(s.obligations[k], d, now).Some?
    requires d == Deleted ==> s.obligations[k].cipher !in s.inventory
    requires d == Retained ==>
      s.obligations[k].evidence in s.assets && s.assets[s.obligations[k].evidence].cipher == s.obligations[k].cipher
    ensures SoundStep(s, k, Resolve(s.obligations[k], d, now).value)
  {
  }

  lemma RetrySound(s: System, k: Attempt, now: Time, delay: Time)
    requires k in s.obligations && ObligationInv(s, k) && Retry(s.obligations[k], now, delay).Some?
    ensures SoundStep(s, k, Retry(s.obligations[k], now, delay).value)
  {
  }

  lemma RecoverySound(s: System, k: Attempt, now: Time, timeout: Time)
    requires k in s.obligations && ObligationInv(s, k) && ClaimForRecovery(s.obligations[k], now, timeout).Some?
    requires now <= s.clock
    ensures SoundStep(s, k, ClaimForRecovery(s.obligations[k], now, timeout).value)
    ensures LeaseOver(s, k)
  {
  }

  lemma ObligationStep(s: System, k: Attempt, o: Obligation)
    requires Inv(s) && SoundStep(s, k, o)
    ensures Inv(SetObligation(s, k, o))
  {
    hide Inv, ObligationInv, ObligationEvolves, NoneEarly;
    ObligationMoves(s, k, o);
  }

  lemma ObligationOf(s: System, k: Attempt)
    requires Inv(s) && k in s.obligations
    ensures ObligationInv(s, k)
  {
  }

  lemma DiscardedResolves(s: System, p: nat)
    requires Inv(s) && CanResolveDiscarded(s, p, true) && s.obligations[KeyOf(s.uploaders[p].claim)].state != Deleted
    ensures var k := KeyOf(s.uploaders[p].claim);
            Inv(SetObligation(s, k, Resolve(s.obligations[k], Deleted, s.uploaders[p].at).value))
  {
    hide Inv;
    var k := KeyOf(s.uploaders[p].claim);
    UploaderOf(s, p);
    ObligationOf(s, k);
    hide ClaimInv, ObligationInv, Resolve, SoundStep;
    ResolveSound(s, k, Deleted, s.uploaders[p].at);
    ObligationStep(s, k, Resolve(s.obligations[k], Deleted, s.uploaders[p].at).value);
  }

  lemma ResolveDiscardedKeeps(s: System, p: nat, applied: bool)
    requires Inv(s) && CanResolveDiscarded(s, p, applied)
    ensures Inv(ResolveDiscardedEffect(s, p, applied))
  {
    hide Inv;
    var u := s.uploaders[p];
    var k := KeyOf(u.claim);
    if applied && s.obligations[k].state != Deleted {
      DiscardedResolves(s, p);
      PhaseKeeps(SetObligation(s, k, Resolve(s.obligations[k], Deleted, u.at).value), p, Failing);
    } else {
      PhaseKeeps(s, p, Failing);
    }
  }

  // ---- the recovery worker ----

  lemma NewWorker(s: System, k: Attempt, w: nat)
    requires k in s.obligations && ObligationInv(s, k) && s.obligations[k].claim > 0 && LeaseOver(s, k)
    ensures WorkerInv(SetWorker(s, w, Inspecting(s.obligations[k])), w)
  {
  }

  lemma RecoverKeeps(s: System, w: nat, k: Attempt, now: Time, timeout: Time)
    requires Inv(s) && CanRecover(s, w, k, now, timeout)
    ensures Inv(RecoverEffect(s, w, k, now, timeout))
  {
    hide Inv, ObligationInv, SoundStep, WorkerInv;
    var o := ClaimForRecovery(s.obligations[k], now, timeout).value;
    ObligationOf(s, k);
    RecoverySound(s, k, now, timeout);
    ObligationStep(s, k, o);
    var s1 := SetObligation(s, k, o);
    ObligationOf(s1, k);
    NewWorker(s1, k, w);
    WorkerStep(s1, w, Inspecting(o));
  }

  lemma ReadUploadKeeps(s: System, w: nat)
    requires Inv(s) && w in s.workers && s.workers[w].Inspecting? && s.workers[w].o.upload in s.uploads
    ensures Inv(SetWorker(s, w, Judging(s.workers[w].o, s.uploads[s.workers[w].o.upload])))
  {
    hide Inv;
    WorkerOf(s, w);
    hide ObligationInv;
    WorkerStep(s, w, Judging(s.workers[w].o, s.uploads[s.workers[w].o.upload]));
  }

  lemma JudgeSound(s: System, w: nat)
    requires Inv(s) && w in s.workers && s.workers[w].Judging?
    ensures WorkerInv(SetWorker(s, w, Judge(s, s.workers[w].o, s.workers[w].seen)), w)
  {
    var o := s.workers[w].o;
    WorkerOf(s, w);
    if o.evidence !in s.assets { AbsentMeansUnreferenced(s, o); }
    hide Inv, ObligationInv;
    JudgeShape(s, o, s.workers[w].seen);
    var worker := Judge(s, o, s.workers[w].seen);
    hide Judge;
    WorkerTurns(s, w, worker);
  }

  lemma JudgeShape(s: System, o: Obligation, seen: Intent)
    ensures var worker := Judge(s, o, seen);
            && worker.o == o && (worker.Retrying? || worker.Deleting? || worker == Completing(o, Retained))
            && (worker.Deleting? ==> o.evidence !in s.assets)
            && (worker.Completing? ==> o.evidence in s.assets && s.assets[o.evidence].cipher == o.cipher)
  {
  }

  /** A worker may turn to retrying always, to deleting an unreferenced object, to retaining a referenced one. */
  lemma WorkerTurns(s: System, w: nat, worker: Worker)
    requires w in s.workers && WorkerInv(s, w) && worker.o == s.workers[w].o
    requires worker.Retrying? || worker.Deleting? || worker == Completing(worker.o, Retained)
    requires worker.Deleting? ==> Unreferenced(s, worker.o.cipher)
    requires worker.Completing? ==>
      worker.o.evidence in s.assets && s.assets[worker.o.evidence].cipher == worker.o.cipher
    ensures WorkerInv(SetWorker(s, w, worker), w)
  {
  }

  lemma ReadAssetKeeps(s: System, w: nat)
    requires Inv(s) && w in s.workers && s.workers[w].Judging?
    ensures Inv(SetWorker(s, w, Judge(s, s.workers[w].o, s.workers[w].seen)))
  {
    JudgeSound(s, w);
    hide Inv, Judge, WorkerInv;
    WorkerStep(s, w, Judge(s, s.workers[w].o, s.workers[w].seen));
  }

  /** Without an asset for its evidence, nothing references the obligation's object. */
  lemma AbsentMeansUnreferenced(s: System, o: Obligation)
    requires Assets(s) && KeyOfObligation(o) in s.obligations && ObligationInv(s, KeyOfObligation(o))
    requires CopyOf(o, s.obligations[KeyOfObligation(o)]) && o.evidence !in s.assets
    ensures Unreferenced(s, o.cipher)
  {
    forall e | e in s.assets ensures s.assets[e].cipher != o.cipher { assert AssetInv(s, e); }
  }

  lemma ReadFailsKeeps(s: System, w: nat)
    requires Inv(s) && w in s.workers
    ensures Inv(SetWorker(s, w, Retrying(s.workers[w].o)))
  {
    hide Inv;
    WorkerOf(s, w);
    WorkerTurns(s, w, Retrying(s.workers[w].o));
    hide WorkerInv;
    WorkerStep(s, w, Retrying(s.workers[w].o));
  }

  /** An open acceptance of an object that a worker deletes finds its obligation claimed before. */
  lemma WorkerNotAwaited(s: System, w: nat)
    requires Inv(s) && w in s.workers && s.workers[w].Deleting?
    ensures NotAwaited(s, s.workers[w].o.cipher)
  {
    hide Inv;
    var c := s.workers[w].o.cipher;
    WorkerOf(s, w);
    forall p | p in s.uploaders && s.uploaders[p].phase == Accepting && s.uploaders[p].asset.cipher == c
      ensures !Untouched(s, KeyOf(s.uploaders[p].claim))
    {
      UploaderOf(s, p);
      hide ClaimInv;
    }
  }

  lemma WorkerRemoves(s: System, w: nat, gone: bool)
    requires Inv(s) && w in s.workers && s.workers[w].Deleting?
    ensures Inv(Remove(s, s.workers[w].o.cipher, gone))
  {
    assert WorkerInv(s, w) && ObligationInv(s, KeyOfObligation(s.workers[w].o));
    WorkerNotAwaited(s, w);
    hide Inv;
    RemoveKeeps(s, s.workers[w].o.cipher, gone);
  }

  lemma DeletedMoves(s: System, w: nat, next: Worker)
    requires Inv(s) && w in s.workers && s.workers[w].Deleting?
    requires next == Retrying(s.workers[w].o)
        || (next == Completing(s.workers[w].o, Deleted) && s.workers[w].o.cipher !in s.inventory)
    ensures Inv(SetWorker(s, w, next))
  {
    hide Inv;
    WorkerOf(s, w);
    hide ObligationInv;
    WorkerStep(s, w, next);
  }

  lemma DeleteObjectKeeps(s: System, w: nat, gone: bool, reported: bool)
    requires Inv(s) && w in s.workers && s.workers[w].Deleting? && (reported ==> gone)
    ensures Inv(DeleteEffect(s, w, gone, reported))
  {
    hide Inv;
    var o := s.workers[w].o;
    WorkerRemoves(s, w, gone);
    DeletedMoves(Remove(s, o.cipher, gone), w, if reported then Completing(o, Deleted) else Retrying(o));
  }

  lemma DropWorkerKeeps(s: System, w: nat)
    requires Inv(s)
    ensures Inv(DropWorker(s, w))
  {
    hide Inv, WorkerInv;
    WorkerMoves(s, DropWorker(s, w));
  }

  lemma CompleteSound(s: System, w: nat, now: Time)
    requires Inv(s) && CanComplete(s, w, now, true)
    ensures var k := KeyOfObligation(s.workers[w].o);
        SoundStep(s, k, Resolve(s.obligations[k], s.workers[w].verdict, now).value)
  {
    WorkerOf(s, w);
    hide Inv, ObligationInv, Resolve, SoundStep;
    ResolveSound(s, KeyOfObligation(s.workers[w].o), s.workers[w].verdict, now);
  }

  lemma CompleteKeeps(s: System, w: nat, now: Time, applied: bool)
    requires Inv(s) && CanComplete(s, w, now, applied)
    ensures Inv(CompleteEffect(s, w, now, applied))
  {
    hide Inv, SoundStep;
    if applied {
      CompleteSound(s, w, now);
      var k := KeyOfObligation(s.workers[w].o);
      var o := Resolve(s.obligations[k], s.workers[w].verdict, now).value;
      ObligationStep(s, k, o);
      DropWorkerKeeps(SetObligation(s, k, o), w);
    } else {
      DropWorkerKeeps(s, w);
    }
  }

  lemma PutBackKeeps(s: System, w: nat, now: Time, delay: Time, applied: bool)
    requires Inv(s) && CanPutBack(s, w, now, delay, applied)
    ensures Inv(PutBackEffect(s, w, now, delay, applied))
  {
    hide Inv, SoundStep, ObligationInv;
    if applied {
      var k := KeyOfObligation(s.workers[w].o);
      ObligationOf(s, k);
      RetrySound(s, k, now, delay);
      var o := Retry(s.obligations[k], now, delay).value;
      ObligationStep(s, k, o);
      DropWorkerKeeps(SetObligation(s, k, o), w);
    } else {
      DropWorkerKeeps(s, w);
    }
  }

  // ---- the orphan sweeper ----

  /** An object old enough by the provider's clock belongs to an attempt whose lease has ended. */
  lemma OldEnoughMeansLeaseOver(s: System, c: Object, now: Time, age: Time)
    requires Objects(s) && Condemnable(s, c, now, age)
    ensures LeaseOver(s, s.puts[c].owner)
  {
    assert ObjectInv(s, c);
  }

  /** What the sweeper condemns no acceptance can commit any more. */
  lemma CondemnedIsDead(s: System, c: Object, now: Time, age: Time)
    requires Inv(s) && Condemnable(s, c, now, age)
    ensures Dead(s, c)
  {
    OldEnoughMeansLeaseOver(s, c, now, age);
    forall p | p in s.uploaders && s.uploaders[p].phase == Accepting && s.uploaders[p].asset.cipher == c
      ensures KeyOf(s.uploaders[p].claim) in s.obligations
      ensures s.obligations[KeyOf(s.uploaders[p].claim)].state == Deleted
    {
      assert UploaderInv(s, p);
    }
  }

  lemma SweeperMoves(s: System, t: System)
    requires Inv(s) && t == s.(condemned := t.condemned) && SweepersMove(s, t)
    ensures Inv(t)
  {
    hide Inv, UploaderInv, ObligationInv, WorkerInv, Dead;
    QuietKeeps(s, t);
  }

  lemma CondemnMoves(s: System, z: nat, c: Object)
    requires Dead(s, c)
    ensures SweepersMove(s, s.(condemned := s.condemned[z := c]))
  {
  }

  lemma CondemnKeeps(s: System, z: nat, c: Object, now: Time, age: Time)
    requires Inv(s) && CanCondemn(s, z, c, now, age)
    ensures Inv(s.(condemned := s.condemned[z := c]))
  {
    CondemnedIsDead(s, c, now, age);
    CondemnMoves(s, z, c);
    hide Inv, CanCondemn, Dead, SweepersMove;
    SweeperMoves(s, s.(condemned := s.condemned[z := c]));
  }

  lemma UncondemnKeeps(s: System, z: nat)
    requires Inv(s)
    ensures Inv(s.(condemned := s.condemned - {z}))
  {
    hide Inv, UploaderInv, ObligationInv, WorkerInv, Dead;
    QuietKeeps(s, s.(condemned := s.condemned - {z}));
  }

  lemma DeadNotAwaited(s: System, c: Object)
    requires Dead(s, c)
    ensures Removable(s, c)
  {
    assert NotAwaited(s, c);
  }

  lemma SweepKeeps(s: System, z: nat, gone: bool)
    requires Inv(s) && z in s.condemned
    ensures Inv(Remove(s, s.condemned[z], gone).(condemned := s.condemned - {z}))
  {
    DeadNotAwaited(s, s.condemned[z]);
    RemoveKeeps(s, s.condemned[z], gone);
    UncondemnKeeps(Remove(s, s.condemned[z], gone), z);
  }
}
