/**
 What runs of the protocol accept: the asset of an accepted upload repeats what the upload
 declared, and every asset is that of an accepted upload.
 */
module ProtocolAccepted {
  import opened Base
  import opened Upload
  import opened Reconciliation
  import opened Protocol
  import opened ProtocolSafety
  import opened ProtocolRuns

  /** The asset of an accepted upload is there and repeats its declaration. */
  ghost predicate DeclaredAsset(s: System, u: Intent) { u.evidence in s.assets && Repeats(s.assets[u.evidence], u) }

  ghost predicate Declared(s: System) {
    forall id :: id in s.uploads && s.uploads[id].state == Accepted ==> DeclaredAsset(s, s.uploads[id])
  }

  /** Assets stay, and no upload becomes accepted. */
  ghost predicate AcceptsNothing(s: System, t: System) {
    && t.assets == s.assets
    && forall id :: id in t.uploads && t.uploads[id].state == Accepted ==>
        id in s.uploads && s.uploads[id] == t.uploads[id]
  }

  lemma TransitionAcceptsNothing(s: System, id: nat, c: Command)
    requires CanApply(s, id, c) && !c.AcceptAsset?
    ensures AcceptsNothing(s, Transition(s, id, c))
  {
  }

  lemma SameRowsAcceptNothing(s: System, t: System)
    requires t.assets == s.assets && t.uploads == s.uploads
    ensures AcceptsNothing(s, t)
  {
  }

  lemma ClaimAcceptsNothing(s: System, p: nat, id: nat, v: nat, now: Time)
    requires CanApply(s, id, Command.Claim(v, now))
    ensures AcceptsNothing(s, ClaimEffect(s, p, id, v, now))
  {
    TransitionAcceptsNothing(s, id, Command.Claim(v, now));
    hide CanApply;
  }

  lemma ReleaseAcceptsNothing(s: System, p: nat, reason: string, now: Time, applied: bool)
    requires Enabled(s, Release(p, reason, now, applied))
    ensures AcceptsNothing(s, Next(s, Release(p, reason, now, applied)))
  {
    hide CanApply, Transition;
    if applied {
      TransitionAcceptsNothing(s, s.uploaders[p].claim.id, FailureCommand(s.uploaders[p].claim, reason, now));
    }
  }

  lemma IssueAcceptsNothing(s: System, u: Intent)
    requires Enabled(s, Issue(u))
    ensures AcceptsNothing(s, Next(s, Issue(u)))
  {
    hide ValidIntent;
  }

  lemma IntentAcceptsNothing(s: System, e: Event)
    requires Enabled(s, e) && (e.Issue? || e.Lapse? || e.Claim? || e.Release?)
    ensures AcceptsNothing(s, Next(s, e))
  {
    hide AcceptsNothing, CanApply, Transition, ClaimEffect, CanIssue;
    match e {
      case Issue(u) => IssueAcceptsNothing(s, u);
      case Lapse(id, v, now) => TransitionAcceptsNothing(s, id, Close(v, now));
      case Claim(p, id, v, now) => ClaimAcceptsNothing(s, p, id, v, now);
      case Release(p, reason, now, applied) => ReleaseAcceptsNothing(s, p, reason, now, applied);
    }
  }

  lemma WriteAcceptsNothing(s: System, p: nat, now: Time, written: bool, reported: bool)
    requires p in s.uploaders && CanWrite(s, s.uploaders[p], now, written, reported)
    ensures AcceptsNothing(s, WriteEffect(s, p, now, written, reported))
    ensures AcceptsNothing(s, WriteOrphanEffect(s, p, now, written, reported))
  {
    hide CanWrite, ForObject;
  }

  lemma PhaseAcceptsNothing(s: System, p: nat, phase: Phase)
    requires p in s.uploaders
    ensures AcceptsNothing(s, WithPhase(s, p, phase)) && AcceptsNothing(s, DropUploader(s, p))
  {
  }

  lemma StagingAcceptsNothing(s: System, e: Event)
    requires Enabled(s, e) && (e.Store? || e.StoreNothing? || e.Write? || e.RefuseBody? || e.Lock?)
    ensures AcceptsNothing(s, Next(s, e))
  {
    hide AcceptsNothing, CanStore, CanWrite, CanLock, WithPhase, WriteEffect;
    match e {
      case Store(_, _, _, _) => SameRowsAcceptNothing(s, Next(s, e));
      case StoreNothing(p) => PhaseAcceptsNothing(s, p, Failing);
      case Write(p, now, written, reported) => WriteAcceptsNothing(s, p, now, written, reported);
      case RefuseBody(p) => PhaseAcceptsNothing(s, p, Discarding(true));
      case Lock(p, _) => PhaseAcceptsNothing(s, p, Accepting);
    }
  }

  lemma DiscardedAcceptsNothing(s: System, p: nat, gone: bool, reported: bool)
    requires p in s.uploaders && s.uploaders[p].phase.Discarding?
    ensures AcceptsNothing(s, DiscardEffect(s, p, gone, reported))
  {
  }

  lemma ResolvedAcceptsNothing(s: System, p: nat, applied: bool)
    requires CanResolveDiscarded(s, p, applied)
    ensures AcceptsNothing(s, ResolveDiscardedEffect(s, p, applied))
  {
    hide Resolve;
  }

  lemma DiscardAcceptsNothing(s: System, e: Event)
    requires Enabled(s, e)
    requires e.CommitNothing? || e.Discard? || e.ResolveDiscarded? || e.WriteOrphan? || e.UploaderCrash?
    ensures AcceptsNothing(s, Next(s, e))
  {
    hide AcceptsNothing, CanResolveDiscarded, CanWrite, WithPhase, DropUploader;
    hide DiscardEffect, ResolveDiscardedEffect, WriteOrphanEffect;
    match e {
      case CommitNothing(p, _) => PhaseAcceptsNothing(s, p, Discarding(true));
      case Discard(p, gone, reported) => DiscardedAcceptsNothing(s, p, gone, reported);
      case ResolveDiscarded(p, applied) => ResolvedAcceptsNothing(s, p, applied);
      case WriteOrphan(p, now, written, reported) => WriteAcceptsNothing(s, p, now, written, reported);
      case UploaderCrash(p) => PhaseAcceptsNothing(s, p, Failing);
    }
  }

  lemma RemoveKeepsRows(s: System, c: Object, gone: bool)
    ensures Remove(s, c, gone).assets == s.assets && Remove(s, c, gone).uploads == s.uploads
  {
  }

  lemma TickAcceptsNothing(s: System, now: Time)
    requires Enabled(s, Tick(now))
    ensures AcceptsNothing(s, Next(s, Tick(now)))
  {
  }

  lemma UploaderAcceptsNothing(s: System, e: Event)
    requires Enabled(s, e) && !ByWorker(e) && !BySweeper(e) && !e.Commit?
    ensures AcceptsNothing(s, Next(s, e))
  {
    hide Enabled, Next, AcceptsNothing;
    if e.Issue? || e.Lapse? || e.Claim? || e.Release? {
      IntentAcceptsNothing(s, e);
    } else if e.Tick? {
      TickAcceptsNothing(s, e.clock);
    } else if e.Store? || e.StoreNothing? || e.Write? || e.RefuseBody? || e.Lock? {
      StagingAcceptsNothing(s, e);
    } else {
      DiscardAcceptsNothing(s, e);
    }
  }

  lemma WorkerAcceptsNothing(s: System, e: Event)
    requires Enabled(s, e) && ByWorker(e)
    ensures AcceptsNothing(s, Next(s, e))
  {
    hide AcceptsNothing, CanRecover, CanComplete, CanPutBack, Judge, Remove, ClaimForRecovery, Resolve, Retry;
    match e {
      case Recover(_, _, _, _) => SameRowsAcceptNothing(s, Next(s, e));
      case ReadUpload(_) => SameRowsAcceptNothing(s, Next(s, e));
      case ReadAsset(_) => SameRowsAcceptNothing(s, Next(s, e));
      case ReadFails(_) => SameRowsAcceptNothing(s, Next(s, e));
      case DeleteObject(w, gone, reported) =>
        RemoveKeepsRows(s, s.workers[w].o.cipher, gone);
        SameRowsAcceptNothing(s, Next(s, e));
      case Complete(_, _, _) => SameRowsAcceptNothing(s, Next(s, e));
      case PutBack(_, _, _, _) => SameRowsAcceptNothing(s, Next(s, e));
      case WorkerCrash(_) => SameRowsAcceptNothing(s, Next(s, e));
    }
  }

  lemma SweeperAcceptsNothing(s: System, e: Event)
    requires Enabled(s, e) && BySweeper(e)
    ensures AcceptsNothing(s, Next(s, e))
  {
    hide AcceptsNothing, CanCondemn, Remove;
    if e.Sweep? { RemoveKeepsRows(s, s.condemned[e.z], e.gone); }
    SameRowsAcceptNothing(s, Next(s, e));
  }

  lemma OnlyCommitsAccept(s: System, e: Event)
    requires Enabled(s, e) && !e.Commit?
    ensures AcceptsNothing(s, Next(s, e))
  {
    hide Enabled, Next, AcceptsNothing;
    if ByWorker(e) {
      WorkerAcceptsNothing(s, e);
    } else if BySweeper(e) {
      SweeperAcceptsNothing(s, e);
    } else {
      UploaderAcceptsNothing(s, e);
    }
  }

  /** A commit accepts its own upload with the declared asset; other accepted uploads name other evidence. */
  lemma CommitDeclares(s: System, p: nat, bytes: nat)
    requires Declared(s) && At(s, p, Accepting) && CanCommit(s, s.uploaders[p], bytes)
    ensures Declared(CommitEffect(s, p, bytes))
  {
    var u, t := s.uploaders[p], CommitEffect(s, p, bytes);
    forall id | id in t.uploads && t.uploads[id].state == Accepted ensures DeclaredAsset(t, t.uploads[id]) {
      if id != u.claim.id { assert DeclaredAsset(s, s.uploads[id]); }
    }
  }

  lemma EventDeclares(s: System, e: Event)
    requires Declared(s) && Enabled(s, e)
    ensures Declared(Next(s, e))
  {
    hide CanCommit, CommitEffect, DeclaredAsset;
    if e.Commit? {
      CommitDeclares(s, e.p, e.bytes);
    } else {
      OnlyCommitsAccept(s, e);
      hide Next, Enabled;
      NothingAcceptedStaysDeclared(s, Next(s, e));
    }
  }

  lemma NothingAcceptedStaysDeclared(s: System, t: System)
    requires Declared(s) && AcceptsNothing(s, t)
    ensures Declared(t)
  {
    forall id | id in t.uploads && t.uploads[id].state == Accepted ensures DeclaredAsset(t, t.uploads[id]) {
      assert DeclaredAsset(s, s.uploads[id]);
    }
  }

  lemma {:induction false} PathDeclares(s: System, events: seq<Event>, states: seq<System>, n: nat)
    requires Declared(s) && Path(s, events, states) && n <= |events|
    ensures Declared(states[n])
  {
    hide Declared, Enabled, Next;
    if n > 0 {
      PathDeclares(s, events, states, n - 1);
      EventDeclares(states[n - 1], events[n - 1]);
    }
  }

  /**
   In every interleaving, safe or not, the asset of an accepted upload repeats its evidence,
   placement, digest and media type as they were declared.
   */
  lemma AcceptedAssetIsDeclared(events: seq<Event>, states: seq<System>, n: nat, id: nat)
    requires Path(INITIAL, events, states) && n <= |events|
    requires id in states[n].uploads && states[n].uploads[id].state == Accepted
    ensures var s := states[n]; var u := s.uploads[id];
            && u.evidence in s.assets
            && var a := s.assets[u.evidence];
               && a.evidence == u.evidence && a.binding == u.binding
               && a.plaintextDigest == u.expectedDigest && a.mediaType == u.mediaType
               && a.available && a.verified && a.version == 1 && a.contentRevision == 1
  {
    hide Enabled, Next;
    PathDeclares(INITIAL, events, states, n);
    assert DeclaredAsset(states[n], states[n].uploads[id]);
  }

  /** Conversely, in every run an asset is that of an accepted upload, and repeats its declaration. */
  lemma AssetsAreAccepted(events: seq<Event>, states: seq<System>, n: nat, e: nat)
    requires Run(events, states) && n <= |events| && e in states[n].assets
    ensures states[n].assets[e].evidence == e
    ensures exists id :: id in states[n].uploads && AcceptedWith(states[n].uploads[id], states[n].assets[e])
  {
    Reachable(events, states, n);
    hide Enabled, Next;
    var s := states[n];
    assert AssetInv(s, e);
    var id := s.puts[s.assets[e].cipher].owner.upload;
    AcceptedAssetIsDeclared(events, states, n, id);
    assert AcceptedWith(s.uploads[id], s.assets[e]);
  }

  ghost predicate AcceptedWith(u: Intent, a: Asset) { u.state == Accepted && Repeats(a, u) }

  /** And an upload is accepted only by a commit that counted as many bytes as were declared. */
  lemma AcceptedByMatchingCommit(s: System, e: Event, id: nat)
    requires Enabled(s, e) && id in Next(s, e).uploads && Next(s, e).uploads[id].state == Accepted
    requires id !in s.uploads || s.uploads[id].state != Accepted
    ensures e.Commit? && id in s.uploads && e.bytes == s.uploads[id].expectedBytes
    ensures e.p in s.uploaders && s.uploaders[e.p].claim.id == id && s.uploads[id].evidence !in s.assets
    ensures Next(s, e).assets == s.assets[s.uploads[id].evidence := s.uploaders[e.p].asset]
    ensures Repeats(s.uploaders[e.p].asset, s.uploads[id])
  {
    hide CanApply;
    if !e.Commit? {
      hide Enabled, Next;
      OnlyCommitsAccept(s, e);
    }
  }
}
