/**
 The tenant audit chain and its offline verification. The record hash and the
 signature scheme are parameters. A hash is nowhere taken to be injective: where two
 chains could differ under one hash, the lemma says which records collide.
 */
module AuditChain {
  import opened Base

  const SCHEMA_VERSION := 1
  const INITIAL_HASH: string := Zeros(64)
  const SIGNATURE_LENGTH := 128
  const PUBLIC_KEY_LENGTH := 32

  function Zeros(n: nat): (s: string)
    ensures |s| == n && forall i :: 0 <= i < n ==> s[i] == '0'
  {
    if n == 0 then "" else "0" + Zeros(n - 1)
  }

  datatype Instant = Instant(at: Time, utc: bool)

  predicate Stamped(t: Instant) { t.at != 0 && t.utc }

  /** The fields that the record hash covers. */
  datatype Body = Body(
    sequence: nat, eventID: string, eventType: string, aggregateID: string, actorID: string,
    occurredAt: Instant, eventDigest: string, previousHash: string)

  datatype Record = Record(body: Body, hash: string)

  /** What a caller supplies to Append. */
  datatype Fact = Fact(eventID: string, eventType: string, aggregateID: string, actorID: string, eventDigest: string,
      occurredAt: Instant)

  /** The signed message and its signature. */
  datatype Message = Message(tenantID: string, throughSequence: nat, chainHash: string, keyID: string,
      createdAt: Instant)

  datatype Checkpoint = Checkpoint(message: Message, signature: string)

  datatype Export = Export(schemaVersion: nat, tenantID: string, records: seq<Record>, checkpoints: seq<Checkpoint>)

  datatype Report = Report(tenantID: string, records: nat, checkpoints: nat, lastSequence: nat, chainHash: string)

  datatype Error = Invalid | Broken

  datatype Crypto = Crypto(
    hash: Body -> string,
    public: string -> string,
    sign: (string, Message) -> string,
    verify: (string, Message, string) -> bool)

  predicate Lower(c: char) { 'a' <= c <= 'z' }
  predicate Digit(c: char) { '0' <= c <= '9' }

  predicate Token(s: string) {
    && 1 <= |s| <= 128 && Lower(s[0])
    && forall i :: 0 <= i < |s| ==> Lower(s[i]) || Digit(s[i]) || s[i] in "_.:-"
  }

  predicate Digest(s: string) { |s| == 64 && forall i :: 0 <= i < 64 ==> Digit(s[i]) || 'a' <= s[i] <= 'f' }

  /** Hashes are digests, and a key verifies what it signed. */
  ghost predicate Honest(c: Crypto) {
    && (forall b :: Digest(c.hash(b)))
    && (forall k, m :: |c.sign(k, m)| == SIGNATURE_LENGTH && |c.public(k)| == PUBLIC_KEY_LENGTH)
    && (forall k, m :: c.verify(c.public(k), m, c.sign(k, m)))
  }

  predicate ValidBody(b: Body) {
    && b.sequence != 0 && Token(b.eventType) && b.eventID != "" && b.aggregateID != "" && b.actorID != ""
    && Stamped(b.occurredAt) && Digest(b.eventDigest) && Digest(b.previousHash)
  }

  predicate ValidFact(f: Fact) {
    Token(f.eventType) && f.eventID != "" && f.aggregateID != "" && f.actorID != "" && Stamped(f.occurredAt)
      && Digest(f.eventDigest)
  }

  predicate ValidMessage(m: Message) {
    m.tenantID != "" && m.throughSequence > 0 && Digest(m.chainHash) && Token(m.keyID) && Stamped(m.createdAt)
  }

  // ---- building a chain ----

  function Append(c: Crypto, previous: Option<Record>, f: Fact): Result<Record, Error> {
    var (sequence, previousHash) :=
        match previous case None => (1, INITIAL_HASH) case Some(p) => (p.body.sequence + 1, p.hash);
    var body := Body(sequence, f.eventID, f.eventType, f.aggregateID, f.actorID, f.occurredAt, f.eventDigest,
        previousHash);
    if ValidBody(body) then Success(Record(body, c.hash(body))) else Failure(Invalid)
  }

  function Last(records: seq<Record>): Option<Record> { if records == [] then None else Some(records[|records| - 1]) }

  /** Appends one fact after another, each to the head left by the one before. */
  function AppendAll(c: Crypto, facts: seq<Fact>): Result<seq<Record>, Error> {
    if facts == [] then Success([])
    else
      match AppendAll(c, facts[..|facts| - 1])
      case Failure(e) => Failure(e)
      case Success(records) =>
        match Append(c, Last(records), facts[|facts| - 1])
        case Failure(e) => Failure(e)
        case Success(r) => Success(records + [r])
  }

  function SignCheckpoint(
    c: Crypto, tenantID: string, keyID: string, head: Record, createdAt: Instant, key: string)
    : Result<Checkpoint, Error>
  {
    var m := Message(tenantID, head.body.sequence, head.hash, keyID, createdAt);
    if ValidMessage(m) then Success(Checkpoint(m, c.sign(key, m))) else Failure(Invalid)
  }

  // ---- what verification accepts ----

  function PreviousHash(records: seq<Record>, i: nat): string
    requires i <= |records|
  {
    if i == 0 then INITIAL_HASH else records[i - 1].hash
  }

  predicate Linked(c: Crypto, records: seq<Record>, i: nat)
    requires i < |records|
  {
    var r := records[i];
    r.body.sequence == i + 1 && r.body.previousHash == PreviousHash(records, i) && ValidBody(r.body)
      && r.hash == c.hash(r.body)
  }

  ghost predicate Chained(c: Crypto, records: seq<Record>) { forall i :: 0 <= i < |records| ==> Linked(c, records, i) }

  function KeyOf(keys: map<string, string>, keyID: string): string { if keyID in keys then keys[keyID] else "" }

  predicate Attests(c: Crypto, e: Export, keys: map<string, string>, p: Checkpoint) {
    && p.message.tenantID == e.tenantID && ValidMessage(p.message) && |p.signature| == SIGNATURE_LENGTH
    && p.message.throughSequence <= |e.records| && e.records[p.message.throughSequence - 1].hash == p.message.chainHash
    && |KeyOf(keys, p.message.keyID)| == PUBLIC_KEY_LENGTH
        && c.verify(KeyOf(keys, p.message.keyID), p.message, p.signature)
  }

  predicate Ordered(p: Checkpoint, q: Checkpoint) {
    p.message.throughSequence < q.message.throughSequence && p.message.createdAt.at <= q.message.createdAt.at
  }

  ghost predicate Verified(c: Crypto, e: Export, keys: map<string, string>) {
    && e.schemaVersion == SCHEMA_VERSION && e.tenantID != "" && e.records != [] && e.checkpoints != []
    && Chained(c, e.records)
    && (forall i :: 0 <= i < |e.checkpoints| ==> Attests(c, e, keys, e.checkpoints[i]))
    && (forall i, j :: 0 <= i < j < |e.checkpoints| ==> Ordered(e.checkpoints[i], e.checkpoints[j]))
  }

  lemma {:induction false} NeighboursOrdered(ps: seq<Checkpoint>, n: nat)
    requires n <= |ps| && forall i :: 1 <= i < n ==> Ordered(ps[i - 1], ps[i])
    ensures forall i, j :: 0 <= i < j < n ==> Ordered(ps[i], ps[j])
  {
    if n > 1 {
      NeighboursOrdered(ps, n - 1);
      assert Ordered(ps[n - 2], ps[n - 1]);
    }
  }

  method Verify(c: Crypto, e: Export, keys: map<string, string>) returns (r: Result<Report, Error>)
    ensures r.Success? <==> Verified(c, e, keys)
    ensures r.Success? ==>
      r.value == Report(e.tenantID, |e.records|, |e.checkpoints|, |e.records|, e.records[|e.records| - 1].hash)
    ensures r == Failure(Invalid) <==>
      e.schemaVersion != SCHEMA_VERSION || e.tenantID == "" || e.records == [] || e.checkpoints == []
  {
    hide Attests, ValidBody;
    if e.schemaVersion != SCHEMA_VERSION || e.tenantID == "" || |e.records| == 0 || |e.checkpoints| == 0 {
      return Failure(Invalid);
    }
    var previousHash := INITIAL_HASH;
    for i := 0 to |e.records|
      invariant previousHash == PreviousHash(e.records, i) && forall k :: 0 <= k < i ==> Linked(c, e.records, k)
    {
      var r := e.records[i];
      if r.body.sequence != i + 1 || r.body.previousHash != previousHash || !ValidBody(r.body)
          || r.hash != c.hash(r.body) {
        assert !Linked(c, e.records, i);
        return Failure(Broken);
      }
      previousHash := r.hash;
    }
    for i := 0 to |e.checkpoints|
      invariant forall k :: 0 <= k < i ==> Attests(c, e, keys, e.checkpoints[k])
    {
      if !Attests(c, e, keys, e.checkpoints[i]) { return Failure(Broken); }
    }
    for i := 1 to |e.checkpoints|
      invariant forall k :: 1 <= k < i ==> Ordered(e.checkpoints[k - 1], e.checkpoints[k])
    {
      if e.checkpoints[i].message.throughSequence <= e.checkpoints[i - 1].message.throughSequence
         || e.checkpoints[i].message.createdAt.at < e.checkpoints[i - 1].message.createdAt.at {
        assert !Ordered(e.checkpoints[i - 1], e.checkpoints[i]);
        return Failure(Broken);
      }
    }
    NeighboursOrdered(e.checkpoints, |e.checkpoints|);
    var head := e.records[|e.records| - 1];
    assert Linked(c, e.records, |e.records| - 1);
    return Success(Report(e.tenantID, |e.records|, |e.checkpoints|, head.body.sequence, head.hash));
  }

  // ---- appended chains are accepted ----

  lemma InitialIsDigest()
    ensures Digest(INITIAL_HASH)
  {
  }

  lemma ChainedExtended(c: Crypto, records: seq<Record>, r: Record)
    requires Chained(c, records) && Linked(c, records + [r], |records|)
    ensures Chained(c, records + [r])
  {
    var more := records + [r];
    forall i | 0 <= i < |records| ensures Linked(c, more, i) {
      assert Linked(c, records, i);
      assert PreviousHash(more, i) == PreviousHash(records, i);
    }
  }

  /** Appending succeeds exactly on valid facts, and what it builds is chained in order. */
  lemma {:induction false} AppendAllChained(c: Crypto, facts: seq<Fact>)
    requires Honest(c)
    ensures AppendAll(c, facts).Success? <==> forall i :: 0 <= i < |facts| ==> ValidFact(facts[i])
    ensures AppendAll(c, facts).Success? ==>
      var records := AppendAll(c, facts).value; |records| == |facts| && Chained(c, records)
    decreases |facts|
  {
    if facts != [] {
      var front, f := facts[..|facts| - 1], facts[|facts| - 1];
      AppendAllChained(c, front);
      InitialIsDigest();
      if AppendAll(c, front).Success? {
        var records := AppendAll(c, front).value;
        assert records != [] ==> Linked(c, records, |records| - 1);
        hide Digest, Token;
        AppendLinks(c, records, f);
      }
      assert forall i :: 0 <= i < |front| ==> front[i] == facts[i];
    }
  }

  /** The record carries what the fact says, field by field. */
  predicate Tells(r: Record, f: Fact) {
    && r.body.eventID == f.eventID && r.body.eventType == f.eventType && r.body.aggregateID == f.aggregateID
    && r.body.actorID == f.actorID && r.body.occurredAt == f.occurredAt && r.body.eventDigest == f.eventDigest
  }

  /** Every record of an appended chain tells its own fact, at its own place. */
  lemma {:induction false} AppendedTellsFacts(c: Crypto, facts: seq<Fact>)
    requires AppendAll(c, facts).Success?
    ensures |AppendAll(c, facts).value| == |facts|
    ensures forall i :: 0 <= i < |facts| ==>
      Tells(AppendAll(c, facts).value[i], facts[i]) && AppendAll(c, facts).value[i].body.sequence == i + 1
    decreases |facts|
  {
    if facts != [] {
      var n := |facts| - 1;
      AppendedTellsFacts(c, facts[..n]);
      var front := AppendAll(c, facts[..n]).value;
      AppendTells(c, Last(front), facts[n]);
      assert n > 0 ==> front[n - 1].body.sequence == n;
      hide Append, Tells;
      assert forall i :: 0 <= i < n ==> facts[..n][i] == facts[i];
    }
  }

  lemma AppendTells(c: Crypto, previous: Option<Record>, f: Fact)
    requires Append(c, previous, f).Success?
    ensures var r := Append(c, previous, f).value;
            Tells(r, f) && r.body.sequence == (if previous.Some? then previous.value.body.sequence + 1 else 1)
  {
    hide ValidBody;
  }

  lemma SameTale(r: Record, f: Fact, g: Fact)
    requires Tells(r, f) && Tells(r, g)
    ensures f == g
  {
  }

  /** One record list comes from one list of facts. */
  lemma RecordsFixFacts(c: Crypto, facts: seq<Fact>, others: seq<Fact>)
    requires AppendAll(c, facts).Success? && AppendAll(c, facts) == AppendAll(c, others)
    ensures facts == others
  {
    AppendedTellsFacts(c, facts);
    AppendedTellsFacts(c, others);
    hide AppendAll, Tells;
    forall i | 0 <= i < |facts| ensures facts[i] == others[i] {
      SameTale(AppendAll(c, facts).value[i], facts[i], others[i]);
    }
  }

  lemma AppendLinks(c: Crypto, records: seq<Record>, f: Fact)
    requires Honest(c) && Chained(c, records)
    ensures Append(c, Last(records), f).Success? <==> ValidFact(f)
    ensures ValidFact(f) ==> Chained(c, records + [Append(c, Last(records), f).value])
  {
    InitialIsDigest();
    if records != [] { assert Linked(c, records, |records| - 1); }
    hide Token;
    if ValidFact(f) { ChainedExtended(c, records, Append(c, Last(records), f).value); }
  }

  /** A checkpoint signed over any record of a chain attests to every export that holds the chain. */
  lemma SignedAttests(c: Crypto, e: Export, keys: map<string, string>, k: nat, keyID: string, at: Instant, key: string)
    requires Honest(c) && Chained(c, e.records) && k < |e.records|
    requires e.tenantID != "" && Token(keyID) && Stamped(at) && keyID in keys && keys[keyID] == c.public(key)
    ensures var p := SignCheckpoint(c, e.tenantID, keyID, e.records[k], at, key);
            p.Success? && p.value.message.throughSequence == k + 1 && p.value.message.createdAt == at
              && Attests(c, e, keys, p.value)
  {
    assert Linked(c, e.records, k);
    hide Token, Digest;
  }

  /** Any sequence of appends, signed at any of its records, is accepted. */
  lemma SignedAnywhereIsVerified(
    c: Crypto, facts: seq<Fact>, k: nat, tenantID: string, keyID: string, at: Instant, key: string,
    keys: map<string, string>)
    requires Honest(c) && k < |facts| && AppendAll(c, facts).Success?
    requires tenantID != "" && Token(keyID) && Stamped(at) && keyID in keys && keys[keyID] == c.public(key)
    ensures var records := AppendAll(c, facts).value;
            && |records| == |facts|
            && var p := SignCheckpoint(c, tenantID, keyID, records[k], at, key);
               && p.Success? && p.value.message.throughSequence == k + 1
               && Verified(c, Export(SCHEMA_VERSION, tenantID, records, [p.value]), keys)
  {
    AppendAllChained(c, facts);
    var records := AppendAll(c, facts).value;
    SignedAttests(c, Export(SCHEMA_VERSION, tenantID, records, []), keys, k, keyID, at, key);
    hide AppendAll, Token;
  }

  /** In particular signed at its head. */
  lemma AppendedAndSignedIsVerified(
    c: Crypto, facts: seq<Fact>, tenantID: string, keyID: string, at: Instant, key: string, keys: map<string, string>)
    requires Honest(c) && facts != [] && AppendAll(c, facts).Success?
    requires tenantID != "" && Token(keyID) && Stamped(at) && keyID in keys && keys[keyID] == c.public(key)
    ensures var records := AppendAll(c, facts).value;
            && |records| == |facts|
            && var p := SignCheckpoint(c, tenantID, keyID, records[|records| - 1], at, key);
               p.Success? && Verified(c, Export(SCHEMA_VERSION, tenantID, records, [p.value]), keys)
  {
    hide AppendAll, Token, Verified;
    SignedAnywhereIsVerified(c, facts, |facts| - 1, tenantID, keyID, at, key, keys);
  }

  // ---- a hash fixes everything before it, or two given records collide ----

  predicate Collision(r: Record, q: Record) { r.hash == q.hash && r.body != q.body }

  /** Different bodies under one hash, at one position among the first k. */
  ghost predicate CollidesBefore(a: seq<Record>, b: seq<Record>, k: nat)
    requires k <= |a| && k <= |b|
  {
    exists i :: 0 <= i < k && Collision(a[i], b[i])
  }

  lemma {:induction false} HashFixesPrefix(c: Crypto, a: seq<Record>, b: seq<Record>, k: nat)
    requires Chained(c, a) && Chained(c, b)
    requires 1 <= k <= |a| && k <= |b| && a[k - 1].hash == b[k - 1].hash
    ensures a[..k] == b[..k] <==> !CollidesBefore(a, b, k)
  {
    assert Linked(c, a, k - 1) && Linked(c, b, k - 1);
    hide Linked, Token, Digest;
    if a[..k] == b[..k] {
      assert forall i :: 0 <= i < k ==> a[i] == a[..k][i] == b[..k][i] == b[i];
    } else if a[k - 1].body == b[k - 1].body {
      SamePredecessor(c, a, b, k);
      assert a[..k] == a[..k - 1] + [a[k - 1]] && b[..k] == b[..k - 1] + [b[k - 1]];
      HashFixesPrefix(c, a, b, k - 1);
    } else {
      assert Collision(a[k - 1], b[k - 1]);
    }
  }

  lemma SamePredecessor(c: Crypto, a: seq<Record>, b: seq<Record>, k: nat)
    requires Chained(c, a) && Chained(c, b) && 1 <= k <= |a| && k <= |b| && a[k - 1].body == b[k - 1].body
    ensures a[k - 1] == b[k - 1] && (k > 1 ==> a[k - 2].hash == b[k - 2].hash)
  {
    assert Linked(c, a, k - 1) && Linked(c, b, k - 1);
  }

  /**
   Two verified exports that carry one checkpoint position and hash hold identical records
   up to it, unless two of those records, at one position, have different bodies and one hash.
   */
  lemma CheckpointFixesPrefix(
    c: Crypto, e: Export, f: Export, keys: map<string, string>, others: map<string, string>, i: nat, j: nat)
    requires Verified(c, e, keys) && Verified(c, f, others)
    requires i < |e.checkpoints| && j < |f.checkpoints|
    requires e.checkpoints[i].message.throughSequence == f.checkpoints[j].message.throughSequence
    requires e.checkpoints[i].message.chainHash == f.checkpoints[j].message.chainHash
    ensures var k := e.checkpoints[i].message.throughSequence;
            && k <= |e.records| && k <= |f.records|
            && (e.records[..k] == f.records[..k] <==> !CollidesBefore(e.records, f.records, k))
  {
    assert Attests(c, e, keys, e.checkpoints[i]) && Attests(c, f, others, f.checkpoints[j]);
    hide Token, Digest, CollidesBefore;
    HashFixesPrefix(c, e.records, f.records, e.checkpoints[i].message.throughSequence);
  }

  /**
   Equal chain heads mean equal record lists, lengths included, unless a record of one
   collides with a record of the other.
   */
  lemma HeadFixesChain(c: Crypto, a: seq<Record>, b: seq<Record>)
    requires Chained(c, a) && Chained(c, b) && a != [] && b != []
    ensures a == b ==> a[|a| - 1].hash == b[|b| - 1].hash
    ensures a[|a| - 1].hash == b[|b| - 1].hash ==>
      a == b || Collision(a[|a| - 1], b[|b| - 1]) || (|a| == |b| && CollidesBefore(a, b, |a|))
  {
    if a[|a| - 1].hash == b[|b| - 1].hash && a[|a| - 1].body == b[|b| - 1].body {
      assert Linked(c, a, |a| - 1) && Linked(c, b, |b| - 1);
      hide Token, Digest;
      assert |a| == |b|;
      HashFixesPrefix(c, a, b, |a|);
      assert a[..|a|] == a && b[..|b|] == b;
    }
  }

  /** Equal heads of two appended chains mean equal facts, unless a record of one collides with one of the other. */
  lemma HeadFixesFacts(c: Crypto, facts: seq<Fact>, others: seq<Fact>)
    requires Honest(c) && facts != [] && others != []
    requires AppendAll(c, facts).Success? && AppendAll(c, others).Success?
    ensures var a, b := AppendAll(c, facts).value, AppendAll(c, others).value;
            && |a| == |facts| && |b| == |others|
            && (facts == others ==> a[|a| - 1].hash == b[|b| - 1].hash)
            && (a[|a| - 1].hash == b[|b| - 1].hash ==>
                  facts == others || Collision(a[|a| - 1], b[|b| - 1]) || (|a| == |b| && CollidesBefore(a, b, |a|)))
  {
    AppendAllChained(c, facts);
    AppendAllChained(c, others);
    hide AppendAll, Chained, Honest, CollidesBefore, Collision;
    var a, b := AppendAll(c, facts).value, AppendAll(c, others).value;
    HeadFixesChain(c, a, b);
    if a == b { RecordsFixFacts(c, facts, others); }
  }

  // ---- what a verified export proves about its signer ----

  /** Numbered in order, hashed over its fields, joined to the record before it or to 64 zeros. */
  ghost predicate Intact(c: Crypto, records: seq<Record>, i: nat)
    requires i < |records|
  {
    var b := records[i].body;
    && b.sequence == i + 1 && records[i].hash == c.hash(b)
    && (if i == 0 then |b.previousHash| == 64 && (forall k :: 0 <= k < 64 ==> b.previousHash[k] == '0')
        else b.previousHash == records[i - 1].hash)
    && b.eventID != "" && b.aggregateID != "" && b.actorID != "" && b.occurredAt.utc && b.occurredAt.at != 0
    && |b.eventDigest| == 64 && 1 <= |b.eventType| <= 128
  }

  /** Event types and key names start with a lower-case letter and have at most 128 characters. */
  lemma TokenExactly(s: string)
    ensures Token(s) <==>
      && 1 <= |s| <= 128 && 'a' <= s[0] <= 'z'
      && forall i :: 0 <= i < |s| ==>
           'a' <= s[i] <= 'z' || '0' <= s[i] <= '9' || s[i] == '_' || s[i] == '.' || s[i] == ':' || s[i] == '-'
  {
  }

  lemma DigestExactly(s: string)
    ensures Digest(s) <==> |s| == 64 && forall i :: 0 <= i < |s| ==> '0' <= s[i] <= '9' || 'a' <= s[i] <= 'f'
  {
  }

  /** A checkpoint is signed exactly over a complete head, and says of it what the head says. */
  lemma SignedExactly(c: Crypto, tenantID: string, keyID: string, head: Record, at: Instant, key: string)
    ensures var p := SignCheckpoint(c, tenantID, keyID, head, at, key);
            && (p.Success? <==>
                  && tenantID != "" && head.body.sequence >= 1 && Digest(head.hash) && Token(keyID)
                  && at.at != 0 && at.utc)
            && (p.Success? ==>
                  var m := p.value.message;
                  && m.tenantID == tenantID && m.throughSequence == head.body.sequence && m.chainHash == head.hash
                  && m.keyID == keyID && m.createdAt == at && p.value.signature == c.sign(key, m))
  {
    hide Token, Digest;
  }

  /** What verification vouches for, record by record and checkpoint by checkpoint. */
  lemma VerifiedMeans(c: Crypto, e: Export, keys: map<string, string>)
    requires Verified(c, e, keys)
    ensures e.schemaVersion == 1 && e.tenantID != "" && e.records != [] && e.checkpoints != []
    ensures forall i :: 0 <= i < |e.records| ==> Intact(c, e.records, i)
    ensures forall p :: p in e.checkpoints ==>
      var m := p.message;
      && m.tenantID == e.tenantID && 1 <= m.throughSequence <= |e.records| && |p.signature| == 128
      && m.chainHash == e.records[m.throughSequence - 1].hash && m.createdAt.utc && m.createdAt.at != 0
      && m.keyID in keys && |keys[m.keyID]| == 32 && c.verify(keys[m.keyID], m, p.signature)
    ensures forall i, j :: 0 <= i < j < |e.checkpoints| ==>
      e.checkpoints[i].message.throughSequence < e.checkpoints[j].message.throughSequence
      && e.checkpoints[i].message.createdAt.at <= e.checkpoints[j].message.createdAt.at
  {
    forall i | 0 <= i < |e.records| ensures Intact(c, e.records, i) { assert Linked(c, e.records, i); }
    forall i | 0 <= i < |e.checkpoints| ensures Attests(c, e, keys, e.checkpoints[i]) {}
    forall i, j | 0 <= i < j < |e.checkpoints| ensures Ordered(e.checkpoints[i], e.checkpoints[j]) {}
  }

  /** For this tenant, only heads of one history were signed. */
  ghost predicate SignedHeads(tenantID: string, history: seq<Record>, signed: set<Message>) {
    forall m :: m in signed && m.tenantID == tenantID ==>
      1 <= m.throughSequence <= |history| && m.chainHash == history[m.throughSequence - 1].hash
  }

  /** A signature that a trusted key accepts although its message was never signed. */
  predicate Forged(c: Crypto, keys: map<string, string>, signed: set<Message>, p: Checkpoint) {
    p.message !in signed && p.message.keyID in keys && c.verify(keys[p.message.keyID], p.message, p.signature)
  }

  /**
   If the keys signed only heads of one history of the tenant, a verified export carries that
   history up to its last checkpoint, unless it holds a forged checkpoint or a colliding record.
   */
  lemma VerifiedPrefixWasSigned(
    c: Crypto, e: Export, keys: map<string, string>, history: seq<Record>, signed: set<Message>)
    requires Verified(c, e, keys) && Chained(c, history) && SignedHeads(e.tenantID, history, signed)
    ensures forall p :: p in e.checkpoints ==> p.message.tenantID == e.tenantID
    ensures forall p :: p in e.checkpoints ==> p.message in signed || Forged(c, keys, signed, p)
    ensures var last := e.checkpoints[|e.checkpoints| - 1];
            var k := last.message.throughSequence;
            Forged(c, keys, signed, last)
            || (1 <= k <= |e.records| && k <= |history|
                && (e.records[..k] == history[..k] <==> !CollidesBefore(e.records, history, k)))
  {
    forall i | 0 <= i < |e.checkpoints| ensures Attests(c, e, keys, e.checkpoints[i]) {}
    var last := e.checkpoints[|e.checkpoints| - 1];
    assert Attests(c, e, keys, last);
    hide Token, Digest, CollidesBefore;
    if last.message in signed { HashFixesPrefix(c, e.records, history, last.message.throughSequence); }
  }

  /** Records after the last checkpoint are not protected: an export cut there still verifies. */
  lemma UnsignedTailMayBeCut(c: Crypto, e: Export, keys: map<string, string>, n: nat)
    requires Verified(c, e, keys) && n <= |e.records|
    ensures Verified(c, e.(records := e.records[..n]), keys) <==>
      e.checkpoints[|e.checkpoints| - 1].message.throughSequence <= n
  {
    var cut := e.(records := e.records[..n]);
    var last := |e.checkpoints| - 1;
    assert Attests(c, e, keys, e.checkpoints[last]);
    if Verified(c, cut, keys) { assert Attests(c, cut, keys, cut.checkpoints[last]); }
    if e.checkpoints[last].message.throughSequence <= n {
      forall i | 0 <= i < n ensures Linked(c, cut.records, i) {
        assert Linked(c, e.records, i);
      }
      forall i | 0 <= i < |e.checkpoints| ensures Attests(c, cut, keys, e.checkpoints[i]) {
        assert Attests(c, e, keys, e.checkpoints[i]);
        assert i < last ==> Ordered(e.checkpoints[i], e.checkpoints[last]);
      }
    }
  }

  /**
   Exactly which record lists a verified export's checkpoints accept: any chain that keeps the
   signed prefix, and none other that does not collide with a signed record at its own position.
   */
  lemma SignedPrefixIsAllThatCounts(c: Crypto, e: Export, keys: map<string, string>, rs: seq<Record>)
    requires Verified(c, e, keys)
    ensures var k := e.checkpoints[|e.checkpoints| - 1].message.throughSequence;
            && k <= |e.records|
            && (Chained(c, rs) && k <= |rs| && rs[..k] == e.records[..k] ==> Verified(c, e.(records := rs), keys))
            && (Verified(c, e.(records := rs), keys) ==>
                  Chained(c, rs) && k <= |rs| && (rs[..k] == e.records[..k] || CollidesBefore(rs, e.records, k)))
  {
    var last := |e.checkpoints| - 1;
    var k := e.checkpoints[last].message.throughSequence;
    var f := e.(records := rs);
    assert Attests(c, e, keys, e.checkpoints[last]);
    if Verified(c, f, keys) {
      assert Attests(c, f, keys, f.checkpoints[last]);
      CheckpointFixesPrefix(c, f, e, keys, keys, last, last);
    }
    if Chained(c, rs) && k <= |rs| && rs[..k] == e.records[..k] { PrefixAttested(c, e, keys, rs); }
  }

  lemma PrefixAttested(c: Crypto, e: Export, keys: map<string, string>, rs: seq<Record>)
    requires Verified(c, e, keys) && Chained(c, rs)
    requires var k := e.checkpoints[|e.checkpoints| - 1].message.throughSequence;
             k <= |rs| && k <= |e.records| && rs[..k] == e.records[..k]
    ensures Verified(c, e.(records := rs), keys)
  {
    var last := |e.checkpoints| - 1;
    var k := e.checkpoints[last].message.throughSequence;
    assert Attests(c, e, keys, e.checkpoints[last]);
    forall i | 0 <= i < |e.checkpoints| ensures Attests(c, e.(records := rs), keys, e.checkpoints[i]) {
      assert Attests(c, e, keys, e.checkpoints[i]);
      assert i < last ==> Ordered(e.checkpoints[i], e.checkpoints[last]);
      var n := e.checkpoints[i].message.throughSequence;
      assert rs[..k][n - 1] == e.records[..k][n - 1];
    }
  }

  /** Every chain signed before its end is an export whose tail can be cut unnoticed. */
  lemma UnsignedTailIsAccepted(
    c: Crypto, facts: seq<Fact>, k: nat, tenantID: string, keyID: string, at: Instant, key: string,
    keys: map<string, string>)
    returns (e: Export)
    requires Honest(c) && k + 1 < |facts| && AppendAll(c, facts).Success?
    requires tenantID != "" && Token(keyID) && Stamped(at) && keyID in keys && keys[keyID] == c.public(key)
    ensures |e.records| == |facts| && Verified(c, e, keys) && Verified(c, e.(records := e.records[..k + 1]), keys)
  {
    SignedAnywhereIsVerified(c, facts, k, tenantID, keyID, at, key, keys);
    var records := AppendAll(c, facts).value;
    e := Export(SCHEMA_VERSION, tenantID, records, [SignCheckpoint(c, tenantID, keyID, records[k], at, key).value]);
    hide AppendAll, Verified, Token;
    UnsignedTailMayBeCut(c, e, keys, k + 1);
  }
}
