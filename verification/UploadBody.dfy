/**
 The streaming validator of one upload body. The source behind it may split the
 content as it likes, stall, or fail; the validator emits no more than the declared
 length and vouches for a body only when it saw all of it.
 */
module UploadBody {
  import opened Base

  newtype byte = b: int | 0 <= b < 256

  datatype Error =
    | EndOfStream | Fault | NoProgress | LengthMismatch | DigestMismatch
    | Signature | Conflict | Incomplete

  datatype ValidatedBody = ValidatedBody(bytes: nat, digest: string)

  /** How a source answers one call: at most so many bytes, then perhaps an error; end of stream only at the end. */
  datatype Reply = Reply(size: nat, fault: bool, eof: bool)

  /** A source that always makes progress, never fails, and reports its end. */
  ghost predicate Smooth(script: nat -> Reply) { forall t :: script(t).size > 0 && !script(t).fault && script(t).eof }

  ghost predicate Faulty(script: nat -> Reply) { exists t :: script(t).fault }

  function Least(a: nat, b: nat): nat { if a < b then a else b }

  /** A buffered byte source: all behaviours of the reader contract, one per script. */
  class Source {
    const content: seq<byte>
    const script: nat -> Reply
    var pos: nat
    var turn: nat

    constructor (content: seq<byte>, script: nat -> Reply)
      ensures this.content == content && this.script == script && pos == 0
    {
      this.content, this.script, pos, turn := content, script, 0, 0;
    }

    ghost predicate Valid() reads this { pos <= |content| }

    /** Looks ahead without consuming. */
    method Peek(n: nat) returns (bytes: seq<byte>, err: Option<Error>)
      requires Valid()
      modifies this`turn
      ensures err.None? ==> pos + n <= |content| && bytes == content[pos..pos + n]
      ensures err == Some(EndOfStream) ==> |content| < pos + n
      ensures err.Some? ==> err.value in {EndOfStream, Fault}
      ensures err == Some(Fault) ==> Faulty(script)
    {
      var reply := script(turn);
      turn := turn + 1;
      if reply.fault { return [], Some(Fault); }
      if |content| < pos + n { return content[pos..], Some(EndOfStream); }
      return content[pos..pos + n], None;
    }

    /** Fills a prefix of destination[..limit]. */
    method Read(destination: array<byte>, limit: nat) returns (n: nat, err: Option<Error>)
      requires Valid() && limit <= destination.Length
      modifies this, destination
      ensures Valid() && n <= limit && pos == old(pos) + n
      ensures destination[..n] == content[old(pos)..pos] && destination[n..] == old(destination[n..])
      ensures err == Some(EndOfStream) ==> pos == |content|
      ensures err.Some? ==> err.value in {EndOfStream, Fault}
      ensures err == Some(Fault) ==> Faulty(script)
      ensures Smooth(script) ==> err == if pos == |content| then Some(EndOfStream) else None
      ensures Smooth(script) && limit > 0 && n == 0 ==> pos == |content|
    {
      var reply := script(turn);
      turn := turn + 1;
      n := Least(reply.size, Least(limit, |content| - pos));
      ghost var before := destination[..];
      var i := 0;
      while i < n
        invariant 0 <= i <= n && pos == old(pos)
        invariant forall k :: 0 <= k < i ==> destination[k] == content[pos + k]
        invariant forall k :: i <= k < destination.Length ==> destination[k] == before[k]
      {
        destination[i] := content[pos + i];
        i := i + 1;
      }
      Copied(destination[..], before, content, pos, n);
      pos := pos + n;
      err := if reply.fault then Some(Fault) else if reply.eof && pos == |content| then Some(EndOfStream) else None;
    }
  }

  lemma Copied(after: seq<byte>, before: seq<byte>, content: seq<byte>, pos: nat, n: nat)
    requires n <= |after| == |before| && pos + n <= |content|
    requires forall k :: 0 <= k < n ==> after[k] == content[pos + k]
    requires forall k :: n <= k < |after| ==> after[k] == before[k]
    ensures after[..n] == content[pos..pos + n] && after[n..] == before[n..]
  {
  }

  const JPEG: seq<byte> := [0xff, 0xd8, 0xff]
  const PNG: seq<byte> := [0x89, 0x50, 0x4e, 0x47, 0x0d, 0x0a, 0x1a, 0x0a]

  datatype MediaType = ImageJPEG | ImagePNG | Other

  predicate Signed(media: MediaType, content: seq<byte>) {
    match media
    case ImageJPEG => JPEG <= content
    case ImagePNG => PNG <= content
    case Other => false
  }

  lemma SignedExactly(media: MediaType, content: seq<byte>)
    ensures Signed(media, content) <==>
      || (media == ImageJPEG && |content| >= 3 && content[0] == 0xff && content[1] == 0xd8 && content[2] == 0xff)
      || (media == ImagePNG && |content| >= 8 && content[0] == 137 && content[1] == 'P' as int as byte
          && content[2] == 'N' as int as byte && content[3] == 'G' as int as byte
          && content[4] == 13 && content[5] == 10 && content[6] == 26 && content[7] == 10)
  {
  }

  method ValidateSignature(source: Source, media: MediaType) returns (err: Option<Error>)
    requires source.Valid()
    modifies source`turn
    ensures err.None? ==> Signed(media, source.content[source.pos..])
    ensures err == Some(Signature) ==> !Signed(media, source.content[source.pos..])
    ensures err.Some? ==> err.value in {Signature, Fault}
    ensures err == Some(Fault) ==> Faulty(source.script)
  {
    if media == Other { return Some(Signature); }
    var signature := if media == ImageJPEG then JPEG else PNG;
    var observed, failed := source.Peek(|signature|);
    ghost var rest := source.content[source.pos..];
    if failed.Some? {
      return if failed.value == EndOfStream then Some(Signature) else Some(Fault);
    }
    assert observed == rest[..|signature|];
    err := if observed != signature then Some(Signature) else None;
  }

  /** What is wrong with a body that a source delivered to its end: first its length, then its digest. */
  function Mismatch(bytes: nat, digest: string, expectedBytes: nat, expectedDigest: string): Option<Error> {
    if bytes != expectedBytes then Some(LengthMismatch)
    else if digest != expectedDigest then Some(DigestMismatch) else None
  }

  class UploadReader {
    const source: Source
    const digest: seq<byte> -> string
    const expectedBytes: nat
    const expectedDigest: string
    var digested: seq<byte>
    var observedBytes: nat
    var result: ValidatedBody
    var terminal: Option<Error>
    var isValidated: bool
    ghost const body: seq<byte>
    ghost var emitted: seq<byte>

    /** What the terminal error says is so. */
    ghost predicate Truthful() reads this {
      && (terminal == Some(LengthMismatch) ==> |body| != expectedBytes)
      && (terminal == Some(DigestMismatch) ==> |body| == expectedBytes && digest(body) != expectedDigest)
      && (terminal == Some(Fault) ==> Faulty(source.script))
      && (terminal.Some? ==> terminal.value in {LengthMismatch, DigestMismatch, Fault, NoProgress})
    }

    ghost predicate Vouched() reads this {
      && terminal.None? && emitted == body && |body| == expectedBytes && digest(body) == expectedDigest
      && result == ValidatedBody(|body|, digest(body))
    }

    /** The body is the declared one and the source delivers it. */
    ghost predicate Deliverable() reads this {
      Smooth(source.script) && |body| == expectedBytes && digest(body) == expectedDigest
    }

    ghost predicate Valid() reads this, source {
      && source.Valid() && emitted <= body && |emitted| == observedBytes <= expectedBytes && digested == emitted
      && (terminal.None? ==> source.content[source.pos..] == body[observedBytes..])
      && (terminal.None? && !isValidated ==> observedBytes < expectedBytes)
      && (isValidated ==> Vouched()) && Truthful()
    }

    constructor (source: Source, digest: seq<byte> -> string, expectedBytes: nat, expectedDigest: string)
      requires source.Valid() && expectedBytes >= 1
      ensures Valid() && this.source == source && this.digest == digest && this.expectedBytes == expectedBytes
      ensures this.expectedDigest == expectedDigest
      ensures body == source.content[source.pos..] && emitted == [] && terminal.None? && !isValidated
    {
      this.source, this.digest, this.expectedBytes, this.expectedDigest := source, digest, expectedBytes,
        expectedDigest;
      digested, observedBytes, result, terminal, isValidated := [], 0, ValidatedBody(0, ""), None, false;
      body, emitted := source.content[source.pos..], [];
    }

    /** Streams no more than the declared length; the read that reaches it also settles the verdict. */
    method Read(destination: array<byte>) returns (n: nat, err: Option<Error>)
      requires Valid()
      modifies this, source, destination
      ensures Valid() && n <= destination.Length && emitted == old(emitted) + destination[..n]
      ensures old(terminal).Some? ==> terminal == old(terminal) && n == 0
      ensures old(isValidated) ==> isValidated && result == old(result) && n == 0
      ensures destination.Length > 0 ==>
        err == if old(terminal.None? && isValidated) then Some(EndOfStream) else terminal
      ensures destination.Length == 0 ==>
        n == 0 && err.None? && terminal == old(terminal) && isValidated == old(isValidated)
      ensures n == 0 && destination.Length > 0 ==> terminal.Some? || isValidated
      ensures Deliverable() && old(terminal).None? ==> terminal.None?
      ensures Smooth(source.script) && terminal.Some? && old(terminal).None? ==>
        terminal == Mismatch(|body|, digest(body), expectedBytes, expectedDigest)
      ensures Smooth(source.script) && isValidated && !old(isValidated) ==>
        Mismatch(|body|, digest(body), expectedBytes, expectedDigest).None?
    {
      if destination.Length == 0 { return 0, None; }
      if terminal.Some? { return 0, terminal; }
      if isValidated { return 0, Some(EndOfStream); }
      var limit := Least(destination.Length, expectedBytes - observedBytes);
      var failed;
      n, failed := source.Read(destination, limit);
      Taken(source.content, old(source.pos), source.pos, body, emitted, destination[..n]);
      if n > 0 {
        digested := digested + destination[..n];
        observedBytes := observedBytes + n;
      }
      emitted := emitted + destination[..n];
      if failed == Some(Fault) {
        terminal := Some(Fault);
        return n, terminal;
      }
      if observedBytes < expectedBytes {
        if failed == Some(EndOfStream) {
          terminal := Some(LengthMismatch);
        } else if n == 0 {
          terminal := Some(NoProgress);
        }
        return n, terminal;
      }
      var verdict := Finalise();
      terminal := verdict;
      return n, verdict;
    }

    /** Nothing may follow the declared length, and the digest must be the declared one. */
    method Finalise() returns (verdict: Option<Error>)
      requires source.Valid() && observedBytes == expectedBytes == |emitted| && digested == emitted <= body
      requires !isValidated && terminal.None?
      requires source.content[source.pos..] == body[observedBytes..]
      modifies this`result, this`isValidated, source
      ensures source.Valid() && (verdict.None? <==> isValidated) && (isValidated ==> Vouched())
      ensures verdict.None? ==> source.content[source.pos..] == body[observedBytes..]
      ensures verdict == Some(LengthMismatch) ==> |body| != expectedBytes
      ensures verdict == Some(DigestMismatch) ==> |body| == expectedBytes && digest(body) != expectedDigest
      ensures verdict.Some? ==> verdict.value in {LengthMismatch, DigestMismatch, Fault, NoProgress}
      ensures verdict == Some(Fault) ==> Faulty(source.script)
      ensures Deliverable() ==> verdict.None?
      ensures Smooth(source.script) ==>
        verdict == Mismatch(|body|, digest(body), expectedBytes, expectedDigest)
    {
      var extra := new byte[1];
      var n, failed := source.Read(extra, 1);
      if n > 0 { return Some(LengthMismatch); }
      if failed.None? { return Some(NoProgress); }
      if failed.value != EndOfStream { return Some(Fault); }
      assert source.content[source.pos..] == [] && emitted == body;
      if digest(digested) != expectedDigest { return Some(DigestMismatch); }
      result := ValidatedBody(observedBytes, digest(digested));
      isValidated := true;
      return None;
    }

    /** The observed facts, only for a stream read and validated to its end. */
    method Result() returns (r: Result<ValidatedBody, Error>)
      requires Valid()
      ensures r.Success? <==> isValidated
      ensures r.Success? ==> emitted == body && |body| == expectedBytes && digest(body) == expectedDigest
      ensures r.Success? ==> r.value == ValidatedBody(|body|, digest(body))
      ensures r.Failure? ==> r.error == if terminal.Some? then terminal.value else Incomplete
    {
      if terminal.Some? { return Failure(terminal.value); }
      if !isValidated { return Failure(Incomplete); }
      return Success(result);
    }
  }

  /** What was read next continues what was emitted, and leaves the rest of the body. */
  lemma Taken(content: seq<byte>, from: nat, to: nat, body: seq<byte>, emitted: seq<byte>, chunk: seq<byte>)
    requires from <= to <= |content| && emitted <= body && content[from..] == body[|emitted|..]
    requires chunk == content[from..to]
    ensures emitted + chunk <= body && content[to..] == body[|emitted + chunk|..]
  {
    var seen, k := |emitted|, to - from;
    assert |content[from..]| == |body[seen..]|;
    assert content[from..to] == content[from..][..k] && content[to..] == content[from..][k..];
    assert body[seen..seen + k] == body[seen..][..k] && body[seen + k..] == body[seen..][k..];
    assert body[..seen + k] == body[..seen] + body[seen..seen + k];
  }

  /**
   A consumer that reads with any sequence of buffer sizes and asks for the result. It
   holds for every content, every way the source splits or fails it, and every size.
   */
  method Consume(content: seq<byte>, script: nat -> Reply, media: MediaType, uploading: bool,
                 digest: seq<byte> -> string, expectedBytes: nat, expectedDigest: string, sizes: seq<nat>)
    returns (out: seq<byte>, r: Result<ValidatedBody, Error>)
    ensures out <= content && |out| <= expectedBytes
    ensures r.Success? ==>
      out == content && |content| == expectedBytes >= 1 && digest(content) == expectedDigest && Signed(media, content)
    ensures r.Success? ==> r.value == ValidatedBody(expectedBytes, expectedDigest) && uploading
    ensures r == Failure(Conflict) <==> !uploading || expectedBytes < 1
    ensures r == Failure(Signature) ==> out == [] && !Signed(media, content)
    ensures r == Failure(LengthMismatch) ==> |content| != expectedBytes
    ensures r == Failure(DigestMismatch) ==> |content| == expectedBytes && digest(content) != expectedDigest
    ensures out != [] ==> Signed(media, content)
    ensures r == Failure(Fault) ==> Faulty(script)
    ensures (Smooth(script) && uploading && |sizes| >= expectedBytes >= 1 && forall i :: 0 <= i < |sizes| ==>
          sizes[i] > 0) ==>
      r == if !Signed(media, content) then Failure(Signature)
           else
             match Mismatch(|content|, digest(content), expectedBytes, expectedDigest)
             case Some(e) => Failure(e)
             case None => Success(ValidatedBody(|content|, digest(content)))
  {
    if !uploading || expectedBytes < 1 { return [], Failure(Conflict); }
    var source := new Source(content, script);
    var refused := ValidateSignature(source, media);
    assert content[0..] == content;
    if refused.Some? { return [], Failure(refused.value); }
    var reader := new UploadReader(source, digest, expectedBytes, expectedDigest);
    out := [];
    var i := 0;
    while i < |sizes|
      invariant 0 <= i <= |sizes| && fresh(reader) && fresh(source) && reader.source == source && reader.Valid()
      invariant reader.digest == digest && reader.expectedBytes == expectedBytes
      invariant reader.expectedDigest == expectedDigest
      invariant reader.body == content && out == reader.emitted
      invariant Smooth(script) && reader.terminal.Some? ==>
        reader.terminal == Mismatch(|content|, digest(content), expectedBytes, expectedDigest)
      invariant Smooth(script) && (forall k :: 0 <= k < |sizes| ==> sizes[k] > 0) ==>
        reader.terminal.Some? || reader.isValidated || |out| >= i
    {
      var destination := new byte[sizes[i]];
      var n, err := reader.Read(destination);
      out := out + destination[..n];
      i := i + 1;
    }
    r := reader.Result();
  }
}
