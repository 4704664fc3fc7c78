/** Which chunks an upload accepts, and that a file sent whole arrives (apps/atlasd/routes/chunked-upload.ts:193-311).
    */
module UploadRuns {
  import opened Options
  import opened UploadSteps

  /** The number of chunks is the least that covers the file. */
  lemma TotalChunksIsLeast(fileSize: nat, n: nat)
    ensures TotalChunks(fileSize) <= n <==> fileSize <= n * CHUNK_SIZE
  {
  }

  /** A body that is there, is written, and is not too long. */
  predicate Fits(c: Chunk) {
    c.body.Some? && c.write == Written && |c.body.value| <= CHUNK_SIZE
  }

  /** A chunk is accepted exactly while the session is uploading, for an index of the file, with a header of at most
      the chunk size, and either a second time or with a body that is written and not longer than that. */
  lemma AcceptedExactly(s: Session, c: Chunk, i: nat)
    ensures Put(s, c).1 == Accepted(i) <==>
      && i == c.index && s.status == Uploading && i * CHUNK_SIZE < s.fileSize && c.contentLength <= CHUNK_SIZE
      && (i in s.completed || Fits(c))
  {
    TotalChunksIsLeast(s.fileSize, c.index);
    hide TotalChunks;
  }

  /** A chunk is received by being accepted for the first time, and in no other way; its body is what is kept. */
  lemma ReceivedExactly(s: Session, c: Chunk)
    ensures var (t, r) := Put(s, c);
      && t.completed == s.completed + (if r == Accepted(c.index) then {c.index} else {})
      && (c.index !in s.completed && r == Accepted(c.index) ==>
            c.body.Some? && t.accepted == s.accepted[c.index := c.body.value]
              && t.files == s.files[c.index := c.body.value])
      && (c.index in s.completed || r != Accepted(c.index) ==> t.accepted == s.accepted)
      && (c.index in s.completed ==> t == s)
      && (forall i | i != c.index :: i in t.files <==> i in s.files)
      && (forall i | i != c.index && i in s.files :: t.files[i] == s.files[i])
  {
    hide TotalChunks;
  }

  // ---- a file sent whole ----

  /** A PUT of piece `i` with nothing in its way, under a header that is not too large. */
  predicate Sends(content: Bytes, step: Step, i: nat) {
    && step.PutChunk? && step.chunk.index == i && step.chunk.contentLength <= CHUNK_SIZE
    && step.chunk.body == Some(Piece(content, i)) && step.chunk.write == Written
  }

  ghost predicate SomeSends(content: Bytes, steps: seq<Step>, i: nat) {
    exists k :: 0 <= k < |steps| && Sends(content, steps[k], i)
  }

  /** Only PUTs, and for every index one with nothing in its way; order, repeats and failures do not matter. */
  ghost predicate SendsWhole(content: Bytes, steps: seq<Step>) {
    && (forall k | 0 <= k < |steps| :: steps[k].PutChunk?)
    && (forall i | 0 <= i < TotalChunks(|content|) :: SomeSends(content, steps, i))
  }

  lemma PieceFits(content: Bytes, i: nat)
    ensures |Piece(content, i)| <= CHUNK_SIZE
  {
  }

  lemma PutStaysOpen(w: World, step: Step)
    requires step.PutChunk? && w.listed && w.session.status == Uploading
    ensures var v := Next(w, step);
      v.listed && v.session.status == Uploading && w.session.completed <= v.session.completed
  {
    hide TotalChunks;
  }

  lemma SentIsReceived(content: Bytes, w: World, step: Step, i: nat)
    requires w.listed && w.session.status == Uploading && w.session.fileSize == |content|
    requires i < TotalChunks(|content|) && Sends(content, step, i)
    ensures i in Next(w, step).session.completed
  {
    PieceFits(content, i);
    hide TotalChunks, Piece;
  }

  lemma {:induction false} PutsStayOpen(w: World, steps: seq<Step>)
    requires w.listed && w.session.status == Uploading && forall k | 0 <= k < |steps| :: steps[k].PutChunk?
    ensures var v := Run(w, steps); v.listed && v.session.status == Uploading
  {
    hide Next;
    if steps != [] {
      PutsStayOpen(w, steps[..|steps| - 1]);
      PutStaysOpen(Run(w, steps[..|steps| - 1]), steps[|steps| - 1]);
    }
  }

  /** Once sent, a piece stays received. */
  lemma {:induction false} SentStays(content: Bytes, w: World, steps: seq<Step>, k: nat, i: nat)
    requires Valid(w) && w.listed && w.session.status == Uploading && w.session.fileSize == |content|
    requires forall k | 0 <= k < |steps| :: steps[k].PutChunk?
    requires k < |steps| && Sends(content, steps[k], i) && i < TotalChunks(|content|)
    ensures i in Run(w, steps).session.completed
  {
    var init, last := steps[..|steps| - 1], steps[|steps| - 1];
    PutsStayOpen(w, init);
    RunFollows(w, init);
    hide Valid, Sends, TotalChunks;
    var v := Run(w, init);
    if k == |init| {
      hide Next, Run, Later;
      assert v.session.fileSize == |content| by {
        assert Later(w.session, v.session);
      }
      SentIsReceived(content, v, last, i);
    } else {
      SentStays(content, w, init, k, i);
      PutStaysOpen(v, last);
    }
  }

  /** A new session that gets every piece, in any order and with any failures besides, has received all chunks. */
  lemma WholeIsReceived(content: Bytes, now: int, steps: seq<Step>)
    requires SendsWhole(content, steps)
    ensures var w := Run(World(Started(|content|, now), true), steps);
      w.listed && w.session.status == Uploading && AllReceived(w.session)
  {
    var w := World(Started(|content|, now), true);
    StartIsValid(|content|, now);
    PutsStayOpen(w, steps);
    RunFollows(w, steps);
    var v := Run(w, steps);
    hide Run, Valid, TotalChunks;
    forall i | 0 <= i < TotalChunks(v.session.fileSize) ensures i in v.session.completed {
      assert SomeSends(content, steps, i);
      var k :| 0 <= k < |steps| && Sends(content, steps[k], i);
      SentStays(content, w, steps, k, i);
    }
  }

  /** And so the upload of any file completes with that file: its pieces, then the request to complete, the assembly
      and an artifact store that accepts. */
  lemma UploadArrives(content: Bytes, now: int, steps: seq<Step>, id: string, mismatch: string)
    requires Honest(content, steps) && SendsWhole(content, steps)
    ensures var w := Run(World(Started(|content|, now), true), steps);
      var v := Next(Run(Next(w, CompleteUpload), Reads(TotalChunks(|content|))), AssembleEnd(Stored(id), mismatch));
      v.session.status == Completed && v.session.handed == Some(content) && v.session.result == Some(Artifact(id))
  {
    WholeIsReceived(content, now, steps);
    RunHoldsPieces(content, now, steps);
    RunKeeps(|content|, now, steps);
    hide Run, Next, Valid, AllReceived, HoldsPieces, SendsWhole, TotalChunks;
    CompletesWithTheFile(content, Run(World(Started(|content|, now), true), steps), id, mismatch);
  }

  /** Every piece under its own length, in some order. */
  function Pieces(content: Bytes, order: seq<nat>): seq<Step> {
    seq(|order|, k requires 0 <= k < |order| =>
      PutChunk(Chunk(order[k], |Piece(content, order[k])|, Some(Piece(content, order[k])), Written)))
  }

  /** All pieces under their own lengths, in any order, are such a run. */
  lemma PiecesArrive(content: Bytes, now: int, order: seq<nat>, id: string, mismatch: string)
    requires forall i | 0 <= i < TotalChunks(|content|) :: i in order
    ensures var w := Run(World(Started(|content|, now), true), Pieces(content, order));
      var v := Next(Run(Next(w, CompleteUpload), Reads(TotalChunks(|content|))), AssembleEnd(Stored(id), mismatch));
      v.session.status == Completed && v.session.handed == Some(content)
  {
    hide Run, Next, Piece, TotalChunks;
    var steps := Pieces(content, order);
    assert Honest(content, steps);
    forall i | 0 <= i < TotalChunks(|content|) ensures SomeSends(content, steps, i) {
      assert i in order;
      var k :| 0 <= k < |order| && order[k] == i;
      PieceFits(content, i);
      assert Sends(content, steps[k], i);
    }
    UploadArrives(content, now, steps, id, mismatch);
  }

  // ---- expiry ----

  /** A session leaves the map exactly when a sweep finds it older than two hours; nothing else takes it out or
      changes it. */
  lemma SweptExactly(w: World, now: int, kept: set<nat>)
    requires w.listed
    ensures var v := Next(w, Cleanup(now, kept));
      && (v.listed <==> now - w.session.createdAt <= 2 * 60 * 60 * 1000)
      && (v.listed ==> v == w)
      && v.session == w.session.(files := v.session.files)
      && (!v.listed ==> forall i :: i in v.session.files <==> i in w.session.files && i in kept)
  {
  }

  lemma OnlySweptLeaves(w: World, step: Step)
    requires w.listed && !step.Cleanup?
    ensures Next(w, step).listed
  {
    hide TotalChunks;
  }

  /** Requests no longer reach a session that has left. */
  lemma GoneIsGone(w: World, step: Step)
    requires !w.listed && (step.PutChunk? || step.CompleteUpload? || step.Cleanup?)
    ensures Next(w, step) == w
  {
  }
}
