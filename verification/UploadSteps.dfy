/**
 * One chunked upload as a state machine (apps/atlasd/routes/chunked-upload.ts:193-311, 345-409).
 * Requests, the background assembly and the expiry of the session may interleave in any order; each PUT is one step.
 */
module UploadSteps {
  import opened Options

  type Bytes = seq<bv8>

  const CHUNK_SIZE: nat := 5242880
  const CHUNKED_UPLOAD_TTL_MS: nat := 7200000

  datatype Status = Uploading | Completing | Completed | Failed

  datatype Result = Artifact(id: string) | Error(message: string)

  /** The background assembly: chunk files are read in order into one buffer. */
  datatype Job = Idle | Reading(next: nat, buffer: Bytes) | Done

  /**
   * A session. `files` is its temporary directory; `accepted` keeps, for the proofs, the body first accepted for
   * each index, `starts` how often assembly began, and `handed` the content given to the artifact store.
   */
  datatype Session = Session(
    fileSize: nat,
    createdAt: int,
    completed: set<nat>,
    files: map<nat, Bytes>,
    status: Status,
    job: Job,
    result: Option<Result>,
    accepted: map<nat, Bytes>,
    starts: nat,
    handed: Option<Bytes>)

  function TotalChunks(fileSize: nat): nat {
    (fileSize + CHUNK_SIZE - 1) / CHUNK_SIZE
  }

  function Started(fileSize: nat, now: int): Session {
    Session(fileSize, now, {}, map[], Uploading, Idle, None, map[], 0, None)
  }

  // ---- the steps ----

  /** What writing the body to disk does. */
  datatype Write = Written | Interrupted(partial: Bytes)

  /** `contentLength` is the header as a number, -1 when there is none. */
  datatype Chunk = Chunk(index: nat, contentLength: int, body: Option<Bytes>, write: Write)

  datatype Response = Accepted(index: nat) | Accepting202 | Refused(code: nat)

  function Store(s: Session, i: nat, body: Bytes): Session {
    s.(files := s.files[i := body], completed := s.completed + {i}, accepted := s.accepted[i := body])
  }

  function Put(s: Session, c: Chunk): (Session, Response) {
    if s.status != Uploading then (s, Refused(409))
    else if c.index >= TotalChunks(s.fileSize) then (s, Refused(400))
    else if c.contentLength > CHUNK_SIZE then (s, Refused(413))
    else if c.index in s.completed then (s, Accepted(c.index))
    else if c.body.None? then (s, Refused(400))
    else if c.write.Interrupted? then (s.(files := s.files[c.index := c.write.partial]), Refused(500))
    else if |c.body.value| > CHUNK_SIZE then (s.(files := s.files - {c.index}), Refused(413))
    else (Store(s, c.index, c.body.value), Accepted(c.index))
  }

  predicate AllReceived(s: Session) {
    forall i | 0 <= i < TotalChunks(s.fileSize) :: i in s.completed
  }

  function Complete(s: Session): (Session, Response) {
    if s.status != Uploading then (s, Refused(409))
    else if !AllReceived(s) then (s, Refused(400))
    else (s.(status := Completing, job := Reading(0, []), starts := s.starts + 1), Accepting202)
  }

  /** Every way in which assembly ends: the job is over and the directory is removed. */
  function End(s: Session, status: Status, result: Result): Session {
    s.(status := status, result := Some(result), job := Done, files := map[])
  }

  function Broken(s: Session): Session {
    End(s, Failed, Error("Upload completion failed"))
  }

  function ReadNext(s: Session): Session {
    if !s.job.Reading? || s.job.next >= TotalChunks(s.fileSize) then s
    else if s.job.next in s.files then s.(job := Reading(s.job.next + 1, s.job.buffer + s.files[s.job.next]))
    else Broken(s)
  }

  /** What the artifact store answers for the assembled file. */
  datatype Answer = Stored(id: string) | Rejected(error: string) | Threw

  function Finish(s: Session, a: Answer, mismatch: string): Session {
    if !s.job.Reading? || s.job.next < TotalChunks(s.fileSize) then s
    else if |s.job.buffer| != s.fileSize then End(s, Failed, Error(mismatch))
    else
      var t := s.(handed := Some(s.job.buffer));
      match a
      case Stored(id) => End(t, Completed, Artifact(id))
      case Rejected(e) => End(t, Failed, Error(e))
      case Threw => Broken(t)
  }

  /** The session with its place in the map of sessions. */
  datatype World = World(session: Session, listed: bool)

  datatype Step =
    | PutChunk(chunk: Chunk)
    | CompleteUpload
    | AssembleNext
    | AssembleEnd(answer: Answer, mismatch: string)
    | AssembleFails
    | Cleanup(now: int, kept: set<nat>)

  /** `Cleanup` may find files that it fails to remove, or that a reader still sees: those in `kept`. */
  function Next(w: World, step: Step): World {
    match step
    case PutChunk(c) => if w.listed then w.(session := Put(w.session, c).0) else w
    case CompleteUpload => if w.listed then w.(session := Complete(w.session).0) else w
    case AssembleNext => w.(session := ReadNext(w.session))
    case AssembleEnd(a, m) => w.(session := Finish(w.session, a, m))
    case AssembleFails => if w.session.job.Reading? then w.(session := Broken(w.session)) else w
    case Cleanup(now, kept) =>
      if w.listed && now - w.session.createdAt > CHUNKED_UPLOAD_TTL_MS
      then World(w.session.(files := map i | i in w.session.files && i in kept :: w.session.files[i]), false)
      else w
  }

  function Run(w: World, steps: seq<Step>): World {
    if steps == [] then w else Next(Run(w, steps[..|steps| - 1]), steps[|steps| - 1])
  }

  // ---- what every step keeps ----

  /** The chunks below `n`, in order. */
  function Concat(chunks: map<nat, Bytes>, n: nat): Bytes {
    if n == 0 then [] else Concat(chunks, n - 1) + (if n - 1 in chunks then chunks[n - 1] else [])
  }

  ghost predicate FilesAgree(s: Session) {
    forall i | i in s.files && i in s.accepted :: s.files[i] == s.accepted[i]
  }

  ghost predicate ChunksFit(s: Session) {
    forall i | i in s.accepted :: i < TotalChunks(s.fileSize) && |s.accepted[i]| <= CHUNK_SIZE
  }

  ghost predicate StatusFits(s: Session) {
    match s.status
    case Uploading => s.job == Idle && s.starts == 0 && s.handed == None && s.result == None
    case Completing =>
      && s.job.Reading? && s.starts == 1 && s.result == None && AllReceived(s)
      && s.job.next <= TotalChunks(s.fileSize) && s.job.buffer == Concat(s.accepted, s.job.next)
    case Completed =>
      && s.job == Done && s.starts == 1 && AllReceived(s) && s.result.Some? && s.result.value.Artifact?
      && s.handed == Some(Concat(s.accepted, TotalChunks(s.fileSize))) && |s.handed.value| == s.fileSize
    case Failed => s.job == Done && s.starts == 1 && AllReceived(s) && s.result.Some? && s.result.value.Error?
  }

  ghost predicate HandedFits(s: Session) {
    s.handed.Some? ==> s.handed.value == Concat(s.accepted, TotalChunks(s.fileSize)) && |s.handed.value| == s.fileSize
  }

  ghost predicate Valid(w: World) {
    var s := w.session;
    && s.completed == s.accepted.Keys
    && FilesAgree(s) && ChunksFit(s) && StatusFits(s) && HandedFits(s)
    && (w.listed && s.job != Done ==> s.completed <= s.files.Keys)
  }

  predicate Forward(a: Status, b: Status) {
    a == b || (a == Uploading && b == Completing) || (a == Completing && (b == Completed || b == Failed))
  }

  /** How one step may change a session: the status moves forward, and no accepted chunk is replaced. */
  ghost predicate Follows(a: Session, b: Session) {
    && b.fileSize == a.fileSize
    && Forward(a.status, b.status)
    && a.completed <= b.completed
    && (forall i | i in a.accepted :: i in b.accepted && b.accepted[i] == a.accepted[i])
    && a.starts <= b.starts
    && (b.starts > a.starts ==> b.status == Completing && AllReceived(b))
    && (a.status != Uploading ==> b.accepted == a.accepted)
  }

  lemma PutKeeps(w: World, c: Chunk)
    requires Valid(w) && w.listed
    ensures Valid(w.(session := Put(w.session, c).0)) && Follows(w.session, Put(w.session, c).0)
  {
    hide TotalChunks, Concat;
  }

  lemma CompleteKeeps(w: World)
    requires Valid(w) && w.listed
    ensures Valid(w.(session := Complete(w.session).0)) && Follows(w.session, Complete(w.session).0)
  {
    hide TotalChunks;
  }

  lemma ReadNextKeeps(w: World)
    requires Valid(w)
    ensures Valid(w.(session := ReadNext(w.session))) && Follows(w.session, ReadNext(w.session))
  {
    var s := w.session;
    hide TotalChunks;
    if s.job.Reading? && s.job.next < TotalChunks(s.fileSize) {
      assert s.job.next in s.completed;
    }
  }

  lemma FinishKeeps(w: World, a: Answer, mismatch: string)
    requires Valid(w)
    ensures Valid(w.(session := Finish(w.session, a, mismatch))) && Follows(w.session, Finish(w.session, a, mismatch))
  {
    hide TotalChunks, Concat;
  }

  lemma CleanupKeeps(w: World, now: int, kept: set<nat>)
    requires Valid(w)
    ensures var v := Next(w, Cleanup(now, kept)); Valid(v) && Follows(w.session, v.session)
  {
    hide TotalChunks, Concat;
  }

  lemma Still(s: Session)
    ensures Follows(s, s)
  {
  }

  /** Every step keeps the invariant and follows the order of states. */
  lemma StepKeeps(w: World, step: Step)
    requires Valid(w)
    ensures Valid(Next(w, step)) && Follows(w.session, Next(w, step).session)
  {
    match step
    case PutChunk(c) =>
      if w.listed { PutKeeps(w, c); }
      hide Valid, Put, Follows, StatusFits;
      Still(w.session);
    case CompleteUpload =>
      if w.listed { CompleteKeeps(w); }
      hide Valid, Complete, StatusFits;
    case AssembleNext => ReadNextKeeps(w);
    case AssembleEnd(a, m) => FinishKeeps(w, a, m);
    case AssembleFails => hide Concat, TotalChunks;
    case Cleanup(now, kept) => CleanupKeeps(w, now, kept);
  }

  lemma StartIsValid(fileSize: nat, now: int)
    ensures Valid(World(Started(fileSize, now), true))
  {
  }

  /** Over any run: assembly starts at most once, never before every chunk is there, and not again afterwards. */
  lemma {:induction false} RunKeeps(fileSize: nat, now: int, steps: seq<Step>)
    ensures var w := Run(World(Started(fileSize, now), true), steps);
      Valid(w) && w.session.fileSize == fileSize && w.session.starts <= 1
      && (w.session.starts == 1 <==> w.session.status != Uploading)
      && (w.session.status != Uploading ==> AllReceived(w.session))
  {
    var w := World(Started(fileSize, now), true);
    if steps == [] {
      StartIsValid(fileSize, now);
    } else {
      var init := steps[..|steps| - 1];
      RunKeeps(fileSize, now, init);
      StepKeeps(Run(w, init), steps[|steps| - 1]);
      hide Next, FilesAgree, ChunksFit, HandedFits, Concat, AllReceived;
    }
  }

  /** What a later point of a run may have made of an earlier one. */
  ghost predicate Later(a: Session, b: Session) {
    && (forall i | i in a.accepted :: i in b.accepted && b.accepted[i] == a.accepted[i])
    && a.completed <= b.completed && b.fileSize == a.fileSize
    && (a.status == Completed || a.status == Failed ==> b.status == a.status)
    && (a.status == Completing ==> b.status != Uploading)
    && (a.status != Uploading ==> b.accepted == a.accepted && b.starts == a.starts)
  }

  /** Between any two points of a run the status only moves forward and an accepted chunk stays what it was. */
  lemma {:induction false} RunFollows(w: World, steps: seq<Step>)
    requires Valid(w)
    ensures Valid(Run(w, steps)) && Later(w.session, Run(w, steps).session)
  {
    if steps != [] {
      var init := steps[..|steps| - 1];
      RunFollows(w, init);
      StepKeeps(Run(w, init), steps[|steps| - 1]);
      hide Next, FilesAgree, ChunksFit, HandedFits, Concat, AllReceived;
    }
  }

  /** Completed means that every index was received and that the stored file has the declared length. */
  lemma CompletedMeans(fileSize: nat, now: int, steps: seq<Step>)
    ensures var s := Run(World(Started(fileSize, now), true), steps).session;
      s.status == Completed ==>
        && (forall i: nat :: i in s.completed <==> i < TotalChunks(fileSize))
        && s.handed == Some(Concat(s.accepted, TotalChunks(fileSize))) && |s.handed.value| == fileSize
  {
    RunKeeps(fileSize, now, steps);
    hide Run, TotalChunks, Concat;
  }

  // ---- a file cut into chunks ----

  function Min(a: nat, b: nat): nat {
    if a <= b then a else b
  }

  /** The part of a file that chunk `i` carries. */
  function Piece(content: Bytes, i: nat): Bytes {
    content[Min(i * CHUNK_SIZE, |content|)..Min((i + 1) * CHUNK_SIZE, |content|)]
  }

  lemma PieceContinues(content: Bytes, i: nat)
    ensures content[..Min(i * CHUNK_SIZE, |content|)] + Piece(content, i)
      == content[..Min((i + 1) * CHUNK_SIZE, |content|)]
  {
    var a, b := Min(i * CHUNK_SIZE, |content|), Min((i + 1) * CHUNK_SIZE, |content|);
    assert a <= b;
    hide Min;
    assert content[..a] + content[a..b] == content[..b];
  }

  lemma {:induction false} ConcatPieces(content: Bytes, chunks: map<nat, Bytes>, n: nat)
    requires forall i | 0 <= i < n :: i in chunks && chunks[i] == Piece(content, i)
    ensures Concat(chunks, n) == content[..Min(n * CHUNK_SIZE, |content|)]
  {
    if n > 0 {
      ConcatPieces(content, chunks, n - 1);
      hide Piece;
      PieceContinues(content, n - 1);
    }
  }

  lemma ChunksCover(fileSize: nat)
    ensures fileSize <= TotalChunks(fileSize) * CHUNK_SIZE
  {
  }

  /** Every PUT for a real index carries that part of the file. */
  ghost predicate Honest(content: Bytes, steps: seq<Step>) {
    forall k | 0 <= k < |steps| && steps[k].PutChunk? && steps[k].chunk.body.Some? ::
      steps[k].chunk.index < TotalChunks(|content|) ==>
        steps[k].chunk.body.value == Piece(content, steps[k].chunk.index)
  }

  ghost predicate HoldsPieces(content: Bytes, s: Session) {
    s.fileSize == |content| && forall i | i in s.accepted :: s.accepted[i] == Piece(content, i)
  }

  lemma StepHoldsPieces(content: Bytes, w: World, step: Step)
    requires Valid(w) && HoldsPieces(content, w.session)
    requires step.PutChunk? && step.chunk.body.Some? && step.chunk.index < TotalChunks(|content|)
      ==> step.chunk.body.value == Piece(content, step.chunk.index)
    ensures HoldsPieces(content, Next(w, step).session)
  {
    StepKeeps(w, step);
    hide TotalChunks, Concat, Piece, Valid;
  }

  lemma {:induction false} RunHoldsPieces(content: Bytes, now: int, steps: seq<Step>)
    requires Honest(content, steps)
    ensures HoldsPieces(content, Run(World(Started(|content|, now), true), steps).session)
  {
    if steps != [] {
      var init := steps[..|steps| - 1];
      assert Honest(content, init);
      RunHoldsPieces(content, now, init);
      RunKeeps(|content|, now, init);
      hide Valid, Piece, TotalChunks, HoldsPieces;
      StepHoldsPieces(content, Run(World(Started(|content|, now), true), init), steps[|steps| - 1]);
    }
  }

  /** The pieces in any order, with any repeats and failures in between: what reaches the artifact store is the file. */
  lemma Reassembled(content: Bytes, now: int, steps: seq<Step>)
    requires Honest(content, steps)
    ensures var s := Run(World(Started(|content|, now), true), steps).session;
      && (s.handed.Some? ==> s.handed.value == content)
      && (s.status == Completed ==> s.handed == Some(content))
  {
    RunHoldsPieces(content, now, steps);
    RunKeeps(|content|, now, steps);
    var s := Run(World(Started(|content|, now), true), steps).session;
    var n := TotalChunks(|content|);
    ChunksCover(|content|);
    hide Run, TotalChunks, Concat, Piece;
    if s.handed.Some? {
      assert AllReceived(s);
      ConcatPieces(content, s.accepted, n);
      assert content[..|content|] == content;
    }
  }

  // ---- and it does complete ----

  function Reads(n: nat): seq<Step> {
    seq(n, i => AssembleNext)
  }

  lemma {:induction false} ReadsThrough(w: World, n: nat)
    requires Valid(w) && w.listed && w.session.status == Completing && w.session.job.next == 0
    requires n <= TotalChunks(w.session.fileSize)
    ensures var v := Run(w, Reads(n));
      Valid(v) && v == w.(session := w.session.(job := Reading(n, Concat(w.session.accepted, n))))
  {
    hide TotalChunks;
    if n > 0 {
      ReadsThrough(w, n - 1);
      assert Reads(n)[..n - 1] == Reads(n - 1);
      var v := Run(w, Reads(n - 1));
      ReadNextKeeps(v);
      assert n - 1 in v.session.completed;
      hide FilesAgree, ChunksFit, HandedFits;
    }
  }

  /** Once every piece is there, completing, reading and an accepting store end in `completed` with the file. */
  lemma CompletesWithTheFile(content: Bytes, w: World, id: string, mismatch: string)
    requires Valid(w) && w.listed && w.session.status == Uploading && HoldsPieces(content, w.session)
    requires AllReceived(w.session)
    ensures var n := TotalChunks(|content|);
      var v := Next(Run(Next(w, CompleteUpload), Reads(n)), AssembleEnd(Stored(id), mismatch)).session;
      v.status == Completed && v.handed == Some(content) && v.result == Some(Artifact(id))
  {
    var n := TotalChunks(|content|);
    CompleteKeeps(w);
    ChunksCover(|content|);
    hide TotalChunks;
    var c := Next(w, CompleteUpload);
    ReadsThrough(c, n);
    hide Concat, Piece;
    ConcatPieces(content, w.session.accepted, n);
    assert content[..|content|] == content;
    hide Valid;
  }

  // ---- how it ends ----

  /** The end of the assembly, once all chunks are read: completed exactly when the length is right and the store
      accepts, and otherwise failed with an error. Before that, and without an assembly, nothing happens. */
  lemma EndsExactly(s: Session, a: Answer, mismatch: string)
    ensures var t := Finish(s, a, mismatch);
      var ready := s.job.Reading? && s.job.next >= TotalChunks(s.fileSize);
      && (!ready ==> t == s)
      && (ready ==> t.files == map[] && t.job == Done && t.result.Some?)
      && (ready ==> t.status == Completed || t.status == Failed)
      && (ready ==> (t.status == Completed <==> |s.job.buffer| == s.fileSize && a.Stored?))
      && (ready && t.status == Completed ==> t.result == Some(Artifact(a.id)) && t.handed == Some(s.job.buffer))
      && (ready && t.status == Failed ==> t.result.value.Error?)
      && (ready && |s.job.buffer| != s.fileSize ==> t.handed == s.handed && t.result == Some(Error(mismatch)))
  {
    hide TotalChunks;
  }

  /** A chunk file that is gone fails the assembly; one that is there is appended. */
  lemma ReadExactly(s: Session)
    requires s.job.Reading? && s.job.next * CHUNK_SIZE < s.fileSize
    ensures var t := ReadNext(s);
      if s.job.next in s.files then t == s.(job := Reading(s.job.next + 1, s.job.buffer + s.files[s.job.next]))
      else t.status == Failed && t.job == Done && t.result.Some? && t.result.value.Error? && t.files == map[]
  {
  }

  /** A request to complete starts the assembly exactly when the session is uploading and no chunk is missing. */
  lemma CompletesExactly(s: Session)
    ensures var (t, r) := Complete(s);
      var missing := exists i :: 0 <= i < TotalChunks(s.fileSize) && i !in s.completed;
      && (r == Accepting202 <==> s.status == Uploading && !missing)
      && (r == Accepting202 ==> t.status == Completing && t.job == Reading(0, []) && t.starts == s.starts + 1)
      && (r != Accepting202 ==> t == s && r == Refused(if s.status == Uploading then 400 else 409))
  {
    hide TotalChunks;
  }
}
