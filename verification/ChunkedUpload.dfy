/** The upload sessions of the daemon (apps/atlasd/routes/chunked-upload.ts): sessions edited in place, kept in a
    map. */
module ChunkedUpload {
  import opened Options
  import opened UploadSteps

  lemma Removed(files: map<nat, Bytes>, i: nat, body: Bytes)
    ensures files[i := body] - {i} == files - {i}
  {
  }

  /** `n` turns of the assembly loop. */
  ghost function ReadAll(s: Session, n: nat): Session {
    if n == 0 then s else ReadNext(ReadAll(s, n - 1))
  }

  lemma {:induction false} OnceDone(s: Session, i: nat, n: nat)
    requires i <= n && ReadAll(s, i).job.Done?
    ensures ReadAll(s, n) == ReadAll(s, i)
  {
    if i < n {
      OnceDone(s, i, n - 1);
    }
  }

  class UploadSession {
    const fileSize: nat
    const totalChunks: nat
    const createdAt: int
    var completedChunks: set<nat>
    var files: map<nat, Bytes>
    var status: Status
    var job: Job
    var result: Option<Result>
    ghost var accepted: map<nat, Bytes>
    ghost var starts: nat
    ghost var handed: Option<Bytes>

    ghost function State(): Session
      reads this
    {
      Session(fileSize, createdAt, completedChunks, files, status, job, result, accepted, starts, handed)
    }

    ghost predicate Sized() {
      totalChunks == TotalChunks(fileSize)
    }

    constructor (fileSize: nat, now: int)
      ensures Sized() && State() == Started(fileSize, now)
    {
      this.fileSize := fileSize;
      totalChunks := (fileSize + CHUNK_SIZE - 1) / CHUNK_SIZE;
      createdAt := now;
      completedChunks, files, status, job, result := {}, map[], Uploading, Idle, None;
      accepted, starts, handed := map[], 0, None;
    }

    method PutChunk(c: Chunk) returns (r: Response)
      requires Sized()
      modifies this
      ensures (State(), r) == Put(old(State()), c)
    {
      if status != Uploading {
        return Refused(409);
      }
      if c.index >= totalChunks {
        return Refused(400);
      }
      if c.contentLength > CHUNK_SIZE {
        return Refused(413);
      }
      if c.index in completedChunks {
        return Accepted(c.index);
      }
      if c.body.None? {
        return Refused(400);
      }
      if c.write.Interrupted? {
        files := files[c.index := c.write.partial];
        return Refused(500);
      }
      files := files[c.index := c.body.value];
      if |files[c.index]| > CHUNK_SIZE {
        Removed(old(files), c.index, c.body.value);
        files := files - {c.index};
        return Refused(413);
      }
      completedChunks := completedChunks + {c.index};
      accepted := accepted[c.index := c.body.value];
      return Accepted(c.index);
    }

    /** The missing chunk is looked for from the first index on. */
    method CompleteUpload() returns (r: Response)
      requires Sized()
      modifies this
      ensures (State(), r) == Complete(old(State()))
    {
      if status != Uploading {
        return Refused(409);
      }
      for i := 0 to totalChunks
        invariant State() == old(State())
        invariant forall j | 0 <= j < i :: j in completedChunks
      {
        if i !in completedChunks {
          return Refused(400);
        }
      }
      status, job := Completing, Reading(0, []);
      starts := starts + 1;
      return Accepting202;
    }

    method Fail()
      modifies this
      ensures State() == Broken(old(State()))
    {
      status, job, result := Failed, Done, Some(Error("Upload completion failed"));
      files := map[];
    }

    /** One turn of the assembly loop. */
    method AppendChunk()
      requires Sized() && job.Reading? && job.next < totalChunks
      modifies this
      ensures State() == ReadNext(old(State()))
    {
      if job.next in files {
        job := Reading(job.next + 1, job.buffer + files[job.next]);
      } else {
        Fail();
      }
    }

    /** After the loop: the length is checked, then the file goes to the artifact store. */
    method Convert(a: Answer, mismatch: string)
      requires Sized() && job.Reading? && job.next == totalChunks
      modifies this
      ensures State() == Finish(old(State()), a, mismatch)
    {
      if |job.buffer| != fileSize {
        status, result := Failed, Some(Error(mismatch));
      } else {
        handed := Some(job.buffer);
        match a
        case Stored(id) => status, result := Completed, Some(Artifact(id));
        case Rejected(e) => status, result := Failed, Some(Error(e));
        case Threw => status, result := Failed, Some(Error("Upload completion failed"));
      }
      job := Done;
      files := map[];
    }

    /** The assembly without interruption: every chunk in order, then the conversion. */
    method AssembleAndConvert(a: Answer, mismatch: string)
      requires Sized() && job.Reading? && job.next == 0
      modifies this
      ensures State() == Finish(ReadAll(old(State()), totalChunks), a, mismatch)
    {
      var i := 0;
      while i < totalChunks && job.Reading?
        invariant i <= totalChunks && job != Idle
        invariant job.Reading? ==> State() == ReadAll(old(State()), i) && job.next == i
        invariant job.Done? ==> State() == ReadAll(old(State()), totalChunks)
      {
        AppendChunk();
        i := i + 1;
        if job.Done? {
          OnceDone(old(State()), i, totalChunks);
        }
      }
      if job.Reading? {
        Convert(a, mismatch);
      }
    }
  }

  /** The turns of the loop are steps of the session's state machine. */
  lemma {:induction false} ReadAllIsRun(w: World, n: nat)
    ensures Run(w, Reads(n)) == w.(session := ReadAll(w.session, n))
  {
    hide ReadNext;
    if n > 0 {
      ReadAllIsRun(w, n - 1);
      assert Reads(n)[..n - 1] == Reads(n - 1);
    }
  }

  /** The map during the sweep, with `ids` still to visit. */
  ghost predicate Swept(before: map<string, UploadSession>, after: map<string, UploadSession>, ids: set<string>,
      now: int) {
    && after.Keys <= before.Keys
    && (forall id | id in after :: after[id] == before[id])
    && (forall id | id in before && id !in ids :: id in after <==> now - before[id].createdAt <= CHUNKED_UPLOAD_TTL_MS)
  }

  lemma SweptStart(before: map<string, UploadSession>, now: int)
    ensures Swept(before, before, before.Keys, now)
  {
  }

  lemma SweptSame(before: map<string, UploadSession>, after: map<string, UploadSession>, ids: set<string>, now: int,
      id: string)
    requires Swept(before, after, ids, now) && id in after
    ensures id in before && after[id] == before[id] && after.Keys <= before.Keys
  {
  }

  lemma SweptNext(before: map<string, UploadSession>, after: map<string, UploadSession>, ids: set<string>, now: int,
      id: string)
    requires Swept(before, after, ids, now) && id in ids && id in after
    ensures Swept(before,
      if now - after[id].createdAt > CHUNKED_UPLOAD_TTL_MS then after - {id} else after, ids - {id}, now)
  {
  }

  lemma SweptEnd(before: map<string, UploadSession>, after: map<string, UploadSession>, now: int)
    requires Swept(before, after, {}, now)
    ensures after.Keys == set id | id in before && now - before[id].createdAt <= CHUNKED_UPLOAD_TTL_MS
    ensures forall id | id in after :: id in before && after[id] == before[id]
  {
  }

  /** All sessions, by upload id. */
  class Uploads {
    var sessions: map<string, UploadSession>

    /** Each id has a session of its own. */
    ghost predicate Distinct()
      reads this, sessions.Values
    {
      && (forall id | id in sessions :: sessions[id].Sized())
      && (forall a, b | a in sessions && b in sessions && a != b :: sessions[a] != sessions[b])
    }

    constructor ()
      ensures sessions == map[] && Distinct()
    {
      sessions := map[];
    }

    method Init(id: string, fileSize: nat, now: int) returns (totalChunks: nat)
      requires Distinct()
      modifies this
      ensures id in sessions && fresh(sessions[id]) && sessions[id].State() == Started(fileSize, now)
      ensures sessions == old(sessions)[id := sessions[id]] && Distinct()
      ensures totalChunks == TotalChunks(fileSize)
    {
      var s := new UploadSession(fileSize, now);
      sessions := sessions[id := s];
      totalChunks := s.totalChunks;
    }

    /** A chunk for an unknown session changes nothing; otherwise only that session changes. */
    method HandlePut(id: string, c: Chunk) returns (r: Response)
      requires Distinct()
      modifies if id in sessions then {sessions[id]} else {}
      ensures Distinct()
      ensures id !in sessions ==> r == Refused(404)
      ensures id in sessions ==> (sessions[id].State(), r) == Put(old(sessions[id].State()), c)
      ensures forall other | other in sessions && other != id :: sessions[other].State() == old(sessions[other].State())
    {
      if id !in sessions {
        return Refused(404);
      }
      r := sessions[id].PutChunk(c);
    }

    method HandleComplete(id: string) returns (r: Response)
      requires Distinct()
      modifies if id in sessions then {sessions[id]} else {}
      ensures Distinct()
      ensures id !in sessions ==> r == Refused(404)
      ensures id in sessions ==> (sessions[id].State(), r) == Complete(old(sessions[id].State()))
      ensures forall other | other in sessions && other != id :: sessions[other].State() == old(sessions[other].State())
    {
      if id !in sessions {
        return Refused(404);
      }
      r := sessions[id].CompleteUpload();
    }

    /** One turn of the sweep. */
    method Visit(id: string, now: int)
      requires id in sessions
      modifies this, {sessions[id]}`files
      ensures var s := old(sessions[id]); var expired := now - s.createdAt > CHUNKED_UPLOAD_TTL_MS;
        && sessions == (if expired then old(sessions) - {id} else old(sessions))
        && s.files == (if expired then map[] else old(sessions[id].files))
    {
      var s := sessions[id];
      if now - s.createdAt > CHUNKED_UPLOAD_TTL_MS {
        sessions := sessions - {id};
        s.files := map[];
      }
    }

    /** Exactly the sessions older than the time to live leave the map, and their files are removed. */
    method CleanupExpired(now: int)
      requires Distinct()
      modifies this, (set id | id in sessions :: sessions[id])`files
      ensures sessions.Keys == set id | id in old(sessions)
        && now - old(sessions)[id].createdAt <= CHUNKED_UPLOAD_TTL_MS
      ensures forall id | id in sessions :: sessions[id] == old(sessions)[id]
      ensures forall id | id in old(sessions) ::
        old(sessions)[id].files == if id in sessions then old(sessions[id].files) else map[]
    {
      var ids := sessions.Keys;
      ghost var before := sessions;
      hide Swept;
      SweptStart(before, now);
      while ids != {}
        invariant ids <= sessions.Keys && Swept(before, sessions, ids, now) && sessions.Keys <= before.Keys
        invariant forall id | id in before ::
          before[id].files == if id in sessions then old(before[id].files) else map[]
        decreases |ids|
      {
        var id :| id in ids;
        ghost var was := sessions;
        SweptSame(before, was, ids, now, id);
        Visit(id, now);
        SweptNext(before, was, ids, now, id);
        ids := ids - {id};
      }
      SweptEnd(before, sessions, now);
    }
  }
}
