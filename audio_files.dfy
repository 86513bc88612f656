/** The backend's bookkeeping of generated speech files: which session produced
    which file, when each file was made, and the deletion of single files, of a
    session's files and of files older than an hour. The audio folder on disk is
    the set of file names present in it. */
module AudioFiles {

  /** `AUDIO_MAX_AGE`: one hour, in microseconds (the resolution of `datetime`). */
  const AudioMaxAge: int := 3600 * 1000000

  /** The files of `sessionFiles` with the names in `gone` removed from every set. */
  function WithoutFiles(sessionFiles: map<string, set<string>>, gone: set<string>): (r: map<string, set<string>>)
    ensures r.Keys == sessionFiles.Keys
    ensures forall s | s in r :: r[s] == sessionFiles[s] - gone
  {
    map s | s in sessionFiles :: sessionFiles[s] - gone
  }

  lemma WithoutNothing(sessionFiles: map<string, set<string>>)
    ensures WithoutFiles(sessionFiles, {}) == sessionFiles
  {
    var r := WithoutFiles(sessionFiles, {});
    assert forall s | s in r :: r[s] == sessionFiles[s];
  }

  /** Removing two batches of names one after the other removes their union. */
  lemma WithoutTwice(sessionFiles: map<string, set<string>>, a: set<string>, b: set<string>)
    ensures WithoutFiles(WithoutFiles(sessionFiles, a), b) == WithoutFiles(sessionFiles, a + b)
  {
    var r1, r2 := WithoutFiles(WithoutFiles(sessionFiles, a), b), WithoutFiles(sessionFiles, a + b);
    assert forall s | s in r1 :: r1[s] == r2[s];
  }

  /** The loop of `delete_file` that discards the name from every session's set. */
  method RemoveFromSessions(sessionFiles: map<string, set<string>>, filename: string)
    returns (updated: map<string, set<string>>)
    ensures updated == WithoutFiles(sessionFiles, {filename})
  {
    var pending := sessionFiles.Keys;
    updated := sessionFiles;
    while pending != {}
      invariant pending <= sessionFiles.Keys && updated.Keys == sessionFiles.Keys
      invariant forall s | s in updated :: updated[s] == if s in pending then sessionFiles[s] else sessionFiles[s] - {filename}
      decreases |pending|
    {
      var s :| s in pending;
      updated := updated[s := updated[s] - {filename}];
      pending := pending - {s};
    }
  }

  /** Removing the same names from the sessions and from the time stamps keeps
      every listed file stamped. */
  lemma ValidWithout(sessionFiles: map<string, set<string>>, stamps: map<string, int>, gone: set<string>)
    requires forall s | s in sessionFiles :: sessionFiles[s] <= stamps.Keys
    ensures forall s | s in WithoutFiles(sessionFiles, gone) :: WithoutFiles(sessionFiles, gone)[s] <= (stamps - gone).Keys
  {
  }

  /** One turn of `delete_files` on the bookkeeping of what is already gone. */
  lemma DeleteStep(disk: set<string>, stamps: map<string, int>, done: set<string>, gone: set<string>, f: string)
    requires gone == done * disk && f !in done
    ensures f in disk - done <==> f in disk
    ensures f in disk ==> (disk - done) - {f} == disk - (done + {f})
    ensures f in disk ==> (stamps - gone) - {f} == stamps - (gone + {f})
    ensures f in disk ==> gone + {f} == (done + {f}) * disk && |gone + {f}| == |gone| + 1
    ensures f !in disk ==> disk - done == disk - (done + {f}) && gone == (done + {f}) * disk
  {
  }

  /** Moving one name from the pending set to the done set keeps them a partition. */
  lemma MoveOne(files: set<string>, pending: set<string>, done: set<string>, f: string)
    requires pending + done == files && pending * done == {} && f in pending
    ensures (pending - {f}) + (done + {f}) == files && (pending - {f}) * (done + {f}) == {}
  {
  }

  class AudioFileManager {
    /** session id -> names of the files it produced */
    var sessionFiles: map<string, set<string>>
    /** file name -> creation time */
    var fileTimestamps: map<string, int>
    /** the names of the files present in the audio folder */
    var disk: set<string>

    /** Every file a session lists has a creation time. */
    ghost predicate Valid()
      reads this
    {
      forall s | s in sessionFiles :: sessionFiles[s] <= fileTimestamps.Keys
    }

    constructor(disk: set<string>)
      ensures Valid()
      ensures sessionFiles == map[] && fileTimestamps == map[] && this.disk == disk
    {
      sessionFiles := map[];
      fileTimestamps := map[];
      this.disk := disk;
    }

    /** The files a session lists; none for an unknown session. */
    function SessionFiles(sessionId: string): (r: set<string>)
      reads this
      ensures sessionId !in sessionFiles ==> r == {}
      ensures sessionId in sessionFiles ==> r == sessionFiles[sessionId]
    {
      if sessionId in sessionFiles then sessionFiles[sessionId] else {}
    }

    /** `get_session_file_count`. */
    function GetSessionFileCount(sessionId: string): (n: nat)
      reads this
      ensures sessionId !in sessionFiles ==> n == 0
      ensures n == |SessionFiles(sessionId)|
    {
      |SessionFiles(sessionId)|
    }

    /** `register_file`: the session's set is created when missing, the file is
        added to it and stamped with the current time. */
    method RegisterFile(filename: string, sessionId: string, now: int)
      modifies this
      ensures sessionFiles == old(sessionFiles)[sessionId := old(SessionFiles(sessionId)) + {filename}]
      ensures fileTimestamps == old(fileTimestamps)[filename := now]
      ensures disk == old(disk)
      ensures old(Valid()) ==> Valid()
    {
      if sessionId !in sessionFiles {
        sessionFiles := sessionFiles[sessionId := {}];
      }
      sessionFiles := sessionFiles[sessionId := sessionFiles[sessionId] + {filename}];
      fileTimestamps := fileTimestamps[filename := now];
    }

    /** `delete_file`: succeeds exactly when the file is on disk; then the file,
        its time stamp and its entry in every session are gone. Otherwise
        nothing changes. */
    method DeleteFile(filename: string) returns (deleted: bool)
      modifies this
      ensures deleted <==> filename in old(disk)
      ensures !deleted ==> disk == old(disk) && fileTimestamps == old(fileTimestamps) && sessionFiles == old(sessionFiles)
      ensures deleted ==> disk == old(disk) - {filename}
      ensures deleted ==> fileTimestamps == old(fileTimestamps) - {filename}
      ensures deleted ==> sessionFiles == WithoutFiles(old(sessionFiles), {filename})
      ensures old(Valid()) ==> Valid()
    {
      if filename !in disk {
        return false;
      }
      disk := disk - {filename};
      if filename in fileTimestamps {
        fileTimestamps := fileTimestamps - {filename};
      }
      var updated := RemoveFromSessions(sessionFiles, filename);
      sessionFiles := updated;
      if old(Valid()) {
        ValidWithout(old(sessionFiles), old(fileTimestamps), {filename});
      }
      return true;
    }

    /** Deletes each of `files` in turn; the count is of the files that were on disk. */
    method DeleteFiles(files: set<string>) returns (deletedCount: nat)
      modifies this
      ensures deletedCount == |files * old(disk)|
      ensures disk == old(disk) - files
      ensures fileTimestamps == old(fileTimestamps) - (files * old(disk))
      ensures sessionFiles == WithoutFiles(old(sessionFiles), files * old(disk))
      ensures old(Valid()) ==> Valid()
    {
      deletedCount := 0;
      var pending := files;
      ghost var done: set<string> := {};
      ghost var gone: set<string> := {};
      WithoutNothing(sessionFiles);
      while pending != {}
        invariant pending + done == files && pending * done == {}
        invariant gone == done * old(disk)
        invariant deletedCount == |gone|
        invariant disk == old(disk) - done
        invariant fileTimestamps == old(fileTimestamps) - gone
        invariant sessionFiles == WithoutFiles(old(sessionFiles), gone)
        invariant old(Valid()) ==> Valid()
        decreases |pending|
      {
        var filename :| filename in pending;
        DeleteStep(old(disk), old(fileTimestamps), done, gone, filename);
        MoveOne(files, pending, done, filename);
        var deleted := DeleteFile(filename);
        if deleted {
          WithoutTwice(old(sessionFiles), gone, {filename});
          gone := gone + {filename};
          deletedCount := deletedCount + 1;
        }
        pending := pending - {filename};
        done := done + {filename};
      }
    }

    /** `cleanup_session`: nothing for an unknown session; otherwise each of its
        files is deleted and the session forgotten. */
    method CleanupSession(sessionId: string)
      modifies this
      ensures sessionId !in old(sessionFiles) ==>
        disk == old(disk) && fileTimestamps == old(fileTimestamps) && sessionFiles == old(sessionFiles)
      ensures sessionId in old(sessionFiles) ==>
        var gone := old(sessionFiles)[sessionId] * old(disk);
        && disk == old(disk) - old(sessionFiles)[sessionId]
        && fileTimestamps == old(fileTimestamps) - gone
        && sessionFiles == WithoutFiles(old(sessionFiles), gone) - {sessionId}
      ensures sessionId !in sessionFiles
      ensures old(Valid()) ==> Valid()
    {
      if sessionId !in sessionFiles {
        return;
      }
      var filesToDelete := sessionFiles[sessionId];
      var deletedCount := DeleteFiles(filesToDelete);
      sessionFiles := sessionFiles - {sessionId};
    }

    /** The tracked files older than the maximum age at time `now`. */
    function Expired(now: int): (r: set<string>)
      reads this
      ensures r <= fileTimestamps.Keys
      ensures forall f | f in fileTimestamps :: f in r <==> now - fileTimestamps[f] > AudioMaxAge
    {
      set f | f in fileTimestamps && now - fileTimestamps[f] > AudioMaxAge
    }

    /** `cleanup_old_files`: every tracked file older than an hour is deleted. A
        tracked file that is no longer on disk cannot be deleted and stays
        tracked. */
    method CleanupOldFiles(now: int)
      modifies this
      ensures disk == old(disk) - old(Expired(now))
      ensures fileTimestamps == old(fileTimestamps) - (old(Expired(now)) * old(disk))
      ensures sessionFiles == WithoutFiles(old(sessionFiles), old(Expired(now)) * old(disk))
      ensures forall f | f in fileTimestamps && f in disk :: now - fileTimestamps[f] <= AudioMaxAge
      ensures old(Valid()) ==> Valid()
    {
      var filesToDelete := set f | f in fileTimestamps && now - fileTimestamps[f] > AudioMaxAge;
      var deletedCount := DeleteFiles(filesToDelete);
    }
  }
}
