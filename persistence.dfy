/**
 * Bounded-retry access to the local JSON cache files. The file system is a map from path to
 * the dictionary stored there; a path outside the map is a file that cannot be read back as a
 * JSON document, because it does not exist or because it was emptied by a write that failed
 * after opening it (both make every read attempt raise, and the retry loop handles them alike).
 * What each I/O attempt does is given by an outcome sequence: read attempt `i` (counting from
 * 0) succeeds iff `i < |ok| && ok[i]` and the file is readable; write attempt `i` does
 * `ok[i]`, and an attempt past the end of `ok` fails without touching the file.
 */
module Persistence {
  import opened Wrappers

  /** Attempts made before giving up (`while cycles < 5`). */
  const MAX_ATTEMPTS: nat := 5

  /** Whether attempt number `i` succeeds under the outcome sequence `ok`. */
  predicate AttemptOk(ok: seq<bool>, i: nat) {
    i < |ok| && ok[i]
  }

  /** Whether one of the attempts the retry loop makes succeeds. */
  predicate AnyAttemptOk(ok: seq<bool>) {
    exists i :: 0 <= i < MAX_ATTEMPTS && AttemptOk(ok, i)
  }

  /**
   * What one write attempt does. `open(path, 'w')` empties the file before `json.dump` writes
   * it, so an attempt either fails before the open (`Failed`, the file untouched), fails after it
   * (`Truncated`, the file left empty and unreadable), or writes the whole document (`Written`).
   */
  datatype WriteAttempt = Written | Failed | Truncated

  /** What write attempt number `i` does under the outcome sequence `ok`. */
  function AttemptDoes(ok: seq<WriteAttempt>, i: nat): WriteAttempt {
    if i < |ok| then ok[i] else Failed
  }

  /** Whether one of the write attempts the retry loop makes writes the document. */
  predicate AnyWritten(ok: seq<WriteAttempt>) {
    exists i :: 0 <= i < MAX_ATTEMPTS && AttemptDoes(ok, i) == Written
  }

  /** Whether one of the write attempts the retry loop makes empties the file. */
  predicate AnyTruncated(ok: seq<WriteAttempt>) {
    exists i :: 0 <= i < MAX_ATTEMPTS && AttemptDoes(ok, i) == Truncated
  }

  /** `if not data_dict: data_dict = {}`: `None` is stored as the empty dictionary. */
  function Normalised<V>(dataDict: Option<map<string, V>>): map<string, V> {
    match dataDict
    case None => map[]
    case Some(d) => d
  }

  /**
   * The file system after a write of `data` to `path` with outcomes `ok`: the data when an
   * attempt writes it; otherwise an unreadable file when an attempt emptied it; otherwise as it
   * was. No other path changes.
   */
  function WriteSpec<V>(files: map<string, map<string, V>>, path: string, data: map<string, V>, ok: seq<WriteAttempt>): (r: map<string, map<string, V>>)
    ensures AnyWritten(ok) ==> path in r && r[path] == data
    ensures !AnyWritten(ok) && AnyTruncated(ok) ==> path !in r
    ensures !AnyWritten(ok) && !AnyTruncated(ok) ==> r == files
    ensures forall p :: p != path ==> (p in r <==> p in files) && (p in r ==> r[p] == files[p])
  {
    if AnyWritten(ok) then files[path := data]
    else if AnyTruncated(ok) then files - {path}
    else files
  }

  /** What a read of `path` with outcomes `ok` returns: the stored dictionary, or `{}` once every attempt failed. */
  function ReadSpec<V>(files: map<string, map<string, V>>, path: string, ok: seq<bool>): (r: map<string, V>)
    ensures path in files && AnyAttemptOk(ok) ==> r == files[path]
    ensures !(path in files && AnyAttemptOk(ok)) ==> r == map[]
  {
    if path in files && AnyAttemptOk(ok) then files[path] else map[]
  }

  /**
   * `write_local_cache_file(filepath=..., data_dict=...)`. Nothing is attempted when either
   * argument is missing. Otherwise at most MAX_ATTEMPTS attempts are made, none after the first
   * that writes the document; each failed attempt is followed by one one-second sleep; after the
   * last failure the call returns normally, the file emptied if some attempt got as far as
   * opening it.
   */
  method WriteLocalCacheFile<V>(files: map<string, map<string, V>>, filepath: Kwarg<string>,
                                dataDict: Kwarg<Option<map<string, V>>>, ok: seq<WriteAttempt>)
    returns (files': map<string, map<string, V>>, attempts: nat, sleeps: nat)
    ensures filepath.Missing? || dataDict.Missing? ==> files' == files && attempts == 0 && sleeps == 0
    ensures filepath.Passed? && dataDict.Passed? ==>
      && 1 <= attempts <= MAX_ATTEMPTS
      && (forall i :: 0 <= i < attempts - 1 ==> AttemptDoes(ok, i) != Written)
      && files' == WriteSpec(files, filepath.value, Normalised(dataDict.value), ok)
      && (AnyWritten(ok) ==> AttemptDoes(ok, attempts - 1) == Written && sleeps == attempts - 1)
      && (!AnyWritten(ok) ==> attempts == MAX_ATTEMPTS && sleeps == MAX_ATTEMPTS)
  {
    files', attempts, sleeps := files, 0, 0;
    if filepath.Missing? || dataDict.Missing? {
      return;
    }
    var path, data := filepath.value, Normalised(dataDict.value);
    var cycles := 0;
    while cycles < MAX_ATTEMPTS
      invariant cycles <= MAX_ATTEMPTS
      invariant attempts == cycles && sleeps == cycles
      invariant forall i :: 0 <= i < cycles ==> AttemptDoes(ok, i) != Written
      invariant files' == if exists i :: 0 <= i < cycles && AttemptDoes(ok, i) == Truncated then files - {path} else files
    {
      attempts := attempts + 1;
      var outcome := AttemptDoes(ok, cycles);
      if outcome == Written {
        files' := files[path := data];
        return;
      }
      if outcome == Truncated {
        files' := files - {path};
      }
      // the failure is logged as a warning and the attempt retried
      cycles := cycles + 1;
      sleeps := sleeps + 1;
    }
  }

  /**
   * `read_local_cache_file(filepath=...)`. `None` when the path is missing; otherwise the
   * dictionary parsed by the first successful attempt among at most MAX_ATTEMPTS, or `{}` when
   * they all fail; each failed attempt is followed by one one-second sleep.
   */
  method ReadLocalCacheFile<V>(files: map<string, map<string, V>>, filepath: Kwarg<string>, ok: seq<bool>)
    returns (r: Option<map<string, V>>, attempts: nat, sleeps: nat)
    ensures filepath.Missing? ==> r.None? && attempts == 0 && sleeps == 0
    ensures filepath.Passed? ==>
      && 1 <= attempts <= MAX_ATTEMPTS
      && (forall i :: 0 <= i < attempts - 1 ==> !(AttemptOk(ok, i) && filepath.value in files))
      && r == Some(ReadSpec(files, filepath.value, ok))
      && (filepath.value in files && AnyAttemptOk(ok) ==> AttemptOk(ok, attempts - 1) && sleeps == attempts - 1)
      && (!(filepath.value in files && AnyAttemptOk(ok)) ==> attempts == MAX_ATTEMPTS && sleeps == MAX_ATTEMPTS)
  {
    r, attempts, sleeps := None, 0, 0;
    if filepath.Missing? {
      return;
    }
    var path := filepath.value;
    var cycles := 0;
    while cycles < MAX_ATTEMPTS
      invariant cycles <= MAX_ATTEMPTS
      invariant attempts == cycles && sleeps == cycles
      invariant forall i :: 0 <= i < cycles ==> !(AttemptOk(ok, i) && path in files)
    {
      attempts := attempts + 1;
      if AttemptOk(ok, cycles) && path in files {
        r := Some(files[path]);
        return;
      }
      // the failure is logged as a warning and the attempt retried
      cycles := cycles + 1;
      sleeps := sleeps + 1;
    }
    r := Some(map[]);
  }

  /** A read right after a successful write of the same path returns what was written. */
  lemma ReadAfterWrite<V>(files: map<string, map<string, V>>, path: string, data: map<string, V>, writeOk: seq<WriteAttempt>, readOk: seq<bool>)
    requires AnyWritten(writeOk) && AnyAttemptOk(readOk)
    ensures ReadSpec(WriteSpec(files, path, data, writeOk), path, readOk) == data
  {
  }

  /** A write whose attempts all fail before opening the file leaves what a later read sees unchanged. */
  lemma FailedWriteIsInvisible<V>(files: map<string, map<string, V>>, path: string, data: map<string, V>, writeOk: seq<WriteAttempt>, readOk: seq<bool>)
    requires forall i :: 0 <= i < MAX_ATTEMPTS ==> AttemptDoes(writeOk, i) == Failed
    ensures ReadSpec(WriteSpec(files, path, data, writeOk), path, readOk) == ReadSpec(files, path, readOk)
  {
  }

  /**
   * A write that never completes but emptied the file on the way loses what was stored: every
   * later read gives `{}`, whatever its attempts do.
   */
  lemma TruncatedWriteLosesFile<V>(files: map<string, map<string, V>>, path: string, data: map<string, V>, writeOk: seq<WriteAttempt>, readOk: seq<bool>)
    requires !AnyWritten(writeOk) && AnyTruncated(writeOk)
    ensures ReadSpec(WriteSpec(files, path, data, writeOk), path, readOk) == map[]
  {
  }
}
