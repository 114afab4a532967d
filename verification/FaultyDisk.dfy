/** A file system on which every operation may fail, tear or corrupt, as a schedule that nobody controls decides. */
module FaultyDisk {
  import opened Wrappers
  import opened Utf8

  type Bytes = seq<byte>
  type Files = map<string, Bytes>

  /**
   What happens to one operation. `Fails` raises and changes nothing; `Tears` raises after part of the effect; a write
   that is `Corrupts` reports success although other bytes arrived.
   */
  datatype Fault = Works | Fails | Tears(part: Bytes) | Corrupts(content: Bytes)

  /** Stands for every exception that is not a ValueError. */
  const OS_ERROR := "OSError"

  /** gzip, of which only the round trip is known. */
  datatype Gzip = Gzip(pack: Bytes -> Bytes, unpack: Bytes -> Option<Bytes>)

  ghost predicate RoundTrips(gzip: Gzip) {
    forall b :: gzip.unpack(gzip.pack(b)) == Some(b)
  }

  function Written(files: Files, path: string, content: Bytes, fault: Fault): (bool, Files) {
    match fault
    case Works => (true, files[path := content])
    case Corrupts(other) => (true, files[path := other])
    case Tears(part) => (false, files[path := part])
    case Fails => (false, files)
  }

  /** A rename or a removal is atomic, but may raise after it was done. */
  predicate Done(fault: Fault) {
    fault.Works? || fault.Tears?
  }

  function Renamed(files: Files, source: string, path: string, fault: Fault): Files {
    if source in files && Done(fault) then (files - {source})[path := files[source]] else files
  }

  /** `torn` differs from `files` at most in the contents of one path. */
  ghost predicate TornAt(files: Files, torn: Files, path: string) {
    torn.Keys == files.Keys + {path} && forall p :: p in files && p != path ==> torn[p] == files[p]
  }

  /** A write passed through one state in which the file held anything. */
  ghost predicate WroteThrough(before: seq<Files>, after: seq<Files>, files: Files, path: string, result: Files) {
    && |after| == |before| + 2 && after[..|before|] == before
    && TornAt(files, after[|before|], path) && after[|before| + 1] == result
  }

  class Disk {
    const schedule: nat -> Fault
    const sha: Bytes -> string
    const gzip: Gzip
    var files: Files
    var operations: nat
    /** Every state the disk has been in, also in the middle of a write. */
    ghost var history: seq<Files>

    constructor (schedule: nat -> Fault, sha: Bytes -> string, gzip: Gzip, files: Files)
      ensures this.schedule == schedule && this.sha == sha && this.gzip == gzip
      ensures this.files == files && operations == 0 && history == [files]
    {
      this.schedule, this.sha, this.gzip, this.files := schedule, sha, gzip, files;
      operations, history := 0, [files];
    }

    method Exists(path: string) returns (r: Option<bool>)
      modifies this`operations
      ensures operations == old(operations) + 1
      ensures r == if schedule(old(operations)).Works? then Some(path in files) else None
    {
      var fault := schedule(operations);
      operations := operations + 1;
      r := if fault.Works? then Some(path in files) else None;
    }

    method Chmod(path: string) returns (ok: bool)
      modifies this`operations
      ensures operations == old(operations) + 1
      ensures ok == (schedule(old(operations)).Works? && path in files)
    {
      var fault := schedule(operations);
      operations := operations + 1;
      ok := fault.Works? && path in files;
    }

    /** The file is read in chunks that are added to the hash one by one. */
    method Digest(path: string) returns (r: Option<string>)
      modifies this`operations
      ensures operations == old(operations) + 1
      ensures r == if schedule(old(operations)).Works? && path in files then Some(sha(files[path])) else None
    {
      var fault := schedule(operations);
      operations := operations + 1;
      if !fault.Works? || path !in files {
        return None;
      }
      var content := files[path];
      var absorbed: Bytes := [];
      while |absorbed| < |content|
        invariant absorbed <= content
      {
        var end := if |absorbed| + 1048576 < |content| then |absorbed| + 1048576 else |content|;
        absorbed := absorbed + content[|absorbed|..end];
      }
      assert absorbed == content;
      r := Some(sha(absorbed));
    }

    method ArchiveDigest(path: string) returns (r: Option<string>)
      modifies this`operations
      ensures operations == old(operations) + 1
      ensures r == if schedule(old(operations)).Works? && path in files && gzip.unpack(files[path]).Some?
                   then Some(sha(gzip.unpack(files[path]).value)) else None
    {
      var fault := schedule(operations);
      operations := operations + 1;
      if fault.Works? && path in files && gzip.unpack(files[path]).Some? {
        return Some(sha(gzip.unpack(files[path]).value));
      }
      r := None;
    }

    method Write(path: string, content: Bytes) returns (ok: bool)
      modifies this
      ensures operations == old(operations) + 1
      ensures (ok, files) == Written(old(files), path, content, schedule(old(operations)))
      ensures WroteThrough(old(history), history, old(files), path, files)
    {
      var fault := schedule(operations);
      operations := operations + 1;
      ghost var torn: Bytes := *;
      history := history + [files[path := torn]];
      var written := Written(files, path, content, fault);
      ok, files := written.0, written.1;
      history := history + [files];
    }

    /** `os.open` with O_CREAT and O_EXCL, or mode "x". */
    method Create(path: string, content: Bytes) returns (ok: bool)
      modifies this
      ensures path in old(files) ==> !ok && files == old(files) && history == old(history)
      ensures path !in old(files) ==>
        && (ok, files) == Written(old(files), path, content, schedule(old(operations)))
        && WroteThrough(old(history), history, old(files), path, files)
      ensures operations == old(operations) + 1
    {
      if path in files {
        operations := operations + 1;
        return false;
      }
      ok := Write(path, content);
    }

    method Copy(source: string, path: string) returns (ok: bool)
      modifies this
      ensures source !in old(files) ==> !ok && files == old(files) && history == old(history)
      ensures source in old(files) ==>
        && (ok, files) == Written(old(files), path, old(files)[source], schedule(old(operations)))
        && WroteThrough(old(history), history, old(files), path, files)
      ensures operations == old(operations) + 1
    {
      if source !in files {
        operations := operations + 1;
        return false;
      }
      ok := Write(path, files[source]);
    }

    method Unlink(path: string, missingOk: bool) returns (ok: bool)
      modifies this
      ensures operations == old(operations) + 1
      ensures ok == ((missingOk || path in old(files)) && schedule(old(operations)).Works?)
      ensures files == if Done(schedule(old(operations))) then old(files) - {path} else old(files)
      ensures history == old(history) + [files]
    {
      var fault := schedule(operations);
      operations := operations + 1;
      ok := (missingOk || path in files) && fault.Works?;
      files := if Done(fault) then files - {path} else files;
      history := history + [files];
    }

    method Replace(source: string, path: string) returns (ok: bool)
      modifies this
      ensures operations == old(operations) + 1
      ensures ok == (source in old(files) && schedule(old(operations)).Works?)
      ensures files == Renamed(old(files), source, path, schedule(old(operations)))
      ensures history == old(history) + [files]
    {
      var fault := schedule(operations);
      operations := operations + 1;
      ok := source in files && fault.Works?;
      files := Renamed(files, source, path, fault);
      history := history + [files];
    }
  }

  /** A file whose content, or an archive whose unpacked content, has the digest. */
  ghost predicate HasDigest(sha: Bytes -> string, files: Files, path: string, digest: string) {
    path in files && sha(files[path]) == digest
  }

  ghost predicate Archives(sha: Bytes -> string, gzip: Gzip, files: Files, path: string, digest: string) {
    path in files && gzip.unpack(files[path]).Some? && sha(gzip.unpack(files[path]).value) == digest
  }

  /** From the `n`-th state on, the digest is held by the target or by the backup, packed or not. */
  ghost predicate NeverLost(sha: Bytes -> string, gzip: Gzip, history: seq<Files>, n: nat, target: string,
      backup: string, packed: bool, digest: string) {
    forall k :: n <= k < |history| ==>
      || HasDigest(sha, history[k], target, digest)
      || (if packed then Archives(sha, gzip, history[k], backup, digest)
          else HasDigest(sha, history[k], backup, digest))
  }

  ghost predicate SameOutside(files: Files, next: Files, changed: set<string>) {
    && (forall p :: p in files && p !in changed ==> p in next && next[p] == files[p])
    && (forall p :: p in next && p !in changed ==> p in files)
  }

  /** The operations from the `n`-th to before the `m`-th succeed. */
  ghost predicate WorksBetween(schedule: nat -> Fault, n: nat, m: nat) {
    forall k: nat :: n <= k < m ==> schedule(k).Works?
  }

  ghost predicate WorksExcept(schedule: nat -> Fault, n: nat, m: nat, f: nat) {
    forall k: nat :: n <= k < m && k != f ==> schedule(k).Works?
  }

  /** Of the same operations all but at most one succeed. */
  ghost predicate OneFault(schedule: nat -> Fault, n: nat, m: nat) {
    exists f: nat :: WorksExcept(schedule, n, m, f)
  }

  lemma {:induction false} NeverLostJoin(
      sha: Bytes -> string, gzip: Gzip, early: seq<Files>, late: seq<Files>, n: nat, target: string, backup: string,
      packed: bool, digest: string)
    requires early <= late
    requires NeverLost(sha, gzip, early, n, target, backup, packed, digest)
    requires NeverLost(sha, gzip, late, |early|, target, backup, packed, digest)
    ensures NeverLost(sha, gzip, late, n, target, backup, packed, digest)
  {
    hide HasDigest, Archives;
    assert forall k :: 0 <= k < |early| ==> late[k] == early[k];
  }

  lemma {:induction false} NotYetLost(
      sha: Bytes -> string, gzip: Gzip, history: seq<Files>, target: string, backup: string, packed: bool,
      digest: string)
    ensures NeverLost(sha, gzip, history, |history|, target, backup, packed, digest)
  {
  }

  lemma {:induction false} Unchanged(files: Files, changed: set<string>)
    ensures SameOutside(files, files, changed)
  {
  }

  lemma {:induction false} WorksOnce(schedule: nat -> Fault, n: nat)
    ensures WorksBetween(schedule, n, n + 1) <==> schedule(n).Works?
  {
  }

  lemma {:induction false} WorksAt(schedule: nat -> Fault, n: nat, m: nat, k: nat)
    requires n <= k < m
    ensures WorksBetween(schedule, n, m) ==> schedule(k).Works?
  {
  }

  lemma {:induction false} WorksSplit(schedule: nat -> Fault, n: nat, m: nat, l: nat)
    requires n <= m <= l
    ensures WorksBetween(schedule, n, l) <==> WorksBetween(schedule, n, m) && WorksBetween(schedule, m, l)
    ensures OneFault(schedule, n, l) && !WorksBetween(schedule, n, m) ==> WorksBetween(schedule, m, l)
  {
    if OneFault(schedule, n, l) {
      var f: nat :| WorksExcept(schedule, n, l, f);
    }
  }
}
