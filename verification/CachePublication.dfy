/** Replacing a cache file without ever losing the last usable one, on a file system that cannot
    rename over an existing file (crates/node-agent/src/rule_set.rs:671-753, 790-822). */
module CachePublication {
  import opened Basics

  type Contents = seq<int>

  /** The three names a publication touches. */
  datatype Disk = Disk(target: Option<Contents>, backup: Option<Contents>, temporary: Option<Contents>)

  /** One atomic file operation; on this system a rename fails over an existing file. */
  datatype FileOp =
    | StageTarget | PublishTemporary | RestoreBackup | RemoveBackup
    | WriteTemporary(bytes: Contents) | RemoveTemporary

  function Apply(d: Disk, op: FileOp): Option<Disk> {
    match op
    case StageTarget => if d.target.Some? && d.backup.None? then Some(d.(backup := d.target, target := None)) else None
    case PublishTemporary =>
      if d.temporary.Some? && d.target.None? then Some(d.(target := d.temporary, temporary := None)) else None
    case RestoreBackup =>
      if d.backup.Some? && d.target.None? then Some(d.(target := d.backup, backup := None)) else None
    case RemoveBackup => if d.backup.Some? then Some(d.(backup := None)) else None
    case WriteTemporary(bytes) => Some(d.(temporary := Some(bytes)))
    case RemoveTemporary => Some(d.(temporary := None))
  }

  /** The usable cache: the target, or the backup while the target has no name. */
  function Current(d: Disk): Option<Contents> {
    if d.target.Some? then d.target else d.backup
  }

  /** Recovered: no backup, so the usable cache is the target. */
  predicate Settled(d: Disk) {
    d.backup == None
  }

  datatype Comparison = Same | Collision | Unreadable

  /** `verify_snapshot`: the file is read in pieces of any size up to the buffer's. */
  method VerifySnapshot(actual: Contents, expected: Contents, buffer: nat) returns (r: Comparison)
    requires buffer > 0
    ensures r.Same? ==> actual == expected
    ensures r.Collision? ==> actual != expected
  {
    var offset := 0;
    while true
      invariant offset <= |actual| && offset <= |expected| && actual[..offset] == expected[..offset]
      decreases |actual| - offset
    {
      var fails: bool, wanted: nat := *, *;
      if fails {
        return Unreadable;
      }
      var read := if wanted == 0 then 1 else if wanted > buffer then buffer else wanted;
      if offset + read > |actual| {
        read := |actual| - offset;
      }
      if read == 0 {
        assert actual[..offset] == actual;
        if offset == |expected| {
          assert expected[..offset] == expected;
          return Same;
        }
        return Collision;
      }
      if offset + read > |expected| || actual[offset..offset + read] != expected[offset..offset + read] {
        return Collision;
      }
      assert actual[..offset + read] == actual[..offset] + actual[offset..offset + read];
      assert expected[..offset + read] == expected[..offset] + expected[offset..offset + read];
      offset := offset + read;
    }
  }

  class CacheDirectory {
    var disk: Disk

    /** One file operation. It may fail; a crash stops the caller before it. */
    method Do(op: FileOp) returns (ok: bool, crash: bool)
      modifies this
      ensures ok ==> Apply(old(disk), op) == Some(disk)
      ensures !ok ==> disk == old(disk)
    {
      crash := *;
      var fails: bool := *;
      var next := Apply(disk, op);
      ok := next.Some? && !fails && !crash;
      if ok {
        disk := next.value;
      }
    }

    /** A `metadata` call that fails is taken for absence, also when the file is there. */
    method Probe(file: Option<Contents>) returns (present: bool, ghost misread: bool)
      ensures present ==> file.Some?
      ensures misread <==> file.Some? && !present
    {
      var fails: bool := *;
      present, misread := file.Some? && !fails, file.Some? && fails;
    }

    /** `recover_interrupted_publication`: it never changes which bytes are usable. Success leaves no
        backup, unless the backup could not be read: then nothing was done. */
    method Recover() returns (ok: bool, crash: bool, ghost misread: bool)
      modifies this
      ensures Current(disk) == Current(old(disk)) && disk.temporary == old(disk).temporary
      ensures ok ==> if misread then disk == old(disk) && disk.backup.Some? else Settled(disk)
    {
      ok, crash := true, false;
      var backup, target;
      backup, misread := Probe(disk.backup);
      if !backup {
        return;
      }
      ghost var unread;
      target, unread := Probe(disk.target);
      if target {
        ok, crash := Do(RemoveBackup);
      } else {
        ok, crash := Do(RestoreBackup);
      }
    }

    /** `publish_cache` on Windows: whatever fails or crashes, the usable bytes are the old ones or
        the whole new ones. */
    method PublishCache(ghost candidate: Contents) returns (ok: bool, crash: bool, ghost misread: bool)
      requires disk.temporary == Some(candidate)
      modifies this
      ensures Current(disk) == Current(old(disk)) || Current(disk) == Some(candidate)
      ensures ok ==> disk.target == Some(candidate) && (misread || Settled(disk))
    {
      ok, crash, misread := Recover();
      if !ok {
        return;
      }
      var hadTarget;
      ghost var unread;
      hadTarget, unread := Probe(disk.target);
      if hadTarget {
        ok, crash := Do(StageTarget);
        if !ok {
          return;
        }
      }
      ok, crash := Do(PublishTemporary);
      if !ok {
        if !crash && hadTarget {
          var restored;
          restored, crash := Do(RestoreBackup);
        }
        return;
      }
      if hadTarget {
        ok, crash := Do(RemoveBackup);
      }
    }

    /** A crash may leave any part of the candidate under the temporary name. */
    method WriteCandidate(candidate: Contents) returns (ok: bool, crash: bool)
      modifies this
      ensures disk.target == old(disk).target && disk.backup == old(disk).backup
      ensures ok ==> disk.temporary == Some(candidate)
    {
      ok, crash := Do(WriteTemporary([]));
      if !ok {
        return;
      }
      for n := 0 to |candidate|
        invariant disk.target == old(disk).target && disk.backup == old(disk).backup
        invariant disk.temporary == Some(candidate[..n]) && ok
      {
        assert candidate[..n + 1] == candidate[..n] + [candidate[n]];
        ok, crash := Do(WriteTemporary(candidate[..n + 1]));
        if !ok {
          return;
        }
      }
      assert candidate[..|candidate|] == candidate;
    }

    /** `commit_candidate`: write the whole candidate under a temporary name, then publish it. */
    method CommitCandidate(candidate: Contents) returns (ok: bool, crash: bool, ghost misread: bool)
      modifies this
      ensures Current(disk) == Current(old(disk)) || Current(disk) == Some(candidate)
      ensures ok ==> disk.target == Some(candidate) && (misread || Settled(disk))
    {
      ok, crash, misread := Recover();
      if !ok {
        return;
      }
      ok, crash := WriteCandidate(candidate);
      if ok {
        ok, crash, misread := PublishCache(candidate);
      }
      if !ok && !crash {
        var removed;
        removed, crash := Do(RemoveTemporary);
      }
    }

    /** Any number of commits and recoveries, each stopped anywhere or misled about a file, and then
        one recovery that reaches its end: the usable bytes are the original ones or one whole
        candidate, they are under the target's name, and there is no backup, unless that last
        recovery could not read it. A commit that succeeded is never undone by an older one. */
    method Survive(candidates: seq<Option<Contents>>)
      returns (settled: bool, done: seq<bool>, ghost last: int, ghost misread: bool)
      modifies this
      ensures |done| == |candidates| && -1 <= last < |candidates|
      ensures Current(disk) == if last < 0 then Current(old(disk)) else candidates[last]
      ensures last >= 0 ==> candidates[last].Some?
      ensures forall i | 0 <= i < |done| && done[i] && candidates[i].Some? :: i <= last
      ensures settled && !misread ==> disk.backup == None && disk.target == Current(disk)
    {
      last, done := -1, [];
      for i := 0 to |candidates|
        invariant |done| == i && -1 <= last < i
        invariant forall j | 0 <= j < i && done[j] && candidates[j].Some? :: j <= last
        invariant Current(disk) == if last < 0 then Current(old(disk)) else candidates[last]
        invariant last >= 0 ==> candidates[last].Some?
      {
        var ok, crash;
        if candidates[i].None? {
          ok, crash, misread := Recover();
        } else {
          ok, crash, misread := CommitCandidate(candidates[i].value);
          if Current(disk) == candidates[i] {
            last := i;
          }
        }
        done := done + [ok];
      }
      var crash;
      settled, crash, misread := Recover();
    }
  }
}
