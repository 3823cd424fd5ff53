/**
 * The backup taken before the OpenAI tier migration (`backupConfigBeforeOpenAiTierMigration` in
 * src/config.ts), over hard links: names point to inodes, the temporary file is published by
 * linking it, and a rolled-back link is removed before anything is truncated. Every I/O call may
 * fail, and another process may publish its own backup whenever there is none.
 */
module ConfigBackup {
  import opened Prelude

  type Bytes = seq<nat>
  type Inode = nat
  type Inodes = map<Inode, Bytes>

  /** Why a call failed: the path is missing, the name is taken, or anything else. */
  datatype Code = Missing | Taken | OtherCode

  datatype Result =
    | Absent
    | Created
    | Reused
    | IoError
    | CollisionError
    | CleanupError
    | RollbackError
    | SecretResidualError

  /**
   * From one state of the backup name and the inodes to another, other processes at most
   * published a backup where there was none; no inode changed.
   */
  ghost predicate OthersOnly(backup: Option<Inode>, data: Inodes, backup': Option<Inode>, data': Inodes) {
    && (backup.Some? ==> backup' == backup)
    && (backup.None? && backup'.Some? ==> backup'.value !in data)
    && (forall i :: i in data ==> i in data' && data'[i] == data[i])
  }

  /** The names and inodes one call works with; `own` is the inode this call creates or writes. */
  class Disk {
    const source: Option<Bytes>
    var backup: Option<Inode>
    var temp: Option<Inode>
    var data: Inodes
    ghost var own: Option<Inode>
    /** How many calls failed so far for no good reason, and how often another process published a backup. */
    ghost var faults: nat
    ghost var meddled: nat

    constructor (source: Option<Bytes>, backup: Option<Inode>, temp: Option<Inode>, data: Inodes)
      requires (backup.Some? ==> backup.value in data) && (temp.Some? ==> temp.value in data)
      ensures Valid() && own.None?
      ensures this.source == source && this.backup == backup && this.temp == temp && this.data == data
    {
      this.source, this.backup, this.temp, this.data, own := source, backup, temp, data, None;
      faults, meddled := 0, 0;
    }

    /** No name dangles, and a backup of our own is the whole config: true after every single I/O call. */
    ghost predicate Valid()
      reads this
    {
      && (backup.Some? ==> backup.value in data)
      && (temp.Some? ==> temp.value in data)
      && (own.Some? ==> own.value in data)
      && (own.Some? && backup == own ==> source == Some(data[own.value]))
    }

    ghost function TempBytes(): Option<Bytes>
      requires Valid()
      reads this
    {
      if temp.Some? then Some(data[temp.value]) else None
    }

    ghost function BackupBytes(): Option<Bytes>
      requires Valid()
      reads this
    {
      if backup.Some? then Some(data[backup.value]) else None
    }

    /** Unless another process published, the backup name is as it was. */
    ghost predicate Meddled(before: nat, backup': Option<Inode>)
      reads this
    {
      meddled >= before && (meddled == before ==> backup == backup')
    }

    /** Whatever other processes do before a call. */
    method Others()
      requires Valid()
      modifies this
      ensures Valid() && temp == old(temp) && own == old(own)
      ensures OthersOnly(old(backup), old(data), backup, data)
      ensures faults == old(faults) && Meddled(old(meddled), old(backup))
    {
      var publishes: bool := *;
      if publishes && backup.None? {
        meddled := meddled + 1;
        var inode := FreshInode();
        var bytes: Bytes := *;
        data := data[inode := bytes];
        backup := Some(inode);
      }
    }

    method FreshInode() returns (inode: Inode)
      ensures inode !in data
    {
      inode := 0;
      ghost var bound := LargerThanAll(data.Keys);
      while inode in data
        invariant inode <= bound
        decreases bound - inode
      {
        inode := inode + 1;
      }
    }

    /** Reads the config itself. */
    method ReadSource() returns (r: Option<Bytes>)
      requires Valid() && source.Some?
      modifies this
      ensures Valid() && temp == old(temp) && own == old(own)
      ensures backup == old(backup) && data == old(data) && meddled == old(meddled)
      ensures if r.Some? then r == source && faults == old(faults) else faults > old(faults)
    {
      var fails: bool := *;
      if fails { faults := faults + 1; }
      r := if fails then None else source;
    }

    method ExistsBackup() returns (r: bool)
      requires Valid()
      modifies this
      ensures Valid() && temp == old(temp) && own == old(own)
      ensures OthersOnly(old(backup), old(data), backup, data)
      ensures r == backup.Some?
      ensures faults == old(faults) && Meddled(old(meddled), old(backup))
    {
      Others();
      r := backup.Some?;
    }

    /** Reads the backup; a failed read yields nothing. */
    method ReadBackup() returns (r: Option<Bytes>)
      requires Valid()
      modifies this
      ensures Valid() && temp == old(temp) && own == old(own)
      ensures OthersOnly(old(backup), old(data), backup, data)
      ensures r.Some? ==> BackupBytes() == r
      ensures r.None? && backup.Some? ==> faults > old(faults)
      ensures faults >= old(faults) && Meddled(old(meddled), old(backup))
    {
      Others();
      var fails: bool := *;
      if fails { faults := faults + 1; }
      r := if fails || backup.None? then None else Some(data[backup.value]);
    }

    /** Creates the temporary file, empty; an existing one is an error. */
    method CreateExclusive() returns (err: Option<Code>)
      requires Valid() && own.None?
      modifies this
      ensures Valid() && OthersOnly(old(backup), old(data), backup, data)
      ensures (temp == old(temp) && own.None?)
           || (old(temp).None? && temp.Some? && temp.value !in old(data) && temp != backup && own == temp && TempBytes() == Some([]))
      ensures err.None? ==> own.Some?
      ensures err.Some? ==> faults > old(faults) || old(temp).Some?
      ensures faults >= old(faults) && Meddled(old(meddled), old(backup))
    {
      Others();
      if temp.Some? { return Some(Taken); }
      var fails: bool, created: bool := *, *;
      if fails { faults := faults + 1; }
      if !fails || created {
        var inode := FreshInode();
        data := data[inode := []];
        temp, own := Some(inode), Some(inode);
      }
      err := if fails then Some(OtherCode) else None;
    }

    /** Writes the temporary file; a failed write leaves the old bytes or a part of the new ones. */
    method WriteTemp(bytes: Bytes) returns (err: Option<Code>)
      requires Valid() && temp.Some? && temp != backup
      modifies this
      ensures Valid() && temp == old(temp) && own == old(temp) && temp != backup
      ensures OthersOnly(old(backup), old(data)[temp.value := data[temp.value]], backup, data)
      ensures err.None? ==> TempBytes() == Some(bytes)
      ensures err.Some? ==> TempBytes() == old(TempBytes()) || (TempBytes().Some? && TempBytes().value <= bytes)
      ensures faults == old(faults) + (if err.Some? then 1 else 0) && Meddled(old(meddled), old(backup))
    {
      Others();
      var fails: bool, touched: bool, n: nat := *, *, *;
      if fails { faults := faults + 1; }
      if !fails {
        data := data[temp.value := bytes];
      } else if touched && n <= |bytes| {
        data := data[temp.value := bytes[..n]];
      }
      own := temp;
      err := if fails then Some(OtherCode) else None;
    }

    method TruncateTemp() returns (err: Option<Code>)
      requires Valid() && temp.Some? && temp != backup
      modifies this
      ensures Valid() && temp == old(temp) && own == old(temp) && temp != backup
      ensures OthersOnly(old(backup), old(data)[temp.value := data[temp.value]], backup, data)
      ensures TempBytes() == if err.None? then Some([]) else old(TempBytes())
      ensures err != Some(Missing)
      ensures faults == old(faults) + (if err.Some? then 1 else 0) && Meddled(old(meddled), old(backup))
    {
      Others();
      var fails: bool := *;
      if fails { faults := faults + 1; }
      if !fails { data := data[temp.value := []]; }
      own := temp;
      err := if fails then Some(OtherCode) else None;
    }

    method Harden() returns (err: Option<Code>)
      requires Valid()
      modifies this
      ensures Valid() && temp == old(temp) && own == old(own)
      ensures OthersOnly(old(backup), old(data), backup, data)
      ensures faults == old(faults) + (if err.Some? then 1 else 0) && Meddled(old(meddled), old(backup))
    {
      Others();
      var fails: bool := *;
      if fails { faults := faults + 1; }
      err := if fails then Some(OtherCode) else None;
    }

    /** Links the temporary file under the backup name, which must be free. */
    method PublishNoReplace() returns (err: Option<Code>)
      requires Valid() && temp.Some? && own == temp && source == Some(data[temp.value])
      modifies this
      ensures Valid() && temp == old(temp) && own == old(own)
      ensures forall i :: i in old(data) ==> i in data && data[i] == old(data)[i]
      ensures err.None? ==> backup == temp && old(backup).None?
      ensures err.Some? ==> OthersOnly(old(backup), old(data), backup, data)
      ensures err == Some(Taken) ==> backup.Some? && (old(backup).Some? || meddled > old(meddled))
      ensures err.Some? && err != Some(Taken) ==> faults > old(faults)
      ensures faults >= old(faults) && meddled >= old(meddled)
    {
      Others();
      var fails: bool := *;
      if fails { faults := faults + 1; }
      if backup.Some? {
        err := Some(if fails then OtherCode else Taken);
      } else if fails {
        err := Some(OtherCode);
      } else {
        backup, err := temp, None;
      }
    }

    method UnlinkTemp() returns (err: Option<Code>)
      requires Valid()
      modifies this
      ensures Valid() && own == old(own)
      ensures OthersOnly(old(backup), old(data), backup, data)
      ensures temp == if err.None? then None else old(temp)
      ensures err == Some(Missing) ==> temp.None?
      ensures err.Some? && err != Some(Missing) ==> faults > old(faults)
      ensures faults >= old(faults) && Meddled(old(meddled), old(backup))
    {
      Others();
      var fails: bool := *;
      if temp.None? { return Some(Missing); }
      if fails { faults := faults + 1; }
      if !fails { temp := None; }
      err := if fails then Some(OtherCode) else None;
    }

    method UnlinkBackup() returns (err: Option<Code>)
      requires Valid() && backup.Some?
      modifies this
      ensures Valid() && own == old(own) && temp == old(temp)
      ensures forall i :: i in old(data) ==> i in data && data[i] == old(data)[i]
      ensures backup == if err.None? then None else old(backup)
      ensures faults == old(faults) + (if err.Some? then 1 else 0) && meddled == old(meddled)
    {
      var fails: bool := *;
      if fails { faults := faults + 1; }
      if !fails { backup := None; }
      err := if fails then Some(OtherCode) else None;
    }
  }

  lemma {:induction false} LargerThanAll(s: set<Inode>) returns (bound: Inode)
    ensures forall x :: x in s ==> x < bound
  {
    bound := 0;
    if s != {} {
      var x :| x in s;
      var rest := LargerThanAll(s - {x});
      bound := if x < rest then rest else x + 1;
      assert forall y :: y in s ==> y == x || y in s - {x};
    }
  }

  /** The temporary file carries no secret: it is gone or empty. */
  ghost predicate TempClean(disk: Disk)
    requires disk.Valid()
    reads disk
  {
    disk.temp.None? || disk.TempBytes() == Some([])
  }

  /** Unlinks the temporary name, trying twice. */
  method RemoveTemp(disk: Disk) returns (removed: bool)
    requires disk.Valid()
    modifies disk
    ensures disk.Valid() && disk.own == old(disk.own)
    ensures OthersOnly(old(disk.backup), old(disk.data), disk.backup, disk.data)
    ensures disk.temp == if removed then None else old(disk.temp)
    ensures !removed ==> disk.faults >= old(disk.faults) + 2
    ensures disk.faults >= old(disk.faults) && disk.Meddled(old(disk.meddled), old(disk.backup))
  {
    var err := disk.UnlinkTemp();
    if err.None? || err.value.Missing? || disk.temp.None? { return true; }
    err := disk.UnlinkTemp();
    return err.None? || err.value.Missing? || disk.temp.None?;
  }

  /** Empties and removes a temporary file that is not published. */
  method ScrubUnpublishedTemp(disk: Disk) returns (failure: Option<Result>)
    requires disk.Valid() && (disk.temp.Some? ==> disk.temp != disk.backup)
    modifies disk
    ensures disk.Valid() && (disk.temp.Some? ==> disk.temp != disk.backup)
    ensures OthersOnly(old(disk.backup), Except(old(disk.data), old(disk.temp)), disk.backup, disk.data)
    ensures failure.None? ==> disk.temp.None?
    ensures failure.Some? ==> failure.value.CleanupError? || failure.value.SecretResidualError?
    ensures failure == Some(CleanupError) ==> TempClean(disk) && disk.faults >= old(disk.faults) + 2
    ensures failure == Some(SecretResidualError) ==> disk.faults >= old(disk.faults) + 4
    ensures disk.faults >= old(disk.faults) && disk.Meddled(old(disk.meddled), old(disk.backup))
  {
    var there := disk.temp.Some?;
    if !there { return None; }
    var scrubbed := false;
    var err := disk.TruncateTemp();
    if err.None? || err.value.Missing? {
      scrubbed := true;
    } else {
      err := disk.WriteTemp([]);
      if err.None? { scrubbed := true; }
    }
    var removed := RemoveTemp(disk);
    if !removed && !scrubbed { return Some(SecretResidualError); }
    if !removed { return Some(CleanupError); }
    return None;
  }

  /** All inodes but one. */
  ghost function Except(data: Inodes, inode: Option<Inode>): Inodes {
    if inode.Some? then data - {inode.value} else data
  }

  /** The published backup loses its temporary name; if it cannot, the backup is withdrawn first. */
  method DropPublishedTemp(disk: Disk) returns (result: Result)
    requires disk.Valid() && disk.temp.Some? && disk.backup == disk.temp && disk.own == disk.temp
    modifies disk
    ensures disk.Valid()
    ensures result.Created? || result.CleanupError? || result.RollbackError? || result.SecretResidualError?
    ensures result.Created? ==> disk.temp.None? && disk.backup.Some? && disk.BackupBytes() == disk.source
    ensures result.RollbackError? ==> disk.BackupBytes() == disk.source && disk.TempBytes() == disk.source
    ensures result.CleanupError? ==> TempClean(disk)
    ensures result.RollbackError? ==> disk.faults >= old(disk.faults) + 3
    ensures result.CleanupError? || result.SecretResidualError? ==> disk.faults >= old(disk.faults) + 2
    ensures disk.faults >= old(disk.faults) && disk.meddled >= old(disk.meddled)
  {
    var err := disk.UnlinkTemp();
    if err.None? { return Created; }
    err := disk.UnlinkTemp();
    if err.None? { return Created; }
    err := disk.UnlinkBackup();
    if err.Some? { return RollbackError; }
    var failure := ScrubUnpublishedTemp(disk);
    return if failure.Some? then failure.value else CleanupError;
  }

  /** Someone else's backup is there: fine when it holds the same bytes. */
  method YieldToWinner(disk: Disk, original: Bytes) returns (result: Result)
    requires disk.Valid() && disk.source == Some(original) && disk.backup.Some?
    requires disk.temp.Some? ==> disk.temp != disk.backup
    modifies disk
    ensures disk.Valid()
    ensures result.Reused? || result.IoError? || result.CollisionError? || result.CleanupError? || result.SecretResidualError?
    ensures result.Reused? ==> disk.BackupBytes() == disk.source && disk.temp.None?
    ensures result.IoError? || result.CollisionError? ==> disk.temp.None?
    ensures result.CleanupError? ==> TempClean(disk)
    ensures disk.backup == old(disk.backup) && disk.BackupBytes() == old(disk.BackupBytes())
    ensures result.CollisionError? ==> disk.BackupBytes() != disk.source
    ensures !result.Reused? && !result.CollisionError? ==> disk.faults > old(disk.faults)
    ensures disk.faults >= old(disk.faults) && disk.meddled >= old(disk.meddled)
  {
    var winner := disk.ReadBackup();
    result := if winner.None? then IoError else if winner.value != original then CollisionError else Reused;
    var failure := ScrubUnpublishedTemp(disk);
    if failure.Some? { result := failure.value; }
  }

  /** Writes the config to the temporary file and publishes it. */
  method CreateBackup(disk: Disk, original: Bytes) returns (result: Result)
    requires disk.Valid() && disk.own.None? && disk.source == Some(original)
    requires disk.temp.Some? ==> disk.temp != disk.backup
    modifies disk
    ensures disk.Valid() && !result.Absent?
    ensures result.Created? || result.Reused? ==> disk.BackupBytes() == disk.source && disk.temp.None?
    ensures result.RollbackError? ==> disk.BackupBytes() == disk.source && disk.TempBytes() == disk.source
    ensures !result.SecretResidualError? && !result.RollbackError? ==> TempClean(disk)
    ensures result.CollisionError? ==> disk.backup.Some? && disk.BackupBytes() != disk.source
    ensures result.Reused? || result.CollisionError? ==> old(disk.backup).Some? || disk.meddled > old(disk.meddled)
    ensures !result.Created? && !result.Reused? && !result.CollisionError? ==> disk.faults > old(disk.faults) || old(disk.temp).Some?
    ensures disk.faults >= old(disk.faults) && disk.meddled >= old(disk.meddled)
  {
    var err := disk.CreateExclusive();
    if err.None? {
      err := disk.WriteTemp(original);
      if err.None? {
        err := disk.Harden();
        if err.None? {
          err := disk.PublishNoReplace();
          if err.None? {
            result := DropPublishedTemp(disk);
            return;
          }
          if err.value.Taken? {
            result := YieldToWinner(disk, original);
            return;
          }
        }
      }
    }
    var failure := ScrubUnpublishedTemp(disk);
    return if failure.Some? then failure.value else IoError;
  }

  /**
   * The whole call. `rollback` tells a backup that parses as a pre-migration config from a stale one.
   * A differing rollback backup survives every outcome; `Created` and `Reused` mean the backup
   * holds the config's bytes; and unless an error says otherwise no temporary file with content is left.
   * An error other than a collision means that a call failed or that a temporary file was already there; and when
   * no call fails, none is there and nobody else publishes, the result is exactly what the backup asks for.
   */
  method BackupConfig(disk: Disk, rollback: Bytes -> bool) returns (result: Result)
    requires disk.Valid() && disk.own.None?
    modifies disk
    ensures disk.Valid()
    ensures result.Absent? <==> disk.source.None?
    ensures result.Created? || result.Reused? ==> disk.source.Some? && disk.BackupBytes() == disk.source
    ensures var was := old(disk.BackupBytes());
      disk.source.Some? && was.Some? && was != disk.source && rollback(was.value) ==>
        (result.CollisionError? || result.IoError?) && disk.backup == old(disk.backup) && disk.BackupBytes() == was
    ensures disk.source.Some? && old(disk.BackupBytes()) == disk.source ==>
      (result.Reused? || result.IoError?) && disk.backup == old(disk.backup) && disk.BackupBytes() == disk.source
    ensures result.RollbackError? ==> disk.BackupBytes() == disk.source && disk.TempBytes() == disk.source
    ensures !result.SecretResidualError? && !result.RollbackError? ==>
      TempClean(disk) || (disk.temp == old(disk.temp) && disk.TempBytes() == old(disk.TempBytes()))
    ensures result.CollisionError? ==> disk.backup.Some? && disk.BackupBytes() != disk.source
    ensures result.IoError? || result.CleanupError? || result.RollbackError? || result.SecretResidualError? ==>
      disk.faults > old(disk.faults) || old(disk.temp).Some?
    ensures var was := old(disk.BackupBytes());
      disk.faults == old(disk.faults) && disk.meddled == old(disk.meddled) && old(disk.temp).None? && disk.source.Some? ==>
        if was == disk.source then result.Reused?
        else if was.Some? && rollback(was.value) then result.CollisionError?
        else result.Created?
  {
    if disk.source.None? { return Absent; }
    var content := disk.ReadSource();
    if content.None? { return IoError; }
    var original := content.value;
    var there := disk.ExistsBackup();
    if there {
      var bytes := disk.ReadBackup();
      if bytes.None? { return IoError; }
      if bytes.value == original { return Reused; }
      bytes := disk.ReadBackup();
      if bytes.None? { return IoError; }
      if rollback(bytes.value) { return CollisionError; }
      var err := disk.UnlinkBackup();
      if err.Some? { return IoError; }
    }
    result := CreateBackup(disk, original);
  }
}
