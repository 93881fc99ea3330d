/** The writer object.  Its methods, undisturbed, are sequences of the machine's actions. */
module LockingWriterObject {
  import opened Options
  import opened LockingWriter

  /** The path and its lock file, shared by all writers. */
  class Disk {
    var target: Option<Version>
    var lockFile: bool
    var unused: Version

    ghost predicate Shows(s: State)
      reads this
    {
      target == s.target && lockFile == s.lockFile && unused == s.unused
    }

    constructor (target: Option<Version>)
      ensures Shows(Start(target))
    {
      this.target, lockFile, unused := target, false, if target.Some? then target.value + 1 else 0;
    }
  }

  datatype Condition = IsOpen | IsLocked | IsClosed

  datatype Change = Unchanged | Created | Deleted | Modified

  predicate AtRest(s: State, w: Writer) {
    w in s.writers && (s.writers[w].stage.Open? || s.writers[w].stage.Locked? || s.writers[w].stage.Closed?)
  }

  ghost function LockAlone(s: State, w: Writer): State
    requires AtRest(s, w)
  {
    if !s.writers[w].stage.Open? then s else
    var t := Apply(s, w, LockCheck);
    if t.writers[w].stage.LockChecked? then Apply(t, w, LockCreate) else t
  }

  /** How putting the temporary file in place goes: an error after the rename, such as of
      the sync of the directory, leaves the new file there. */
  datatype Outcome = Succeeds | FailsBefore | FailsAfter

  ghost function CommitAlone(s: State, w: Writer, outcome: Outcome): State
    requires AtRest(s, w)
  {
    if !s.writers[w].stage.Locked? then s else
    var t := Apply(s, w, CommitCheck);
    if !t.writers[w].stage.CommitChecked? then t else
    match outcome
    case Succeeds => Apply(Apply(t, w, CommitRename), w, Unlock)
    case FailsBefore => Apply(t, w, CommitFail)
    case FailsAfter => Apply(Apply(t, w, CommitRename), w, CommitFail)
  }

  class LockingFileWriter {
    const disk: Disk
    const seen: Option<Version>
    var state: Condition
    var spent: bool

    ghost predicate Shows(s: State, w: Writer)
      reads this, disk
    {
      && disk.Shows(s) && AtRest(s, w) && s.writers[w].seen == seen
      && s.writers[w].stage == match state
                               case IsOpen => Open
                               case IsLocked => Locked(spent)
                               case IsClosed => Closed
    }

    constructor (disk: Disk, ghost s: State, ghost w: Writer)
      requires disk.Shows(s) && w !in s.writers
      ensures this.disk == disk && Shows(Apply(s, w, New), w)
    {
      this.disk, seen, state, spent := disk, disk.target, IsOpen, false;
    }

    method CheckConcurrentModification() returns (change: Change)
      ensures change == if disk.target == seen then Unchanged
                        else if seen.None? then Created else if disk.target.None? then Deleted else Modified
    {
      if seen.None? && disk.target.Some? {
        return Created;
      }
      if seen.Some? && disk.target.None? {
        return Deleted;
      }
      if seen.Some? && disk.target.Some? {
        if seen.value != disk.target.value {
          return Modified;
        }
      }
      return Unchanged;
    }

    method Lock(ghost s: State, ghost w: Writer) returns (ok: bool)
      requires Shows(s, w)
      modifies this, disk
      ensures Shows(LockAlone(s, w), w)
      ensures ok <==> s.writers[w].stage.Open? && LockAlone(s, w).writers[w].stage.Locked?
    {
      if state != IsOpen {
        return false;
      }
      var change := CheckConcurrentModification();
      if change != Unchanged {
        return false;
      }
      if disk.lockFile {
        return false;
      }
      disk.lockFile := true;
      state, spent := IsLocked, false;
      return true;
    }

    method Commit(outcome: Outcome, ghost s: State, ghost w: Writer) returns (ok: bool)
      requires Shows(s, w)
      modifies this, disk
      ensures Shows(CommitAlone(s, w, outcome), w)
      ensures ok <==> s.writers[w].stage.Locked? && CommitAlone(s, w, outcome).writers[w].stage.Closed?
      ensures ok ==> CommitAlone(s, w, outcome).commits == s.commits + [LockingWriter.Commit(w, s.target, s.unused)]
    {
      if state != IsLocked {
        return false;
      }
      var change := CheckConcurrentModification();
      if change != Unchanged || spent {
        return false;
      }
      if outcome.FailsBefore? {
        spent := true;
        return false;
      }
      disk.target, disk.unused := Some(disk.unused), disk.unused + 1;
      if outcome.FailsAfter? {
        spent := true;
        return false;
      }
      disk.lockFile := false;
      state := IsClosed;
      return true;
    }

    method Close(ghost s: State, ghost w: Writer)
      requires Shows(s, w)
      modifies this, disk
      ensures Shows(Apply(s, w, Action.Close), w)
    {
      if state == IsLocked {
        disk.lockFile := false;
      }
      state := IsClosed;
    }
  }

  /** A writer that nobody disturbs succeeds: its file is in place and the lock is free. */
  lemma UndisturbedCommits(s: State, w: Writer)
    requires AtRest(s, w) && s.writers[w].stage.Open? && s.target == s.writers[w].seen && !s.lockFile
    ensures var t := CommitAlone(LockAlone(s, w), w, Succeeds);
            && t.target == Some(s.unused) && !t.lockFile && t.writers[w].stage.Closed?
            && t.commits == s.commits + [Commit(w, s.target, s.unused)]
  {
  }
}
