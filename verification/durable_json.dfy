/** Atomic replacement of a JSON file: write a temporary file, rename it over the target, sync the directory. */
module DurableJson {

  datatype File<+T> = Absent | Partial | Whole(value: T)

  /** Which of the file operations fail in one write. */
  datatype Faults = Faults(open: bool, write: bool, sync: bool, close: bool, rename: bool, unlink: bool, directorySync: bool)

  datatype WriteResult = Written | WriteFailed(replacementCommitted: bool)

  /** The three outcomes: not renamed, renamed and synced, renamed but not synced. */
  function Outcome(f: Faults): WriteResult {
    if f.open || f.write || f.sync || f.close || f.rename then WriteFailed(false)
    else if f.directorySync then WriteFailed(true)
    else Written
  }

  /** The file a repository owns, and the temporary file of a write in progress. */
  class Disk<T> {
    var target: File<T>
    var temporary: File<T>

    constructor ()
      ensures target == Absent && temporary == Absent
    {
      target, temporary := Absent, Absent;
    }

    /** The target holds the whole new value exactly when the rename happened, and is untouched
        otherwise; a reported error is flagged as committed exactly in the first case. A temporary file
        is left only when removing it failed as well. */
    method WriteAtomic(value: T, f: Faults) returns (result: WriteResult)
      modifies this
      ensures result == Outcome(f)
      ensures target == if result == WriteFailed(false) then old(target) else Whole(value)
      ensures result != WriteFailed(false) ==> temporary == Absent
      ensures old(temporary) == Absent && temporary != Absent ==> result == WriteFailed(false) && f.unlink && !f.open
    {
      var created, handle, replacementCommitted, failed := false, false, false, f.open;
      if !failed {
        created, handle, temporary := true, true, Partial;
        failed := f.write;
      }
      if !failed {
        temporary := Whole(value);
        failed := f.sync;
      }
      if !failed {
        failed := f.close;
        handle := failed;
      }
      if !failed {
        failed := f.rename;
        if !failed {
          target, temporary, replacementCommitted := temporary, Absent, true;
          failed := f.directorySync;
        }
      }
      if !failed {
        return Written;
      }
      // The catch block: close what is still open, and remove the temporary file of a write that was not committed.
      handle := false;
      if !replacementCommitted && created && !f.unlink {
        temporary := Absent;
      }
      return WriteFailed(replacementCommitted);
    }
  }
}
