/** What survives a crash.

    A `Disk` holds the visible contents and every earlier version written since the last
    completed directory sync. A power loss may bring back any of them; a process death
    keeps the visible one. The filesystem persists metadata changes in the order in which
    they were made, so one sync makes everything before it durable. */
module Durable {

  datatype Option<+T> = None | Some(value: T)

  /** How an operation ended. `Refused` is a failed check of the program itself. `Stopped`
      is everything the environment can do: an I/O error, a failed command or the death of
      the process. In each case the caller stops at once. */
  datatype Outcome = Done | Refused | Stopped

  datatype Disk<T> = Disk(now: T, older: seq<T>) {

    /** A power loss at this moment may leave version `v`. */
    ghost predicate May(v: T) {
      v == now || v in older
    }

    predicate Settled() {
      |older| == 0
    }

    function Write(next: T): Disk<T> {
      Disk(next, older + [now])
    }

    function Sync(): Disk<T> {
      Disk(now, [])
    }

    function AfterPowerLoss(k: nat): Disk<T> {
      Disk(if k < |older| then older[k] else now, [])
    }
  }

  /** A directory of small files, with the number of operations that succeed before one fails
      or the process dies. */
  class Store<T> {
    var disk: Disk<T>
    var budget: nat

    constructor (contents: T, budget: nat)
      ensures disk == Disk(contents, []) && this.budget == budget
    {
      disk, this.budget := Disk(contents, []), budget;
    }

    method Spend() returns (alive: bool)
      modifies this`budget
      ensures alive == (old(budget) > 0)
      ensures budget == if alive then old(budget) - 1 else 0
    {
      alive := budget > 0;
      if alive {
        budget := budget - 1;
      }
    }

    /** Write one file aside and sync it, rename it into place, sync the directory. */
    method Atomic(next: T) returns (alive: bool)
      modifies this
      ensures alive ==> disk == Disk(next, [])
      ensures !alive ==> budget == 0 && (disk == old(disk) || disk == old(disk).Write(next))
      ensures budget <= old(budget) <= budget + 3
    {
      alive := Spend();
      if !alive {
        return;
      }
      alive := Spend();
      if !alive {
        return;
      }
      disk := disk.Write(next);
      alive := Spend();
      if alive {
        disk := disk.Sync();
      }
    }
  }
}
