/**
 * The message bucket of vsg-core (`Arc<Mutex<Vec<Command>>>`): the connection handler pushes
 * commands into it and the render loop drains it once per frame. The two threads take the lock
 * in turn; the model performs their accesses one after the other.
 */
module Mailbox {
  import opened Common
  import opened Messages

  class Bucket {
    /** The commands pushed since the last drain, oldest first. */
    var commands: seq<Command>
    /**
     * Whether a thread panicked while holding the lock. From then on every
     * `lock().unwrap()` panics, so neither thread can use the bucket again.
     */
    var poisoned: bool

    /** `Mutex::new(Vec::new())`. */
    constructor ()
      ensures commands == [] && !poisoned
    {
      commands, poisoned := [], false;
    }

    /** `lock().unwrap().push(c)`: `c` goes last, the earlier commands stay. */
    method Push(c: Command)
      requires !poisoned
      modifies this
      ensures commands == old(commands) + [c] && !poisoned
    {
      commands := commands + [c];
    }

    /** A panic while the lock is held: the contents stay, but the lock is poisoned. */
    method Poison()
      modifies this
      ensures poisoned && commands == old(commands)
    {
      poisoned := true;
    }

    /** `last()` on the locked vector: the newest command, if any. */
    method Newest() returns (r: Option<Command>)
      requires !poisoned
      ensures r == Last(commands)
    {
      if commands == [] {
        r := None;
      } else {
        r := Some(commands[|commands| - 1]);
      }
    }

    /** `clear()` on the locked vector. */
    method Clear()
      requires !poisoned
      modifies this
      ensures commands == [] && !poisoned
    {
      commands := [];
    }
  }
}
