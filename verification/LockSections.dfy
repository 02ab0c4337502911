/** The metadata sections of the hand-off lock as functions (runtime/rt_sync.c). */
module LockSections {
  import opened Options

  datatype Lock = Lock(owner: Option<nat>, depth: nat, waiters: seq<nat>)

  /** The section of rt_lock_acquire; the lock is f's afterwards, or f is queued. */
  function Enter(l: Lock, f: nat): Lock {
    if l.owner == None then l.(owner := Some(f), depth := 1)
    else if l.owner == Some(f) then l.(depth := l.depth + 1)
    else l.(waiters := [f] + l.waiters)
  }

  /** The section of rt_lock_release. */
  function Leave(l: Lock): Lock {
    if l.depth > 1 then l.(depth := l.depth - 1)
    else if l.waiters == [] then l.(owner := None, depth := 0)
    else Lock(Some(l.waiters[0]), 1, l.waiters[1..])
  }

  /** The fiber the release hands the lock to. */
  function Handed(l: Lock): Option<nat> {
    if l.depth <= 1 && l.waiters != [] then Some(l.waiters[0]) else None
  }
}
