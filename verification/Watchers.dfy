/** The watcher structure, with the fields that the modelled event loop code reads or writes. */
module Watchers {

  const EV_MINPRI := -2
  const EV_MAXPRI := 2
  const NUMPRI: nat := 5

  /** An event mask, as the set of its bits: or is union. */
  type Events = set<nat>

  const EV_READ: Events := {0}     // 0x01
  const EV_WRITE: Events := {1}    // 0x02
  const EV_TIMER: Events := {8}    // 0x100
  const EV_PERIODIC: Events := {9} // 0x200
  const EV_IDLE: Events := {13}    // 0x2000
  const EV_CHECK: Events := {15}   // 0x8000
  const EV_ERROR: Events := {31}   // 0x80000000

  const EV_IOFDSET: Events := {7}    // EV__IOFDSET, 0x80
  const EV_ANFD_REIFY: Events := {0} // 1

  function Larger(a: real, b: real): real {
    if a < b then b else a
  }

  /** An ev_watcher and the fields its kinds add to it (ev_watcher_time, ev_timer,
      ev_periodic, ev_io). */
  class Watcher {
    var active: int
    var pending: nat
    var priority: int
    var at: real
    var repeat: real
    var offset: real
    var interval: real
    var rescheduled: bool  // whether reschedule_cb is set
    var fd: int
    var events: Events

    /** ev_init: a watcher starts out inactive and not pending. */
    constructor ()
      ensures active == 0 && pending == 0 && priority == 0 && at == 0.0 && repeat == 0.0
      ensures offset == 0.0 && interval == 0.0 && !rescheduled
      ensures fd == -1 && events == {}
    {
      active, pending, priority, at, repeat, offset, interval, rescheduled := 0, 0, 0, 0.0, 0.0, 0.0, 0.0, false;
      fd, events := -1, {};
    }

    predicate PriorityOk()
      reads this`priority
    {
      EV_MINPRI <= priority <= EV_MAXPRI
    }

    /** ABSPRI: the index of the pending queue for the watcher's priority. */
    function Abspri(): nat
      requires PriorityOk()
      reads this`priority
    {
      priority - EV_MINPRI
    }
  }

  lemma Whole<T>(s: seq<T>)
    ensures s[..|s|] == s
  {
  }

  lemma Prefixes<T>(s: seq<T>, k: nat)
    requires k < |s|
    ensures s[..k + 1] == s[..k] + [s[k]]
  {
  }
}
