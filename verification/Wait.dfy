/** How long one iteration of the event loop blocks. */
module Wait {
  import opened Watchers
  import opened Heap
  import opened Timers
  import opened Periodics

  const MAX_BLOCKTIME := 59.743

  /** The loop settings that the computation reads. */
  datatype Settings = Settings(timeoutBlocktime: real, ioBlocktime: real, backendMintime: real)

  /** A wait for x, but not below the two configured minima. */
  function AtLeast(s: Settings, x: real): (wait: real)
    ensures wait >= x && wait >= s.timeoutBlocktime && wait >= s.backendMintime
    ensures wait == x || wait == s.timeoutBlocktime || wait == s.backendMintime
  {
    Larger(Larger(x, s.timeoutBlocktime), s.backendMintime)
  }

  /** The least of MAX_BLOCKTIME and the times that remain to all running timers and periodics. */
  ghost predicate IsHorizon(t: TimerLoop, p: PeriodicLoop, x: real)
    reads t`members, t`mnNow, t.members`at, p`members, p`rtNow, p.members`at
  {
    && x <= MAX_BLOCKTIME
    && (forall w | w in t.members :: x <= w.at - t.mnNow)
    && (forall w | w in p.members :: x <= w.at - p.rtNow)
    && (x == MAX_BLOCKTIME || (exists w :: w in t.members && x == w.at - t.mnNow)
        || (exists w :: w in p.members && x == w.at - p.rtNow))
  }

  /** The time from now to the earliest timer or periodic, which the two heaps have at their roots. */
  method Horizon(t: TimerLoop, p: PeriodicLoop) returns (waittime: real)
    requires t.Valid() && p.Valid()
    ensures IsHorizon(t, p, waittime)
  {
    waittime := MAX_BLOCKTIME;
    if t.timercnt != 0 {
      t.RootIsFirst();
      var to := t.timers[HEAP0].at - t.mnNow;
      if waittime > to { waittime := to; }
    }
    if p.periodiccnt != 0 {
      p.RootIsFirst();
      var to := p.periodics[HEAP0].at - p.rtNow;
      if waittime > to { waittime := to; }
    }
  }

  /**
   The wait computation of ev_run: slept is the time spent in ev_sleep and waittime the timeout
   given to the backend. Together they are exactly the time that may pass before the next timeout
   needs the loop, and the backend is never given less than its minimum. The iteration sleeps until
   io_blocktime has passed since the last one, or for all it may.
   */
  method BlockingTime(t: TimerLoop, p: PeriodicLoop, s: Settings, prevMnNow: real,
                      nowait: bool, idleall: nat, activecnt: int, pipeWriteSkipped: bool)
    returns (slept: real, waittime: real, ghost horizon: real)
    requires t.Valid() && p.Valid()
    ensures nowait || idleall != 0 || activecnt == 0 || pipeWriteSkipped ==> slept == 0.0 && waittime == 0.0
    ensures !nowait && idleall == 0 && activecnt != 0 && !pipeWriteSkipped ==>
              && slept >= 0.0 && waittime >= s.backendMintime
              && IsHorizon(t, p, horizon) && slept + waittime == AtLeast(s, horizon)
    ensures s.ioBlocktime == 0.0 ==> slept == 0.0
    ensures slept > 0.0 ==> slept + (t.mnNow - prevMnNow) <= s.ioBlocktime
    ensures !nowait && idleall == 0 && activecnt != 0 && !pipeWriteSkipped && s.ioBlocktime != 0.0 ==>
              slept + (t.mnNow - prevMnNow) >= s.ioBlocktime || waittime == s.backendMintime
  {
    slept, waittime, horizon := 0.0, 0.0, 0.0;
    if !(nowait || idleall != 0 || activecnt == 0 || pipeWriteSkipped) {
      waittime := Horizon(t, p);
      horizon := waittime;
      if waittime < s.timeoutBlocktime {
        waittime := s.timeoutBlocktime;
      }
      if waittime < s.backendMintime {
        waittime := s.backendMintime;
      }
      if s.ioBlocktime != 0.0 {
        var sleeptime := s.ioBlocktime - (t.mnNow - prevMnNow);
        if sleeptime > waittime - s.backendMintime {
          sleeptime := waittime - s.backendMintime;
        }
        if sleeptime > 0.0 {
          slept := sleeptime;
          waittime := waittime - sleeptime;
        }
      }
    }
  }
}
