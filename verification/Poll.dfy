/** The poll backend: an array of pollfd structures and, for every descriptor, its place in the array. */
module Poll {
  import opened Watchers
  import ArraySize

  const POLLIN: Events := {0}
  const POLLOUT: Events := {2}

  datatype PollFd = PollFd(fd: nat, events: Events)

  function ToPoll(ev: Events): Events {
    (if ev * EV_READ != {} then POLLIN else {}) + (if ev * EV_WRITE != {} then POLLOUT else {})
  }

  function FromPoll(e: Events): Events {
    (if 0 in e then EV_READ else {}) + (if 2 in e then EV_WRITE else {})
  }

  lemma PollRoundTrip(ev: Events)
    ensures FromPoll(ToPoll(ev)) == ev * (EV_READ + EV_WRITE)
  {
    assert 0 in ev * EV_READ <==> 0 in ev;
    assert 1 in ev * EV_WRITE <==> 1 in ev;
  }

  /** pollidx_init: -1 stands for a descriptor without an entry. */
  function Unused(n: nat): (s: seq<int>)
    ensures |s| == n && forall i | 0 <= i < n :: s[i] == -1
  {
    seq(n, _ => -1)
  }

  class PollBackend {
    var polls: seq<PollFd>  // pollcnt entries are in use
    var pollcnt: nat
    var pollidxs: seq<int>

    /** The entries in use and the indices are inverse to each other. */
    ghost predicate Valid()
      reads this
    {
      && pollcnt <= |polls|
      && (forall i | 0 <= i < pollcnt :: polls[i].fd < |pollidxs| && pollidxs[polls[i].fd] == i)
      && (forall fd | 0 <= fd < |pollidxs| ::
            pollidxs[fd] == -1 || (0 <= pollidxs[fd] < pollcnt && polls[pollidxs[fd]].fd == fd))
    }

    /** The events that poll is asked for. */
    ghost function Interest(fd: nat): Events
      requires Valid()
      reads this
    {
      if fd < |pollidxs| && pollidxs[fd] >= 0 then FromPoll(polls[pollidxs[fd]].events) else {}
    }

    constructor ()
      ensures Valid() && forall fd: nat :: Interest(fd) == {}
    {
      polls, pollcnt, pollidxs := [], 0, [];
    }

    /** The part of poll_modify that finds or allocates the entry for fd. */
    method Entry(fd: nat) returns (idx: nat)
      requires Valid()
      modifies this
      ensures Valid() && fd < |pollidxs| && idx < pollcnt && pollidxs[fd] == idx
      ensures forall f: nat | f != fd :: Interest(f) == old(Interest(f))
    {
      if fd + 1 > |pollidxs| {
        var ncur := ArraySize.NextSize(4, |pollidxs|, fd + 1);
        pollidxs := pollidxs + Unused(ncur - |pollidxs|);
      }
      if pollidxs[fd] < 0 {
        idx := pollcnt;
        pollidxs := pollidxs[fd := idx];
        pollcnt := pollcnt + 1;
        if pollcnt > |polls| {
          var ncur := ArraySize.NextSize(8, |polls|, pollcnt);
          polls := polls + seq(ncur - |polls|, _ => PollFd(0, {}));
        }
        polls := polls[idx := PollFd(fd, polls[idx].events)];
      } else {
        idx := pollidxs[fd];
      }
    }

    /** The part of poll_modify that removes entry idx: the last entry takes its place. */
    method Remove(fd: nat, idx: nat)
      requires Valid() && fd < |pollidxs| && idx < pollcnt && pollidxs[fd] == idx
      modifies this
      ensures Valid() && Interest(fd) == {}
      ensures forall f: nat | f != fd :: Interest(f) == old(Interest(f))
    {
      pollidxs := pollidxs[fd := -1];
      pollcnt := pollcnt - 1;
      if idx < pollcnt {
        polls := polls[idx := polls[pollcnt]];
        pollidxs := pollidxs[polls[idx].fd := idx];
      }
    }

    /** poll_modify, which ignores calls that it takes to change nothing. */
    method Modify(fd: nat, oev: Events, nev: Events)
      requires Valid() && Interest(fd) == oev * (EV_READ + EV_WRITE)
      modifies this
      ensures Valid() && Interest(fd) == nev * (EV_READ + EV_WRITE)
      ensures forall f: nat | f != fd :: Interest(f) == old(Interest(f))
    {
      if oev == nev {
        return;
      }
      var idx := Entry(fd);
      if nev != {} {
        polls := polls[idx := polls[idx].(events := ToPoll(nev))];
        PollRoundTrip(nev);
      } else {
        Remove(fd, idx);
      }
    }
  }
}
