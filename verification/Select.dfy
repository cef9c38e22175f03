/** The select backend, in the variant that keeps its own bit vectors: words of NFDBITS bits. */
module Select {
  import opened Watchers

  const NFDBITS: nat := 64

  /** A machine word, as the set of its bits. */
  type Word = set<nat>

  /** What fd_event is told: a descriptor and its events. */
  datatype Report = Report(fd: nat, events: Events)

  /** Whether the bit for fd is set in a vector. */
  ghost predicate IsSet(vec: seq<Word>, fd: nat) {
    fd / NFDBITS < |vec| && fd % NFDBITS in vec[fd / NFDBITS]
  }

  ghost predicate WordsOk(vec: seq<Word>) {
    forall i | 0 <= i < |vec| :: forall b | b in vec[i] :: b < NFDBITS
  }

  /** The events that a read and a write vector have for fd. */
  ghost function EventsOf(r: seq<Word>, w: seq<Word>, fd: nat): Events {
    (if IsSet(r, fd) then EV_READ else {}) + (if IsSet(w, fd) then EV_WRITE else {})
  }

  /** The statements of select_modify for one vector: they change the bit for fd, and no other's. */
  method PutBit(vec: seq<Word>, fd: nat, on: bool) returns (after: seq<Word>)
    requires fd / NFDBITS < |vec| && WordsOk(vec)
    ensures |after| == |vec| && WordsOk(after) && (IsSet(after, fd) <==> on)
    ensures forall f: nat | f != fd :: IsSet(after, f) <==> IsSet(vec, f)
  {
    var word := fd / NFDBITS;
    var mask := {fd % NFDBITS};
    after := vec[word := vec[word] + mask];
    if !on {
      after := after[word := after[word] - mask];
    }
    forall f: nat | f != fd ensures f / NFDBITS != word || f % NFDBITS != fd % NFDBITS {
      assert f == f / NFDBITS * NFDBITS + f % NFDBITS;
    }
  }

  class SelectBackend {
    var vec_ri: seq<Word>
    var vec_wi: seq<Word>
    var vec_max: nat

    ghost predicate Valid()
      reads this
    {
      |vec_ri| == vec_max && |vec_wi| == vec_max && WordsOk(vec_ri) && WordsOk(vec_wi)
    }

    /** The events that select is asked for. */
    ghost function Interest(fd: nat): Events
      reads this
    {
      EventsOf(vec_ri, vec_wi, fd)
    }

    constructor ()
      ensures Valid() && forall fd: nat :: Interest(fd) == {}
    {
      vec_ri, vec_wi, vec_max := [], [], 0;
    }

    /** The part of select_modify that makes room for a word. */
    method Grow(word: nat)
      requires Valid()
      modifies this
      ensures Valid() && word < vec_max && forall fd: nat :: Interest(fd) == old(Interest(fd))
    {
      if vec_max <= word {
        var new_max := word + 1;
        while vec_max < new_max
          invariant Valid() && vec_max <= new_max
          invariant forall fd: nat :: Interest(fd) == old(Interest(fd))
        {
          vec_ri, vec_wi := vec_ri + [{}], vec_wi + [{}];
          vec_max := vec_max + 1;
        }
      }
    }

    /** select_modify, which ignores calls that it takes to change nothing. */
    method Modify(fd: nat, oev: Events, nev: Events)
      requires Valid() && Interest(fd) == oev * (EV_READ + EV_WRITE)
      modifies this
      ensures Valid() && Interest(fd) == nev * (EV_READ + EV_WRITE)
      ensures forall f: nat | f != fd :: Interest(f) == old(Interest(f))
    {
      if oev == nev {
        return;
      }
      Grow(fd / NFDBITS);
      vec_ri := PutBit(vec_ri, fd, nev * EV_READ != {});
      vec_wi := PutBit(vec_wi, fd, nev * EV_WRITE != {});
      assert 0 in nev * EV_READ <==> 0 in nev;
      assert 1 in nev * EV_WRITE <==> 1 in nev;
    }
  }

  /** The descriptors from position n on, counted in bits, are reported as they should be. */
  ghost predicate Scanned(reports: seq<Report>, r: seq<Word>, w: seq<Word>, n: nat) {
    && (forall k | 0 <= k < |reports| ::
          n <= reports[k].fd && reports[k].events == EventsOf(r, w, reports[k].fd) != {})
    && (forall j, k | 0 <= j < k < |reports| :: reports[j].fd > reports[k].fd)
    && (forall fd: nat | n <= fd && EventsOf(r, w, fd) != {} ::
          exists k :: 0 <= k < |reports| && reports[k].fd == fd)
  }

  lemma ScannedDown(reports: seq<Report>, r: seq<Word>, w: seq<Word>, n: nat)
    requires n > 0 && Scanned(reports, r, w, n)
    ensures EventsOf(r, w, n - 1) == {} ==> Scanned(reports, r, w, n - 1)
    ensures EventsOf(r, w, n - 1) != {} ==>
              Scanned(reports + [Report(n - 1, EventsOf(r, w, n - 1))], r, w, n - 1)
  {
    var more := reports + [Report(n - 1, EventsOf(r, w, n - 1))];
    forall fd: nat | n - 1 <= fd && EventsOf(r, w, fd) != {}
      ensures exists k :: 0 <= k < |more| && more[k].fd == fd
    {
      if fd == n - 1 {
        assert more[|reports|].fd == fd;
      } else {
        var k :| 0 <= k < |reports| && reports[k].fd == fd;
        assert more[k].fd == fd;
      }
    }
  }

  /** Words without bits have nothing to report. */
  lemma {:induction false} ScannedPast(reports: seq<Report>, r: seq<Word>, w: seq<Word>, word: nat, bit: nat)
    requires word < |r| == |w| && r[word] == {} && w[word] == {} && bit <= NFDBITS
    requires Scanned(reports, r, w, word * NFDBITS + bit)
    ensures Scanned(reports, r, w, word * NFDBITS)
    decreases bit
  {
    if bit > 0 {
      assert (word * NFDBITS + bit - 1) / NFDBITS == word;
      ScannedDown(reports, r, w, word * NFDBITS + bit);
      ScannedPast(reports, r, w, word, bit - 1);
    }
  }

  /**
   select_poll's scan of the vectors that select returned, from the last word and bit downwards:
   each descriptor with a bit set is reported once, with exactly its bits.
   */
  method Scan(vec_ro: seq<Word>, vec_wo: seq<Word>, vec_max: nat) returns (reports: seq<Report>)
    requires |vec_ro| == |vec_wo| == vec_max
    ensures Scanned(reports, vec_ro, vec_wo, 0)
  {
    reports := [];
    var word := vec_max;
    while word > 0
      invariant 0 <= word <= vec_max && Scanned(reports, vec_ro, vec_wo, word * NFDBITS)
    {
      word := word - 1;
      if vec_ro[word] != {} || vec_wo[word] != {} {
        reports := ScanWord(vec_ro, vec_wo, word, reports);
      } else {
        ScannedPast(reports, vec_ro, vec_wo, word, NFDBITS);
      }
    }
  }

  /** The inner loop of the scan. */
  method ScanWord(vec_ro: seq<Word>, vec_wo: seq<Word>, word: nat, before: seq<Report>) returns (reports: seq<Report>)
    requires word < |vec_ro| == |vec_wo| && Scanned(before, vec_ro, vec_wo, (word + 1) * NFDBITS)
    ensures Scanned(reports, vec_ro, vec_wo, word * NFDBITS)
  {
    reports := before;
    var bit := NFDBITS;
    while bit > 0
      invariant 0 <= bit <= NFDBITS && Scanned(reports, vec_ro, vec_wo, word * NFDBITS + bit)
    {
      ScannedDown(reports, vec_ro, vec_wo, word * NFDBITS + bit);
      bit := bit - 1;
      var events := (if bit in vec_ro[word] then EV_READ else {}) + (if bit in vec_wo[word] then EV_WRITE else {});
      assert (word * NFDBITS + bit) / NFDBITS == word && (word * NFDBITS + bit) % NFDBITS == bit;
      assert events == EventsOf(vec_ro, vec_wo, word * NFDBITS + bit);
      if events != {} {
        reports := reports + [Report(word * NFDBITS + bit, events)];
      }
    }
  }
}
