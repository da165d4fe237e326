/** The webhook deduper: a map of last accepts, swept at arbitrary moments, refines a specification over
    the history of calls in which sweeps do not occur. */
module Dedup {

  /** `time.Since` reads the clock at `asked`, the following `time.Now` at `marked`. */
  datatype Event = Call(key: string, asked: int, marked: int) | Sweep(at: int)

  type Entries = map<string, int>

  predicate Duplicate(entries: Entries, window: int, key: string, asked: int) {
    key in entries && asked - entries[key] < window
  }

  function Mark(entries: Entries, window: int, key: string, asked: int, marked: int): Entries {
    if Duplicate(entries, window, key, asked) then entries else entries[key := marked]
  }

  function Swept(entries: Entries, window: int, now: int): Entries {
    map k | k in entries && now - entries[k] < window :: entries[k]
  }

  function Apply(entries: Entries, window: int, e: Event): Entries {
    match e
    case Call(key, asked, marked) => Mark(entries, window, key, asked, marked)
    case Sweep(at) => Swept(entries, window, at)
  }

  /** The map after the first `n` events. */
  function After(h: seq<Event>, window: int, n: nat): Entries
    requires n <= |h|
  {
    if n == 0 then map[] else Apply(After(h, window, n - 1), window, h[n - 1])
  }

  function Begins(e: Event): int { match e case Call(_, asked, _) => asked case Sweep(at) => at }
  function Ends(e: Event): int { match e case Call(_, _, marked) => marked case Sweep(at) => at }

  /** Every access holds the mutex and the clock is monotone, so events follow one another in time. */
  ghost predicate Monotone(h: seq<Event>) {
    && (forall i :: 0 <= i < |h| ==> Begins(h[i]) <= Ends(h[i]))
    && (forall i, k :: 0 <= i < k < |h| ==> Ends(h[i]) <= Begins(h[k]))
  }

  /** The code's answer to the call at position `i`. */
  predicate Rejected(h: seq<Event>, window: int, i: nat)
    requires i < |h| && h[i].Call?
  {
    Duplicate(After(h, window, i), window, h[i].key, h[i].asked)
  }

  /** The specification: a call is accepted iff no accepted call of the same key is less than a window old.
      It looks at calls only. */
  ghost predicate Accepted(h: seq<Event>, window: int, i: nat)
    requires i < |h|
    decreases i
  {
    && h[i].Call?
    && !exists k :: 0 <= k < i && h[k].Call? && h[k].key == h[i].key
                    && Accepted(h, window, k) && h[i].asked - h[k].marked < window
  }

  /** A set of accepted positions, given by its membership test. */
  ghost function Accepts(h: seq<Event>, window: int): nat -> bool {
    (k: nat) => k < |h| && Accepted(h, window, k)
  }

  ghost predicate AcceptOf(h: seq<Event>, acc: nat -> bool, k: nat, key: string, at: int) {
    k < |h| && h[k].Call? && h[k].key == key && h[k].marked == at && acc(k)
  }

  /** The map against the history: an entry is some accept's time, and an accept not covered by an entry is stale. */
  ghost predicate Tracks(h: seq<Event>, acc: nat -> bool, window: int, n: nat, entries: Entries)
    requires n <= |h|
  {
    && (forall key :: key in entries ==> exists k :: 0 <= k < n && AcceptOf(h, acc, k, key, entries[key]))
    && (forall k :: 0 <= k < n && h[k].Call? && acc(k) ==> Covered(h, window, n, entries, k))
  }

  ghost predicate Covered(h: seq<Event>, window: int, n: nat, entries: Entries, k: nat)
    requires k < n <= |h| && h[k].Call?
  {
    (h[k].key in entries && entries[h[k].key] >= h[k].marked) || Ends(h[n - 1]) - h[k].marked >= window
  }

  lemma AnswerFromTracks(h: seq<Event>, window: int, i: nat, entries: Entries)
    requires Monotone(h) && i < |h| && h[i].Call? && Tracks(h, Accepts(h, window), window, i, entries)
    ensures Duplicate(entries, window, h[i].key, h[i].asked) <==> !Accepted(h, window, i)
  {
  }

  /** A map that tracks the accepts answers the next call as `acc` says. */
  ghost predicate Decides(h: seq<Event>, acc: nat -> bool, window: int) {
    forall i: nat, entries: Entries :: i < |h| && h[i].Call? && Tracks(h, acc, window, i, entries) ==>
      (Duplicate(entries, window, h[i].key, h[i].asked) <==> !acc(i))
  }

  lemma {:induction false} MapTracks(h: seq<Event>, acc: nat -> bool, window: int, n: nat)
    requires Monotone(h) && n <= |h| && Decides(h, acc, window)
    ensures Tracks(h, acc, window, n, After(h, window, n))
  {
    if n > 0 {
      MapTracks(h, acc, window, n - 1);
      if h[n - 1].Call? {
        TracksCall(h, acc, window, n - 1, After(h, window, n - 1));
      } else {
        TracksSweep(h, acc, window, n - 1, After(h, window, n - 1));
      }
    }
  }

  lemma TracksCall(h: seq<Event>, acc: nat -> bool, window: int, n: nat, entries: Entries)
    requires Monotone(h) && n < |h| && h[n].Call? && Tracks(h, acc, window, n, entries)
    requires Duplicate(entries, window, h[n].key, h[n].asked) <==> !acc(n)
    ensures Tracks(h, acc, window, n + 1, Apply(entries, window, h[n]))
  {
    var e := Apply(entries, window, h[n]);
    forall k | 0 <= k < n + 1 && h[k].Call? && acc(k)
      ensures Covered(h, window, n + 1, e, k)
    {
      if k < n {
        CallCovers(h, window, n, entries, k);
      }
    }
    forall key | key in e
      ensures exists k :: 0 <= k < n + 1 && AcceptOf(h, acc, k, key, e[key])
    {
      if key in entries && e[key] == entries[key] {
        var k :| 0 <= k < n && AcceptOf(h, acc, k, key, entries[key]);
      } else {
        assert AcceptOf(h, acc, n, key, e[key]);
      }
    }
  }

  /** Marking a key never uncovers an earlier accept, because accepts come later in time. */
  lemma CallCovers(h: seq<Event>, window: int, n: nat, entries: Entries, k: nat)
    requires Monotone(h) && k < n < |h| && h[k].Call? && h[n].Call? && Covered(h, window, n, entries, k)
    ensures Covered(h, window, n + 1, Apply(entries, window, h[n]), k)
  {
  }

  lemma TracksSweep(h: seq<Event>, acc: nat -> bool, window: int, n: nat, entries: Entries)
    requires Monotone(h) && n < |h| && h[n].Sweep? && Tracks(h, acc, window, n, entries)
    ensures Tracks(h, acc, window, n + 1, Apply(entries, window, h[n]))
  {
  }

  /** The code answers every call of every history as the specification does, whenever the sweeps run. */
  lemma AnswersMatchHistory(h: seq<Event>, window: int, i: nat)
    requires Monotone(h) && i < |h| && h[i].Call?
    ensures Rejected(h, window, i) <==> !Accepted(h, window, i)
  {
    var acc := Accepts(h, window);
    forall k: nat, entries: Entries | k < |h| && h[k].Call? && Tracks(h, acc, window, k, entries)
      ensures Duplicate(entries, window, h[k].key, h[k].asked) <==> !acc(k)
    {
      AnswerFromTracks(h, window, k, entries);
    }
    MapTracks(h, acc, window, i);
  }

  /** The map after the first `n` events with every sweep deleted. */
  function AfterCalls(h: seq<Event>, window: int, n: nat): Entries
    requires n <= |h|
  {
    if n == 0 then map[]
    else if h[n - 1].Sweep? then AfterCalls(h, window, n - 1)
    else Apply(AfterCalls(h, window, n - 1), window, h[n - 1])
  }

  lemma {:induction false} SameDuplicates(h: seq<Event>, window: int, n: nat, key: string, asked: int)
    requires Monotone(h) && n <= |h| && (n > 0 ==> Ends(h[n - 1]) <= asked)
    ensures Duplicate(After(h, window, n), window, key, asked) <==>
            Duplicate(AfterCalls(h, window, n), window, key, asked)
  {
    if n > 0 {
      SameDuplicates(h, window, n - 1, key, asked);
      if h[n - 1].Call? {
        SameDuplicates(h, window, n - 1, h[n - 1].key, h[n - 1].asked);
      }
    }
  }

  /** Sweeps are invisible over whole histories: with all of them deleted, every call gets the answer it got. */
  lemma SweepsAreInvisible(h: seq<Event>, window: int, i: nat)
    requires Monotone(h) && i < |h| && h[i].Call?
    ensures Rejected(h, window, i) <==> Duplicate(AfterCalls(h, window, i), window, h[i].key, h[i].asked)
  {
    SameDuplicates(h, window, i, h[i].key, h[i].asked);
  }

  /** Accepts of one key are at least a window apart. */
  lemma AcceptsAreSpaced(h: seq<Event>, window: int, i: nat, k: nat)
    requires Monotone(h) && i < k < |h| && Accepted(h, window, i) && Accepted(h, window, k) && h[i].key == h[k].key
    ensures h[k].marked - h[i].marked >= window
  {
  }

  /** The positions below `n` that satisfy `p`, in order. */
  ghost function Select(p: nat -> bool, n: nat): (r: seq<nat>)
    ensures forall j :: 0 <= j < |r| ==> r[j] < n && p(r[j])
    ensures forall i, j :: 0 <= i < j < |r| ==> r[i] < r[j]
    ensures forall k :: 0 <= k < n && p(k) ==> k in r
  {
    if n == 0 then [] else Select(p, n - 1) + (if p(n - 1) then [n - 1] else [])
  }

  /** An accept of `key` at a time in [from, to]. */
  ghost predicate AcceptIn(h: seq<Event>, window: int, key: string, from: int, to: int, k: nat) {
    k < |h| && Accepted(h, window, k) && h[k].key == key && from <= h[k].marked <= to
  }

  ghost function AcceptsIn(h: seq<Event>, window: int, key: string, from: int, to: int): seq<nat> {
    Select((k: nat) => AcceptIn(h, window, key, from, to, k), |h|)
  }

  lemma {:induction false} SpacedSpan(ts: seq<int>, window: int)
    requires ts != [] && forall i, j :: 0 <= i < j < |ts| ==> ts[j] - ts[i] >= window
    ensures ts[|ts| - 1] - ts[0] >= (|ts| - 1) * window
  {
    if |ts| > 1 {
      SpacedSpan(ts[..|ts| - 1], window);
      assert (|ts| - 1) * window == (|ts| - 2) * window + window;
    }
  }

  lemma SpacedCount(ts: seq<int>, window: int, from: int, length: nat)
    requires window > 0 && forall i, j :: 0 <= i < j < |ts| ==> ts[j] - ts[i] >= window
    requires forall j :: 0 <= j < |ts| ==> from <= ts[j] <= from + length
    ensures |ts| <= length / window + 1
  {
    if ts != [] {
      SpacedSpan(ts, window);
      MulDiv(|ts| - 1, window, length);
    }
  }

  /** Rate limit: an interval of length L holds at most L / window + 1 accepts of a key. */
  lemma AcceptRate(h: seq<Event>, window: int, key: string, from: int, length: nat)
    requires Monotone(h) && window > 0
    ensures |AcceptsIn(h, window, key, from, from + length)| <= length / window + 1
  {
    var r := AcceptsIn(h, window, key, from, from + length);
    var ts := seq(|r|, j requires 0 <= j < |r| => Ends(h[r[j]]));
    forall j | 0 <= j < |r|
      ensures AcceptIn(h, window, key, from, from + length, r[j])
    {
    }
    forall i, j | 0 <= i < j < |ts|
      ensures ts[j] - ts[i] >= window
    {
      AcceptsAreSpaced(h, window, r[i], r[j]);
    }
    SpacedCount(ts, window, from, length);
  }

  lemma MulDiv(m: nat, w: int, l: nat)
    requires w > 0 && m * w <= l
    ensures m <= l / w
  {
    var q := l / w;
    assert l == q * w + l % w;
    assert (m - q) * w == m * w - q * w;
    SmallFactor(m - q, w);
  }

  lemma SmallFactor(x: int, w: int)
    requires w > 0 && x * w < w
    ensures x <= 0
  {
  }

  /** The deduper object. The caller passes what the clock reads. */
  class Deduper {
    var entries: Entries
    const window: int

    constructor (window: int)
      ensures entries == map[] && this.window == window
    {
      entries := map[];
      this.window := window;
    }

    method IsDuplicate(key: string, asked: int, marked: int) returns (dup: bool)
      modifies this
      ensures dup == Duplicate(old(entries), window, key, asked)
      ensures entries == Apply(old(entries), window, Call(key, asked, marked))
    {
      if key in entries && asked - entries[key] < window {
        return true;
      }
      entries := entries[key := marked];
      return false;
    }

    /** One tick of the cleanup goroutine: ranges over the map and deletes stale keys. */
    method Cleanup(now: int)
      modifies this
      ensures entries == Apply(old(entries), window, Sweep(now))
    {
      var todo := entries.Keys;
      while todo != {}
        invariant todo <= entries.Keys <= old(entries).Keys
        invariant forall k :: k in entries ==> entries[k] == old(entries)[k]
        invariant forall k :: k in old(entries) && k !in todo ==> (k in entries <==> now - old(entries)[k] < window)
        decreases |todo|
      {
        var k :| k in todo;
        if now - entries[k] >= window {
          entries := entries - {k};
        }
        todo := todo - {k};
      }
    }
  }
}
