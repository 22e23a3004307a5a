/**
 The rolling window of speech-recogniser hypotheses.

 Entries are purged from the front only. Because their times never decrease, that is the same as
 keeping exactly the entries of the last 3.5 seconds (`PurgeIsFilter`).
 */
module HypothesisBuffer {

  datatype Entry = Entry(time: real, text: string, stability: nat)

  const WINDOW_SECONDS := 3.5

  ghost predicate TimesAscend(es: seq<Entry>) {
    forall i, j :: 0 <= i < j < |es| ==> es[i].time <= es[j].time
  }

  ghost predicate NoLaterThan(es: seq<Entry>, now: real) {
    forall i :: 0 <= i < |es| ==> es[i].time <= now
  }

  /** What the front-popping loop leaves. */
  function DropStale(es: seq<Entry>, cutoff: real): seq<Entry> {
    if es != [] && es[0].time < cutoff then DropStale(es[1..], cutoff) else es
  }

  /** The entries still inside the window. */
  function Recent(es: seq<Entry>, cutoff: real): seq<Entry> {
    if es == [] then [] else (if es[0].time < cutoff then [] else [es[0]]) + Recent(es[1..], cutoff)
  }

  lemma {:induction false} AllRecent(es: seq<Entry>, cutoff: real)
    requires forall i :: 0 <= i < |es| ==> es[i].time >= cutoff
    ensures Recent(es, cutoff) == es
  {
    if es == [] {
    } else {
      AllRecent(es[1..], cutoff);
    }
  }

  lemma {:induction false} PurgeIsFilter(es: seq<Entry>, cutoff: real)
    requires TimesAscend(es)
    ensures DropStale(es, cutoff) == Recent(es, cutoff)
  {
    if es == [] {
    } else {
      if es[0].time < cutoff {
        PurgeIsFilter(es[1..], cutoff);
      } else {
        AllRecent(es, cutoff);
      }
    }
  }

  /** Purging keeps a suffix: the order of the window and its last entry survive. */
  lemma {:induction false} PurgeIsSuffix(es: seq<Entry>, cutoff: real) returns (k: nat)
    ensures k <= |es| && DropStale(es, cutoff) == es[k..]
    ensures forall i :: 0 <= i < k ==> es[i].time < cutoff
    ensures k < |es| ==> es[k].time >= cutoff
  {
    if es != [] && es[0].time < cutoff {
      k := PurgeIsSuffix(es[1..], cutoff);
      k := k + 1;
    } else {
      k := 0;
    }
  }

  predicate Comparable(a: string, b: string) {
    a <= b || b <= a
  }

  /** Does `push` replace the last entry instead of appending? */
  predicate Replaces(es: seq<Entry>, text: string) {
    es != [] && es[|es| - 1].text != "" && Comparable(es[|es| - 1].text, text)
  }

  function Placed(es: seq<Entry>, e: Entry): (r: seq<Entry>)
    ensures r != [] && r[|r| - 1] == e
  {
    if Replaces(es, e.text) then es[|es| - 1 := e] else es + [e]
  }

  function Pushed(es: seq<Entry>, e: Entry): seq<Entry> {
    Recent(Placed(es, e), e.time - WINDOW_SECONDS)
  }

  lemma PlacedAscends(es: seq<Entry>, e: Entry)
    requires TimesAscend(es) && NoLaterThan(es, e.time)
    ensures TimesAscend(Placed(es, e)) && NoLaterThan(Placed(es, e), e.time)
  {
  }

  lemma RecentKeepsOrder(es: seq<Entry>, cutoff: real, now: real)
    requires TimesAscend(es) && NoLaterThan(es, now)
    ensures TimesAscend(Recent(es, cutoff)) && NoLaterThan(Recent(es, cutoff), now)
  {
    PurgeIsFilter(es, cutoff);
    var k := PurgeIsSuffix(es, cutoff);
  }

  // ----- neighbouring entries -----

  /** No entry is a prefix of the one next to it, and no entry is empty. */
  ghost predicate NeighboursDistinct(es: seq<Entry>) {
    && (forall i :: 0 <= i < |es| ==> es[i].text != "")
    && (forall i :: 0 <= i < |es| - 1 ==> !Comparable(es[i].text, es[i + 1].text))
  }

  /**
   The one way a push makes two neighbours comparable: the new text shortens the last entry to a
   prefix of the entry before it, and that entry is still in the window.
   */
  predicate ShrinksOntoNeighbour(es: seq<Entry>, e: Entry) {
    && |es| >= 2
    && e.text < es[|es| - 1].text
    && e.text <= es[|es| - 2].text
    && es[|es| - 2].time >= e.time - WINDOW_SECONDS
  }

  /** Before purging, only the last pair can be comparable, and only after a shortening replacement. */
  lemma PlacedNeighbours(es: seq<Entry>, e: Entry, i: nat)
    requires NeighboursDistinct(es) && e.text != "" && i + 1 < |Placed(es, e)|
    ensures var p := Placed(es, e);
      Comparable(p[i].text, p[i + 1].text)
      <==> |es| >= 2 && i == |es| - 2 && e.text < es[i + 1].text && e.text <= es[i].text
  {
  }

  /** The first entry the purge keeps. */
  ghost predicate CutAt(es: seq<Entry>, cutoff: real, k: nat) {
    k <= |es| && (forall i :: 0 <= i < k ==> es[i].time < cutoff) && (k < |es| ==> es[k].time >= cutoff)
  }

  lemma RecentSuffix(es: seq<Entry>, cutoff: real) returns (k: nat)
    requires TimesAscend(es)
    ensures CutAt(es, cutoff, k) && Recent(es, cutoff) == es[k..]
  {
    PurgeIsFilter(es, cutoff);
    k := PurgeIsSuffix(es, cutoff);
  }

  lemma PushKeepsNeighbours(es: seq<Entry>, e: Entry)
    requires TimesAscend(es) && NoLaterThan(es, e.time)
    requires NeighboursDistinct(es) && e.text != ""
    ensures NeighboursDistinct(Pushed(es, e)) <==> !ShrinksOntoNeighbour(es, e)
  {
    PlacedAscends(es, e);
    var p := Placed(es, e);
    var k := RecentSuffix(p, e.time - WINDOW_SECONDS);
    assert Pushed(es, e) == p[k..];
    if ShrinksOntoNeighbour(es, e) {
      ShrunkPairStays(es, e, k);
    } else {
      OthersStayApart(es, e, k);
    }
  }

  lemma ShrunkPairStays(es: seq<Entry>, e: Entry, k: nat)
    requires TimesAscend(es) && NoLaterThan(es, e.time) && NeighboursDistinct(es) && e.text != ""
    requires CutAt(Placed(es, e), e.time - WINDOW_SECONDS, k) && ShrinksOntoNeighbour(es, e)
    ensures !NeighboursDistinct(Placed(es, e)[k..])
  {
    var p, i := Placed(es, e), |es| - 2;
    assert p[i] == es[i];
    PlacedNeighbours(es, e, i);
    assert p[k..][i - k] == p[i] && p[k..][i - k + 1] == p[i + 1];
  }

  lemma OthersStayApart(es: seq<Entry>, e: Entry, k: nat)
    requires TimesAscend(es) && NoLaterThan(es, e.time) && NeighboursDistinct(es) && e.text != ""
    requires CutAt(Placed(es, e), e.time - WINDOW_SECONDS, k) && !ShrinksOntoNeighbour(es, e)
    ensures NeighboursDistinct(Placed(es, e)[k..])
  {
  }

  /** A shortening replacement really does it: "ac" becomes "a", a prefix of its neighbour "ab". */
  lemma ShorteningBreaksNeighbours()
    ensures var es := [Entry(0.0, "ab", 0), Entry(0.0, "ac", 0)];
      NeighboursDistinct(es) && !NeighboursDistinct(Pushed(es, Entry(0.0, "a", 0)))
  {
    var es := [Entry(0.0, "ab", 0), Entry(0.0, "ac", 0)];
    assert "ab"[1] != "ac"[1];
    PushKeepsNeighbours(es, Entry(0.0, "a", 0));
  }

  /** A run of pushes whose replacements only extend the last text. */
  ghost predicate ExtendingRun(es: seq<Entry>, pushes: seq<Entry>)
    decreases |pushes|
  {
    pushes == [] ||
    (var e := pushes[0];
     && e.text != "" && NoLaterThan(es, e.time)
     && (Replaces(es, e.text) ==> es[|es| - 1].text <= e.text)
     && ExtendingRun(Pushed(es, e), pushes[1..]))
  }

  function PushAll(es: seq<Entry>, pushes: seq<Entry>): seq<Entry>
    decreases |pushes|
  {
    if pushes == [] then es else PushAll(Pushed(es, pushes[0]), pushes[1..])
  }

  lemma ExtendingPushKeeps(es: seq<Entry>, e: Entry)
    requires TimesAscend(es) && NeighboursDistinct(es) && e.text != "" && NoLaterThan(es, e.time)
    requires Replaces(es, e.text) ==> es[|es| - 1].text <= e.text
    ensures TimesAscend(Pushed(es, e)) && NeighboursDistinct(Pushed(es, e))
  {
    assert !ShrinksOntoNeighbour(es, e);
    PushKeepsNeighbours(es, e);
    PlacedAscends(es, e);
    RecentKeepsOrder(Placed(es, e), e.time - WINDOW_SECONDS, e.time);
  }

  lemma {:induction false} ExtendingRunKeepsNeighbours(es: seq<Entry>, pushes: seq<Entry>)
    requires TimesAscend(es) && NeighboursDistinct(es) && ExtendingRun(es, pushes)
    ensures TimesAscend(PushAll(es, pushes)) && NeighboursDistinct(PushAll(es, pushes))
    decreases |pushes|
  {
    if pushes == [] {
    } else {
      ExtendingPushKeeps(es, pushes[0]);
      ExtendingRunKeepsNeighbours(Pushed(es, pushes[0]), pushes[1..]);
    }
  }

  // ----- the buffer object -----

  class Buffer {
    var buf: seq<Entry>

    /** `now` is a time not before any clock reading so far. */
    ghost predicate Valid(now: real)
      reads this
    {
      TimesAscend(buf) && NoLaterThan(buf, now)
    }

    constructor ()
      ensures buf == [] && forall now :: Valid(now)
    {
      buf := [];
    }

    method Push(text: string, stability: nat, now: real)
      requires Valid(now)
      modifies this
      ensures Valid(now)
      ensures buf == Pushed(old(buf), Entry(now, text, stability))
    {
      var e := Entry(now, text, stability);
      PlacedAscends(buf, e);
      if buf != [] {
        var lastText := buf[|buf| - 1].text;
        if lastText != "" && (lastText <= text || text <= lastText) {
          buf := buf[|buf| - 1 := e];
          Purge(now);
          return;
        }
      }
      buf := buf + [e];
      Purge(now);
    }

    method Purge(now: real)
      requires Valid(now)
      modifies this
      ensures Valid(now)
      ensures buf == Recent(old(buf), now - WINDOW_SECONDS)
    {
      var cutoff := now - WINDOW_SECONDS;
      while buf != [] && buf[0].time < cutoff
        invariant DropStale(buf, cutoff) == DropStale(old(buf), cutoff)
        invariant Valid(now)
        decreases |buf|
      {
        buf := buf[1..];
      }
      PurgeIsFilter(old(buf), cutoff);
    }

    method GetWindow(now: real) returns (window: seq<(string, nat)>)
      requires Valid(now)
      modifies this
      ensures Valid(now)
      ensures buf == Recent(old(buf), now - WINDOW_SECONDS)
      ensures window == Window(buf)
    {
      Purge(now);
      window := [];
      for i := 0 to |buf|
        invariant |window| == i && forall j :: 0 <= j < i ==> window[j] == (buf[j].text, buf[j].stability)
      {
        window := window + [(buf[i].text, buf[i].stability)];
      }
    }

    method Clear()
      modifies this
      ensures buf == [] && forall now :: Valid(now)
    {
      buf := [];
    }
  }

  function Window(es: seq<Entry>): (w: seq<(string, nat)>)
    ensures |w| == |es|
    ensures forall i :: 0 <= i < |es| ==> w[i] == (es[i].text, es[i].stability)
  {
    seq(|es|, i requires 0 <= i < |es| => (es[i].text, es[i].stability))
  }
}
