/**
 * Track alignment: the track whose last event ends later is trimmed at the
 * end time of the other track's last event. Notes starting at or after the
 * cutoff are removed, notes sounding past it are shortened.
 */
module Align {
  import opened Notes

  /** Both tracks exist and have a last event (otherwise `[-1]` fails). */
  predicate Alignable(m: MidiList) {
    |m| == 2 && |m[0]| > 0 && |m[1]| > 0
  }

  /**
   * The index of the track to cut: the one whose last event ends later,
   * track 0 when both end together (the first index of the maximum).
   */
  function TrackToCut(m: MidiList): (k: nat)
    requires Alignable(m)
    ensures k < 2
    ensures Last(m[k]).end >= Last(m[1 - k]).end
    ensures Last(m[0]).end == Last(m[1]).end ==> k == 0
  {
    if Last(m[0]).end >= Last(m[1]).end then 0 else 1
  }

  /** The common end time: the smaller of the two last-event end times. */
  function Cutoff(m: MidiList): (c: real)
    requires Alignable(m)
    ensures c <= Last(m[0]).end && c <= Last(m[1]).end
    ensures c == Last(m[0]).end || c == Last(m[1]).end
    ensures c == Last(m[1 - TrackToCut(m)]).end
  {
    if Last(m[0]).end <= Last(m[1]).end then Last(m[0]).end else Last(m[1]).end
  }

  /** A kept note: its end is lowered to the cutoff when it sounds past it. */
  function Clamp(n: Note, c: real): Note {
    if n.end > c then n.(end := c) else n
  }

  /**
   * What the cutting loop leaves of a track: the notes starting before the
   * cutoff, in their original order, each clamped to the cutoff.
   */
  function CutTrack(t: Track, c: real): (r: Track)
    ensures |r| <= |t|
    ensures forall i :: 0 <= i < |r| ==> r[i].start < c && r[i].end <= c
  {
    if t == [] then []
    else (if t[0].start >= c then [] else [Clamp(t[0], c)]) + CutTrack(t[1..], c)
  }

  /** The aligned song: only the track chosen by TrackToCut changes. */
  function CutMidiList(m: MidiList): MidiList
    requires Alignable(m)
  {
    m[TrackToCut(m) := CutTrack(m[TrackToCut(m)], Cutoff(m))]
  }

  lemma {:induction false} CutTrackConcat(a: Track, b: Track, c: real)
    ensures CutTrack(a + b, c) == CutTrack(a, c) + CutTrack(b, c)
  {
    if a == [] {
      assert a + b == b;
    } else {
      assert (a + b)[0] == a[0];
      assert (a + b)[1..] == a[1..] + b;
      CutTrackConcat(a[1..], b, c);
    }
  }

  /**
   * The loop of the alignment: walks `track` with an index, popping every
   * note that starts at or after `cutoff` (and stepping the index back so
   * the note that moved into its place is visited next) and shortening every
   * kept note that ends after it.
   */
  method CutTrackLoop(track: Track, cutoff: real) returns (cut: Track)
    ensures cut == CutTrack(track, cutoff)
  {
    cut := track;
    ghost var i := 0;  // index in `track` of the note at position `n` of `cut`
    var n: int := 0;
    while n < |cut|
      invariant 0 <= i <= |track|
      invariant 0 <= n <= |cut| && |cut| - n == |track| - i
      invariant cut[..n] == CutTrack(track[..i], cutoff)
      invariant cut[n..] == track[i..]
      decreases |cut| - n
    {
      ghost var done := cut[..n];
      assert cut[n] == track[i] by { assert cut[n..][0] == track[i..][0]; }
      assert cut[n + 1..] == track[i + 1..] by { assert cut[n + 1..] == cut[n..][1..]; }
      assert track[..i + 1] == track[..i] + [track[i]];
      CutTrackConcat(track[..i], [track[i]], cutoff);
      if cut[n].start >= cutoff {
        cut := cut[..n] + cut[n + 1..];  // pop(n)
        assert cut[..n] == done;
        n := n - 1;
      } else {
        if cut[n].end > cutoff {
          cut := cut[n := cut[n].(end := cutoff)];
        }
        assert cut[..n + 1] == done + [Clamp(track[i], cutoff)];
      }
      n := n + 1;
      i := i + 1;
    }
    assert track[..i] == track && cut == cut[..n];
  }

  /**
   * Finds the cutoff and the track to cut from the two last events, cuts
   * that track and leaves the other one untouched.
   */
  method CutMidiFile(midiList: MidiList) returns (out: MidiList)
    requires Alignable(midiList)
    ensures |out| == 2
    ensures out[TrackToCut(midiList)] == CutTrack(midiList[TrackToCut(midiList)], Cutoff(midiList))
    ensures out[1 - TrackToCut(midiList)] == midiList[1 - TrackToCut(midiList)]
    ensures out == CutMidiList(midiList)
  {
    var firstTrackEndTime := midiList[0][|midiList[0]| - 1].end;
    var secondTrackEndTime := midiList[1][|midiList[1]| - 1].end;
    var cutSongEndTime := if firstTrackEndTime <= secondTrackEndTime then firstTrackEndTime else secondTrackEndTime;
    var trackToCutIdx := if firstTrackEndTime >= secondTrackEndTime then 0 else 1;
    var cut := CutTrackLoop(midiList[trackToCutIdx], cutSongEndTime);
    out := midiList[trackToCutIdx := cut];
  }

  /**
   * On a track sorted by `(start, pitch)` the popped notes form a suffix:
   * the `j`-th kept note is the `j`-th original note, clamped, and every
   * note past the kept ones starts at or after the cutoff.
   */
  lemma {:induction false} CutSortedKeepsPrefix(t: Track, c: real)
    requires SortedByStartPitch(t)
    ensures forall j :: 0 <= j < |CutTrack(t, c)| ==> CutTrack(t, c)[j] == Clamp(t[j], c)
    ensures forall j :: |CutTrack(t, c)| <= j < |t| ==> t[j].start >= c
  {
    if t != [] {
      var rest := t[1..];
      assert SortedByStartPitch(rest) by {
        forall i, j | 0 <= i < j < |rest| ensures NoteBefore(rest[i], rest[j]) {
          assert rest[i] == t[i + 1] && rest[j] == t[j + 1];
        }
      }
      CutSortedKeepsPrefix(rest, c);
      var r := CutTrack(rest, c);
      if t[0].start >= c {
        assert r == [];
        forall j | 0 <= j < |t| ensures t[j].start >= c {
          if j > 0 { assert NoteBefore(t[0], t[j]); }
        }
      } else {
        assert CutTrack(t, c) == [Clamp(t[0], c)] + r;
        forall j | |CutTrack(t, c)| <= j < |t| ensures t[j].start >= c {
          assert t[j] == rest[j - 1];
        }
      }
    }
  }

  /** Cutting keeps a sorted track sorted: starts and pitches never change. */
  lemma CutKeepsOrder(t: Track, c: real)
    requires SortedByStartPitch(t)
    ensures SortedByStartPitch(CutTrack(t, c))
  {
    CutSortedKeepsPrefix(t, c);
    var r := CutTrack(t, c);
    forall i, j | 0 <= i < j < |r| ensures NoteBefore(r[i], r[j]) {
      assert NoteBefore(t[i], t[j]);
    }
  }

  /** A track that already lies before the cutoff is left as it is. */
  lemma {:induction false} CutTrackNoOp(t: Track, c: real)
    requires forall j :: 0 <= j < |t| ==> t[j].start < c && t[j].end <= c
    ensures CutTrack(t, c) == t
  {
    if t != [] {
      CutTrackNoOp(t[1..], c);
    }
  }

  /** Cutting a track twice at the same cutoff is the same as cutting it once. */
  lemma CutTrackIdempotent(t: Track, c: real)
    ensures CutTrack(CutTrack(t, c), c) == CutTrack(t, c)
  {
    CutTrackNoOp(CutTrack(t, c), c);
  }

  /**
   * After alignment the untouched track still ends exactly at the cutoff,
   * and every note of the cut track starts before it and ends no later.
   */
  lemma AlignedBounds(m: MidiList)
    requires Alignable(m)
    ensures var r, k, c := CutMidiList(m), TrackToCut(m), Cutoff(m);
      |r| == 2 && Last(r[1 - k]).end == c &&
      forall j :: 0 <= j < |r[k]| ==> r[k][j].start < c && r[k][j].end <= c
  {
  }

  /**
   * The two aligned tracks need not end together: the cut track's last kept
   * note may end well before the cutoff, and aligning the result a second
   * time then cuts the other track.
   */
  lemma AlignedEndsMayDiffer()
    ensures var m := [[Note(0.0, 3.0, 60), Note(9.0, 10.0, 60)], [Note(0.0, 8.0, 60)]];
      var r := CutMidiList(m);
      Alignable(r) && Last(r[0]).end == 3.0 && Last(r[1]).end == 8.0 && CutMidiList(r) != r
  {
  }
}
