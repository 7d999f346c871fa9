/**
 * Validation of one aligned song: a scan of the chord track (piano range and
 * chord rest), a scan of the melody track (melody range, melody rest and the
 * octave rule, stopping at the first jump), and a fixed first-failure-wins
 * chain of rejections with strict comparisons.
 */
module Validate {
  import opened Notes

  datatype Option<T> = None | Some(value: T)

  /** Why a file is discarded; one counter per reason. */
  datatype Reason =
    | WrongTrackCount
    | ChordOutOfRange
    | AboveOctave
    | MelodyOutOfRange
    | MelodyRest
    | ChordRest

  datatype Verdict = Write | Discard(reason: Reason)

  /**
   * The two configurable thresholds: the rest limit is a percentage of the
   * song duration; the out-of-range limit is compared with a plain fraction.
   */
  datatype Thresholds = Thresholds(pauseThreshPerc: real, outOfRangePerc: real)

  const DefaultThresholds := Thresholds(25.0, 0.0)

  /** The 88 keys of a piano, A0 to C8. */
  predicate InPianoRange(pitch: int) {
    21 <= pitch <= 108
  }

  /** Four octaves starting from C1. */
  predicate InMelodyRange(pitch: int) {
    24 <= pitch <= 72
  }

  predicate HasChordOutOfRange(chords: Track) {
    exists j :: 0 <= j < |chords| && !InPianoRange(chords[j].pitch)
  }

  // ---------------------------------------------------------------------
  // Rest accumulation, shared by both scans
  // ---------------------------------------------------------------------

  /** The start of the note visited before note `i`; 0 before the first. */
  function PrevStart(t: Track, i: nat): real
    requires i <= |t|
  {
    if i == 0 then 0.0 else t[i - 1].start
  }

  /** The end of the note visited before note `i`; 0 before the first. */
  function PrevEnd(t: Track, i: nat): real
    requires i <= |t|
  {
    if i == 0 then 0.0 else t[i - 1].end
  }

  /**
   * What note `i` adds to the rest: the distance from the previous note's
   * end to its start, when both its start and its end move past the
   * previous note's. For overlapping notes this is negative.
   */
  function Increment(t: Track, i: nat): real
    requires i < |t|
  {
    if t[i].start > PrevStart(t, i) && t[i].end > PrevEnd(t, i)
    then t[i].start - PrevEnd(t, i)
    else 0.0
  }

  /** The rest accumulated over the first `n` notes. */
  function RestAmount(t: Track, n: nat): real
    requires n <= |t|
  {
    if n == 0 then 0.0 else RestAmount(t, n - 1) + Increment(t, n - 1)
  }

  /** Number of notes outside the melody range. */
  function CountOutOfRange(t: Track): nat {
    if t == [] then 0
    else CountOutOfRange(t[..|t| - 1]) + (if InMelodyRange(Last(t).pitch) then 0 else 1)
  }

  // ---------------------------------------------------------------------
  // The octave rule
  // ---------------------------------------------------------------------

  /**
   * Note `i` (not the first) starts strictly after the note before it and
   * lies more than an octave away from it.
   */
  predicate JumpAt(t: Track, i: nat) {
    0 < i < |t| && t[i].start > t[i - 1].start && Abs(t[i].pitch - t[i - 1].pitch) > 12
  }

  predicate HasJump(t: Track) {
    exists i: nat :: i < |t| && JumpAt(t, i)
  }

  function IteratedFrom(t: Track, i: nat): (k: nat)
    requires i <= |t|
    ensures i <= k <= |t|
    ensures i < |t| ==> i < k
    decreases |t| - i
  {
    if i == |t| then |t|
    else if JumpAt(t, i) then i + 1
    else IteratedFrom(t, i + 1)
  }

  /** How many melody notes the scan visits: up to and including the first jump. */
  function Iterated(t: Track): nat {
    IteratedFrom(t, 0)
  }

  lemma {:induction false} IteratedFromStopsAtJump(t: Track, i: nat)
    requires i <= |t|
    requires forall j: nat :: j < i ==> !JumpAt(t, j)
    ensures forall j: nat :: j + 1 < IteratedFrom(t, i) ==> !JumpAt(t, j)
    ensures IteratedFrom(t, i) < |t| ==> JumpAt(t, IteratedFrom(t, i) - 1)
    ensures HasJump(t) <==> i < IteratedFrom(t, i) && JumpAt(t, IteratedFrom(t, i) - 1)
    decreases |t| - i
  {
    if i < |t| && !JumpAt(t, i) {
      IteratedFromStopsAtJump(t, i + 1);
    }
  }

  /**
   * The melody scan stops right after the first jump: every note before the
   * last visited one is no jump, the last visited one is a jump exactly when
   * the melody has one, and without a jump the whole melody is visited.
   */
  lemma IteratedIsFirstJump(t: Track)
    requires |t| > 0
    ensures 1 <= Iterated(t) <= |t|
    ensures forall j: nat :: j + 1 < Iterated(t) ==> !JumpAt(t, j)
    ensures HasJump(t) <==> JumpAt(t, Iterated(t) - 1)
    ensures !HasJump(t) ==> Iterated(t) == |t|
  {
    IteratedFromStopsAtJump(t, 0);
  }

  // ---------------------------------------------------------------------
  // The two scans
  // ---------------------------------------------------------------------

  /**
   * The chord scan: stops at the first pitch outside the piano range;
   * otherwise accumulates the chord rest over every note.
   */
  method ScanChords(chords: Track) returns (outOfRange: bool, restAmount: real)
    ensures outOfRange == HasChordOutOfRange(chords)
    ensures !outOfRange ==> restAmount == RestAmount(chords, |chords|)
  {
    outOfRange := false;
    restAmount := 0.0;
    var prevStart, prevEnd := 0.0, 0.0;
    var i := 0;
    while i < |chords|
      invariant 0 <= i <= |chords|
      invariant !outOfRange
      invariant forall j :: 0 <= j < i ==> InPianoRange(chords[j].pitch)
      invariant prevStart == PrevStart(chords, i) && prevEnd == PrevEnd(chords, i)
      invariant restAmount == RestAmount(chords, i)
    {
      var note := chords[i];
      if note.pitch < 21 || note.pitch > 108 {
        outOfRange := true;
        break;
      }
      if note.start > prevStart && note.end > prevEnd {
        restAmount := restAmount + (note.start - prevEnd);
      }
      prevEnd := note.end;
      prevStart := note.start;
      i := i + 1;
    }
  }

  /** What the melody scan leaves behind in its accumulators. */
  datatype MelodyScan = MelodyScan(
    aboveOctave: bool,
    countNotes: nat,
    countOutOfRange: nat,
    restAmount: real,
    lastNote: Note)

  /**
   * The melody scan: counts out-of-range notes, accumulates the rest and
   * checks each note against the note visited just before it, stopping at
   * the first jump of more than an octave. The jumping note is counted as
   * out of range and adds its rest, but is not counted as a note.
   */
  method ScanMelody(melody: Track) returns (s: MelodyScan)
    requires |melody| > 0
    ensures s.aboveOctave == HasJump(melody)
    ensures s.countNotes == (if s.aboveOctave then Iterated(melody) - 1 else Iterated(melody))
    ensures s.countNotes > 0
    ensures s.countOutOfRange == CountOutOfRange(melody[..Iterated(melody)])
    ensures s.restAmount == RestAmount(melody, Iterated(melody))
    ensures s.lastNote == melody[Iterated(melody) - 1]
  {
    var countNotes, countOutOfRange := 0, 0;
    var prevPitch: Option<int> := None;
    var prevStart, prevEnd := 0.0, 0.0;
    var restAmount := 0.0;
    var aboveOctave := false;
    var lastNote := melody[0];
    var i := 0;
    while i < |melody|
      invariant 0 <= i <= |melody|
      invariant !aboveOctave
      invariant countNotes == i
      invariant countOutOfRange == CountOutOfRange(melody[..i])
      invariant restAmount == RestAmount(melody, i)
      invariant prevStart == PrevStart(melody, i) && prevEnd == PrevEnd(melody, i)
      invariant prevPitch == if i == 0 then None else Some(melody[i - 1].pitch)
      invariant i > 0 ==> lastNote == melody[i - 1]
      invariant forall j: nat :: j < i ==> !JumpAt(melody, j)
      invariant Iterated(melody) == IteratedFrom(melody, i)
    {
      var note := melody[i];
      lastNote := note;
      assert melody[..i + 1][..i] == melody[..i];
      if note.pitch < 24 || note.pitch > 72 {
        countOutOfRange := countOutOfRange + 1;
      }
      if note.start > prevStart {
        if note.end > prevEnd {
          restAmount := restAmount + (note.start - prevEnd);
        }
        if prevPitch.Some? {
          var diffPitches := Abs(note.pitch - prevPitch.value);
          if diffPitches > 12 {
            aboveOctave := true;
            break;
          }
        }
      }
      prevPitch := Some(note.pitch);
      prevEnd := note.end;
      prevStart := note.start;
      countNotes := countNotes + 1;
      i := i + 1;
    }
    s := MelodyScan(aboveOctave, countNotes, countOutOfRange, restAmount, lastNote);
  }

  // ---------------------------------------------------------------------
  // The verdict
  // ---------------------------------------------------------------------

  /** The song duration: the end of the last melody note the scan visited. */
  function SongDuration(melody: Track): real
    requires |melody| > 0
  {
    melody[Iterated(melody) - 1].end
  }

  /**
   * The song can be judged without a crash: two tracks, and unless a chord
   * is out of range, a melody note to take the duration from and a
   * non-zero duration to divide by.
   */
  predicate Classifiable(out: MidiList) {
    |out| == 2 &&
    (HasChordOutOfRange(out[1]) || (|out[0]| > 0 && SongDuration(out[0]) != 0.0))
  }

  function RestPercentage(restAmount: real, duration: real): real
    requires duration != 0.0
  {
    restAmount / duration * 100.0
  }

  /**
   * The first failing rule, stated on whole tracks: chord range, octave
   * jump, fraction of melody notes out of range, melody rest, chord rest.
   */
  function Classify(out: MidiList, th: Thresholds): Verdict
    requires Classifiable(out)
  {
    var melody, chords := out[0], out[1];
    if HasChordOutOfRange(chords) then Discard(ChordOutOfRange)
    else if HasJump(melody) then Discard(AboveOctave)
    else
      IteratedIsFirstJump(melody);
      var duration := Last(melody).end;
      if CountOutOfRange(melody) as real / |melody| as real > th.outOfRangePerc then Discard(MelodyOutOfRange)
      else if RestPercentage(RestAmount(melody, |melody|), duration) > th.pauseThreshPerc then Discard(MelodyRest)
      else if RestPercentage(RestAmount(chords, |chords|), duration) > th.pauseThreshPerc then Discard(ChordRest)
      else Write
  }

  /**
   * Runs the chord scan, then the melody scan, computes the ratios and
   * applies the rejection chain in order.
   */
  method ValidateSong(out: MidiList, th: Thresholds) returns (v: Verdict)
    requires Classifiable(out)
    ensures v == Classify(out, th)
  {
    var chordOutOfRange, restAmountChords := ScanChords(out[1]);
    if chordOutOfRange {
      return Discard(ChordOutOfRange);
    }
    var s := ScanMelody(out[0]);
    IteratedIsFirstJump(out[0]);
    assert out[0][..|out[0]|] == out[0];
    var percentageOutOfRange := s.countOutOfRange as real / s.countNotes as real;
    var songDuration := s.lastNote.end;
    var restPercentage := RestPercentage(s.restAmount, songDuration);
    var restPercentageChords := RestPercentage(restAmountChords, songDuration);
    if s.aboveOctave {
      return Discard(AboveOctave);
    }
    if percentageOutOfRange > th.outOfRangePerc {
      return Discard(MelodyOutOfRange);
    }
    if restPercentage > th.pauseThreshPerc {
      return Discard(MelodyRest);
    }
    if restPercentageChords > th.pauseThreshPerc {
      return Discard(ChordRest);
    }
    return Write;
  }

  // ---------------------------------------------------------------------
  // Properties of the rules
  // ---------------------------------------------------------------------

  /** No note is counted exactly when every note lies in the melody range. */
  lemma {:induction false} NoneOutOfRange(t: Track)
    ensures CountOutOfRange(t) == 0 <==> forall j :: 0 <= j < |t| ==> InMelodyRange(t[j].pitch)
  {
    if t != [] {
      var init := t[..|t| - 1];
      NoneOutOfRange(init);
      assert forall j :: 0 <= j < |init| ==> init[j] == t[j];
    }
  }

  /**
   * With the default out-of-range threshold of 0, a melody that passes the
   * chord and octave rules is rejected for its range exactly when one of
   * its notes lies outside 24..72.
   */
  lemma DefaultRangeRejectsAnyOutOfRangeNote(out: MidiList, pauseThreshPerc: real)
    requires Classifiable(out)
    requires !HasChordOutOfRange(out[1]) && !HasJump(out[0])
    ensures Classify(out, DefaultThresholds.(pauseThreshPerc := pauseThreshPerc)) == Discard(MelodyOutOfRange)
        <==> exists j :: 0 <= j < |out[0]| && !InMelodyRange(out[0][j].pitch)
  {
    NoneOutOfRange(out[0]);
    var count := CountOutOfRange(out[0]) as real;
    var total := |out[0]| as real;
    assert count / total > 0.0 <==> count > 0.0;
  }

  /**
   * A monophonic track: starts are not negative, every note has a positive
   * length and no note starts before the previous one has ended.
   */
  predicate Monophonic(t: Track) {
    (|t| > 0 ==> t[0].start >= 0.0) &&
    (forall j :: 0 <= j < |t| ==> t[j].start < t[j].end) &&
    (forall j :: 0 < j < |t| ==> t[j - 1].end <= t[j].start)
  }

  /** Total sounding time of the first `n` notes. */
  function Sounding(t: Track, n: nat): real
    requires n <= |t|
  {
    if n == 0 then 0.0 else Sounding(t, n - 1) + (t[n - 1].end - t[n - 1].start)
  }

  /**
   * On a monophonic track the accumulated rest is exactly the silent time:
   * the end of the last note minus the time some note sounds.
   */
  lemma {:induction false} MonophonicRestIsSilence(t: Track, n: nat)
    requires Monophonic(t) && 0 < n <= |t|
    ensures RestAmount(t, n) == t[n - 1].end - Sounding(t, n)
    ensures RestAmount(t, n) >= 0.0
  {
    if n > 1 {
      MonophonicRestIsSilence(t, n - 1);
      assert t[n - 2].end <= t[n - 1].start;
      assert Increment(t, n - 1) == t[n - 1].start - t[n - 2].end;
    } else {
      assert Increment(t, 0) == t[0].start;
    }
  }

  lemma PercentAbove(x: real, d: real, p: real)
    requires d > 0.0
    ensures RestPercentage(x, d) > p <==> x * 100.0 > p * d
  {
  }

  /**
   * For a monophonic melody that passes the first three rules, the melody
   * rest rule rejects exactly when the silent time exceeds the threshold
   * percentage of the song; silence of exactly that share is accepted.
   */
  lemma MelodyRestRule(out: MidiList, th: Thresholds)
    requires Classifiable(out)
    requires !HasChordOutOfRange(out[1]) && !HasJump(out[0])
    requires CountOutOfRange(out[0]) as real / |out[0]| as real <= th.outOfRangePerc
    requires Monophonic(out[0])
    ensures var melody := out[0];
      var silence := Last(melody).end - Sounding(melody, |melody|);
      Classify(out, th) == Discard(MelodyRest) <==> silence * 100.0 > th.pauseThreshPerc * Last(melody).end
  {
    var melody := out[0];
    IteratedIsFirstJump(melody);
    MonophonicRestIsSilence(melody, |melody|);
    assert Last(melody).end > 0.0 by {
      assert melody[0].start >= 0.0;
      assert Last(melody).end > Last(melody).start;
      if |melody| > 1 {
        assert Last(melody).start >= melody[|melody| - 2].end;
      }
      assert Last(melody).start >= 0.0 by {
        var j := 0;
        while j < |melody| - 1
          invariant 0 <= j < |melody|
          invariant melody[j].start >= 0.0
        {
          assert melody[j + 1].start >= melody[j].end;
          j := j + 1;
        }
      }
    }
    PercentAbove(RestAmount(melody, |melody|), Last(melody).end, th.pauseThreshPerc);
  }

  /**
   * The rest is not clamped at zero: a note that starts inside the previous
   * note but ends after it subtracts the overlap.
   */
  lemma OverlapSubtractsRest()
    ensures RestAmount([Note(0.0, 5.0, 60), Note(2.0, 6.0, 62)], 2) == -3.0
  {
  }

  /**
   * A note starting together with the one before it is not compared with
   * it, but it still becomes the note the next one is compared with.
   */
  lemma SameStartNoteIsComparedNext()
    ensures var t := [Note(0.0, 1.0, 60), Note(0.0, 1.0, 80), Note(1.0, 2.0, 60)];
      !JumpAt(t, 1) && JumpAt(t, 2) && HasJump(t) && Iterated(t) == 3
  {
    var t := [Note(0.0, 1.0, 60), Note(0.0, 1.0, 80), Note(1.0, 2.0, 60)];
    assert JumpAt(t, 2);
  }
}
