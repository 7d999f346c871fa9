/**
 * The batch over the corpus: every file is either discarded under exactly
 * one reason, bumping that reason's counter, or aligned, validated and
 * written. The summary totals the counters and derives the accepted count.
 */
module Batch {
  import opened Notes
  import opened Align
  import opened Validate

  /** One counter per rejection reason, in the order they are declared. */
  datatype Counters = Counters(
    outOfRange: nat,
    aboveOctave: nat,
    chordsOutOfRange: nat,
    numTracks: nat,
    restChords: nat,
    rest: nat)

  const NoCounters := Counters(0, 0, 0, 0, 0, 0)

  function Bump(c: Counters, r: Reason): Counters {
    match r
    case WrongTrackCount => c.(numTracks := c.numTracks + 1)
    case ChordOutOfRange => c.(chordsOutOfRange := c.chordsOutOfRange + 1)
    case AboveOctave => c.(aboveOctave := c.aboveOctave + 1)
    case MelodyOutOfRange => c.(outOfRange := c.outOfRange + 1)
    case MelodyRest => c.(rest := c.rest + 1)
    case ChordRest => c.(restChords := c.restChords + 1)
  }

  /** The number of discarded songs: the sum of the six counters. */
  function Discarded(c: Counters): nat {
    c.outOfRange + c.aboveOctave + c.rest + c.chordsOutOfRange + c.numTracks + c.restChords
  }

  /** Bumping any one counter raises the discarded total by exactly one. */
  lemma BumpAddsOne(c: Counters, r: Reason)
    ensures Discarded(Bump(c, r)) == Discarded(c) + 1
  {
  }

  /** The summary printed at the end of the run. */
  datatype Summary = Summary(
    counters: Counters,
    numSongs: nat,
    discarded: nat,
    accepted: int,
    acceptedPerc: real)

  /**
   * A file the loop body gets through without an exception: either it does
   * not have two tracks, or both tracks are non-empty and the aligned song
   * can be judged.
   */
  predicate Processable(f: MidiList) {
    |f| != 2 || (Alignable(f) && Classifiable(CutMidiList(f)))
  }

  predicate AllProcessable(files: seq<MidiList>) {
    forall i :: 0 <= i < |files| ==> Processable(files[i])
  }

  /** The fate of one file. */
  function FileVerdict(f: MidiList, th: Thresholds): Verdict
    requires Processable(f)
  {
    if |f| != 2 then Discard(WrongTrackCount) else Classify(CutMidiList(f), th)
  }

  /** The counters after the given files. */
  function Tally(files: seq<MidiList>, th: Thresholds): Counters
    requires AllProcessable(files)
  {
    if files == [] then NoCounters
    else
      var c := Tally(files[..|files| - 1], th);
      match FileVerdict(Last(files), th)
      case Write => c
      case Discard(r) => Bump(c, r)
  }

  /** The aligned songs handed to the writer, in corpus order. */
  function Written(files: seq<MidiList>, th: Thresholds): seq<MidiList>
    requires AllProcessable(files)
  {
    if files == [] then []
    else
      Written(files[..|files| - 1], th) +
      (if FileVerdict(Last(files), th) == Write then [CutMidiList(Last(files))] else [])
  }

  /**
   * Every file is accounted for exactly once: it bumps one counter or it is
   * written, never both and never neither.
   */
  lemma {:induction false} EachFileCountedOnce(files: seq<MidiList>, th: Thresholds)
    requires AllProcessable(files)
    ensures Discarded(Tally(files, th)) + |Written(files, th)| == |files|
  {
    if files != [] {
      var init := files[..|files| - 1];
      assert AllProcessable(init) by {
        forall i | 0 <= i < |init| ensures Processable(init[i]) {
          assert init[i] == files[i];
        }
      }
      EachFileCountedOnce(init, th);
    }
  }

  /** The counters and the written songs after one more file. */
  lemma TallyAppend(files: seq<MidiList>, f: MidiList, th: Thresholds)
    requires AllProcessable(files) && Processable(f)
    ensures AllProcessable(files + [f])
    ensures Tally(files + [f], th) ==
      match FileVerdict(f, th)
      case Write => Tally(files, th)
      case Discard(r) => Bump(Tally(files, th), r)
    ensures Written(files + [f], th) ==
      Written(files, th) + (if FileVerdict(f, th) == Write then [CutMidiList(f)] else [])
  {
    var all := files + [f];
    forall i | 0 <= i < |all| ensures Processable(all[i]) {
      if i < |files| { assert all[i] == files[i]; }
    }
    assert all[..|all| - 1] == files;
  }

  /**
   * One more file raises the discarded total by at most one, and leaves it
   * unchanged exactly when that file is written.
   */
  lemma {:induction false} TallyGrowsByAtMostOne(files: seq<MidiList>, f: MidiList, th: Thresholds)
    requires AllProcessable(files) && Processable(f)
    ensures AllProcessable(files + [f])
    ensures var before, after := Tally(files, th), Tally(files + [f], th);
      Discarded(before) <= Discarded(after) <= Discarded(before) + 1 &&
      (Discarded(after) == Discarded(before) <==> FileVerdict(f, th) == Write)
  {
    TallyAppend(files, f, th);
    match FileVerdict(f, th) {
      case Write =>
      case Discard(r) => BumpAddsOne(Tally(files, th), r);
    }
  }

  /**
   * A two-track file whose aligned chord track holds a pitch outside the
   * piano range bumps the chord counter and nothing else, whatever its
   * melody is, and is not written.
   */
  lemma ChordRangeRejectsFirst(files: seq<MidiList>, f: MidiList, th: Thresholds)
    requires AllProcessable(files) && Processable(f)
    requires Alignable(f) && HasChordOutOfRange(CutMidiList(f)[1])
    ensures AllProcessable(files + [f])
    ensures Tally(files + [f], th) == Bump(Tally(files, th), ChordOutOfRange)
    ensures Written(files + [f], th) == Written(files, th)
  {
    TallyAppend(files, f, th);
  }

  /** The counters and the written songs extend by one file at a time. */
  lemma TallyStep(files: seq<MidiList>, n: nat, th: Thresholds)
    requires AllProcessable(files) && n < |files|
    ensures AllProcessable(files[..n]) && AllProcessable(files[..n + 1])
    ensures Tally(files[..n + 1], th) ==
      match FileVerdict(files[n], th)
      case Write => Tally(files[..n], th)
      case Discard(r) => Bump(Tally(files[..n], th), r)
    ensures Written(files[..n + 1], th) ==
      Written(files[..n], th) + (if FileVerdict(files[n], th) == Write then [CutMidiList(files[n])] else [])
  {
    var next := files[..n + 1];
    assert next[..n] == files[..n];
    assert Last(next) == files[n];
    forall j | 0 <= j < n + 1 ensures Processable(next[j]) {
      assert next[j] == files[j];
    }
  }

  lemma PercentageBounds(part: real, whole: real)
    requires 0.0 <= part <= whole && whole > 0.0
    ensures 0.0 <= part / whole * 100.0 <= 100.0
  {
  }

  /**
   * The loop body for one file: a file without two tracks is discarded at
   * once; otherwise it is aligned and the aligned song validated.
   */
  method ProcessFile(midiList: MidiList, th: Thresholds) returns (v: Verdict, out: MidiList)
    requires Processable(midiList)
    ensures v == FileVerdict(midiList, th)
    ensures v == Write ==> out == CutMidiList(midiList)
  {
    if |midiList| != 2 {
      return Discard(WrongTrackCount), midiList;
    }
    out := CutMidiFile(midiList);
    v := ValidateSong(out, th);
  }

  /**
   * The batch loop: every file bumps the counter of its reason or is
   * written. Then the number of songs, discarded and accepted songs, and
   * the acceptance percentage are derived.
   */
  method PreprocessDataset(files: seq<MidiList>, th: Thresholds)
    returns (summary: Summary, written: seq<MidiList>)
    requires |files| > 0
    requires AllProcessable(files)
    ensures summary.counters == Tally(files, th)
    ensures written == Written(files, th)
    ensures summary.numSongs == |files|
    ensures summary.discarded == Discarded(summary.counters)
    ensures summary.accepted == summary.numSongs - summary.discarded
    ensures summary.accepted == |written|
    ensures summary.acceptedPerc == summary.accepted as real / summary.numSongs as real * 100.0
    ensures 0.0 <= summary.acceptedPerc <= 100.0
  {
    var numOutOfRange, numAboveOctave, numChordsOutOfRange := 0, 0, 0;
    var numNumTracks, numRestChords, numRest := 0, 0, 0;
    written := [];
    var idxFile := 0;
    var i := 0;
    while i < |files|
      invariant 0 <= i <= |files|
      invariant AllProcessable(files[..i])
      invariant Counters(numOutOfRange, numAboveOctave, numChordsOutOfRange,
                         numNumTracks, numRestChords, numRest) == Tally(files[..i], th)
      invariant written == Written(files[..i], th)
      invariant i > 0 ==> idxFile == i - 1
    {
      idxFile := i;
      TallyStep(files, i, th);
      var v, out := ProcessFile(files[i], th);
      match v {
        case Discard(WrongTrackCount) => numNumTracks := numNumTracks + 1;
        case Discard(ChordOutOfRange) => numChordsOutOfRange := numChordsOutOfRange + 1;
        case Discard(AboveOctave) => numAboveOctave := numAboveOctave + 1;
        case Discard(MelodyOutOfRange) => numOutOfRange := numOutOfRange + 1;
        case Discard(MelodyRest) => numRest := numRest + 1;
        case Discard(ChordRest) => numRestChords := numRestChords + 1;
        case Write => written := written + [out];
      }
      i := i + 1;
    }
    assert files[..i] == files;

    var counters := Counters(numOutOfRange, numAboveOctave, numChordsOutOfRange,
                             numNumTracks, numRestChords, numRest);
    var numSongs := idxFile + 1;
    var numDiscarded := numOutOfRange + numAboveOctave + numRest + numChordsOutOfRange + numNumTracks + numRestChords;
    var acceptedSongs := numSongs - numDiscarded;
    EachFileCountedOnce(files, th);
    var acceptedSongsPerc := acceptedSongs as real / numSongs as real * 100.0;
    PercentageBounds(acceptedSongs as real, numSongs as real);
    summary := Summary(counters, numSongs, numDiscarded, acceptedSongs, acceptedSongsPerc);
  }
}
