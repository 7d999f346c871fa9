# Two-track MIDI dataset filter, modelled in Dafny

This project models the core of `script/preprocess_dataset.py`, a batch
filter for two-track songs (track 0 the melody, track 1 the chords). Each
track is a list of note events `[start, end, pitch]` sorted by
`(start, pitch)`. For every file the filter:

1. discards a file that does not have exactly two tracks;
2. aligns the tracks (`cut_midi_file`). The cutoff is the smaller of the
   two last-event end times. The track whose last event ends later is
   walked in place: notes starting at or after the cutoff are popped, and
   kept notes sounding past it are shortened. On a tie, track 0 is cut;
3. scans the chords. A pitch outside 21..108 discards the song. Otherwise
   the scan adds up the chord rest;
4. scans the melody. It counts notes outside 24..72 and adds up the rest.
   It stops at the first note that starts after the note before it and is
   more than 12 semitones away from it;
5. applies the rejections in a fixed order, all with strict `>`: octave
   jump, then out-of-range fraction, then melody rest %, then chord rest %.
   A song that passes all of them is written;
6. keeps one counter per reason. At the end it derives the number of
   songs, the discarded total, the accepted count and the acceptance
   percentage.

Files:

- `Notes.dfy`: notes, tracks and the `(start, pitch)` order.
- `Align.dfy`: the alignment. `CutTrackLoop` is the pop/rewind loop and
  `CutMidiFile` picks the cutoff and the track to cut. `CutTrack` is the
  function that specifies them.
- `Validate.dfy`: the two scans (`ScanChords`, `ScanMelody`), the rest rule
  (`Increment`, `RestAmount`) and the verdict chain (`Classify`,
  `ValidateSong`).
- `Batch.dfy`: the counters, the per-file body (`ProcessFile`) and the
  batch loop (`PreprocessDataset`).

Times are exact `real`s and pitches unbounded `int`s. Where the source's
comments (its docstrings, lines 2-12 and 103-109) and its code disagree,
the model follows the code:

- The rest increment is not clamped. A note that starts inside the
  previous note but ends after it subtracts the overlap
  (`OverlapSubtractsRest`).
- After alignment the two tracks need not end at the same time. The cut
  track's last kept note may end before the cutoff, and aligning the
  result again is then not a no-op (`AlignedEndsMayDiffer`). What does hold
  is in `AlignedBounds`, `CutTrackIdempotent` and `CutTrackNoOp`.
- The melody range is 24..72 (line 225), not the (24, 76) of the module
  docstring.
- The out-of-range threshold is compared with a plain fraction (line 253).
  The rest thresholds are compared with percentages (×100, lines 255-256).
- The song duration is the end of the last melody note the scan visited.
  After an octave break, that is the note that caused the break.
- The octave rule compares two notes only when the later one starts
  strictly after the earlier one, and the first note is exempt. The
  previous pitch, however, is updated on every visited note, including a
  note that starts together with the one before it; the next note is then
  compared with that note (`SameStartNoteIsComparedNext`).
- The chord range check runs on the chord track after alignment. A chord
  note removed by the cut cannot reject the song.
- An empty corpus, an empty track, an empty aligned melody and a zero song
  duration make the source raise. Here they are preconditions:
  `|files| > 0`, `Alignable`, `Classifiable` and `Processable`.

## Model

| member | source | states |
|---|---|---|
| `Align.TrackToCut` | script/preprocess_dataset.py:111-118 | the track cut is one whose last event ends no earlier than the other's; on equal end times it is track 0 |
| `Align.Cutoff` | script/preprocess_dataset.py:111-116 | the cutoff is the minimum of the two last-event end times, and it equals the last end of the track that is not cut |
| `Align.CutTrack` | script/preprocess_dataset.py:124-138 | the cut track is never longer than the original, and every kept note starts before the cutoff and ends no later than it |
| `Align.CutTrackLoop` | script/preprocess_dataset.py:124-138 | the in-place walk with `pop(n)`, the index rewind and end truncation leaves exactly the notes with start < cutoff, in order, each with end = min(end, cutoff) |
| `Align.CutMidiFile` | script/preprocess_dataset.py:102-140 | the chosen track is replaced by its cut version and the other track is returned completely unchanged |
| `Align.CutSortedKeepsPrefix` | script/preprocess_dataset.py:124-138 | on a track sorted by (start, pitch), the popped notes are a suffix: kept note j is original note j with its end clamped, and every later note starts at or after the cutoff |
| `Align.CutKeepsOrder` | script/preprocess_dataset.py:67 | cutting keeps a (start, pitch)-sorted track sorted |
| `Align.CutTrackNoOp` | script/preprocess_dataset.py:128-137 | a track whose notes all start before the cutoff and end by it is not changed |
| `Align.CutTrackIdempotent` | script/preprocess_dataset.py:124-138 | cutting a track twice at the same cutoff gives the same track as cutting it once |
| `Align.AlignedBounds` | script/preprocess_dataset.py:111-138 | after alignment the uncut track still ends exactly at the cutoff, and every note of the cut track starts before the cutoff and ends no later |
| `Align.AlignedEndsMayDiffer` | script/preprocess_dataset.py:102-140 | for a concrete song the aligned tracks end at 3 and 8, and aligning again changes the song: the docstring's "same end time" does not always hold |
| `Validate.ScanChords` | script/preprocess_dataset.py:191-206 | the scan flags the song exactly when some chord pitch is < 21 or > 108; otherwise its rest is the sum of the per-note increments from prevStart = prevEnd = 0 |
| `Validate.IteratedIsFirstJump` | script/preprocess_dataset.py:231-245 | the melody scan visits the notes up to and including the first jump: no earlier note is a jump, the last visited note is a jump iff the melody has one, and with no jump every note is visited |
| `Validate.SameStartNoteIsComparedNext` | script/preprocess_dataset.py:231-247 | for notes 60 and 80 starting together followed by 60 one second later, the same-start pair is not compared but the third note is compared with 80, a jump of 20 |
| `Validate.ScanMelody` | script/preprocess_dataset.py:215-249 | the octave flag is set iff some non-first note starts after its predecessor and is > 12 semitones from it; the note count, out-of-range count, rest and last note are those of the visited notes, the breaking note being counted out of range and in the rest but not as a note |
| `Validate.ValidateSong` | script/preprocess_dataset.py:190-288 | the verdict is the first failing rule in the fixed order chord range, octave, out-of-range fraction, melody rest %, chord rest %, all strict, each stated on whole tracks |
| `Validate.NoneOutOfRange` | script/preprocess_dataset.py:225-226 | the out-of-range count is zero iff every note lies in 24..72 |
| `Validate.DefaultRangeRejectsAnyOutOfRangeNote` | script/preprocess_dataset.py:253-274 | with the default threshold 0, a song passing the chord and octave rules is rejected for range iff some melody note lies outside 24..72 |
| `Validate.MonophonicRestIsSilence` | script/preprocess_dataset.py:231-235 | on a track whose notes do not overlap, the accumulated rest equals the end of the last note minus the total sounding time, and is not negative |
| `Validate.MelodyRestRule` | script/preprocess_dataset.py:255-280 | for a non-overlapping melody passing the earlier rules, the melody rest rule rejects iff silence × 100 > threshold × duration; silence of exactly the threshold share is accepted |
| `Validate.OverlapSubtractsRest` | script/preprocess_dataset.py:202-203 | notes [0,5] then [2,6] give a rest of -3: an overlapping note subtracts from the rest |
| `Batch.ChordRangeRejectsFirst` | script/preprocess_dataset.py:191-211 | a file whose aligned chord track has an out-of-range pitch bumps only the chord counter, whatever its melody, and is not written |
| `Batch.EachFileCountedOnce` | script/preprocess_dataset.py:180-295 | the six counters plus the written songs add up to the number of files: each file is counted exactly once |
| `Batch.TallyGrowsByAtMostOne` | script/preprocess_dataset.py:180-286 | one more file raises the discarded total by at most one, and leaves it unchanged iff that file is written |
| `Batch.ProcessFile` | script/preprocess_dataset.py:175-288 | a file without two tracks is discarded for its track count; any other file gets the verdict of its aligned song, and a written file is the aligned song |
| `Batch.PreprocessDataset` | script/preprocess_dataset.py:145-296 | the counters are the per-reason tallies over the corpus, `discarded` is their sum, `num_songs` the number of files, `accepted` is `num_songs - discarded` and equals the number of written songs, and the acceptance percentage is `accepted / num_songs * 100`, which lies in 0..100 |

## Left out

- Reading and writing MIDI through `pretty_midi` (lines 35-97). The model
  takes an already parsed list of tracks. Sorting by `(start, pitch)` is
  assumed where a lemma needs it, and written files are returned as a
  sequence.
- Command-line parsing, globbing the input folder, creating the output
  folder and all printing (lines 21-31, 147, 177, 258-262, 298-316). The
  thresholds are numeric parameters (`Thresholds`; defaults 25 and 0). On
  the command line they arrive as strings.
- The diagnostic `max_pitch`/`min_pitches` and the `pitches` list
  (lines 228, 251-252). They only feed printing. The crash of `max([])` on
  an empty melody is kept as a precondition.
- Floating point: times are exact reals, so rounding is not modelled.
- In-place aliasing: `cut_midi_file` mutates the caller's list and returns
  that same object. The model returns the new pair of tracks. The caller
  only uses the returned value.
- The crash paths (empty track, empty aligned melody, zero song duration,
  empty corpus) are preconditions rather than modelled failures.
