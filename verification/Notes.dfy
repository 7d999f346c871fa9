/**
 * The in-memory form of a parsed two-track song: each track is a list of
 * note events `[start, end, pitch]`, track 0 holding the melody and track 1
 * the chords. Times are exact reals (seconds); pitches are MIDI note numbers.
 */
module Notes {

  /** One note event: onset and offset in seconds, and its MIDI pitch. */
  datatype Note = Note(start: real, end: real, pitch: int)

  /** The notes of one instrument, in the order the reader left them. */
  type Track = seq<Note>

  /** A parsed file: the track with index `k` is the `k`-th element. */
  type MidiList = seq<Track>

  /** The sort key the reader uses: by start time, then by pitch. */
  predicate NoteBefore(a: Note, b: Note) {
    a.start < b.start || (a.start == b.start && a.pitch <= b.pitch)
  }

  /** A track as the reader returns it: ascending by `(start, pitch)`. */
  predicate SortedByStartPitch(t: Track) {
    forall i, j :: 0 <= i < j < |t| ==> NoteBefore(t[i], t[j])
  }

  function Last<T>(t: seq<T>): T
    requires |t| > 0
  {
    t[|t| - 1]
  }

  function Abs(x: int): nat {
    if x < 0 then -x else x
  }
}
