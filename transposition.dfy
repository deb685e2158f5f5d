/**
 * The pitch shift of the cleanup stage as a function of a file's lines:
 * every note record whose group 2 (the time column in MIDI-CSV order)
 * differs from `drumChannel` gets its pitch moved by the offset, clamped
 * at 0; every other line is kept as it is.
 */
module Transposition {
  import opened MidiCsv

  /** A pitch moved by `offset` semitones and clamped at 0. */
  function Shifted(pitch: int, offset: int): (n: int)
    ensures n >= 0
    ensures n >= pitch + offset
    ensures n == pitch + offset || n == 0
  {
    if pitch + offset < 0 then 0 else pitch + offset
  }

  /** The line `transpose` writes back for `line`. */
  function TransposeLine(line: Line, offset: int, drumChannel: string): (r: Line)
    ensures !Rewritten(line, drumChannel) ==> r == line
    ensures Rewritten(line, drumChannel) ==> r == line.(pitch := Shifted(line.pitch, offset))
    ensures Rewritten(line, drumChannel) ==> r.Note? && r.pitch >= 0
  {
    match line
    case Note(f1, f2, f3, f4, pitch, f6) =>
      if f2 != drumChannel then Note(f1, f2, f3, f4, Shifted(pitch, offset), f6) else line
    case _ => line
  }

  /** The lines `transpose` writes back, built in file order. */
  function TransposeLines(lines: seq<Line>, offset: int, drumChannel: string): (r: seq<Line>)
    ensures |r| == |lines|
    decreases |lines|
  {
    if lines == [] then []
    else TransposeLines(lines[..|lines| - 1], offset, drumChannel)
         + [TransposeLine(lines[|lines| - 1], offset, drumChannel)]
  }

  /** Line `k` of the result is the transposition of line `k` of the input. */
  lemma {:induction false} TransposeLinesAt(lines: seq<Line>, offset: int, drumChannel: string, k: int)
    requires 0 <= k < |lines|
    ensures TransposeLines(lines, offset, drumChannel)[k] == TransposeLine(lines[k], offset, drumChannel)
    decreases |lines|
  {
    if k < |lines| - 1 {
      TransposeLinesAt(lines[..|lines| - 1], offset, drumChannel, k);
    }
  }

  /** A line is rewritten only when it is a note record whose group 2 differs from `drumChannel`. */
  predicate Rewritten(line: Line, drumChannel: string)
  {
    line.Note? && line.f2 != drumChannel
  }

  /**
   * Transposing keeps the number and order of lines; a line that is not a
   * note record, or a note record whose group 2 equals `drumChannel`, is unchanged; any
   * other note line changes only its pitch, to max(0, pitch + offset).
   */
  lemma {:induction false} TransposeChangesOnlyPitches(lines: seq<Line>, offset: int, drumChannel: string)
    ensures var r := TransposeLines(lines, offset, drumChannel);
            && |r| == |lines|
            && (forall k :: 0 <= k < |lines| && !Rewritten(lines[k], drumChannel) ==> r[k] == lines[k])
            && (forall k :: 0 <= k < |lines| && Rewritten(lines[k], drumChannel) ==>
                  r[k] == lines[k].(pitch := if lines[k].pitch + offset < 0 then 0 else lines[k].pitch + offset))
  {
    forall k | 0 <= k < |lines| {
      TransposeLinesAt(lines, offset, drumChannel, k);
    }
  }

  /** Every rewritten pitch is non-negative. */
  lemma {:induction false} TransposedPitchesNonNegative(lines: seq<Line>, offset: int, drumChannel: string)
    ensures var r := TransposeLines(lines, offset, drumChannel);
            forall k :: 0 <= k < |lines| && Rewritten(lines[k], drumChannel) ==> r[k].Note? && r[k].pitch >= 0
  {
    forall k | 0 <= k < |lines| {
      TransposeLinesAt(lines, offset, drumChannel, k);
    }
  }

  /** Every note line that transposing rewrites has a pitch of at least 0. */
  predicate PitchesNonNegative(lines: seq<Line>, drumChannel: string)
  {
    forall k :: 0 <= k < |lines| && Rewritten(lines[k], drumChannel) ==> lines[k].pitch >= 0
  }

  /**
   * Shifting up by `offset` and then down by `offset` restores the file,
   * as long as no rewritten pitch started below 0.
   */
  lemma {:induction false} TransposeUpThenDown(lines: seq<Line>, offset: int, drumChannel: string)
    requires offset >= 0
    requires PitchesNonNegative(lines, drumChannel)
    ensures TransposeLines(TransposeLines(lines, offset, drumChannel), -offset, drumChannel) == lines
  {
    var up := TransposeLines(lines, offset, drumChannel);
    var back := TransposeLines(up, -offset, drumChannel);
    forall k | 0 <= k < |lines|
      ensures back[k] == lines[k]
    {
      TransposeLinesAt(lines, offset, drumChannel, k);
      TransposeLinesAt(up, -offset, drumChannel, k);
    }
  }

  /** Shifting down can lose information: a pitch clamped at 0 does not come back. */
  lemma TransposeDownThenUpLoses()
    ensures var lines := [Note("1", "0", "Note_on_c", "0", 3, "100")];
            TransposeLines(TransposeLines(lines, -5, "9"), 5, "9") != lines
  {
    var lines := [Note("1", "0", "Note_on_c", "0", 3, "100")];
    TransposeLinesAt(lines, -5, "9", 0);
    TransposeLinesAt(TransposeLines(lines, -5, "9"), 5, "9", 0);
  }

  /** A shift of 0 leaves a file whose rewritten pitches are non-negative unchanged. */
  lemma {:induction false} TransposeByZero(lines: seq<Line>, drumChannel: string)
    requires PitchesNonNegative(lines, drumChannel)
    ensures TransposeLines(lines, 0, drumChannel) == lines
  {
    var r := TransposeLines(lines, 0, drumChannel);
    forall k | 0 <= k < |lines|
      ensures r[k] == lines[k]
    {
      TransposeLinesAt(lines, 0, drumChannel, k);
    }
  }
}
