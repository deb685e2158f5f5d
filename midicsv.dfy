/**
 * One line of a MIDI-CSV file, as the record patterns of the cleanup stage
 * see it. Matching a line against the note, tempo and program-change
 * patterns is abstracted into this parse: a line is one of the three
 * recognised records, carrying the capture groups the code reads, or any
 * other text.
 */
module MidiCsv {

  datatype Line =
      /** A note record; f1..f6 are the note pattern's six capture groups, group 5 being the pitch. */
    | Note(f1: string, f2: string, f3: string, f4: string, pitch: int, f6: string)
      /** A tempo record; group 4 is the number of microseconds per quarter note. */
    | Tempo(track: string, tick: string, micros: int)
      /** A program-change record; group 5 is the General MIDI program number. */
    | ProgramChange(track: string, tick: string, channel: string, program: int)
      /** Any line none of the three patterns matches. */
    | Other(text: string)

  predicate IsTempo(line: Line) { line.Tempo? }

  predicate IsProgramChange(line: Line) { line.ProgramChange? }
}
