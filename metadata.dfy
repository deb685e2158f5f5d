/**
 * The metadata scans of the cleanup stage as functions of a file's lines:
 * each one reports the FIRST record of its kind and ignores everything
 * after it.
 */
module Metadata {
  import opened Wrappers
  import opened PyText
  import opened MidiCsv

  /** Index of the first line that `matches` accepts, or |lines| when none does. */
  function FirstMatch(lines: seq<Line>, matches: Line -> bool): (i: nat)
    ensures i <= |lines|
    ensures i < |lines| ==> matches(lines[i])
    ensures forall j :: 0 <= j < i ==> !matches(lines[j])
    decreases |lines|
  {
    if lines == [] then 0
    else if matches(lines[0]) then 0
    else 1 + FirstMatch(lines[1..], matches)
  }

  /** Line `i` is a program-change record and no earlier line is one. */
  predicate FirstProgramChangeAt(lines: seq<Line>, i: int)
  {
    0 <= i < |lines| && lines[i].ProgramChange?
    && forall j :: 0 <= j < i ==> !lines[j].ProgramChange?
  }

  /** Line `i` is a tempo record and no earlier line is one. */
  predicate FirstTempoAt(lines: seq<Line>, i: int)
  {
    0 <= i < |lines| && lines[i].Tempo?
    && forall j :: 0 <= j < i ==> !lines[j].Tempo?
  }

  /** What `get_instrument` returns: the program of the first program-change record, if any. */
  function InstrumentOf(lines: seq<Line>): (r: Option<int>)
    ensures r.None? <==> forall i :: 0 <= i < |lines| ==> !lines[i].ProgramChange?
    ensures forall i :: FirstProgramChangeAt(lines, i) ==> r == Some(lines[i].program)
  {
    var i := FirstMatch(lines, IsProgramChange);
    if i < |lines| then Some(lines[i].program) else None
  }

  /** Python's `a // b`, which rounds toward negative infinity. */
  function FloorDiv(a: int, b: int): (q: int)
    requires b != 0
    ensures b > 0 ==> q * b <= a < q * b + b
    ensures b < 0 ==> q * b + b < a <= q * b
  {
    if b > 0 then a / b else (-a) / (-b)
  }

  /** Microseconds in one minute, the numerator of the tempo conversion. */
  const MicrosPerMinute := 60000000

  /**
   * What `get_tempo` returns or raises: beats per minute from the first
   * tempo record, None without one, and a division error when that first
   * record says 0 microseconds per beat.
   */
  function TempoOf(lines: seq<Line>): (r: Result<Option<int>, Error>)
    ensures r == Ok(None) <==> forall i :: 0 <= i < |lines| ==> !lines[i].Tempo?
    ensures forall i :: FirstTempoAt(lines, i) && lines[i].micros == 0 ==> r == Err(ZeroDivisionError)
    ensures forall i :: FirstTempoAt(lines, i) && lines[i].micros != 0 ==>
              && r.Ok? && r.value.Some?
              && (var bpm, us := r.value.value, lines[i].micros;
                  && (us > 0 ==> bpm * us <= MicrosPerMinute < bpm * us + us)
                  && (us < 0 ==> bpm * us + us < MicrosPerMinute <= bpm * us))
  {
    var i := FirstMatch(lines, IsTempo);
    if i == |lines| then Ok(None)
    else if lines[i].micros == 0 then Err(ZeroDivisionError)
    else Ok(Some(FloorDiv(MicrosPerMinute, lines[i].micros)))
  }

  /** Only the lines up to the first program change decide the instrument: later lines are never read. */
  lemma InstrumentIgnoresLaterLines(lines: seq<Line>, later: seq<Line>)
    requires exists i :: 0 <= i < |lines| && lines[i].ProgramChange?
    ensures InstrumentOf(lines + later) == InstrumentOf(lines)
  {
    var i := FirstMatch(lines, IsProgramChange);
    assert FirstProgramChangeAt(lines, i);
    assert FirstProgramChangeAt(lines + later, i);
  }

  /** Only the lines up to the first tempo record decide the tempo. */
  lemma TempoIgnoresLaterLines(lines: seq<Line>, later: seq<Line>)
    requires exists i :: 0 <= i < |lines| && lines[i].Tempo?
    ensures TempoOf(lines + later) == TempoOf(lines)
  {
    var i := FirstMatch(lines, IsTempo);
    assert FirstTempoAt(lines, i);
    assert FirstTempoAt(lines + later, i);
  }

  /** The usual tempo record, 500000 microseconds per quarter note, reads as 120 beats per minute. */
  lemma DefaultTempo(rest: seq<Line>)
    ensures TempoOf([Tempo("1", "0", 500000)] + rest) == Ok(Some(120))
  {
  }

  /**
   * An example of FloorDiv rather than of a real file: a MIDI tempo is an
   * unsigned 24-bit value, so no negative record reaches `get_tempo`; were
   * one there, Python's `//` would round it down, not toward zero.
   */
  lemma NegativeTempoRoundsDown()
    ensures TempoOf([Tempo("1", "0", -7)]) == Ok(Some(-8571429))
  {
  }

  /**
   * `int(name.split("_")[1])`: the integer after the first underscore of a
   * scanned name. A name without an underscore has no second field, so
   * indexing raises IndexError; a second field that is no integer literal
   * raises ValueError.
   */
  function ChannelOf(name: string): (r: Result<int, Error>)
    ensures r == Err(IndexError) <==> '_' !in name
    ensures r.Err? ==> r.error == IndexError || r.error == ValueError
  {
    var fields := Split(name, '_');
    assert |fields| >= 2 <==> '_' in name by {
      if '_' in name {
        SplitHasTwo(name, '_');
      } else {
        SplitOfNoSeparator(name, '_');
      }
    }
    if |fields| < 2 then Err(IndexError) else ParseInt(fields[1])
  }

  /**
   * The channel is read from the field after the first underscore alone,
   * whatever follows the next one: `channel_9_old` gives 9.
   */
  lemma ChannelOfField(a: string, b: string, rest: string)
    requires '_' !in a && '_' !in b
    requires rest == [] || rest[0] == '_'
    ensures ChannelOf(a + "_" + b + rest) == ParseInt(b)
  {
    assert a + "_" + b + rest == a + ['_'] + (b + rest);
    SplitOfPrefix(a, '_', b + rest);
    if rest == [] {
      assert b + rest == b;
      SplitOfNoSeparator(b, '_');
    } else {
      assert b + rest == b + ['_'] + rest[1..];
      SplitOfPrefix(b, '_', rest[1..]);
    }
  }

  /** Name `i` is the first one whose channel cannot be read. */
  predicate FirstFailureAt(names: seq<string>, i: int)
  {
    0 <= i < |names| && ChannelOf(names[i]).Err?
    && forall j :: 0 <= j < i ==> ChannelOf(names[j]).Ok?
  }

  /** The scanner's `channel_<n>` names give back their channel number `n`. */
  lemma ChannelOfRoundTrip(n: nat)
    ensures ChannelOf("channel_" + Decimal(n)) == Ok(n)
  {
    var parts := ["channel", Decimal(n)];
    assert Join(parts, '_') == "channel_" + Decimal(n) by {
      assert Join(parts[1..], '_') == Decimal(n);
    }
    assert '_' !in Decimal(n) by {
      var d := Decimal(n);
      assert forall i :: 0 <= i < |d| ==> IsDigit(d[i]);
    }
    SplitJoin(parts, '_');
    DecimalRoundTrip(n);
  }

  /**
   * What `get_channels` returns for the names the scanner found: one
   * channel per name, in order, or the error of the first name that has
   * none (the list comprehension stops there).
   */
  function ChannelsOf(names: seq<string>): (r: Result<seq<int>, Error>)
    ensures r.Ok? <==> forall i :: 0 <= i < |names| ==> ChannelOf(names[i]).Ok?
    ensures r.Ok? ==>
              && |r.value| == |names|
              && forall i :: 0 <= i < |names| ==> ChannelOf(names[i]) == Ok(r.value[i])
    ensures forall i :: FirstFailureAt(names, i) ==> r == Err(ChannelOf(names[i]).error)
    decreases |names|
  {
    if names == [] then Ok([])
    else match ChannelOf(names[0])
      case Err(e) => Err(e)
      case Ok(c) =>
        match ChannelsOf(names[1..])
        case Err(e) => Err(e)
        case Ok(cs) => Ok([c] + cs)
  }
}
