/**
 * The per-track decision of the cleanup stage: which role folder (if any)
 * receives a track, and the name it is copied under.
 */
module Classification {
  import opened Wrappers
  import opened PyText

  datatype Role = Bass | Melody | Drums

  /** The sub-folder of the output directory that collects a role. */
  function Folder(role: Role): string
  {
    match role
    case Bass => "bass"
    case Melody => "melody"
    case Drums => "drums"
  }

  /** The directory name that marks the percussion channel. */
  const PercussionDir := "channel_9"

  /** `list(range(lo, hi))`. */
  function Range(lo: int, hi: int): (r: seq<int>)
    ensures forall x :: x in r <==> lo <= x < hi
    decreases hi - lo
  {
    if lo >= hi then [] else [lo] + Range(lo + 1, hi)
  }

  /** The list the bass test searches: `[*range(33, 41), 44, 59, 68, 88]`. */
  const BassList: seq<int> := Range(33, 41) + [44, 59, 68, 88]

  /** The list the melody test searches. */
  const MelodyList: seq<int> :=
    Range(57, 65) + Range(0, 9) + [73, 74] + Range(81, 88) + Range(89, 97)

  /** The bass table: programs 33 to 40, 44, 59, 68 and 88. */
  predicate IsBassProgram(p: int)
    ensures IsBassProgram(p) <==> p in BassList
  {
    33 <= p <= 40 || p == 44 || p == 59 || p == 68 || p == 88
  }

  /** The melody table: programs 57 to 64, 0 to 8, 73, 74, 81 to 87 and 89 to 96. */
  predicate IsMelodyProgram(p: int)
  {
    57 <= p <= 64 || 0 <= p <= 8 || p == 73 || p == 74 || 81 <= p <= 87 || 89 <= p <= 96
  }

  /** The interval test is membership in the melody list, read part by part. */
  lemma MelodyTable(p: int)
    ensures IsMelodyProgram(p) <==> p in MelodyList
  {
    var lists := [Range(57, 65), Range(0, 9), [73, 74], Range(81, 88), Range(89, 97)];
    assert MelodyList == lists[0] + lists[1] + lists[2] + lists[3] + lists[4];
    assert p in MelodyList <==> p in lists[0] || p in lists[1] || p in lists[2] || p in lists[3] || p in lists[4];
  }

  /** Python's truth value of the instrument: `None` and `0` are both false. */
  predicate Truthy(program: Option<int>)
  {
    program.Some? && program.value != 0
  }

  /**
   * The role `filter_instruments` picks for a track with the given first
   * program change, stored under the directory whose segments are `dirs`.
   * The tests run in the code's order: the early return, then bass, then
   * melody, and the percussion directory only last.
   */
  function Classify(program: Option<int>, dirs: seq<string>): (r: Option<Role>)
    requires |dirs| >= 1
    ensures r == Some(Bass) <==> program.Some? && IsBassProgram(program.value)
    ensures r == Some(Melody) <==>
              && program.Some? && IsMelodyProgram(program.value) && !IsBassProgram(program.value)
              && (program.value != 0 || dirs[|dirs| - 1] == PercussionDir)
    ensures r == Some(Drums) <==>
              && dirs[|dirs| - 1] == PercussionDir
              && (program.None? || (!IsBassProgram(program.value) && !IsMelodyProgram(program.value)))
  {
    var parent := dirs[|dirs| - 1];
    if !Truthy(program) && parent != PercussionDir then None
    else if program.Some? && IsBassProgram(program.value) then Some(Bass)
    else if program.Some? && IsMelodyProgram(program.value) then Some(Melody)
    else if parent == PercussionDir then Some(Drums)
    else None
  }

  /**
   * The General MIDI percussion-first policy (channel 10, numbered 9 from
   * zero, is drums whatever its program), with a track that has no program
   * change dropped: the reference the code's test order is compared with.
   */
  function PercussionFirst(program: Option<int>, isPercussion: bool): Option<Role>
  {
    if isPercussion then Some(Drums)
    else if program.None? then None
    else if IsBassProgram(program.value) then Some(Bass)
    else if IsMelodyProgram(program.value) then Some(Melody)
    else None
  }

  /**
   * The code and the percussion-first policy disagree exactly on a
   * percussion-directory track whose program is in one of the tables
   * (the code takes the table), and on program 0 elsewhere (the code
   * treats it as missing).
   */
  lemma ClassifyVersusPercussionFirst(program: Option<int>, dirs: seq<string>)
    requires |dirs| >= 1
    ensures var onPercussion := dirs[|dirs| - 1] == PercussionDir;
            Classify(program, dirs) != PercussionFirst(program, onPercussion) <==>
              || (onPercussion && program.Some? && (IsBassProgram(program.value) || IsMelodyProgram(program.value)))
              || (!onPercussion && program == Some(0))
  {
  }

  /** Program 59 is in both tables; the bass test runs first. */
  lemma OverlapGoesToBass(dirs: seq<string>)
    requires |dirs| >= 1
    ensures IsBassProgram(59) && IsMelodyProgram(59)
    ensures Classify(Some(59), dirs) == Some(Bass)
  {
  }

  /** A track is dropped exactly when it is off the percussion directory and its program is falsy or in no table. */
  lemma DroppedTracks(program: Option<int>, dirs: seq<string>)
    requires |dirs| >= 1
    ensures Classify(program, dirs).None? <==>
              && dirs[|dirs| - 1] != PercussionDir
              && (!Truthy(program) || (!IsBassProgram(program.value) && !IsMelodyProgram(program.value)))
  {
  }

  /**
   * The file name a classified track is copied under:
   * `<grandparent directory>_<stem>.csv`, or IndexError when the path has
   * no grandparent segment.
   */
  function DestName(dirs: seq<string>, stem: string): (r: Result<string, Error>)
    ensures |dirs| < 2 <==> r == Err(IndexError)
    ensures r.Ok? ==>
              var prefix := dirs[|dirs| - 2] + "_";
              && |r.value| == |prefix| + |stem| + 4
              && r.value[..|prefix|] == prefix
              && r.value[|prefix|..|r.value| - 4] == stem
              && r.value[|r.value| - 4..] == ".csv"
  {
    if |dirs| < 2 then Err(IndexError)
    else Ok(dirs[|dirs| - 2] + "_" + stem + ".csv")
  }

  /** Within one grandparent directory distinct stems never collide. */
  lemma DestNameInjective(dirs: seq<string>, dirs': seq<string>, stem: string, stem': string)
    requires |dirs| >= 2 && |dirs'| >= 2 && dirs[|dirs| - 2] == dirs'[|dirs'| - 2]
    requires DestName(dirs, stem) == DestName(dirs', stem')
    ensures stem == stem'
  {
  }

  /**
   * The name ignores the channel directory: two channel directories of one
   * song holding equally named track files are copied onto the same name.
   */
  lemma DestNameIgnoresChannel(song: string, channel: string, channel': string, stem: string)
    ensures DestName([song, channel], stem) == DestName([song, channel'], stem)
  {
  }
}
