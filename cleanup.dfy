/**
 * The cleanup stage's per-file operations, as they act on the files:
 * the metadata scans that read a file line by line and stop at the first
 * record of their kind, the copy of a classified track into its role
 * folder, and the in-place pitch shift.
 */
module Cleanup {
  import opened Wrappers
  import opened PyText
  import opened MidiCsv
  import opened Disk
  import opened Metadata
  import opened Classification
  import opened Transposition

  /** `get_instrument`: reads the file until the first program change and returns its program. */
  method GetInstrument(fs: FileSystem, file: FileDescriptor) returns (program: Option<int>)
    requires file.path in fs.files
    ensures program == InstrumentOf(fs.files[file.path])
  {
    var lines := fs.files[file.path];
    var i := 0;
    while i < |lines|
      invariant 0 <= i <= |lines|
      invariant forall j :: 0 <= j < i ==> !lines[j].ProgramChange?
    {
      if lines[i].ProgramChange? {
        assert FirstProgramChangeAt(lines, i);
        return Some(lines[i].program);
      }
      i := i + 1;
    }
    return None;
  }

  /** `get_tempo`: reads the file until the first tempo record and converts it to beats per minute. */
  method GetTempo(fs: FileSystem, file: FileDescriptor) returns (r: Result<Option<int>, Error>)
    requires file.path in fs.files
    ensures r == TempoOf(fs.files[file.path])
  {
    var lines := fs.files[file.path];
    var i := 0;
    while i < |lines|
      invariant 0 <= i <= |lines|
      invariant forall j :: 0 <= j < i ==> !lines[j].Tempo?
    {
      if lines[i].Tempo? {
        assert FirstTempoAt(lines, i);
        if lines[i].micros == 0 {
          return Err(ZeroDivisionError);
        }
        return Ok(Some(FloorDiv(MicrosPerMinute, lines[i].micros)));
      }
      i := i + 1;
    }
    return Ok(None);
  }

  /** `move_to_folder`: copies the file into `folder` under the descriptor's current name. */
  method MoveToFolder(fs: FileSystem, file: FileDescriptor, folder: seq<string>) returns (r: Outcome<Error>)
    requires file.path in fs.files
    modifies fs
    ensures var dst := Path(folder, file.name);
            && (dst == file.path ==> r == Fail(SameFileError) && fs.files == old(fs.files))
            && (dst != file.path ==> r == Pass && fs.files == old(fs.files)[dst := old(fs.files)[file.path]])
  {
    r := fs.CopyFile(file.path, Path(folder, file.name));
  }

  /**
   * `filter_instruments`: classifies the track from its first program
   * change and its directory, and copies a classified track into the
   * role folder under `outputDir`, renamed to
   * `<grandparent directory>_<stem>.csv`. The Python function returns
   * None on every path; the role result here is added only so that the
   * contract can say which folder was chosen: the role the track was
   * copied for, None for a dropped track, or the exception raised.
   */
  method FilterInstruments(fs: FileSystem, file: FileDescriptor, outputDir: seq<string>)
    returns (r: Result<Option<Role>, Error>)
    requires file.path in fs.files
    requires |file.path.dirs| >= 1
    modifies fs, file`name
    ensures var role := Classify(InstrumentOf(old(fs.files[file.path])), file.path.dirs);
            var name := DestName(file.path.dirs, old(file.name));
            if role.None? then
              r == Ok(None) && fs.files == old(fs.files) && file.name == old(file.name)
            else if name.Err? then
              r == Err(IndexError) && fs.files == old(fs.files) && file.name == old(file.name)
            else
              var dst := Path(outputDir + [Folder(role.value)], name.value);
              && file.name == name.value
              && (dst == file.path ==> r == Err(SameFileError) && fs.files == old(fs.files))
              && (dst != file.path ==> r == Ok(role) && fs.files == old(fs.files)[dst := old(fs.files)[file.path]])
  {
    var instrument := GetInstrument(fs, file);
    var role := Classify(instrument, file.path.dirs);
    if role.None? {
      return Ok(None);
    }
    var name := DestName(file.path.dirs, file.name);
    if name.Err? {
      return Err(name.error);
    }
    file.name := name.value;
    var copied := MoveToFolder(fs, file, outputDir + [Folder(role.value)]);
    if copied.Fail? {
      return Err(copied.error);
    }
    return Ok(role);
  }

  /**
   * `transpose`: reads every line, builds the rewritten lines in order,
   * then overwrites the file with them.
   */
  method Transpose(fs: FileSystem, file: FileDescriptor, offset: int, drumChannel: string)
    requires file.path in fs.files
    modifies fs
    ensures fs.files == old(fs.files)[file.path := TransposeLines(old(fs.files[file.path]), offset, drumChannel)]
  {
    var lines := fs.files[file.path];
    var data: seq<Line> := [];
    for i := 0 to |lines|
      invariant data == TransposeLines(lines[..i], offset, drumChannel)
    {
      var line := lines[i];
      if line.Note? {
        if line.f2 != drumChannel {
          var note := line.pitch + offset;
          if note < 0 {
            note := 0;
          }
          data := data + [Note(line.f1, line.f2, line.f3, line.f4, note, line.f6)];
        } else {
          data := data + [line];
        }
      } else {
        data := data + [line];
      }
      assert lines[..i + 1][..i] == lines[..i];
    }
    assert lines[..|lines|] == lines;
    fs.WriteFile(file.path, data);
  }
}
