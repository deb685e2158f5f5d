/**
 * The filesystem as the cleanup stage sees it: text files addressed by
 * path, and the file descriptors the scanner hands to every phase.
 */
module Disk {
  import opened Wrappers
  import opened PyText
  import opened MidiCsv

  /**
   * A file path, held as the segments `dirname(path).split(sep)` yields
   * (never empty: a path without a directory has the one segment "")
   * and the base name.
   */
  datatype Path = Path(dirs: seq<string>, base: string)

  /** The files on disk and their lines. */
  class FileSystem {
    var files: map<Path, seq<Line>>

    constructor (initial: map<Path, seq<Line>>)
      ensures files == initial
    {
      files := initial;
    }

    /** `shutil.copyfile(src, dst)`: overwrites `dst`; copying a file onto itself raises. */
    method CopyFile(src: Path, dst: Path) returns (r: Outcome<Error>)
      requires src in files
      modifies this
      ensures src == dst ==> r == Fail(SameFileError) && files == old(files)
      ensures src != dst ==> r == Pass && files == old(files)[dst := old(files)[src]]
    {
      if src == dst {
        return Fail(SameFileError);
      }
      files := files[dst := files[src]];
      return Pass;
    }

    /** Opening `path` for writing and writing `lines`: the file's old contents are replaced. */
    method WriteFile(path: Path, lines: seq<Line>)
      modifies this
      ensures files == old(files)[path := lines]
    {
      files := files[path := lines];
    }
  }

  /** The `{"name", "path"}` dictionary of a scanned file; `name` is the base name without extension. */
  class FileDescriptor {
    var name: string
    var path: Path

    constructor (name: string, path: Path)
      ensures this.name == name && this.path == path
    {
      this.name := name;
      this.path := path;
    }
  }
}
