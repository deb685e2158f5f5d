# MIDI trio extraction: cleanup classifier, transposition, metadata scans and crawler naming

This project models the decision logic of a MIDI-corpus pipeline. A crawler
harvests `.mid` links from web pages. A cleanup stage works on MIDI files that
were split into tracks and converted to MIDI-CSV text. For each track it reads
the first program change, decides whether the track is bass, melody or drums,
and copies it into the matching output folder under a new name. The same
stage can shift the pitch of every note line, by a fixed number of semitones,
except those whose group 2 equals `drum_channel`.

Modules, one per component of the source:

- `Wrappers`: Option, Result and Outcome.
- `PyText`: the Python built-ins the code leans on. These are `str.split` with a
  one-character separator, `int()` of a decimal literal, and the exceptions raised.
- `MidiCsv`: one MIDI-CSV line as the record patterns see it. A line is a note,
  a tempo record, a program change or other text.
- `Disk`: the files as a map from path to lines (class `FileSystem`), plus the
  scanner's `{name, path}` descriptor (class `FileDescriptor`).
- `Metadata`: `get_tempo`, `get_instrument` and `get_channels` as functions of a
  file's lines. Each takes the first record of its kind.
- `Classification`: the role decision of `filter_instruments` and the
  destination name.
- `Transposition`: the per-line pitch rewrite of `transpose`.
- `Cleanup`: the same operations as they act on the files. The scans are loops
  with early return, the copy goes into a role folder, and `transpose` rewrites
  the file in place.
- `MidiSpider`: the regular-expression semantics of the item name, and the
  per-page loop that builds one item per link.

The model follows the code, including where it departs from what one would
expect of a trio extractor:

- The General MIDI convention makes channel 10 (`channel_9`, counted from zero)
  percussion whatever its program. The code tests the bass table, then the
  melody table, and only then the `channel_9` directory.
  So a `channel_9` track with program 33 goes to bass.
  `Classification.ClassifyVersusPercussionFirst` states exactly where the two
  disagree.
- `not instrument` treats program 0 like a missing program change. Off
  `channel_9`, a program-0 track is dropped.
- Program 59 is in both tables. The bass table comes first, so it goes to bass.
- A copied file is named after the second-to-last segment of the track's
  directory (`dirname(path).split(sep)[-2]`), not after the channel directory.
  So equally named track files of two channel directories of one song get the
  same name.

`transpose` compares capture group 2 of the note pattern with `drum_channel`.
In MIDI-CSV's column order, that group is the time column of a note record.
The pattern module that defines the groups, and the value of `drum_channel`,
are not part of this model. So the model keeps the comparison as written, with
`drumChannel` as a parameter. This assumes `drum_channel` is a string: were it
an integer such as 9, the comparison with a matched string would always be
true in Python and every note would be rewritten, which the model reproduces
only by passing a `drumChannel` that no group 2 equals. The shift `offset` is a parameter as well.

In the crawler, Python's `.` does not match a line break. So the regular
expression's first group, `(.+)`, cannot contain one. `MidiSpider.Fits`
includes this condition.

## Model

| member | source | states |
|---|---|---|
| `Classification.Classify` | cleanup/cleanup.py:155-167 | Bass iff the program is in the bass table, even on `channel_9`. Melody iff it is in the melody table but not the bass table, and is nonzero or on `channel_9`. Drums iff the directory is `channel_9` and the program is absent or in neither table. The helper `Truthy` is the definition of `not instrument` at :157 (None and 0 are both falsy). |
| `Classification.Range` | cleanup/cleanup.py:159 | `list(range(lo, hi))` holds exactly the integers from `lo` up to `hi - 1`. |
| `Classification.IsBassProgram` | cleanup/cleanup.py:159 | The bass test holds exactly for the members of the list `[*range(33, 41), 44, 59, 68, 88]`. |
| `Classification.MelodyTable` | cleanup/cleanup.py:162 | The interval test `IsMelodyProgram` holds exactly for the members of the code's melody list (57–64, 0–8, 73, 74, 81–87, 89–96). |
| `Classification.DroppedTracks` | cleanup/cleanup.py:157-167 | A track gets no role iff its directory is not `channel_9` and its program is absent, 0, or in neither table. |
| `Classification.OverlapGoesToBass` | cleanup/cleanup.py:159-164 | Program 59 is in both tables and is classified bass. |
| `Classification.ClassifyVersusPercussionFirst` | cleanup/cleanup.py:157-167 | The code differs from a percussion-first policy exactly in two cases. One is a `channel_9` track whose program is in a table. The other is program 0 elsewhere. |
| `Classification.DestName` | cleanup/cleanup.py:160 | The copy's name is `<dirs[-2]>_<stem>.csv`. It is IndexError iff the path has fewer than two directory segments. |
| `Classification.DestNameInjective` | cleanup/cleanup.py:160 | Within one grandparent directory, different stems give different names. |
| `Classification.DestNameIgnoresChannel` | cleanup/cleanup.py:160 | Two channel directories of one song map equally named track files to the same name. |
| `Cleanup.FilterInstruments` | cleanup/cleanup.py:155-167 | Reads the first program change and classifies the track. A dropped track changes nothing. A classified track is renamed and copied into `<output>/<role folder>`, and only that one path changes. IndexError or SameFileError is returned where Python raises it. |
| `Cleanup.MoveToFolder` | cleanup/cleanup.py:152-153 | Copies the file to `<folder>/<name>`, overwriting, and changes no other file. Copying onto itself raises. |
| `Disk.FileSystem.CopyFile` | cleanup/cleanup.py:153 | `shutil.copyfile` sets the destination to the source's lines. When source and destination are the same, it raises SameFileError and changes nothing. |
| `Disk.FileSystem.WriteFile` | cleanup/cleanup.py:83-85 | Overwriting a file replaces its lines and no other file. |
| `Cleanup.GetInstrument` | cleanup/cleanup.py:130-135 | The loop with early return yields the program of the first program-change line, or None. |
| `Cleanup.GetTempo` | cleanup/cleanup.py:123-128 | The loop with early return yields the tempo of the first tempo line, None, or the division error. |
| `Metadata.FirstMatch` | cleanup/cleanup.py:124-127 | The first index whose line matches, or the length when none does. No earlier line matches. |
| `Metadata.InstrumentOf` | cleanup/cleanup.py:130-135 | None iff there is no program-change line. Otherwise it is the program of the first such line. |
| `Metadata.InstrumentIgnoresLaterLines` | cleanup/cleanup.py:131-135 | Lines after the first program change never affect the result. |
| `Metadata.TempoOf` | cleanup/cleanup.py:123-128 | With no tempo line, None. A first tempo of 0 µs gives ZeroDivisionError. Otherwise it is `60000000 // us`, bounded as floor division requires. |
| `Metadata.TempoIgnoresLaterLines` | cleanup/cleanup.py:124-128 | Lines after the first tempo record never affect the result. |
| `Metadata.FloorDiv` | cleanup/cleanup.py:128 | Python's `//` rounds toward negative infinity for either sign of divisor. |
| `Metadata.DefaultTempo` | cleanup/cleanup.py:128 | 500000 µs per quarter note reads as 120 beats per minute. |
| `Metadata.NegativeTempoRoundsDown` | cleanup/cleanup.py:128 | A negative tempo value rounds down, not toward zero. |
| `Metadata.ChannelsOf` | cleanup/cleanup.py:137-138 | One channel per scanned name, in order. Fails iff some name has no channel, with the first failing name's error. |
| `Metadata.ChannelOfRoundTrip` | cleanup/cleanup.py:138 | `int("channel_<n>".split("_")[1]) == n`. |
| `Metadata.ChannelOf` | cleanup/cleanup.py:138 | IndexError exactly when the name has no `_`. Any other failure is a ValueError from `int()`. |
| `Metadata.ChannelOfField` | cleanup/cleanup.py:138 | For `a_b` followed by nothing or by `_...`, with no `_` in `a` or `b`, the result is `int(b)`: `channel_9_old` gives 9. |
| `PyText.SplitHasTwo` | cleanup/cleanup.py:138 | `s.split(sep)` has at least two parts whenever `sep` occurs in `s`, so `[1]` does not raise. |
| `PyText.Split` | cleanup/cleanup.py:138 | `str.split` gives at least one part, and no part holds the separator. |
| `PyText.SplitJoin` | cleanup/cleanup.py:138 | Splitting a join of separator-free parts returns the parts. |
| `PyText.JoinSplit` | cleanup/cleanup.py:138 | Joining the parts of a split returns the string. |
| `PyText.ParseInt` | cleanup/cleanup.py:138 | `int()` accepts an unsigned run of digits, giving a non-negative value. It accepts a `+` or `-` sign followed by digits, and a `-` gives a value of at most 0. It raises ValueError on anything else. |
| `PyText.DecimalRoundTrip` | cleanup/cleanup.py:138 | `int(str(n)) == n`. |
| `PyText.NegativeDecimalRoundTrip` | cleanup/cleanup.py:138 | `int("-" + str(n)) == -n`. |
| `Cleanup.Transpose` | cleanup/cleanup.py:68-85 | The file is overwritten with the transposed lines, built one by one in order. No other file changes. |
| `Transposition.TransposeLine` | cleanup/cleanup.py:72-82 | A line that is not a note, or a note whose group 2 equals `drum_channel`, is kept. Any other note gets only its pitch replaced, by the shifted pitch, which is non-negative. |
| `Transposition.TransposeLines` | cleanup/cleanup.py:69-82 | The rewritten file has as many lines as the original. |
| `Transposition.TransposeLinesAt` | cleanup/cleanup.py:71-82 | Line k of the result is the rewrite of line k. |
| `Transposition.TransposeChangesOnlyPitches` | cleanup/cleanup.py:68-85 | Line count and order are kept. Non-note lines and note lines whose group 2 equals `drum_channel` are unchanged. Every other note changes only its pitch, to `max(0, pitch + offset)`. |
| `Transposition.Shifted` | cleanup/cleanup.py:75-77 | The new pitch is `pitch + offset`, or 0 when that is negative. It is never negative. |
| `Transposition.TransposedPitchesNonNegative` | cleanup/cleanup.py:75-77 | Every rewritten pitch is at least 0. |
| `Transposition.TransposeUpThenDown` | cleanup/cleanup.py:75-78 | Shifting up by k and then down by k restores a file whose rewritten pitches are non-negative. |
| `Transposition.TransposeDownThenUpLoses` | cleanup/cleanup.py:76-77 | A pitch clamped at 0 does not come back: down then up can change the file. |
| `Transposition.TransposeByZero` | cleanup/cleanup.py:75-78 | A shift of 0 leaves such a file unchanged. |
| `MidiSpider.ParseMidiLinks` | midi_spider/midi_spider/spiders/midi_spider.py:15-29 | There is one item per link, in link order. Its name is the extracted name and its origin is the page URL. Its link is the resolved URL, `file_urls` is `[link]`, and the other two fields stay unset. |
| `MidiSpider.ExtractName` | midi_spider/midi_spider/spiders/midi_spider.py:20-24 | Without a match the name is the link unchanged. With a match it is group 2, which is non-empty and slash-free. |
| `MidiSpider.NameMatch` | midi_spider/midi_spider/spiders/midi_spider.py:20 | The match exists iff some split fits the pattern. The chosen split has the rightmost slash, then the rightmost dot, as greedy backtracking picks it. |
| `MidiSpider.SearchFrom` | midi_spider/midi_spider/spiders/midi_spider.py:20 | Searching slashes from right to left finds the greatest fitting split at or below the start index, or proves that none exists. |
| `MidiSpider.Fits` | midi_spider/midi_spider/spiders/midi_spider.py:20 | A fitting split has a non-empty group 1 without a line break, and a non-empty group 2 without a slash. |
| `MidiSpider.RunEnd` | midi_spider/midi_spider/spiders/midi_spider.py:20 | `[^/]+` can extend only to the next slash. |
| `MidiSpider.LastDot` | midi_spider/midi_spider/spiders/midi_spider.py:20 | This is the last dot in a range, where backtracking stops. |
| `MidiSpider.FitsAtSlash` | midi_spider/midi_spider/spiders/midi_spider.py:20 | For a given slash, the dots that complete a match are exactly those in the slash-free run after it. |
| `MidiSpider.MatchesIffDecomposes` | midi_spider/midi_spider/spiders/midi_spider.py:20-22 | The pattern matches iff the link is `a/b.c`, with `a` non-empty and without a line break and `b` non-empty and slash-free. |
| `MidiSpider.NameOfFileLink` | midi_spider/midi_spider/spiders/midi_spider.py:20-22 | The name of `a/b.e`, with no slash or dot in `e`, is the stem `b`, dots included. |
| `MidiSpider.NameWithoutDirectory` | midi_spider/midi_spider/spiders/midi_spider.py:23-24 | A link with no slash after its first character is its own name. |
| `MidiSpider.NameOfEmptyStem` | midi_spider/midi_spider/spiders/midi_spider.py:23-24 | `x/.mid` does not match, so its name keeps the slash. |

## Left out

- `check` (cleanup/cleanup.py:22-34): an interactive prompt, `sys.exit` and directory removal. This is only I/O.
- The converter wrappers `__midi_to_csv`, `__csv_to_midi`, `midi_to_csv` and `csv_to_midi` (cleanup/cleanup.py:36-66): subprocess calls to external tools.
- `move_to_output_folder` and `delete` (cleanup/cleanup.py:148-150, 169-170): single file-system calls. The first is only referenced from commented-out code.
- `main`, the worker pool, SIGINT handling and progress bars (cleanup/cleanup.py:172-213, 307-331): parallel dispatch, concurrency and UI. The order in which pool workers copy onto the same destination name is therefore not modelled.
- Everything after the `return` in `main` (cleanup/cleanup.py:215-305): unreachable. `transpose` is modelled only on its own.
- `get_key`, `get_time` and `filter_nonstandard` (cleanup/cleanup.py:109-121, 140-146): they rest on music21's `Key` and `TimeSignature`, which are foreign, and `get_time` uses float arithmetic.
- The pattern and scanner modules are not part of this model. A regex match is the abstract `MidiCsv.Line` parse, and a glob scan is its given list of names or descriptors.
- `MidiSpider.ParseMidiLinks`: the spider's `parse`, the `.re(r".*\.mid")` link filter and `response.urljoin` are scrapy and network internals. The links arrive as a parameter and the URL resolver as a function parameter. Each item is built in one step rather than field by field.
- `Cleanup.GetInstrument`, `Cleanup.GetTempo`: both open the file with the platform's default encoding (cleanup/cleanup.py:124, 131). A file holding bytes that encoding cannot decode raises UnicodeDecodeError before any record is returned, and `filter_instruments` passes that error on. The model treats every file as decodable, so that error is not modelled.
- `Cleanup.Transpose`: `re.sub` rebuilds a note line with `", "` separators, and text after the match stays. Separators and trailing text are not part of the abstract line, so that normalisation is not modelled. Latin-1 decoding is not modelled either.
- `PyText.ParseInt`: surrounding whitespace, `_` digit separators and non-ASCII digits, which Python's `int()` also accepts, are treated as ValueError.
- `Disk.FileSystem.CopyFile`: directories are not modelled. A copy into a missing folder, which raises in Python, cannot happen in the model. Same-file detection compares paths, not inodes.
- `Disk`: a path is held as the segments of `dirname(path).split(sep)` plus its base name. `os.path.dirname`'s stripping of trailing slashes is not modelled.
