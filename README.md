# hilt, modelled

hilt is a small command-line Bible reader over the SWORD library. This
project models its own logic and proves properties of that model:

- **The bridge** (`src/bridge.cpp`): module lookup, the query that turns a
  reference into a result iterator, the forward-only iterator, and the
  single-verse wrapper.
- **The command line** (`src/main.c`):
  - joining the reference arguments, where `-l` switches on list mode;
  - choosing the version;
  - input validation;
  - the `-s` handler;
  - printing the results, either as text lines or as a grid of verse
    numbers, ten per row.
- **The default-module store** (`src/config.c`): the configuration path, and
  saving and loading the default module name.

The SWORD engine is abstract. A `Manager` maps installed module names to
modules, and parses a reference into a sequence of locations. A `Module`
gives the stripped text of each location.

The iterator is a class with three pieces of state:

- the list of locations;
- a position in `0..|list|`, where `|list|` is the ListKey's out-of-bounds
  state;
- the `started` flag.

`sword_iterator_next` changes that state in place. The ghost function
`Remaining()` gives the locations the iterator will still deliver.

`join_arguments` writes into a `char` array sized by its first pass, so the
`strcat` calls are proved to stay in bounds.

The configuration file is the `file` field of a `ConfigStore`, of type
`Option<string>`, and `save_default_module` overwrites it. The store also
holds `HOME`, which may be unset, and whether the file can be opened for
writing.

Printed output is a sequence of tokens:

- the "no results" message;
- newline;
- a verse number in list mode;
- a `:verse text` line in text mode.

The layout is proved two ways. It equals rows of ten (`Rows`), and it has
ceil(n/10) newlines.

Loading keeps the first line of the file as `fgets` reads it into 128 bytes,
then cuts it at the first `'\n'` or NUL. So the loaded name is capped at 127
bytes, and a file whose first line is blank loads as an empty, non-null name.
In that case `main` queries version `""` and does not fall back to `"KJV"`
(src/main.c:170-172). See `Config.ReadDefault` and
`Config.BlankFirstLineLoadsEmpty`.

## Model

| member | source | states |
|---|---|---|
| Bridge.ModuleExists | src/bridge.cpp:30-33 | false for a null context, manager or name; otherwise true exactly when the manager has a module of that name |
| Bridge.Resolve | src/bridge.cpp:36-53 | the query is refused exactly when the context or manager is null, the module is unknown or the parsed list is empty; otherwise it yields that module and its non-empty parsed list |
| Bridge.SwordIterator.constructor | src/bridge.cpp:55-59 | a new iterator is at the top of its list, not started, and will deliver the whole list |
| Bridge.Query | src/bridge.cpp:36-62 | null exactly when the query is refused; otherwise a fresh, not-started iterator at position 0 over the resolved module and list, with all of the list still to come |
| Bridge.Advance | src/bridge.cpp:68-73 | the first call only sets `started`; later calls step the position by one and never past the end. What remained before the call is what lies from the new position on |
| Bridge.IteratorNext | src/bridge.cpp:65-90 | a null iterator gives null. Once the list is used up the result is null, nothing moves and the verse cell is untouched. Otherwise the result is the text of the next remaining location, that location is consumed, and a non-null verse cell receives its verse number |
| Bridge.ExhaustedStaysExhausted | src/bridge.cpp:75-77 | after the end has been reported, the next two calls both return null and the iterator stays exhausted |
| Bridge.GetVerse | src/bridge.cpp:106-113 | null exactly when the query is refused; otherwise the text of the first location of the resolved list |
| Config.ConfigPath | src/config.c:13-27 | null exactly when HOME is unset; otherwise HOME followed by `/.hilt/config`, one character shorter than the buffer allocated for it |
| Config.LineBuffer | src/config.c:78-79 | what `fgets` stores: a prefix of the file, at most 127 characters, with no newline before its last character. It stops at the room, at the end of the file or just after the first newline |
| Config.NewlineSpan | src/config.c:81 | what `strcspn(buffer, "\n")` returns on a C buffer: every character before the result is neither a newline nor NUL, and the character at it, if any, is one of the two |
| Config.ReadDefault | src/config.c:78-92 | nothing exactly for an empty file; otherwise a prefix of the file with no newline and fewer than 128 characters |
| Config.ReadDefaultIsCappedFirstLine | src/config.c:78-87 | the loaded name is the file content up to its first newline or NUL, capped at 127 characters |
| Config.SaveLoadRoundTrip | src/config.c:57-87 | a name with no newline and at most 127 characters reads back unchanged; an empty name reads back as nothing |
| Config.BlankFirstLineLoadsEmpty | src/config.c:79-87 | a file whose first line is blank loads as the empty, non-null name |
| Config.ConfigStore.Save | src/config.c:43-63 | succeeds exactly when there is a path and the file opens for writing; then the whole file becomes the name with no newline added, and otherwise the file is unchanged |
| Config.ConfigStore.Load | src/config.c:67-93 | nothing when HOME is unset, the file is missing or the file is empty; otherwise the file's first line as read; never contains a newline, is under 128 characters and is a prefix of the file |
| Config.RoundTripThroughStore | src/config.c:43-93 | saving then loading through the store: the save succeeds exactly when HOME is set and the file is writable, and then the name comes back, or nothing for an empty name |
| Arguments.StrCat | src/main.c:76-78 | appending to a buffer with room for the string and its terminator: the new content is the old content followed by the string, terminated, and nothing is written past the buffer |
| Arguments.AppendPiece | src/main.c:74-78 | one pass-2 step: nothing for `-l`; otherwise the argument, then a space unless it is argv[argc-1] |
| Arguments.Concatenate | src/main.c:68-80 | pass 2 writes the concatenation of the pieces into the `total_len + 1` buffer, and the result is at most `total_len` long |
| Arguments.JoinArguments | src/main.c:53-81 | the list flag is set exactly when some argument from the start index is `-l`; the result is null when pass 1 counts nothing and otherwise pass 2's string; and the result fits the allocation |
| Arguments.JoinNoneIffOnlyFlags | src/main.c:58-66 | the joined reference is null exactly when every argument from the start index is `-l` |
| Arguments.JoinIsSpaceSeparated | src/main.c:73-79 | the reference is the kept arguments in order, separated by single spaces, plus one trailing space when the last argument is a dropped `-l` after something was kept |
| Arguments.TrailingFlagExample | src/main.c:73-79 | `hilt Ps 119 -l` sets list mode and joins to `"Ps 119 "` |
| Arguments.EmptyArgumentExample | src/main.c:58-66 | an empty argument still gives a non-null empty reference |
| Results.PrintResults | src/main.c:101-131 | a null iterator prints only the "no results" message; otherwise it prints a padding newline, each remaining location exactly once in order, the list-mode grid's closing newline if needed and a padding newline. It drains the iterator, and `count` is the number of locations |
| Results.PrintLoop | src/main.c:107-125 | the loop delivers every remaining location of the iterator, in order, as its verse number and text, and prints each as the mode requires; `count` is their number |
| Results.PrintVerse | src/main.c:116-123 | the loop body: in list mode the number, then a newline when the count is a multiple of 10; in text mode the verse line |
| Results.GridIsRows | src/main.c:116-128 | list-mode output is rows of ten verse numbers each ending in a newline, with a shorter last row also ended |
| Results.GridRowCount | src/main.c:116-128 | list mode prints ceil(count/10) newlines, one per row |
| Results.TwentyThreeVersesMakeThreeRows | src/main.c:116-128 | 23 verses print as rows of 10, 10 and 3: three newlines |
| Results.ThreeVerseRangeExample | tests/test_bridge.c:57-94 | a query resolving to Rev 7:1-3 prints, between the padding newlines, three lines with verse numbers 1, 2, 3 |
| Cli.HandleSetDefault | src/main.c:84-97 | warns exactly when the module is not installed but saves anyway; succeeds exactly when the save does, and only then changes the file |
| Cli.QueryAndPrint | src/main.c:188-189 | the query followed by printing its results prints what the resolution of that version and reference determines |
| Cli.RunQuery | src/main.c:149-197 | an installed argv[1] is the version and the reference starts at index 2. Otherwise the version is the stored default, or "KJV" when none is stored, and the reference starts at index 1. A null or empty reference fails with no query; anything else is queried, printed and succeeds |
| Cli.Run | src/main.c:134-198 | fewer than two arguments: usage and failure. `-s` alone: failure. `-s NAME`: the set-default handler. Otherwise query mode with the file unchanged. Every query has a non-empty reference |

## Left out

- SWORD itself is abstract: `parseVerseList`, the reference grammar, the `"ko"` locale, auto-normalisation, intros and `stripText`. Parsing is a function from the reference to a sequence of locations, and its ordering and absence of duplicates are not modelled.
- Module lookup by name is an exact map lookup; SWORD's own name matching is not modelled.
- The ListKey is reduced to a position that saturates at the end of its list, and `popError` to the test "position is out of bounds". Clearing the error flag is not modelled.
- `sword_init` and `sword_free`: the engine is a given `Manager`, and the "failed to initialize" branch of `main` cannot occur in the model.
- `sword_iterator_free` and all memory management: `new`/`delete`, `malloc`/`free`, `strdup`, the ownership of returned strings, and the `malloc` failure branches. The model uses values.
- `printf` formats and `%-3d` padding, the header line with the version and reference, ANSI colours, the `print_usage` text, `perror` and messages on stderr. Output is a token sequence.
- The file system: `getenv("HOME")` is the store's `home`, and whether `fopen(path, "w")` succeeds is the constant `writable`. `mkdir` is covered by `writable`. `ensure_config_dir` builds its path with `sprintf` into a fixed 1024-byte buffer (src/config.c:33-34), which overflows when HOME is 1018 bytes or longer; that undefined behaviour is not modelled. A missing file is `None`, and read errors other than an empty file are not modelled.
- The `strlen` scan hidden in each `strcat` is not modelled: the model tracks the current length `len` of the buffer's C string.
- Text encoding: a `char` of the model stands for one byte of the C string, so every length, the `strlen`/`strcspn` results and the 127 cap count bytes. Multibyte text (UTF-8 Korean, say) is not modelled as characters, and the program can cut such a name in the middle of a character.
- Verse numbers are unbounded integers; C `int` overflow of `count` and of the verse number is not modelled.
