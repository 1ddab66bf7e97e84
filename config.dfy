/**
 * The default-module store (src/config.c). The configuration file at
 * $HOME/.hilt/config is one optional string: None when the file is missing.
 */
module Config {
  import opened Wrappers
  import opened CStrings

  const ConfigDir: CString := "/.hilt"
  const ConfigFile: CString := "/config"

  /** fgets is given a 128-byte buffer, so it stores at most 127 characters. */
  const LineBufferSize: nat := 128

  /** The size get_config_path allocates: the three parts and the terminator. */
  function PathAllocSize(home: CString): nat
  {
    |home| + |ConfigDir| + |ConfigFile| + 1
  }

  /**
   * get_config_path: null exactly when HOME is unset; otherwise HOME followed by
   * "/.hilt/config", one character shorter than the buffer allocated for it.
   */
  function ConfigPath(home: Option<CString>): (path: Option<CString>)
    ensures path.None? <==> home.None?
    ensures path.Some? ==>
      |path.value| + 1 == PathAllocSize(home.value) &&
      path.value[..|home.value|] == home.value &&
      path.value[|home.value|..] == "/.hilt/config"
  {
    match home
    case None => None
    case Some(h) => Some(h + ConfigDir + ConfigFile)
  }

  /**
   * What fgets(buffer, room + 1, fp) stores from a file holding `content`:
   * characters up to and including the first newline, at most `room` of them.
   */
  function LineBuffer(content: string, room: nat): (line: string)
    ensures |line| <= room && line <= content
    ensures forall k :: 0 <= k < |line| - 1 ==> line[k] != '\n'
    ensures |line| == room || |line| == |content| || (|line| > 0 && line[|line| - 1] == '\n')
  {
    if content == [] || room == 0 then []
    else if content[0] == '\n' then ['\n']
    else [content[0]] + LineBuffer(content[1..], room - 1)
  }

  /**
   * strcspn(buffer, "\n") on a C buffer: the index of the first newline, or of
   * the first NUL (where the C string ends), or the length when there is neither.
   */
  function NewlineSpan(buffer: string): (n: nat)
    ensures n <= |buffer|
    ensures forall k :: 0 <= k < n ==> buffer[k] != '\n' && buffer[k] != Nul
    ensures n < |buffer| ==> buffer[n] == '\n' || buffer[n] == Nul
  {
    if buffer == [] || buffer[0] == '\n' || buffer[0] == Nul then 0
    else 1 + NewlineSpan(buffer[1..])
  }

  /**
   * The value load_default_module returns for a file holding `content`:
   * nothing when fgets reads nothing (an empty file), otherwise the line
   * buffer cut at the first newline, as strdup copies it.
   */
  function ReadDefault(content: string): (r: Option<CString>)
    ensures r.None? <==> content == []
    ensures r.Some? ==>
      '\n' !in r.value && |r.value| < LineBufferSize && r.value <= content
  {
    if content == [] then None
    else
      var line := LineBuffer(content, LineBufferSize - 1);
      var cut := line[..NewlineSpan(line)];
      assert forall k :: 0 <= k < |cut| ==> cut[k] != '\n' && cut[k] != Nul;
      Some(cut)
  }

  /**
   * The loaded name is the stored content up to its first newline or NUL,
   * capped at 127 characters.
   */
  lemma {:induction false} ReadDefaultIsCappedFirstLine(content: string)
    requires content != []
    ensures var n := NewlineSpan(content);
      ReadDefault(content) == Some(content[..if n < LineBufferSize - 1 then n else LineBufferSize - 1])
  {
    CappedSpan(content, LineBufferSize - 1);
  }

  /** The span of the line buffer is the span of the content, capped at the room. */
  lemma {:induction false} CappedSpan(content: string, room: nat)
    ensures var n := NewlineSpan(content);
      var line := LineBuffer(content, room);
      line[..NewlineSpan(line)] == content[..if n < room then n else room]
  {
    var line := LineBuffer(content, room);
    LineBufferSpan(content, room);
    assert line <= content;
    assert line[..NewlineSpan(line)] == content[..NewlineSpan(line)];
  }

  /** Counting the span of the line buffer: the span of the content, capped at the room. */
  lemma {:induction false} LineBufferSpan(content: string, room: nat)
    ensures var n := NewlineSpan(content);
      NewlineSpan(LineBuffer(content, room)) == if n < room then n else room
  {
    if content == [] || room == 0 || content[0] == '\n' {
    } else {
      var line := LineBuffer(content, room);
      var rest := LineBuffer(content[1..], room - 1);
      assert line == [content[0]] + rest;
      assert line[0] == content[0] && line[1..] == rest;
      if content[0] != Nul {
        LineBufferSpan(content[1..], room - 1);
      }
    }
  }

  /**
   * Save then load: a non-empty name without a newline of at most 127 characters
   * comes back unchanged; an empty name comes back as nothing.
   */
  lemma {:induction false} SaveLoadRoundTrip(name: CString)
    requires '\n' !in name && |name| < LineBufferSize
    ensures ReadDefault(name) == if name == [] then None else Some(name)
  {
    if name != [] {
      ReadDefaultIsCappedFirstLine(name);
      NoStopSpan(name);
      assert name[..|name|] == name;
    }
  }

  /**
   * A file whose first line is blank loads as an empty, non-null name, so main
   * then queries version "" instead of falling back to "KJV".
   */
  lemma BlankFirstLineLoadsEmpty(content: string)
    requires content != [] && content[0] == '\n'
    ensures ReadDefault(content) == Some("")
  {
    ReadDefaultIsCappedFirstLine(content);
    assert NewlineSpan(content) == 0;
  }

  /** A string without newline or NUL spans its whole length. */
  lemma {:induction false} NoStopSpan(s: string)
    requires '\n' !in s && Nul !in s
    ensures NewlineSpan(s) == |s|
  {
    if s != [] {
      assert s[0] in s;
      assert forall c :: c in s[1..] ==> c in s;
      NoStopSpan(s[1..]);
    }
  }

  /**
   * The configuration file and its environment: HOME, whether the file can be
   * opened for writing (which covers creating ~/.hilt), and its content.
   */
  class ConfigStore {
    const home: Option<CString>
    const writable: bool
    var file: Option<string>

    constructor (home: Option<CString>, writable: bool, file: Option<string>)
      ensures this.home == home && this.writable == writable && this.file == file
    {
      this.home := home;
      this.writable := writable;
      this.file := file;
    }

    /**
     * save_default_module: fails (0) without a path or when the file cannot be
     * opened; otherwise the whole content becomes `name`, with no newline added.
     */
    method Save(name: CString) returns (ok: bool)
      modifies this
      ensures ok <==> ConfigPath(home).Some? && writable
      ensures file == if ok then Some(name) else old(file)
    {
      var path := ConfigPath(home);
      if path.None? {
        return false;
      }
      if !writable {
        return false;
      }
      file := Some(name);
      ok := true;
    }

    /**
     * load_default_module: nothing without a path, without a file or for an
     * empty file; otherwise the first line, without its newline, capped at 127.
     */
    function Load(): (r: Option<CString>)
      reads this
      ensures r.None? <==> home.None? || file.None? || file.value == []
      ensures home.Some? && file.Some? ==> r == ReadDefault(file.value)
      ensures r.Some? ==>
        '\n' !in r.value && |r.value| < LineBufferSize && r.value <= file.value
    {
      if ConfigPath(home).None? then None
      else if file.None? then None
      else ReadDefault(file.value)
    }
  }

  /**
   * Saving `name` and loading it back through the store: when the save
   * succeeds, a name without a newline of at most 127 characters comes back
   * unchanged, and an empty name comes back as nothing.
   */
  method RoundTripThroughStore(store: ConfigStore, name: CString) returns (ok: bool, loaded: Option<CString>)
    requires '\n' !in name && |name| < LineBufferSize
    modifies store
    ensures ok <==> store.home.Some? && store.writable
    ensures ok ==> loaded == if name == [] then None else Some(name)
  {
    ok := store.Save(name);
    loaded := store.Load();
    if ok {
      SaveLoadRoundTrip(name);
    }
  }
}
