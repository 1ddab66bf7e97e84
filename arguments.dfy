/**
 * Building the reference string from the command line (join_arguments in
 * src/main.c): "-l" arguments are dropped and switch on list mode, the others
 * are concatenated into a buffer sized by a first pass.
 */
module Arguments {
  import opened Wrappers
  import opened CStrings

  const ListFlag: CString := "-l"

  /** Some argument from `start` on is exactly "-l". */
  predicate HasListFlag(argv: seq<CString>, start: nat)
  {
    exists k :: start <= k < |argv| && argv[k] == ListFlag
  }

  /** What pass 2 appends for argument `i`: nothing for "-l", else the argument and a space unless it is argv[argc-1]. */
  function Piece(argv: seq<CString>, i: nat): CString
    requires i < |argv|
  {
    if argv[i] == ListFlag then ""
    else if i < |argv| - 1 then argv[i] + " "
    else argv[i]
  }

  /** The buffer after pass 2 has handled the arguments from `start` up to `j`. */
  function JoinedUpTo(argv: seq<CString>, start: nat, j: nat): CString
    requires j <= |argv|
  {
    if j <= start then "" else JoinedUpTo(argv, start, j - 1) + Piece(argv, j - 1)
  }

  /** `total_len` after pass 1 has handled the arguments from `start` up to `j`. */
  function TotalLen(argv: seq<CString>, start: nat, j: nat): nat
    requires j <= |argv|
  {
    if j <= start then 0
    else TotalLen(argv, start, j - 1) + (if argv[j - 1] == ListFlag then 0 else |argv[j - 1]| + 1)
  }

  /** The value join_arguments returns: null when pass 1 counted nothing. */
  function Join(argv: seq<CString>, start: nat): Option<CString>
  {
    if TotalLen(argv, start, |argv|) == 0 then None else Some(JoinedUpTo(argv, start, |argv|))
  }

  /**
   * strcat into a buffer holding a C string of length `len`: the caller must
   * leave room for `s` and the terminator, which is what keeps it in bounds.
   */
  method StrCat(buf: array<char>, len: nat, s: CString) returns (newLen: nat)
    requires len + |s| < buf.Length
    modifies buf
    ensures newLen == len + |s|
    ensures buf[..newLen] == old(buf[..len]) + s
    ensures buf[newLen] == Nul
  {
    var k := 0;
    while k < |s|
      invariant 0 <= k <= |s|
      invariant buf[..len + k] == old(buf[..len]) + s[..k]
    {
      buf[len + k] := s[k];
      k := k + 1;
      assert buf[..len + k] == buf[..len + k - 1] + [s[k - 1]];
      assert s[..k] == s[..k - 1] + [s[k - 1]];
    }
    assert s[..k] == s;
    buf[len + k] := Nul;
    assert buf[..len + k] == old(buf[..len]) + s;
    newLen := len + k;
  }

  /**
   * join_arguments: the list flag is set iff some argument from `startIndex` on
   * is "-l"; the result is null iff every such argument is "-l"; otherwise it is
   * pass 2's concatenation, and no longer than the `total_len` the buffer of
   * `total_len + 1` characters was allocated for.
   */
  method JoinArguments(startIndex: nat, argv: seq<CString>) returns (result: Option<CString>, listMode: bool)
    ensures listMode <==> HasListFlag(argv, startIndex)
    ensures result == Join(argv, startIndex)
    ensures result.Some? ==> |result.value| <= TotalLen(argv, startIndex, |argv|)
  {
    var totalLen := 0;
    listMode := false;

    // Pass 1: the length and the flag.
    var i := startIndex;
    while i < |argv|
      invariant startIndex <= i && (i <= |argv| || i == startIndex)
      invariant totalLen == TotalLen(argv, startIndex, if i <= |argv| then i else |argv|)
      invariant listMode <==> exists k :: startIndex <= k < i && k < |argv| && argv[k] == ListFlag
    {
      if argv[i] == ListFlag {
        listMode := true;
      } else {
        totalLen := totalLen + |argv[i]| + 1;
      }
      i := i + 1;
    }
    assert totalLen == TotalLen(argv, startIndex, |argv|);

    if totalLen == 0 {
      return None, listMode;
    }

    var joined := Concatenate(startIndex, argv, totalLen);
    result := Some(joined);
  }

  /**
   * Pass 2 of join_arguments: strcat every kept argument, and a space after it
   * unless it is argv[argc-1], into a fresh buffer of `totalLen + 1` characters.
   */
  method Concatenate(startIndex: nat, argv: seq<CString>, totalLen: nat) returns (joined: CString)
    requires totalLen == TotalLen(argv, startIndex, |argv|) && totalLen > 0
    ensures joined == JoinedUpTo(argv, startIndex, |argv|)
    ensures |joined| <= totalLen
  {
    var buf := new char[totalLen + 1];
    buf[0] := Nul;
    var len: nat := 0;
    var i := startIndex;
    while i < |argv|
      invariant startIndex <= i <= |argv|
      invariant buf.Length == totalLen + 1
      invariant len < buf.Length
      invariant buf[..len] == JoinedUpTo(argv, startIndex, i)
      invariant len <= TotalLen(argv, startIndex, i)
      invariant TotalLen(argv, startIndex, i) + TotalLen(argv, i, |argv|) == totalLen
    {
      TotalLenSplit(argv, startIndex, i, i + 1);
      TotalLenSplit(argv, i, i + 1, |argv|);
      len := AppendPiece(buf, len, argv, i);
      i := i + 1;
    }
    joined := buf[..len];
  }

  /** One step of pass 2: skip "-l", or strcat the argument and, unless it is argv[argc-1], a space. */
  method AppendPiece(buf: array<char>, len: nat, argv: seq<CString>, i: nat) returns (newLen: nat)
    requires i < |argv|
    requires len + TotalLen(argv, i, i + 1) < buf.Length
    modifies buf
    ensures newLen == len + |Piece(argv, i)|
    ensures buf[..newLen] == old(buf[..len]) + Piece(argv, i)
  {
    if argv[i] == ListFlag {
      return len;
    }
    newLen := StrCat(buf, len, argv[i]);
    if i < |argv| - 1 {
      newLen := StrCat(buf, newLen, " ");
    }
  }

  /** Pass 1's count over [a, c) is its count over [a, b) plus its count over [b, c). */
  lemma {:induction false} TotalLenSplit(argv: seq<CString>, a: nat, b: nat, c: nat)
    requires a <= b <= c <= |argv|
    ensures TotalLen(argv, a, c) == TotalLen(argv, a, b) + TotalLen(argv, b, c)
    decreases c
  {
    if c > b {
      TotalLenSplit(argv, a, b, c - 1);
    }
  }

  /** The result is null exactly when every argument from `start` on is "-l". */
  lemma {:induction false} JoinNoneIffOnlyFlags(argv: seq<CString>, start: nat)
    ensures Join(argv, start).None? <==> forall k :: start <= k < |argv| ==> argv[k] == ListFlag
  {
    OnlyFlagsUpTo(argv, start, |argv|);
  }

  lemma {:induction false} OnlyFlagsUpTo(argv: seq<CString>, start: nat, j: nat)
    requires j <= |argv|
    ensures TotalLen(argv, start, j) == 0 <==> forall k :: start <= k < j ==> argv[k] == ListFlag
    decreases j
  {
    if j > start {
      OnlyFlagsUpTo(argv, start, j - 1);
    }
  }

  /** The arguments from `start` up to `j` that pass 2 keeps, in order. */
  function KeptUpTo(argv: seq<CString>, start: nat, j: nat): seq<CString>
    requires j <= |argv|
  {
    if j <= start then []
    else KeptUpTo(argv, start, j - 1) + (if argv[j - 1] == ListFlag then [] else [argv[j - 1]])
  }

  /** Each word followed by one space. */
  function Spaced(words: seq<string>): string
  {
    if words == [] then "" else Spaced(words[..|words| - 1]) + words[|words| - 1] + " "
  }

  /** The words separated by single spaces. */
  function Unwords(words: seq<string>): string
  {
    if words == [] then "" else Spaced(words[..|words| - 1]) + words[|words| - 1]
  }

  /**
   * The result is the kept arguments, in order, separated by single spaces,
   * plus one trailing space when the last argument is a dropped "-l" and
   * something was kept: "Ps 119 -l" gives "Ps 119 ".
   */
  lemma JoinIsSpaceSeparated(argv: seq<CString>, start: nat)
    requires start < |argv|
    ensures var kept := KeptUpTo(argv, start, |argv|);
      JoinedUpTo(argv, start, |argv|) ==
        Unwords(kept) + (if kept != [] && argv[|argv| - 1] == ListFlag then " " else "")
  {
    JoinedBeforeLast(argv, start, |argv| - 1);
    if argv[|argv| - 1] == ListFlag {
      JoinEndsWithFlag(argv, start);
    } else {
      JoinEndsWithWord(argv, start);
    }
  }

  /** A trailing "-l" leaves the space written after the last kept argument. */
  lemma JoinEndsWithFlag(argv: seq<CString>, start: nat)
    requires start < |argv| && argv[|argv| - 1] == ListFlag
    requires JoinedIsSpaced(argv, start, |argv| - 1)
    ensures var kept := KeptUpTo(argv, start, |argv|);
      JoinedUpTo(argv, start, |argv|) == Unwords(kept) + (if kept != [] then " " else "")
  {
    FlagAddsNothing(argv, start, |argv|);
    var kept := KeptUpTo(argv, start, |argv|);
    if kept != [] {
      SpacedEndsWithSpace(kept);
    }
  }

  /** A kept last argument is written without a space after it. */
  lemma JoinEndsWithWord(argv: seq<CString>, start: nat)
    requires start < |argv| && argv[|argv| - 1] != ListFlag
    requires JoinedIsSpaced(argv, start, |argv| - 1)
    ensures JoinedUpTo(argv, start, |argv|) == Unwords(KeptUpTo(argv, start, |argv|))
  {
    var n := |argv|;
    WordIsKept(argv, start, n);
    var longer := KeptUpTo(argv, start, n);
    assert longer[..|longer| - 1] == KeptUpTo(argv, start, n - 1);
  }

  /** Passing over "-l" changes neither the buffer nor the kept arguments. */
  lemma FlagAddsNothing(argv: seq<CString>, start: nat, j: nat)
    requires start < j <= |argv| && argv[j - 1] == ListFlag
    ensures KeptUpTo(argv, start, j) == KeptUpTo(argv, start, j - 1)
    ensures JoinedUpTo(argv, start, j) == JoinedUpTo(argv, start, j - 1)
  {
    var kept, joined := KeptUpTo(argv, start, j - 1), JoinedUpTo(argv, start, j - 1);
    assert kept + [] == kept && joined + "" == joined;
  }

  /** Any other argument is kept and its piece appended. */
  lemma WordIsKept(argv: seq<CString>, start: nat, j: nat)
    requires start < j <= |argv| && argv[j - 1] != ListFlag
    ensures KeptUpTo(argv, start, j) == KeptUpTo(argv, start, j - 1) + [argv[j - 1]]
    ensures JoinedUpTo(argv, start, j) == JoinedUpTo(argv, start, j - 1) + Piece(argv, j - 1)
  {
  }

  lemma SpacedEndsWithSpace(words: seq<string>)
    requires words != []
    ensures Spaced(words) == Unwords(words) + " "
  {
  }

  /** Up to `j`, pass 2 has written every kept argument followed by a space. */
  predicate JoinedIsSpaced(argv: seq<CString>, start: nat, j: nat)
    requires j <= |argv|
  {
    JoinedUpTo(argv, start, j) == Spaced(KeptUpTo(argv, start, j))
  }

  /** Before the last argument, every kept argument is followed by a space. */
  lemma {:induction false} JoinedBeforeLast(argv: seq<CString>, start: nat, j: nat)
    requires j < |argv|
    ensures JoinedIsSpaced(argv, start, j)
    decreases j
  {
    if j > start {
      JoinedBeforeLast(argv, start, j - 1);
      JoinedBeforeLastStep(argv, start, j);
    } else {
      JoinedBeforeFirst(argv, start, j);
    }
  }

  lemma JoinedBeforeFirst(argv: seq<CString>, start: nat, j: nat)
    requires j <= start && j <= |argv|
    ensures JoinedIsSpaced(argv, start, j)
  {
  }

  lemma JoinedBeforeLastStep(argv: seq<CString>, start: nat, j: nat)
    requires start < j < |argv|
    requires JoinedIsSpaced(argv, start, j - 1)
    ensures JoinedIsSpaced(argv, start, j)
  {
    if argv[j - 1] == ListFlag {
      FlagAddsNothing(argv, start, j);
    } else {
      WordIsKept(argv, start, j);
      SpacedSnoc(JoinedUpTo(argv, start, j - 1), KeptUpTo(argv, start, j - 1), argv[j - 1]);
    }
  }

  /** A kept argument before the last one adds itself and a space. */
  lemma SpacedSnoc(prev: string, words: seq<string>, w: string)
    requires prev == Spaced(words)
    ensures prev + (w + " ") == Spaced(words + [w])
  {
    var longer := words + [w];
    assert longer[..|longer| - 1] == words;
    assert prev + (w + " ") == prev + w + " ";
  }

  /** For instance `hilt Ps 119 -l`: list mode, and the reference keeps a trailing space. */
  lemma TrailingFlagExample()
    ensures Join(["hilt", "Ps", "119", "-l"], 1) == Some("Ps 119 ")
    ensures HasListFlag(["hilt", "Ps", "119", "-l"], 1)
  {
    var argv: seq<CString> := ["hilt", "Ps", "119", "-l"];
    assert argv[3] == ListFlag;
    assert JoinedUpTo(argv, 1, 4) == "Ps 119 ";
  }

  /** An empty argument is still a reference: `hilt ""` joins to a non-null "". */
  lemma EmptyArgumentExample()
    ensures Join(["hilt", ""], 1) == Some("")
    ensures !HasListFlag(["hilt", ""], 1)
  {
    var argv: seq<CString> := ["hilt", ""];
    assert argv[1] != ListFlag;
    assert TotalLen(argv, 1, 2) == 1;
    assert JoinedUpTo(argv, 1, 2) == "";
  }
}
