/**
 * The connection-string builder of the database worker (`build_connection_str`
 * and `DRIVE_REGEX` in src/db/mod.rs).
 *
 * A path becomes an SQLite URI filename as the "URI Filenames" page of the
 * SQLite documentation asks: `?` and `#` are percent-encoded, backslashes become
 * slashes, runs of slashes collapse to one, and a Windows drive letter gets an
 * extra leading slash. No path at all selects one shared in-memory database.
 */
module DbConnectionStr {
  import opened Wrappers

  /** The target used when no path is given: one shared in-memory database. */
  const MemoryTarget: string := "sqlite:file::memory:?cache=shared"

  /** The scheme every file target starts with. */
  const FilePrefix: string := "sqlite:file:"

  /** A path as the operating system hands it over: text, or bytes with no UTF-8 reading. */
  datatype OsPath = Utf8(text: string) | NotUtf8

  /** Why no connection string could be built. */
  datatype ConnStrError = PathNotUtf8

  /**
   * The `\w` class of the drive-letter pattern. The regex crate uses Unicode
   * word characters; this model uses ASCII letters, digits and `_`.
   */
  predicate IsWordChar(c: char) {
    ('a' <= c <= 'z') || ('A' <= c <= 'Z') || ('0' <= c <= '9') || c == '_'
  }

  /** `DRIVE_REGEX.is_match(s)` for the pattern `^\w:`. */
  predicate HasDriveLetter(s: string) {
    |s| >= 2 && IsWordChar(s[0]) && s[1] == ':'
  }

  /** `s.contains("//")`. */
  predicate ContainsDoubleSlash(s: string) {
    |s| >= 2 && ((s[0] == '/' && s[1] == '/') || ContainsDoubleSlash(s[1..]))
  }

  /** `s.replace(c, rep)` for a single-character pattern. */
  function ReplaceChar(s: string, c: char, rep: string): string {
    if s == [] then []
    else (if s[0] == c then rep else [s[0]]) + ReplaceChar(s[1..], c, rep)
  }

  /**
   * `s.replace("//", "/")`: matches are taken left to right without overlap,
   * so `"///"` becomes `"//"`. Every match shortens the string by one.
   */
  function ReplaceDoubleSlash(s: string): (r: string)
    ensures |r| <= |s|
    ensures ContainsDoubleSlash(s) ==> |r| < |s|
    ensures |s| > 0 ==> |r| > 0 && r[0] == s[0]
  {
    if |s| < 2 then s
    else if s[0] == '/' && s[1] == '/' then "/" + ReplaceDoubleSlash(s[2..])
    else [s[0]] + ReplaceDoubleSlash(s[1..])
  }

  /** The effect of `while path.contains("//") { path = path.replace("//", "/") }`. */
  function Collapse(s: string): (r: string)
    ensures !ContainsDoubleSlash(r)
    ensures |r| <= |s|
    decreases |s|
  {
    if ContainsDoubleSlash(s) then Collapse(ReplaceDoubleSlash(s)) else s
  }

  /** The three `replace` calls that precede the loop. */
  function Escape(s: string): string {
    ReplaceChar(ReplaceChar(ReplaceChar(s, '?', "%3f"), '#', "%23"), '\\', "/")
  }

  /** The extra leading `/` before a drive letter. */
  function PrefixDrive(s: string): string {
    if HasDriveLetter(s) then "/" + s else s
  }

  /** Everything `build_connection_str` does to a UTF-8 path after the scheme. */
  function Sanitise(s: string): string {
    PrefixDrive(Collapse(Escape(s)))
  }

  /** What `build_connection_str` returns. */
  function ConnectionStr(path: Option<OsPath>): Result<string, ConnStrError> {
    match path
    case None => Ok(MemoryTarget)
    case Some(NotUtf8) => Err(PathNotUtf8)
    case Some(Utf8(text)) => Ok(FilePrefix + Sanitise(text))
  }

  /** A body that needs no further sanitising: no `?`, `#`, `\` or `//`. */
  predicate Clean(s: string) {
    '?' !in s && '#' !in s && '\\' !in s && !ContainsDoubleSlash(s)
  }

  /**
   * Reference definition of slash collapsing, in one pass: drop every `/`
   * that follows a `/`. `prevSlash` says whether the character before `s` was one.
   */
  function SqueezeAfter(prevSlash: bool, s: string): string
    decreases |s|
  {
    if s == [] then []
    else if s[0] == '/' && prevSlash then SqueezeAfter(true, s[1..])
    else [s[0]] + SqueezeAfter(s[0] == '/', s[1..])
  }

  function Squeeze(s: string): string {
    SqueezeAfter(false, s)
  }

  /**
   * `build_connection_str`: the successive rebindings of a mutable `path`
   * string, with the collapsing loop.
   */
  method BuildConnectionStr(path: Option<OsPath>) returns (r: Result<string, ConnStrError>)
    ensures r == ConnectionStr(path)
    ensures path.None? ==> r == Ok(MemoryTarget)
    ensures r.Err? <==> path == Some(NotUtf8)
  {
    var p: string;
    match path {
      case None =>
        return Ok(MemoryTarget);
      case Some(NotUtf8) =>
        return Err(PathNotUtf8);
      case Some(Utf8(text)) =>
        p := text;
    }
    p := ReplaceChar(p, '?', "%3f");
    p := ReplaceChar(p, '#', "%23");
    p := ReplaceChar(p, '\\', "/");
    ghost var escaped := p;
    while ContainsDoubleSlash(p)
      invariant Collapse(p) == Collapse(escaped)
      decreases |p|
    {
      p := ReplaceDoubleSlash(p);
    }
    if HasDriveLetter(p) {
      p := "/" + p;
    }
    r := Ok(FilePrefix + p);
  }

  // ---------------------------------------------------------------------------
  // Character-level facts about the replacements

  /** After `replace(c, rep)` with `c` not in `rep`, no `c` is left. */
  lemma {:induction false} ReplaceCharRemoves(s: string, c: char, rep: string)
    requires c !in rep
    ensures c !in ReplaceChar(s, c, rep)
  {
    if s != [] {
      ReplaceCharRemoves(s[1..], c, rep);
    }
  }

  /**
   * Any other character is in the result exactly when it was in `s`, or `c`
   * was in `s` and the character is in `rep`.
   */
  lemma {:induction false} ReplaceCharOthers(s: string, c: char, rep: string, d: char)
    requires d != c
    ensures d in ReplaceChar(s, c, rep) <==> d in s || (c in s && d in rep)
  {
    if s != [] {
      ReplaceCharOthers(s[1..], c, rep, d);
      assert s == [s[0]] + s[1..];
    }
  }

  /** A replacement whose pattern does not occur changes nothing. */
  lemma {:induction false} ReplaceCharAbsent(s: string, c: char, rep: string)
    requires c !in s
    ensures ReplaceChar(s, c, rep) == s
  {
    if s != [] {
      ReplaceCharAbsent(s[1..], c, rep);
      assert s == [s[0]] + s[1..];
    }
  }

  /** Replacing `//` by `/` keeps exactly the characters that were there. */
  lemma {:induction false} ReplaceDoubleSlashChars(s: string, d: char)
    ensures d in ReplaceDoubleSlash(s) <==> d in s
  {
    if |s| >= 2 {
      if s[0] == '/' && s[1] == '/' {
        ReplaceDoubleSlashChars(s[2..], d);
        assert s == "//" + s[2..];
      } else {
        ReplaceDoubleSlashChars(s[1..], d);
        assert s == [s[0]] + s[1..];
      }
    }
  }

  // ---------------------------------------------------------------------------
  // The collapsing loop

  /** The loop keeps exactly the characters of its input. */
  lemma {:induction false} CollapseChars(s: string, d: char)
    ensures d in Collapse(s) <==> d in s
    decreases |s|
  {
    if ContainsDoubleSlash(s) {
      ReplaceDoubleSlashChars(s, d);
      CollapseChars(ReplaceDoubleSlash(s), d);
    }
  }

  /** One `replace("//", "/")` does not change the one-pass collapse. */
  lemma {:induction false} SqueezeReplace(prevSlash: bool, s: string)
    ensures SqueezeAfter(prevSlash, ReplaceDoubleSlash(s)) == SqueezeAfter(prevSlash, s)
    decreases |s|
  {
    if |s| >= 2 {
      if s[0] == '/' && s[1] == '/' {
        var rest := ReplaceDoubleSlash(s[2..]);
        SqueezeReplace(true, s[2..]);
        assert ("/" + rest)[1..] == rest;
        assert s[1..][1..] == s[2..];
      } else {
        SqueezeReplace(s[0] == '/', s[1..]);
        assert ([s[0]] + ReplaceDoubleSlash(s[1..]))[1..] == ReplaceDoubleSlash(s[1..]);
      }
    }
  }

  /** On a string without `//`, the one-pass collapse is the identity. */
  lemma {:induction false} SqueezeClean(prevSlash: bool, s: string)
    requires !ContainsDoubleSlash(s)
    requires prevSlash ==> s == [] || s[0] != '/'
    ensures SqueezeAfter(prevSlash, s) == s
    decreases |s|
  {
    if s != [] {
      SqueezeClean(s[0] == '/', s[1..]);
      assert s == [s[0]] + s[1..];
    }
  }

  /** The loop collapses every run of slashes to a single slash, as `Squeeze` does. */
  lemma {:induction false} CollapseIsSqueeze(s: string)
    ensures Collapse(s) == Squeeze(s)
    decreases |s|
  {
    if ContainsDoubleSlash(s) {
      SqueezeReplace(false, s);
      CollapseIsSqueeze(ReplaceDoubleSlash(s));
    } else {
      SqueezeClean(false, s);
    }
  }

  /** A string without `//` passes through the loop unchanged. */
  lemma CollapseClean(s: string)
    requires !ContainsDoubleSlash(s)
    ensures Collapse(s) == s
  {
  }

  // ---------------------------------------------------------------------------
  // The whole sanitising pipeline

  /** Putting a slash before a string that does not start with one creates no `//`. */
  lemma SlashBeforeNoDouble(s: string)
    requires !ContainsDoubleSlash(s)
    requires s == [] || s[0] != '/'
    ensures !ContainsDoubleSlash("/" + s)
  {
  }

  /** After escaping, no `?`, `#` or `\` is left. */
  lemma EscapeRemoves(s: string)
    ensures '?' !in Escape(s) && '#' !in Escape(s) && '\\' !in Escape(s)
  {
    var s1 := ReplaceChar(s, '?', "%3f");
    var s2 := ReplaceChar(s1, '#', "%23");
    ReplaceCharRemoves(s, '?', "%3f");
    ReplaceCharOthers(s1, '#', "%23", '?');
    ReplaceCharRemoves(s1, '#', "%23");
    ReplaceCharOthers(s2, '\\', "/", '?');
    ReplaceCharOthers(s2, '\\', "/", '#');
    ReplaceCharRemoves(s2, '\\', "/");
  }

  /**
   * The body of every file target is clean, and never itself starts with a
   * drive letter (one that did got its leading slash).
   */
  lemma SanitiseClean(s: string)
    ensures Clean(Sanitise(s))
    ensures !HasDriveLetter(Sanitise(s))
  {
    var e := Escape(s);
    var c := Collapse(e);
    EscapeRemoves(s);
    CollapseChars(e, '?');
    CollapseChars(e, '#');
    CollapseChars(e, '\\');
    if HasDriveLetter(c) {
      SlashBeforeNoDouble(c);
    }
  }

  /**
   * The drive-letter step: exactly one `/` is prepended when the collapsed
   * body starts with a word character and `:`, and nothing changes otherwise.
   */
  lemma SanitiseDrive(s: string)
    ensures HasDriveLetter(Collapse(Escape(s))) ==> Sanitise(s) == "/" + Collapse(Escape(s))
    ensures !HasDriveLetter(Collapse(Escape(s))) ==> Sanitise(s) == Collapse(Escape(s))
  {
  }

  /** A clean body with no drive letter is a fixed point of the pipeline. */
  lemma SanitiseFixed(s: string)
    requires Clean(s) && !HasDriveLetter(s)
    ensures Sanitise(s) == s
  {
    ReplaceCharAbsent(s, '?', "%3f");
    ReplaceCharAbsent(s, '#', "%23");
    ReplaceCharAbsent(s, '\\', "/");
    CollapseClean(s);
  }

  /** Sanitising its own output changes nothing. */
  lemma SanitiseIdempotent(s: string)
    ensures Sanitise(Sanitise(s)) == Sanitise(s)
  {
    SanitiseClean(s);
    SanitiseFixed(Sanitise(s));
  }

  /**
   * The three outcomes of `build_connection_str`: the fixed in-memory target,
   * an error for a path that is not UTF-8, or the file scheme followed by a
   * clean body.
   */
  lemma ConnectionStrShape(path: Option<OsPath>)
    ensures path.None? ==> ConnectionStr(path) == Ok("sqlite:file::memory:?cache=shared")
    ensures path == Some(NotUtf8) ==> ConnectionStr(path) == Err(PathNotUtf8)
    ensures path.Some? && path.value.Utf8? ==>
      var r := ConnectionStr(path);
      r.Ok? && |r.value| >= |FilePrefix| && r.value[..|FilePrefix|] == FilePrefix &&
      Clean(r.value[|FilePrefix|..])
  {
    if path.Some? && path.value.Utf8? {
      var body := Sanitise(path.value.text);
      SanitiseClean(path.value.text);
      assert (FilePrefix + body)[|FilePrefix|..] == body;
    }
  }

  /** Re-sanitising the body of a file target gives the same target again. */
  lemma ConnectionStrIdempotent(text: string)
    ensures ConnectionStr(Some(Utf8(Sanitise(text)))) == ConnectionStr(Some(Utf8(text)))
  {
    SanitiseIdempotent(text);
  }
}
