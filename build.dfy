/**
 * The pure decisions of the libpcap build script: which shell runs
 * `./configure`, which `--prefix` value it is given, and how a Windows
 * install path is rewritten into the MSYS form `/<drive>/<rest>` that the
 * POSIX shell understands. Paths and host triples are `seq<char>`; the
 * compile-time `cfg!(windows)` is the parameter `windows`.
 */
module Build {
  import opened Wrappers
  import opened RustStr

  /** Host triples containing this select the MSYS toolchain. */
  const WindowsGnu: seq<char> := "pc-windows-gnu"
  /** The MSYS bash, addressed relative to the current drive. */
  const MsysBash: seq<char> := "\\msys64\\usr\\bin\\bash.exe"
  const PosixShell: seq<char> := "/bin/sh"

  /** A Windows path with a drive, `d:/`, once its separators are slashes. */
  predicate HasDrivePrefix(s: seq<char>) {
    |s| >= 3 && s[1] == ':' && s[2] == '/'
  }

  /**
   * The nested `change_drive`: draws at most three characters from one
   * character iterator; a missing first character defaults to 'C', and the
   * rewrite happens only when the next two are ':' and '/'. The Rust byte
   * offset `drive.len_utf8() + 2` is the character index 3 here.
   */
  function ChangeDrive(s: seq<char>): (r: Option<seq<char>>)
    ensures r.Some? <==> HasDrivePrefix(s)
    ensures r.Some? ==> |r.value| == |s| && r.value[3..] == s[3..]
    ensures r.Some? ==> r.value[0] == '/' && r.value[1] == s[0] && r.value[2] == '/'
  {
    var (first, ch) := Next(s);
    var drive := first.UnwrapOr('C');
    var (second, ch) := Next(ch);
    if second != Some(':') then None
    else
      var (third, _) := Next(ch);
      if third != Some('/') then None
      else Some("/" + [drive] + "/" + s[3..])
  }

  /** The path after `replace("\\", "/")`, before any drive rewrite. */
  function Normalise(path: seq<char>): (r: seq<char>)
    ensures |r| == |path| && '\\' !in r
  {
    ReplaceChar(path, '\\', '/')
  }

  /** `fix_windows_path`. */
  function FixWindowsPath(path: seq<char>, windows: bool): (r: seq<char>)
    ensures !windows ==> r == path
    ensures windows ==> |r| == |path| && '\\' !in r
  {
    if !windows then path
    else
      var p := Normalise(path);
      ChangeDrive(p).UnwrapOr(p)
  }

  /** Off Windows the path comes back unchanged. */
  lemma FixWindowsPathOffWindows(path: seq<char>)
    ensures FixWindowsPath(path, false) == path
  {
  }

  /**
   * On Windows every backslash becomes a slash and every other character
   * stays, apart from the first two of a rewritten drive path.
   */
  lemma FixWindowsPathSlashes(path: seq<char>, i: int)
    requires 0 <= i < |path|
    requires i >= 2 || !HasDrivePrefix(Normalise(path))
    ensures FixWindowsPath(path, true)[i] == (if path[i] == '\\' then '/' else path[i])
  {
  }

  /** A drive path `d:/rest` (after normalising) becomes exactly `/d/rest`. */
  lemma FixWindowsPathDrive(path: seq<char>, d: char, rest: seq<char>)
    requires Normalise(path) == [d, ':', '/'] + rest
    ensures FixWindowsPath(path, true) == ['/', d, '/'] + rest
  {
  }

  /**
   * On Windows, `C:\foo\bar` becomes `/C/foo/bar`. The path is a parameter
   * pinned by the requires, which keeps the verifier from unfolding the
   * recursive functions on a literal argument.
   */
  lemma FixWindowsPathExample(path: seq<char>)
    requires path == "C:\\foo\\bar"
    ensures FixWindowsPath(path, true) == "/C/foo/bar"
  {
  }

  /** Without a `d:/` head the normalised path is returned as it is. */
  lemma FixWindowsPathNoDrive(path: seq<char>)
    requires !HasDrivePrefix(Normalise(path))
    ensures FixWindowsPath(path, true) == Normalise(path)
  {
  }

  /**
   * The 'C' default of `change_drive` never reaches a result: a path too
   * short to have a first character is rejected by the ':' check.
   */
  lemma ChangeDriveDefaultUnused(s: seq<char>)
    requires ChangeDrive(s).Some?
    ensures |s| >= 3 && ChangeDrive(s).value[1] == s[0]
  {
  }

  lemma EmptyPath(windows: bool)
    ensures FixWindowsPath([], windows) == []
  {
  }

  /**
   * `fix_windows_path` is idempotent except on the one shape whose drive
   * character is itself ':' (`::/rest` gives `/:/rest`, which is rewritten
   * again into `///rest`).
   */
  lemma FixWindowsPathIdempotent(path: seq<char>, windows: bool)
    ensures FixWindowsPath(FixWindowsPath(path, windows), windows) == FixWindowsPath(path, windows)
      <==> !(windows && HasDrivePrefix(Normalise(path)) && path[0] == ':')
  {
  }

  /** The shell that runs `./configure` for the given host triple. */
  function Shell(host: seq<char>): (r: seq<char>)
    ensures r == MsysBash <==> HasOccurrence(host, WindowsGnu)
    ensures r == PosixShell <==> !HasOccurrence(host, WindowsGnu)
  {
    ContainsIsOccurrence(host, WindowsGnu);
    if Contains(host, WindowsGnu) then MsysBash else PosixShell
  }

  /**
   * The `--prefix` value: the install directory rewritten by
   * `fix_windows_path` for a `pc-windows-gnu` host, displayed as it is
   * otherwise. Display of a valid UTF-8 path is the identity here.
   */
  function Prefix(host: seq<char>, installDir: seq<char>, windows: bool): (r: seq<char>)
    ensures !HasOccurrence(host, WindowsGnu) ==> r == installDir
    ensures HasOccurrence(host, WindowsGnu) ==> r == FixWindowsPath(installDir, windows)
  {
    ContainsIsOccurrence(host, WindowsGnu);
    if Contains(host, WindowsGnu) then FixWindowsPath(installDir, windows) else installDir
  }

  /**
   * The prefix differs from the install directory exactly when a
   * Windows-built script for a `pc-windows-gnu` host meets a backslash or a
   * drive head.
   */
  lemma PrefixAltered(host: seq<char>, installDir: seq<char>, windows: bool)
    ensures Prefix(host, installDir, windows) != installDir
      <==> windows && HasOccurrence(host, WindowsGnu) && ('\\' in installDir || HasDrivePrefix(Normalise(installDir)))
  {
  }

  /** The MSYS prefix of a Windows install directory holds no backslash, and keeps its length. */
  lemma PrefixOnWindowsGnu(host: seq<char>, installDir: seq<char>)
    requires HasOccurrence(host, WindowsGnu)
    ensures var r := Prefix(host, installDir, true); '\\' !in r && |r| == |installDir|
  {
  }
}
