# libpcap build script: path and shell decisions

The build script of this crate stages the vendored libpcap sources and runs
`./configure`, `make` and `make install`. Most of the script is filesystem and
process plumbing. This project models its pure decisions:

- `fix_windows_path` and its nested `change_drive`. On a Windows build they
  replace every `\` in the install path with `/`. If the result then starts
  with `d:/`, they rewrite it to the MSYS form `/d/rest`, so `C:\foo\bar`
  becomes `/C/foo/bar`.
- The choice of shell for `./configure`. A host triple containing
  `pc-windows-gnu` selects `\msys64\usr\bin\bash.exe`. Any other host selects
  `/bin/sh`.
- The choice of the `--prefix` value. For a `pc-windows-gnu` host the install
  directory goes through `fix_windows_path`. For any other host it is used as
  displayed.

Paths and host triples are `seq<char>`. The compile-time `cfg!(windows)` is an
explicit `windows: bool` parameter.

Files:

- `wrappers.dfy`: Rust's `Option` with `unwrap_or`.
- `rust_str.dfy`: the standard-library string operations the script uses.
  - `str::contains` is a left-to-right scan, proved equal to "some occurrence
    exists".
  - `str::replace` with one-character strings is a per-character map.
  - `Chars::next` takes the next character from the characters not yet
    read. An exhausted iterator stays exhausted, as Rust's fused `Chars` does.
- `build.dfy`: `ChangeDrive`, `FixWindowsPath`, `Shell`, `Prefix` and the
  lemmas about them.

`&s[drive.len_utf8() + 2..]` in the source is a byte offset. Over a character
sequence it is index 3, because the drive, `:` and `/` are one character each.
`Path::display` and `to_str` agree on every valid UTF-8 path, so in the model
both are the identity.

## Model

| member | source | states |
|---|---|---|
| RustStr.ContainsIsOccurrence | build.rs:42-49 | the `contains` scan used on the host triple succeeds exactly when the pattern occurs at some index of the string |
| RustStr.ReplaceChar | build.rs:104 | the replacement keeps the length, turns every `from` into `to` and keeps every other character at its position |
| Build.ChangeDrive | build.rs:107-117 | yields a value exactly when the second character is `:` and the third is `/`; that value has the input's length, starts `/`, drive, `/`, and keeps the tail from index 3 |
| Build.Normalise | build.rs:104 | the slash-normalised path has the input's length and contains no backslash |
| Build.FixWindowsPath | build.rs:100-106 | off Windows the path is returned unchanged; on Windows the result has the input's length and contains no backslash |
| Build.FixWindowsPathOffWindows | build.rs:101-103 | when not compiling for Windows the path comes back unchanged |
| Build.FixWindowsPathSlashes | build.rs:104-105 | on Windows every position holds `/` where the input had `\` and the input's character elsewhere, except the first two of a rewritten drive path |
| Build.FixWindowsPathDrive | build.rs:107-116 | if the normalised path is `d`, `:`, `/` followed by `rest`, the result is exactly `/`, `d`, `/` followed by `rest` |
| Build.FixWindowsPathExample | build.rs:100-117 | `C:\foo\bar` becomes `/C/foo/bar` on Windows |
| Build.FixWindowsPathNoDrive | build.rs:105-114 | when the normalised path has no `d:/` head, it is returned as it is |
| Build.ChangeDriveDefaultUnused | build.rs:109-111 | a rewrite only happens for inputs of three or more characters, and its drive is the input's first character, so the `'C'` default never reaches a result |
| Build.EmptyPath | build.rs:100-111 | the empty path maps to the empty path, on Windows and off it |
| Build.FixWindowsPathIdempotent | build.rs:104-116 | applying the rewrite to its own output changes nothing, except exactly when on Windows the normalised input is `::/rest` |
| Build.Shell | build.rs:42-47 | the shell is `\msys64\usr\bin\bash.exe` exactly when the host contains `pc-windows-gnu`, and `/bin/sh` exactly when it does not |
| Build.Prefix | build.rs:49-53 | without `pc-windows-gnu` in the host the prefix is the install directory; with it, the prefix is the install directory passed through `fix_windows_path` |
| Build.PrefixAltered | build.rs:49-53 | the prefix differs from the install directory exactly when the script is built for Windows, the host contains `pc-windows-gnu`, and the directory holds a backslash or has a `d:/` head once normalised |
| Build.PrefixOnWindowsGnu | build.rs:49-53 | on Windows, the prefix for a `pc-windows-gnu` host holds no backslash and has the install directory's length |

## Left out

- Removing, creating and copying directories through `std::fs` and `fs_extra` (build.rs:25-29, 86-95). This is filesystem I/O through foreign library calls.
- Touching every staged file's timestamps via `walkdir` and `filetime` (build.rs:33-40). This is filesystem side effects and wall-clock time.
- Reading `HOST`, `OUT_DIR`, `CARGO_MANIFEST_DIR` and `CARGO_TARGET_DIR`, and removing `MAKEFLAGS` and `MFLAGS` (build.rs:6-18, 56-57, 87). This is process-wide environment state. The host triple and the install directory are parameters instead.
- Joining the output, build, install, lib and include directories (build.rs:9-21). The install directory is taken as a given path string.
- Spawning and waiting on `./configure`, `make` and `make install` (build.rs:59-80). These are external processes.
- The `cargo:` linker directives printed to standard output (build.rs:82-84). This is output for Cargo.
- The panics of `to_str().unwrap()` on non-UTF-8 paths (build.rs:102, 104). Paths are character sequences, so every path is well formed.
- `cfg!(windows)` and the host triple are independent parameters. A build script compiled for a `pc-windows-gnu` host runs with `cfg!(windows)` true, but the model does not tie the two together.
