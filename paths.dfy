/** Windows file-system paths as `std::filesystem::path` decomposes them, and the
    two path operations the launcher uses: `replace_filename` and the relative-path
    anchoring of the injected module (AppXLauncher.cpp, lines 36-37, 49-50, 143-148). */
module Paths {

  /** A path: an optional root name (a drive such as "C:" or a UNC prefix; empty when
      absent), an optional root directory, and the relative part as components, the
      last one being the filename. */
  datatype Path = Path(rootName: string, rootDirectory: bool, parts: seq<string>)

  /** On Windows a path is absolute only when it has both a root name and a root
      directory; "C:x.dll" and "\x.dll" are relative. */
  predicate IsAbsolute(p: Path) {
    p.rootName != [] && p.rootDirectory
  }

  predicate IsRelative(p: Path) {
    !IsAbsolute(p)
  }

  /** A relative path with neither a drive nor a root directory, such as "bin\x.dll". */
  predicate IsPlainRelative(p: Path) {
    p.rootName == [] && !p.rootDirectory
  }

  /** `remove_filename`: the root is kept and the last component, if any, is dropped. */
  function RemoveFilename(p: Path): (r: Path)
    ensures r.rootName == p.rootName && r.rootDirectory == p.rootDirectory
    ensures |p.parts| > 0 ==> r.parts + [p.parts[|p.parts| - 1]] == p.parts
    ensures |p.parts| == 0 ==> r == p
  {
    if |p.parts| == 0 then p else p.(parts := p.parts[..|p.parts| - 1])
  }

  /** `p /= q` in the Windows rules: an absolute `q`, or one naming another drive,
      replaces `p`; a `q` with a root directory but no drive keeps `p`'s drive and
      replaces the rest; otherwise `q`'s components are appended. */
  function Append(p: Path, q: Path): Path
  {
    if IsAbsolute(q) || (q.rootName != [] && q.rootName != p.rootName) then q
    else if q.rootDirectory then Path(p.rootName, true, q.parts)
    else Path(p.rootName, p.rootDirectory, p.parts + q.parts)
  }

  /** `p.replace_filename(q)`: `remove_filename` followed by `/= q`. */
  function ReplaceFilename(p: Path, q: Path): Path
  {
    Append(RemoveFilename(p), q)
  }

  /** The path the injector loads: an absolute `dll` unchanged, a relative one put in
      place of the filename of `exe` (AppXLauncher.cpp, lines 143-148). */
  function AnchoredPath(exe: Path, dll: Path): Path
  {
    if IsRelative(dll) then ReplaceFilename(exe, dll) else dll
  }

  /** Components joined by the preferred separator. */
  function Join(parts: seq<string>): (s: string)
    ensures (forall i :: 0 <= i < |parts| ==> '\0' !in parts[i]) ==> '\0' !in s
  {
    if |parts| == 0 then []
    else if |parts| == 1 then parts[0]
    else parts[0] + "\\" + Join(parts[1..])
  }

  /** `path.native()`: the wide string handed to the injected thread. */
  function Native(p: Path): string
  {
    p.rootName + (if p.rootDirectory then "\\" else "") + Join(p.parts)
  }

  /** Replacing the filename by a plain relative path keeps the root and the directory
      of `p` and puts `q`'s components after it: the result lives in `p`'s directory. */
  lemma ReplaceFilenameKeepsDirectory(p: Path, q: Path)
    requires IsPlainRelative(q)
    ensures var r := ReplaceFilename(p, q);
      r.rootName == p.rootName && r.rootDirectory == p.rootDirectory &&
      r.parts == RemoveFilename(p).parts + q.parts
  {
  }

  /** An absolute module path is used as it is. */
  lemma AnchoredAbsoluteUnchanged(exe: Path, dll: Path)
    requires IsAbsolute(dll)
    ensures AnchoredPath(exe, dll) == dll
  {
  }

  /** A plain relative module path is placed beside the executable: same root, the
      executable's directory as prefix, the module's components as the rest, and the
      executable's own filename gone. */
  lemma AnchoredRelativeBesideExe(exe: Path, dll: Path)
    requires IsPlainRelative(dll) && |exe.parts| > 0
    ensures var r := AnchoredPath(exe, dll);
      r.rootName == exe.rootName && r.rootDirectory == exe.rootDirectory &&
      |r.parts| == |exe.parts| - 1 + |dll.parts| &&
      r.parts[..|exe.parts| - 1] == exe.parts[..|exe.parts| - 1] &&
      r.parts[|exe.parts| - 1..] == dll.parts
  {
    var r := AnchoredPath(exe, dll);
    assert r.parts == exe.parts[..|exe.parts| - 1] + dll.parts;
  }

  /** A module path rooted without a drive ("\x.dll") keeps only the executable's drive. */
  lemma AnchoredRootedTakesExeDrive(exe: Path, dll: Path)
    requires dll.rootName == [] && dll.rootDirectory
    ensures AnchoredPath(exe, dll) == Path(exe.rootName, true, dll.parts)
  {
  }

  /** A drive-relative module path on another drive ("D:x.dll") is not anchored at all. */
  lemma AnchoredOtherDriveUnchanged(exe: Path, dll: Path)
    requires dll.rootName != [] && dll.rootName != exe.rootName && !dll.rootDirectory
    ensures AnchoredPath(exe, dll) == dll
  {
  }

  /** How `/=` resolves the root: the operand's drive wins when it names one, an
      absolute operand replaces the path, a root directory is never lost, and the
      operand's components always end the result. */
  lemma AppendResolvesRoot(p: Path, q: Path)
    ensures var r := Append(p, q);
      && (IsAbsolute(q) ==> r == q)
      && r.rootName == (if q.rootName == [] then p.rootName else q.rootName)
      && (q.rootDirectory ==> r.rootDirectory)
      && |q.parts| <= |r.parts| && r.parts[|r.parts| - |q.parts|..] == q.parts
  {
  }

  /** Anchoring never leaves the executable's drive and root for a relative module
      name: with an absolute executable path, the module path is absolute unless it
      names another drive. */
  lemma AnchoredStaysAbsolute(exe: Path, dll: Path)
    requires IsAbsolute(exe) && (dll.rootName == [] || dll.rootName == exe.rootName)
    ensures IsAbsolute(AnchoredPath(exe, dll))
  {
  }

  /** Whatever the case, the anchored path ends with the module's own components. */
  lemma AnchoredEndsWithModule(exe: Path, dll: Path)
    ensures var r := AnchoredPath(exe, dll);
      |dll.parts| <= |r.parts| && r.parts[|r.parts| - |dll.parts|..] == dll.parts
  {
  }

  /** The native string starts with the root name, and holds no NUL when no part of
      the path does, so a NUL appended after it ends it. */
  lemma NativeNulFree(p: Path)
    requires '\0' !in p.rootName
    requires forall i :: 0 <= i < |p.parts| ==> '\0' !in p.parts[i]
    ensures |p.rootName| <= |Native(p)| && Native(p)[..|p.rootName|] == p.rootName
    ensures '\0' !in Native(p)
  {
  }
}
