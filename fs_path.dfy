// File system paths as both generations use them (`Path`, `PathBuf`): a
// path is absolute or relative, with its components, "." components
// already left out as `Path::components` does.
module FsPath {
  import opened Wrappers

  datatype Path = Path(absolute: bool, parts: seq<string>)

  /** `Path::join`: an absolute path replaces the base; a relative one is
      appended to it. */
  function Join(base: Path, p: Path): (r: Path)
    ensures p.absolute ==> r == p
    ensures !p.absolute ==>
      r.absolute == base.absolute && |base.parts| <= |r.parts| && r.parts[..|base.parts|] == base.parts && r.parts[|base.parts|..] == p.parts
  {
    if p.absolute then p else Path(base.absolute, base.parts + p.parts)
  }

  /** `Path::file_name`: the last component, unless there is none or it
      is "..". */
  function FileName(p: Path): (r: Option<string>)
    ensures r.Some? <==> |p.parts| > 0 && p.parts[|p.parts| - 1] != ".."
    ensures r.Some? ==> r.value == p.parts[|p.parts| - 1]
  {
    if |p.parts| == 0 || p.parts[|p.parts| - 1] == ".." then None else Some(p.parts[|p.parts| - 1])
  }

  /** The file name of a relative path joined to a directory is the path's
      own file name. */
  lemma FileNameOfJoin(base: Path, p: Path)
    requires !p.absolute && |p.parts| > 0
    ensures FileName(Join(base, p)) == FileName(p)
  {
    var r := Join(base, p);
    assert r.parts[|r.parts| - 1] == p.parts[|p.parts| - 1];
  }
}
