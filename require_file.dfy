/** The stricter single-file goal check used by the earliest loop: the path
    must name a regular, non-empty file. */
module RequireFile {
  import opened Strings
  import opened Workspaces
  import Verifier

  /** A regular file with at least one byte. */
  predicate NonEmptyFile(ws: Workspace, path: string) {
    path in ws && ws[path].File? && ws[path].size > 0
  }

  /** `require_file(path)`: the verdict and its report line. */
  function RequireFile(ws: Workspace, path: string): (r: (bool, string))
    ensures r.0 <==> NonEmptyFile(ws, path)
    ensures !r.0 ==> r.1 == "FAIL: file not found or empty: " + path
    ensures r.0 ==> r.1 == "OK: file exists: " + path + " (size=" + NatToString(ws[path].size) + " bytes)"
  {
    if path in ws && ws[path].File? && ws[path].size > 0 then
      (true, "OK: file exists: " + path + " (size=" + NatToString(ws[path].size) + " bytes)")
    else (false, "FAIL: file not found or empty: " + path)
  }

  /** A missing path, a directory and an empty file all fail. */
  lemma RequireFileRejects(ws: Workspace, path: string)
    ensures path !in ws ==> !RequireFile(ws, path).0
    ensures path in ws && ws[path].Directory? ==> !RequireFile(ws, path).0
    ensures path in ws && ws[path].File? && ws[path].size == 0 ==> !RequireFile(ws, path).0
  {
  }

  /** `require_file` is stricter than the chain's existence check: whatever
      it accepts, `check_file_exists` accepts, but an empty file or a
      directory passes only the latter. */
  lemma RequireFileStricter(ws: Workspace, path: string)
    ensures RequireFile(ws, path).0 ==> Verifier.CheckFileExists(ws, path).ok
    ensures path in ws && !NonEmptyFile(ws, path) ==> Verifier.CheckFileExists(ws, path).ok && !RequireFile(ws, path).0
  {
  }
}
