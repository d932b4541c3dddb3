/** Member paths and the top-level directory key used to merge archives. */
module Paths {

  datatype Option<T> = None | Some(value: T)

  /** A member path, already split into its segments (the parts of a path). */
  type Path = seq<string>

  /** The first segment of a member path, when it names a directory.
      An empty path has no key, and neither has a single segment holding
      a dot (a bare file name such as `readme.txt`, or `.` itself). */
  function TopLevelDir(parts: Path): (r: Option<string>)
    ensures r.None? <==> |parts| == 0 || (|parts| == 1 && '.' in parts[0])
    ensures r.Some? ==> |parts| > 0 && r.value == parts[0]
  {
    if |parts| == 0 then None
    else if |parts| == 1 && '.' in parts[0] then None
    else Some(parts[0])
  }

  /** Whether a key is usable as a merge key: present and non-empty
      (the truth value of the key in the source's conditionals). */
  predicate IsKey(top: Option<string>) {
    top.Some? && top.value != ""
  }
}
