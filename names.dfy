/** Path helpers of the backend. */
module Names {
  import opened Wrappers

  /** base_name: the part of `path` after its last '/', or None (NULL) when `path`
      has no '/' at all. The result is a suffix of `path` that contains no '/'
      and is preceded by a '/'; a path ending in '/' gives the empty name. */
  function BaseName(path: string): (r: Option<string>)
    ensures r.None? <==> '/' !in path
    ensures r.Some? ==>
      |r.value| < |path| &&
      path[|path| - |r.value| - 1] == '/' &&
      path[|path| - |r.value|..] == r.value &&
      '/' !in r.value
    decreases |path|
  {
    if path == [] then None
    else if path[|path| - 1] == '/' then Some([])
    else
      match BaseName(path[..|path| - 1])
      case None => None
      case Some(tail) => Some(tail + [path[|path| - 1]])
  }
}
