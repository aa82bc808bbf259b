/** Which page is showing: the rule that both the background effect
    (`getPageKey`) and the settings panel (`currentPageFile`, the
    `aria-current` pass) apply to `window.location.pathname`. */
module Location {
  import opened StringUtil

  /** `pathname.split('/').pop()`: the text after the last `/`. */
  function LastSegment(path: string): (seg: string)
    ensures '/' !in seg
    ensures |seg| <= |path| && seg == path[|path| - |seg|..]
    ensures |seg| < |path| ==> path[|path| - |seg| - 1] == '/'
  {
    SplitLast(path, '/');
    Last(Split(path, '/'))
  }

  /** The page key: the last path segment, or `index.html` when that segment
      is empty (an empty path or one ending in `/`). */
  function PageKey(path: string): (key: string)
    ensures key != "" && '/' !in key
    ensures (path == "" || path[|path| - 1] == '/') ==> key == "index.html"
    ensures !(path == "" || path[|path| - 1] == '/') ==>
              |key| <= |path| && key == path[|path| - |key|..] && (|key| < |path| ==> path[|path| - |key| - 1] == '/')
  {
    var seg := LastSegment(path);
    if seg == "" then "index.html" else seg
  }
}
