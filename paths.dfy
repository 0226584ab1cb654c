/** The relative-path helper of the backend (`getRelPath`). */
module Paths {
  import opened Outcomes

  function LostRootMessage(root: string, subPath: string): string
  {
    "Root \"" + root + "\" was lost from sub_path \"" + subPath + "\""
  }

  /** Python's `s[start:]` for a non-negative start: empty once past the end. */
  function SliceFrom(s: string, start: nat): string
  {
    if start >= |s| then [] else s[start..]
  }

  /** `subPath` relative to `root`: `root` and the one separator character
      after it are dropped; a `subPath` that does not start with `root` raises. */
  function GetRelPath(root: string, subPath: string): (r: Result<string>)
    ensures r.Raise? <==> !(root <= subPath)
    ensures r.Raise? ==> r.exc == RuntimeError(LostRootMessage(root, subPath))
    ensures r.Ok? ==> |r.value| == if |subPath| > |root| then |subPath| - |root| - 1 else 0
    ensures r.Ok? && |subPath| > |root| ==> subPath == root + [subPath[|root|]] + r.value
  {
    if !(root <= subPath) then Raise(RuntimeError(LostRootMessage(root, subPath)))
    else Ok(SliceFrom(subPath, |root| + 1))
  }

  /** A path built by joining `root`, a separator and `name` gives `name` back. */
  lemma RelPathOfJoined(root: string, sep: char, name: string)
    ensures GetRelPath(root, root + [sep] + name) == Ok(name)
  {
    var p := root + [sep] + name;
    assert root <= p;
    assert p[|root| + 1..] == name;
  }

  /** The root itself, or the root with only a trailing separator, is the empty relative path. */
  lemma RelPathOfRoot(root: string, tail: string)
    requires |tail| <= 1
    ensures GetRelPath(root, root + tail) == Ok("")
  {
    assert root <= root + tail;
  }
}
