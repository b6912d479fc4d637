/** The blob trigger: a blob arriving in the `input` container starts one
    orchestration whose input is the blob's item name, the last `/`-separated
    segment of the blob path. */
module BlobTrigger {
  import Strings

  /** `myblob.name.split("/")[-1]`: a piece of the path that holds no `/`. */
  function ItemName(path: string): (name: string)
    ensures '/' !in name
  {
    var parts := Strings.Split(path, '/');
    parts[|parts| - 1]
  }

  /** `name` is the part of `path` after its last `/`: a suffix of `path`
      holding no `/`, and preceded in `path` by a `/` unless it is all of it. */
  predicate IsLastSegment(name: string, path: string)
  {
    && |name| <= |path|
    && path[|path| - |name|..] == name
    && '/' !in name
    && (|name| < |path| ==> path[|path| - |name| - 1] == '/')
  }

  /** The item name is the last segment of the path, and it is the whole path
      exactly when the path holds no `/`. */
  lemma ItemNameIsLastSegment(path: string)
    ensures IsLastSegment(ItemName(path), path)
    ensures ItemName(path) == path <==> '/' !in path
  {
    var parts := Strings.Split(path, '/');
    Strings.JoinSplit(path, '/');
    if |parts| == 1 {
      assert path == ItemName(path);
    } else {
      LastPieceIsLastSegment(parts, path);
    }
    if '/' !in path {
      Strings.SplitWithoutSeparator(path, '/');
    }
  }

  /** The last of two or more `/`-free pieces joined by `/` is the last
      segment of the join. */
  lemma LastPieceIsLastSegment(parts: seq<string>, path: string)
    requires |parts| >= 2 && '/' !in parts[|parts| - 1]
    requires Strings.Join(parts, '/') == path
    ensures IsLastSegment(parts[|parts| - 1], path)
    ensures parts[|parts| - 1] != path
  {
    var name := parts[|parts| - 1];
    Strings.JoinLast(parts, '/');
    var front := Strings.Join(parts[..|parts| - 1], '/');
    assert path == front + ['/'] + name;
    assert path[|path| - |name|..] == name;
    assert path[|path| - |name| - 1] == '/';
  }

  /** The last segment is determined by the path: `IsLastSegment` is an
      independent definition of what `ItemName` computes. */
  lemma LastSegmentUnique(a: string, b: string, path: string)
    requires IsLastSegment(a, path)
    requires IsLastSegment(b, path)
    ensures a == b
  {
  }

  /** Whatever prefix of directories a path carries, the item name is its
      last segment: `dir + "/" + name` yields `name` for a `/`-free `name`. */
  lemma ItemNameIgnoresPrefix(dir: string, name: string)
    requires '/' !in name
    ensures ItemName(dir + ['/'] + name) == name
  {
    var path := dir + ['/'] + name;
    ItemNameIsLastSegment(path);
    assert path[|path| - |name|..] == name;
    assert path[|path| - |name| - 1] == '/';
    LastSegmentUnique(ItemName(path), name, path);
  }
}
