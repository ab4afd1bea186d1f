/**
 * How an endpoint's URL is built: `posixpath.join` of the endpoint's path
 * and its arguments, then `urljoin` against the server address. `urljoin`
 * is modelled for references that it reads as a path on the server (see
 * `PathRef`): the reference's segments are merged with the base path's
 * directory and dot segments are removed. Any other reference is kept,
 * unresolved, as the target.
 */
module Urls {

  /** The scheme and host of the server address. */
  const Origin: string := "https://api.whispertrades.com"

  /** The path of the server address, a directory. */
  const BasePath: string := "/v1/"

  const Server: string := Origin + BasePath

  /** One step of `posixpath.join`: an absolute part restarts the path. */
  function JoinStep(path: string, part: string): string {
    if |part| > 0 && part[0] == '/' then part
    else if path == [] || path[|path| - 1] == '/' then path + part
    else path + "/" + part
  }

  /** `posixpath.join(a, *parts)`. */
  function PosixJoin(a: string, parts: seq<string>): string
    decreases |parts|
  {
    if parts == [] then a else PosixJoin(JoinStep(a, parts[0]), parts[1..])
  }

  function IndexOf(s: string, c: char): (i: nat)
    requires c in s
    ensures i < |s| && s[i] == c
    ensures c !in s[..i]
  {
    if s[0] == c then 0 else 1 + IndexOf(s[1..], c)
  }

  /** `s.split('/')`. */
  function Split(s: string): (segs: seq<string>)
    ensures |segs| >= 1
    decreases |s|
  {
    if '/' !in s then [s] else var i := IndexOf(s, '/'); [s[..i]] + Split(s[i + 1..])
  }

  /** The segments joined with '/': `'/'.join(segs)` for a non-empty list. */
  function JoinSegments(segs: seq<string>): string
    requires |segs| >= 1
  {
    if |segs| == 1 then segs[0] else segs[0] + "/" + JoinSegments(segs[1..])
  }

  predicate DotSegment(seg: string) {
    seg == "." || seg == ".."
  }

  /**
   * Characters that make `urljoin` do more than merge paths: query,
   * fragment and parameter delimiters, and the tab, CR and LF that
   * `urlsplit` deletes.
   */
  predicate Reserved(c: char) {
    c == '?' || c == '#' || c == ';' || c == '\t' || c == '\n' || c == '\r'
  }

  /**
   * A reference that `urljoin` reads as a path on the server's host: not
   * empty, no leading control character or space (which `urlsplit`
   * strips), no reserved character, no scheme (a ':' before the first
   * '/') and no network location (a leading '//').
   */
  predicate PathRef(r: string) {
    && r != ""
    && r[0] > ' '
    && (forall i :: 0 <= i < |r| ==> !Reserved(r[i]))
    && ':' !in Split(r)[0]
    && !(|r| >= 2 && r[0] == '/' && r[1] == '/')
  }

  /** `filter(None, segs)`: the non-empty segments, in order. */
  function NonEmpty(segs: seq<string>): (r: seq<string>)
    ensures forall k :: 0 <= k < |r| ==> r[k] != ""
    ensures |r| <= |segs|
    decreases |segs|
  {
    if segs == [] then []
    else if segs[0] == "" then NonEmpty(segs[1..])
    else [segs[0]] + NonEmpty(segs[1..])
  }

  /** The base path's directory: its segments, less the last one unless that is empty. */
  function BaseDirectory(bpath: string): seq<string> {
    var parts := Split(bpath);
    if parts[|parts| - 1] != "" then parts[..|parts| - 1] else parts
  }

  /** Empty segments other than the first and the last are dropped. */
  function DropInnerEmpty(segs: seq<string>): (r: seq<string>)
    ensures |segs| >= 1 ==> |r| >= 1 && r[0] == segs[0] && r[|r| - 1] == segs[|segs| - 1]
    ensures forall k :: 0 < k < |r| - 1 ==> r[k] != ""
  {
    if |segs| <= 2 then segs
    else [segs[0]] + NonEmpty(segs[1..|segs| - 1]) + [segs[|segs| - 1]]
  }

  /**
   * Dot-segment removal over `segs`, onto the segments already resolved:
   * '..' drops the last resolved segment if there is one, '.' is skipped
   * and any other segment is kept.
   */
  function RemoveDots(segs: seq<string>, resolved: seq<string>): (r: seq<string>)
    ensures |r| <= |resolved| + |segs|
    decreases |segs|
  {
    if segs == [] then resolved
    else if segs[0] == ".." then RemoveDots(segs[1..], if resolved == [] then [] else resolved[..|resolved| - 1])
    else if segs[0] == "." then RemoveDots(segs[1..], resolved)
    else RemoveDots(segs[1..], resolved + [segs[0]])
  }

  /**
   * The segments `urljoin` merges: an absolute path's own, or else the base
   * directory's followed by the reference's, without inner empty segments.
   */
  function MergedSegments(bpath: string, path: string): (segs: seq<string>)
    requires path != ""
    ensures |segs| >= 1
  {
    if path[0] == '/' then Split(path) else DropInnerEmpty(BaseDirectory(bpath) + Split(path))
  }

  /**
   * The path `urljoin` gives a reference's path against the base path: the
   * merged segments without dot segments, a trailing empty segment when the
   * last one was a dot segment, joined with '/'; '/' when that is empty.
   */
  function MergePath(bpath: string, path: string): (merged: string)
    requires path != ""
    ensures merged != ""
  {
    var segs := MergedSegments(bpath, path);
    var resolved := RemoveDots(segs, []) + (if DotSegment(segs[|segs| - 1]) then [""] else []);
    var joined := if resolved == [] then "" else JoinSegments(resolved);
    if joined == "" then "/" else joined
  }

  /** `urlunsplit` with the server's scheme and host: the path is rooted at '/'. */
  function OnOrigin(path: string): (url: string)
    ensures Origin + "/" <= url
  {
    if path != [] && path[0] == '/' then
      assert (Origin + path)[..|Origin| + 1] == Origin + "/";
      Origin + path
    else Origin + "/" + path
  }

  datatype Target = Resolved(url: string) | Unresolved(reference: string)

  /**
   * `urljoin(Server, ref)`: the server address itself for an empty
   * reference, the merged path on the server's host for a path reference.
   * Every resolved URL stays on the server's host.
   */
  function Resolve(ref: string): (t: Target)
    ensures ref == "" ==> t == Resolved(Server)
    ensures t.Resolved? ==> Origin + "/" <= t.url
  {
    if ref == "" then
      assert Server[..|Origin| + 1] == Origin + "/";
      Resolved(Server)
    else if PathRef(ref) then Resolved(OnOrigin(MergePath(BasePath, ref)))
    else Unresolved(ref)
  }

  /** The target of `urljoin(Server, posixpath.join(endpt, *parts))`. */
  function TargetOf(endpt: string, parts: seq<string>): Target {
    Resolve(PosixJoin(endpt, parts))
  }

  /**
   * A relative reference that `urljoin` resolves by appending it to the
   * base's directory: a path reference whose first segment is not empty,
   * with no `.` or `..` segment and no empty segment except a trailing one.
   */
  predicate PlainRef(r: string) {
    && PathRef(r)
    && var segs := Split(r);
       && segs[0] != ""
       && (forall k :: 0 <= k < |segs| ==> !DotSegment(segs[k]))
       && (forall k :: 0 <= k < |segs| - 1 ==> segs[k] != "")
  }

  /** A bot, report or variable number that forms one plain path segment. */
  predicate PlainSegment(n: string) {
    && n != ""
    && '/' !in n
    && !DotSegment(n)
    && (forall i :: 0 <= i < |n| ==> !Reserved(n[i]))
  }

  /**
   * A first segment that `urlsplit` does not read as a scheme and does not
   * strip: no ':' and no leading control character or space.
   */
  predicate Leading(seg: string) {
    seg != "" && seg[0] > ' ' && ':' !in seg
  }

  /**
   * Segments that make a plain reference: plain ones, a leading first one,
   * with a trailing empty one allowed.
   */
  predicate PlainSegments(segs: seq<string>) {
    && |segs| >= 1
    && Leading(segs[0])
    && (forall k :: 0 <= k < |segs| - 1 ==> PlainSegment(segs[k]))
    && (PlainSegment(segs[|segs| - 1]) || (segs[|segs| - 1] == "" && |segs| >= 2))
  }

  predicate AllPlain(segs: seq<string>) {
    forall k :: 0 <= k < |segs| ==> PlainSegment(segs[k])
  }

  lemma {:induction false} SplitNoSlash(s: string)
    requires '/' !in s
    ensures Split(s) == [s]
  {
  }

  lemma {:induction false} SplitAfterSegment(x: string, y: string)
    requires '/' !in x
    ensures Split(x + "/" + y) == [x] + Split(y)
  {
    var s := x + "/" + y;
    assert s[|x|] == '/';
    var i := IndexOf(s, '/');
    assert i == |x|;
    assert s[..i] == x;
    assert s[i + 1..] == y;
  }

  /** Joining a path that ends in '/' with a plain segment appends the segment. */
  lemma JoinAfterSlash(path: string, n: string)
    requires path != [] && path[|path| - 1] == '/'
    requires n == [] || n[0] != '/'
    ensures JoinStep(path, n) == path + n
  {
  }


  lemma {:induction false} JoinedPlain(segs: seq<string>)
    requires PlainSegments(segs)
    ensures Split(JoinSegments(segs)) == segs
    ensures PlainRef(JoinSegments(segs))
  {
    forall k | 0 <= k < |segs|
      ensures '/' !in segs[k]
      ensures !DotSegment(segs[k])
      ensures forall i :: 0 <= i < |segs[k]| ==> !Reserved(segs[k][i])
    {
      if k < |segs| - 1 {
        assert PlainSegment(segs[k]);
      } else {
        assert PlainSegment(segs[k]) || segs[k] == "";
      }
    }
    JoinedSplit(segs);
    NoReservedInJoin(segs);
    var r := JoinSegments(segs);
    assert Split(r) == segs;
    assert segs[0] != "" by {
      if |segs| > 1 {
        assert PlainSegment(segs[0]);
      }
    }
    assert forall k :: 0 <= k < |segs| - 1 ==> segs[k] != "" by {
      forall k | 0 <= k < |segs| - 1
        ensures segs[k] != ""
      {
        assert PlainSegment(segs[k]);
      }
    }
    JoinStarts(segs);
    assert r[0] == segs[0][0] && segs[0][0] in segs[0];
  }

  lemma JoinStarts(segs: seq<string>)
    requires |segs| >= 1
    ensures segs[0] <= JoinSegments(segs)
  {
  }

  lemma {:induction false} JoinedSplit(segs: seq<string>)
    requires |segs| >= 1
    requires forall k :: 0 <= k < |segs| ==> '/' !in segs[k]
    ensures Split(JoinSegments(segs)) == segs
    decreases |segs|
  {
    if |segs| == 1 {
      SplitNoSlash(segs[0]);
    } else {
      JoinedSplit(segs[1..]);
      SplitAfterSegment(segs[0], JoinSegments(segs[1..]));
    }
  }

  lemma {:induction false} NoReservedInJoin(segs: seq<string>)
    requires |segs| >= 1
    requires forall k :: 0 <= k < |segs| ==> forall i :: 0 <= i < |segs[k]| ==> !Reserved(segs[k][i])
    ensures forall i :: 0 <= i < |JoinSegments(segs)| ==> !Reserved(JoinSegments(segs)[i])
    decreases |segs|
  {
    if |segs| > 1 {
      NoReservedInJoin(segs[1..]);
      var a := segs[0];
      var b := JoinSegments(segs[1..]);
      var r := a + "/" + b;
      forall i | 0 <= i < |r|
        ensures !Reserved(r[i])
      {
        if i < |a| { assert r[i] == a[i]; }
        else if i > |a| { assert r[i] == b[i - |a| - 1]; }
      }
    }
  }

  /** `posixpath.join(endpt, n)` for an endpoint path ending in '/'. */
  lemma JoinOne(endpt: string, n: string)
    requires endpt != [] && endpt[|endpt| - 1] == '/'
    requires n == [] || n[0] != '/'
    ensures PosixJoin(endpt, [n]) == endpt + n
  {
    assert [n][1..] == [];
  }

  /** `posixpath.join(endpt, n, action)` for a plain number and an action name. */
  lemma JoinTwo(endpt: string, n: string, action: string)
    requires endpt != [] && endpt[|endpt| - 1] == '/'
    requires PlainSegment(n)
    requires action == [] || action[0] != '/'
    ensures PosixJoin(endpt, [n, action]) == endpt + n + "/" + action
  {
    var p := endpt + n;
    JoinAfterSlash(endpt, n);
    LastOfPlain(endpt, n);
    assert PosixJoin(endpt, [n, action]) == PosixJoin(p, [action]) by {
      assert [n, action][1..] == [action];
    }
    JoinOneAfterSegment(p, action);
  }

  lemma LastOfPlain(endpt: string, n: string)
    requires PlainSegment(n)
    ensures (endpt + n)[|endpt + n| - 1] != '/'
  {
    assert (endpt + n)[|endpt + n| - 1] == n[|n| - 1];
    assert n[|n| - 1] in n;
  }

  lemma JoinOneAfterSegment(p: string, action: string)
    requires p != [] && p[|p| - 1] != '/'
    requires action == [] || action[0] != '/'
    ensures PosixJoin(p, [action]) == p + "/" + action
  {
    assert [action][1..] == [];
  }

  /** Appending to a path that ends in an empty segment fills that segment. */
  lemma {:induction false} FillLastSegment(segs: seq<string>, n: string)
    requires |segs| >= 1
    ensures JoinSegments(segs + [""]) + n == JoinSegments(segs + [n])
    decreases |segs|
  {
    if |segs| == 1 {
      assert (segs + [""])[1..] == [""];
      assert (segs + [n])[1..] == [n];
    } else {
      FillLastSegment(segs[1..], n);
      assert (segs + [""])[1..] == segs[1..] + [""];
      assert (segs + [n])[1..] == segs[1..] + [n];
    }
  }

  lemma {:induction false} EndsInSlash(segs: seq<string>)
    requires |segs| >= 1
    ensures JoinSegments(segs + [""]) != []
    ensures JoinSegments(segs + [""])[|JoinSegments(segs + [""])| - 1] == '/'
  {
    FillLastSegment(segs, "");
    if |segs| == 1 {
      assert (segs + [""])[1..] == [""];
    } else {
      EndsInSlash(segs[1..]);
      assert (segs + [""])[1..] == segs[1..] + [""];
    }
  }

  /** An endpoint path `w1/.../wk/` joined with the empty number is its own URL. */
  lemma RootTarget(segs: seq<string>)
    requires |segs| >= 1 && AllPlain(segs) && Leading(segs[0])
    ensures TargetOf(JoinSegments(segs + [""]), [""]) == Resolved(Server + JoinSegments(segs + [""]))
  {
    var endpt := JoinSegments(segs + [""]);
    assert PosixJoin(endpt, [""]) == endpt by {
      EndsInSlash(segs);
      JoinOne(endpt, "");
      assert endpt + "" == endpt;
    }
    PlainRoot(segs);
    PlainResolves(segs + [""]);
  }

  lemma PlainRoot(segs: seq<string>)
    requires |segs| >= 1 && AllPlain(segs) && Leading(segs[0])
    ensures PlainSegments(segs + [""])
  {
    forall k | 0 <= k < |segs + [""]| - 1
      ensures PlainSegment((segs + [""])[k])
    {
      assert (segs + [""])[k] == segs[k];
    }
  }

  /** The path of a numbered item: the endpoint path followed by the number. */
  lemma ItemPath(segs: seq<string>, n: string)
    requires |segs| >= 1 && PlainSegment(n)
    ensures PosixJoin(JoinSegments(segs + [""]), [n]) == JoinSegments(segs + [""]) + n
    ensures JoinSegments(segs + [n]) == JoinSegments(segs + [""]) + n
  {
    EndsInSlash(segs);
    JoinOne(JoinSegments(segs + [""]), n);
    FillLastSegment(segs, n);
  }

  /** An endpoint path joined with a plain number is the path followed by the number. */
  lemma ItemTarget(segs: seq<string>, n: string)
    requires |segs| >= 1 && AllPlain(segs) && Leading(segs[0]) && PlainSegment(n)
    ensures TargetOf(JoinSegments(segs + [""]), [n]) == Resolved(Server + (JoinSegments(segs + [""]) + n))
  {
    var endpt := JoinSegments(segs + [""]);
    var ref := JoinSegments(segs + [n]);
    ItemPath(segs, n);
    PlainExtension(segs, n);
    PlainResolves(segs + [n]);
  }

  /** The path of an action on a numbered item: the endpoint path, the number, '/' and the action. */
  lemma ActionPath(segs: seq<string>, n: string, action: string)
    requires |segs| >= 1 && PlainSegment(n) && PlainSegment(action)
    ensures PosixJoin(JoinSegments(segs + [""]), [n, action]) == JoinSegments(segs + [""]) + n + "/" + action
    ensures JoinSegments(segs + [n, action]) == JoinSegments(segs + [""]) + n + "/" + action
  {
    var endpt := JoinSegments(segs + [""]);
    EndsInSlash(segs);
    JoinTwo(endpt, n, action);
    FillLastSegment(segs, n);
    JoinAppend(segs + [n], action);
    assert segs + [n] + [action] == segs + [n, action];
  }

  /** An endpoint path joined with a plain number and an action word. */
  lemma ActionTarget(segs: seq<string>, n: string, action: string)
    requires |segs| >= 1 && AllPlain(segs) && Leading(segs[0]) && PlainSegment(n) && PlainSegment(action)
    ensures TargetOf(JoinSegments(segs + [""]), [n, action])
         == Resolved(Server + (JoinSegments(segs + [""]) + n + "/" + action))
  {
    var endpt := JoinSegments(segs + [""]);
    var ref := JoinSegments(segs + [n, action]);
    ActionPath(segs, n, action);
    PlainActionPath(segs, n, action);
    PlainResolves(segs + [n, action]);
  }

  /** A path of plain segments resolves to the server address followed by the path. */
  lemma PlainResolves(segs: seq<string>)
    requires PlainSegments(segs)
    ensures Resolve(JoinSegments(segs)) == Resolved(Server + JoinSegments(segs))
  {
    JoinedPlain(segs);
    PlainAppends(JoinSegments(segs));
  }

  lemma PlainActionPath(segs: seq<string>, n: string, action: string)
    requires |segs| >= 1 && AllPlain(segs) && Leading(segs[0]) && PlainSegment(n) && PlainSegment(action)
    ensures PlainSegments(segs + [n, action])
  {
    PlainExtension(segs, n);
    PlainExtension(segs + [n], action);
    assert segs + [n] + [action] == segs + [n, action];
  }

  lemma PlainExtension(segs: seq<string>, n: string)
    requires |segs| >= 1 && AllPlain(segs) && Leading(segs[0]) && PlainSegment(n)
    ensures AllPlain(segs + [n])
    ensures PlainSegments(segs + [n])
  {
    var full := segs + [n];
    forall k | 0 <= k < |full|
      ensures PlainSegment(full[k])
    {
      if k < |segs| { assert full[k] == segs[k]; }
    }
  }

  lemma {:induction false} JoinAppend(segs: seq<string>, last: string)
    requires |segs| >= 1
    ensures JoinSegments(segs + [last]) == JoinSegments(segs) + "/" + last
    decreases |segs|
  {
    if |segs| == 1 {
      assert (segs + [last])[1..] == [last];
    } else {
      JoinAppend(segs[1..], last);
      assert (segs + [last])[1..] == segs[1..] + [last];
    }
  }

  // ------------------------------------------------- the path merge

  /** `Split` and `JoinSegments` are inverse: joining the pieces gives the string back. */
  lemma {:induction false} SplitJoined(s: string)
    ensures JoinSegments(Split(s)) == s
    decreases |s|
  {
    if '/' in s {
      var i := IndexOf(s, '/');
      var tail := s[i + 1..];
      SplitAtFirst(s);
      SplitJoined(tail);
      JoinFront(s[..i], Split(tail));
      Around(s, i);
    }
  }

  /** With a '/' in it, a string splits into the piece before its first '/' and the split of the rest. */
  lemma SplitAtFirst(s: string)
    requires '/' in s
    ensures Split(s) == [s[..IndexOf(s, '/')]] + Split(s[IndexOf(s, '/') + 1..])
  {
  }

  lemma Around(s: string, i: nat)
    requires i < |s| && s[i] == '/'
    ensures s == s[..i] + "/" + s[i + 1..]
  {
    assert s == s[..i] + [s[i]] + s[i + 1..];
  }

  /** The server's directory is the empty root segment, 'v1' and an empty segment. */
  lemma ServerDirectory()
    ensures BaseDirectory(BasePath) == ["", "v1", ""]
  {
    assert BasePath == "" + "/" + ("v1" + "/" + "");
    SplitAfterSegment("", "v1" + "/" + "");
    SplitAfterSegment("v1", "");
    SplitNoSlash("");
  }

  /** Filtering segments that are all non-empty keeps them all. */
  lemma {:induction false} NonEmptyKeeps(segs: seq<string>)
    requires forall k :: 0 <= k < |segs| ==> segs[k] != ""
    ensures NonEmpty(segs) == segs
    decreases |segs|
  {
    if segs != [] {
      NonEmptyKeeps(segs[1..]);
      assert [segs[0]] + segs[1..] == segs;
    }
  }

  /** Removing dot segments from segments that have none appends them all. */
  lemma {:induction false} RemoveDotsKeeps(segs: seq<string>, resolved: seq<string>)
    requires forall k :: 0 <= k < |segs| ==> !DotSegment(segs[k])
    ensures RemoveDots(segs, resolved) == resolved + segs
    decreases |segs|
  {
    if segs != [] {
      RemoveDotsKeeps(segs[1..], resolved + [segs[0]]);
      assert resolved + [segs[0]] + segs[1..] == resolved + segs;
    }
  }

  /** Filtering a non-empty segment, an empty one and others keeps the first and filters the rest. */
  lemma NonEmptySkip(dir: string, inner: seq<string>)
    requires dir != ""
    ensures NonEmpty([dir, ""] + inner) == [dir] + NonEmpty(inner)
  {
    assert ([dir, ""] + inner)[1..] == [""] + inner;
    assert ([""] + inner)[1..] == inner;
  }

  lemma Regroup<T>(root: T, dir: T, segs: seq<T>)
    requires |segs| >= 1
    ensures [root] + ([dir] + segs[..|segs| - 1]) + [segs[|segs| - 1]] == [root, dir] + segs
  {
    assert segs[..|segs| - 1] + [segs[|segs| - 1]] == segs;
  }

  /**
   * A directory of a root, one named segment and a trailing empty one,
   * followed by segments with no inner empty one, loses only its own
   * trailing empty segment.
   */
  lemma {:induction false} MergedUnder(root: string, dir: string, segs: seq<string>)
    requires dir != "" && |segs| >= 1
    requires forall k :: 0 <= k < |segs| - 1 ==> segs[k] != ""
    ensures DropInnerEmpty([root, dir, ""] + segs) == [root, dir] + segs
  {
    var all := [root, dir, ""] + segs;
    var inner := segs[..|segs| - 1];
    assert all[1..|all| - 1] == [dir, ""] + inner;
    assert NonEmpty(inner) == inner by {
      NonEmptyKeeps(inner);
    }
    NonEmptySkip(dir, inner);
    assert all[0] == root && all[|all| - 1] == segs[|segs| - 1];
    Regroup(root, dir, segs);
  }

  /** Joining a segment in front of others puts it and a '/' in front. */
  lemma JoinFront(a: string, segs: seq<string>)
    requires |segs| >= 1
    ensures JoinSegments([a] + segs) == a + "/" + JoinSegments(segs)
  {
    assert ([a] + segs)[1..] == segs;
  }

  /** Joining under a root and a directory puts both, each with its '/', in front. */
  lemma JoinUnder(root: string, dir: string, segs: seq<string>)
    requires |segs| >= 1
    ensures JoinSegments([root, dir] + segs) == root + "/" + (dir + "/" + JoinSegments(segs))
  {
    JoinFront(dir, segs);
    JoinFront(root, [dir] + segs);
    assert [root, dir] + segs == [root] + ([dir] + segs);
  }

  /** The base path is the empty root segment and 'v1', each followed by '/'. */
  lemma UnderBasePath(rest: string)
    ensures "" + "/" + ("v1" + "/" + rest) == BasePath + rest
  {
  }

  /** With no dot segment among the merged ones, the merged path is those segments joined. */
  lemma MergeKeeps(bpath: string, path: string)
    requires path != ""
    requires forall k :: 0 <= k < |MergedSegments(bpath, path)| ==> !DotSegment(MergedSegments(bpath, path)[k])
    requires JoinSegments(MergedSegments(bpath, path)) != ""
    ensures MergePath(bpath, path) == JoinSegments(MergedSegments(bpath, path))
  {
    var segs := MergedSegments(bpath, path);
    RemoveDotsKeeps(segs, []);
    assert RemoveDots(segs, []) + [] == segs;
    assert !DotSegment(segs[|segs| - 1]);
  }

  /** The merged path of a plain reference is the base path followed by the reference. */
  lemma PlainMerge(ref: string)
    requires PlainRef(ref)
    ensures MergePath(BasePath, ref) == BasePath + ref
  {
    var segs := Split(ref);
    ServerDirectory();
    MergedUnder("", "v1", segs);
    var merged := ["", "v1"] + segs;
    assert MergedSegments(BasePath, ref) == merged;
    assert forall k :: 0 <= k < |merged| ==> !DotSegment(merged[k]) by {
      forall k | 0 <= k < |merged|
        ensures !DotSegment(merged[k])
      {
        if k >= 2 { assert merged[k] == segs[k - 2]; }
      }
    }
    JoinUnder("", "v1", segs);
    UnderBasePath(ref);
    SplitJoined(ref);
    MergeKeeps(BasePath, ref);
  }

  /** A path reference resolves to its merged path on the server's host. */
  lemma PathResolves(ref: string)
    requires PathRef(ref)
    ensures Resolve(ref) == Resolved(OnOrigin(MergePath(BasePath, ref)))
  {
  }

  /** `urljoin` appends a plain reference to the server address. */
  lemma PlainAppends(ref: string)
    requires PlainRef(ref)
    ensures Resolve(ref) == Resolved(Server + ref)
  {
    PlainMerge(ref);
    MergedAppends(ref);
  }

  /** A path reference whose merged path is the base path followed by it is appended to the server address. */
  lemma MergedAppends(ref: string)
    requires PathRef(ref) && MergePath(BasePath, ref) == BasePath + ref
    ensures Resolve(ref) == Resolved(Server + ref)
  {
    PathResolves(ref);
    UnderServer(ref);
    Rooted(BasePath + ref);
  }

  /** A path starting with '/' goes right after the server's scheme and host. */
  lemma Rooted(path: string)
    requires path != [] && path[0] == '/'
    ensures OnOrigin(path) == Origin + path
  {
  }

  /** The base path followed by a reference starts with '/' and follows the host to make the server address and the reference. */
  lemma UnderServer(ref: string)
    ensures BasePath + ref != [] && (BasePath + ref)[0] == '/'
    ensures Origin + (BasePath + ref) == Server + ref
  {
  }

  /** An absolute path with no dot segment replaces the server's whole path. */
  lemma AbsoluteReplaces(path: string)
    requires PathRef(path) && path[0] == '/'
    requires forall k :: 0 <= k < |Split(path)| ==> !DotSegment(Split(path)[k])
    ensures Resolve(path) == Resolved(Origin + path)
  {
    SplitJoined(path);
    MergeKeeps(BasePath, path);
    PathResolves(path);
  }

  /** '..' climbs out of the server's directory, up to the host's root. */
  lemma ParentLeavesBase()
    ensures Resolve("..") == Resolved(Origin + "/")
  {
    assert PathRef("..") by {
      SplitNoSlash("..");
    }
    PathResolves("..");
    ParentMerged();
    ParentRemoved();
    assert JoinSegments([""] + [""]) == "/" by {
      assert ([""] + [""])[1..] == [""];
    }
  }

  /** Merging '..' keeps the server's root and 'v1' segments and then '..'. */
  lemma ParentMerged()
    ensures MergedSegments(BasePath, "..") == ["", "v1", ".."]
  {
    SplitNoSlash("..");
    ServerDirectory();
    var all := ["", "v1", ""] + [".."];
    assert all[1..|all| - 1] == ["v1", ""];
    assert NonEmpty(["v1", ""]) == ["v1"] by {
      assert ["v1", ""][1..] == [""];
      assert [""][1..] == [];
    }
  }

  /** Removing dot segments from the root, 'v1' and '..' leaves the root alone. */
  lemma ParentRemoved()
    ensures RemoveDots(["", "v1", ".."], []) == [""]
  {
    assert ["", "v1", ".."][1..] == ["v1", ".."];
    assert ["v1", ".."][1..] == [".."];
    assert [".."][1..] == [];
    assert ([""] + ["v1"])[..1] == [""];
  }

  /** The path '/m/a' for plain segments m and a is a path reference with the segments '', m and a. */
  lemma AbsoluteSegments(m: string, a: string)
    requires PlainSegment(m) && PlainSegment(a)
    ensures Split("/" + m + "/" + a) == ["", m, a]
    ensures PathRef("/" + m + "/" + a)
  {
    var path := "/" + m + "/" + a;
    AbsoluteSplit(m, a);
    AbsoluteUnreserved(m, a);
    assert path[0] == '/' && path[1] == m[0] && m[0] in m;
  }

  lemma AbsoluteSplit(m: string, a: string)
    requires '/' !in m && '/' !in a
    ensures Split("/" + m + "/" + a) == ["", m, a]
  {
    assert "/" + m + "/" + a == "" + "/" + (m + "/" + a);
    SplitAfterSegment("", m + "/" + a);
    SplitAfterSegment(m, a);
    SplitNoSlash(a);
  }

  lemma AbsoluteUnreserved(m: string, a: string)
    requires PlainSegment(m) && PlainSegment(a)
    ensures forall i :: 0 <= i < |"/" + m + "/" + a| ==> !Reserved(("/" + m + "/" + a)[i])
  {
    var path := "/" + m + "/" + a;
    var segs := ["", m, a];
    AbsoluteSplit(m, a);
    SplitJoined(path);
    assert forall k :: 0 <= k < |segs| ==> forall i :: 0 <= i < |segs[k]| ==> !Reserved(segs[k][i]);
    NoReservedInJoin(segs);
  }

  /** An absolute number followed by an action replaces the server's whole path. */
  lemma AbsoluteAction(m: string, a: string)
    requires PlainSegment(m) && PlainSegment(a)
    ensures Resolve("/" + m + "/" + a) == Resolved(Origin + ("/" + m + "/" + a))
  {
    var path := "/" + m + "/" + a;
    AbsoluteSegments(m, a);
    assert forall k :: 0 <= k < |Split(path)| ==> !DotSegment(Split(path)[k]);
    AbsoluteReplaces(path);
  }
}
