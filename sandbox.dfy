/**
 * The tool sandbox: resolving a user path under the sandbox root without
 * leaving it, and the shell command policy (an allowed leading word, then
 * no denied substring anywhere).
 *
 * Paths are sequences of components from the filesystem root. What the
 * filesystem says about a path (whether it exists, whether it is a
 * symbolic link, where `Path.resolve` takes it) is the oracle `FsView`.
 */
module Sandbox {
  import opened Wrappers
  import opened Strings

  /** An absolute path as its components: `/a/b` is `["a", "b"]`. */
  type Path = seq<string>

  /** The filesystem queries `resolve_under_root` makes. */
  datatype FsView = FsView(present: Path -> bool, isSymlink: Path -> bool, resolve: Path -> Path)

  /** `target.relative_to(root)` succeeds: a purely lexical prefix test on the components. */
  predicate Within(root: Path, target: Path) {
    |root| <= |target| && target[..|root|] == root
  }

  /** Python `s.split(sep)`: the pieces between separators, empty pieces included. */
  function SplitOn(s: string, sep: char): (r: seq<string>)
    ensures |r| >= 1
    ensures forall k :: 0 <= k < |r| ==> sep !in r[k]
  {
    if |s| == 0 then [""]
    else
      var rest := SplitOn(s[1..], sep);
      if s[0] == sep then [""] + rest
      else [[s[0]] + rest[0]] + rest[1..]
  }

  /** `Path(user_path).is_absolute()` on a POSIX system. */
  predicate IsAbsolute(userPath: string) {
    |userPath| > 0 && userPath[0] == '/'
  }

  /**
   * The components of a relative user path, split at `/`. `Path` drops
   * the empty and `.` pieces itself; the walk skips them explicitly, so
   * both readings give the same result.
   */
  function Parts(userPath: string): seq<string> {
    SplitOn(userPath, '/')
  }

  predicate Skipped(part: string) {
    part == "" || part == "."
  }

  /** The components `root / candidate` appends: the parts without the skipped ones. */
  function Kept(parts: seq<string>): (r: seq<string>)
    ensures forall k :: 0 <= k < |r| ==> !Skipped(r[k])
    ensures forall p :: p in r ==> p in parts
  {
    if |parts| == 0 then []
    else if Skipped(parts[0]) then Kept(parts[1..])
    else [parts[0]] + Kept(parts[1..])
  }

  // ------------------------------------------------------------ pure paths

  /**
   * A POSIX pure path as `pathlib` holds it: whether it starts at the
   * root `/`, and its components.
   */
  datatype PurePath = PurePath(absolute: bool, parts: seq<string>)

  /** A component `pathlib` keeps: not empty, not `.`, and without a slash. */
  predicate Component(part: string) {
    !Skipped(part) && '/' !in part
  }

  predicate NormalPath(p: PurePath) {
    forall k :: 0 <= k < |p.parts| ==> Component(p.parts[k])
  }

  /** `PurePosixPath(raw)`: repeated slashes and `.` components collapse. */
  function ParsePath(raw: string): (p: PurePath)
    ensures NormalPath(p)
    ensures p.absolute <==> IsAbsolute(raw)
  {
    var parts := Kept(SplitOn(raw, '/'));
    assert forall k :: 0 <= k < |parts| ==> parts[k] in SplitOn(raw, '/');
    PurePath(IsAbsolute(raw), parts)
  }

  /** `str(path)`: the root, then the components between slashes; `.` for no component at all. */
  function RenderPath(p: PurePath): string {
    var body := Join(p.parts, "/");
    if p.absolute then "/" + body else if body == "" then "." else body
  }

  /** `path.name`: the last component, empty when there is none. */
  function PathName(p: PurePath): string {
    if |p.parts| == 0 then "" else p.parts[|p.parts| - 1]
  }

  /** `path.parent`: the path without its last component. */
  function ParentPath(p: PurePath): PurePath {
    if |p.parts| == 0 then p else PurePath(p.absolute, p.parts[..|p.parts| - 1])
  }

  /** `path / name`: an absolute name replaces the path, a relative one adds its components. */
  function Div(p: PurePath, name: string): (r: PurePath)
    ensures NormalPath(p) ==> NormalPath(r)
    ensures IsAbsolute(name) ==> r == ParsePath(name)
    ensures Component(name) ==> PathName(r) == name && ParentPath(r) == p
  {
    DivComponent(p, name);
    var q := ParsePath(name);
    if q.absolute then q else PurePath(p.absolute, p.parts + q.parts)
  }

  /** A separator between two texts separates their pieces. */
  lemma {:induction false} SplitOnAppend(a: string, b: string, sep: char)
    ensures SplitOn(a + [sep] + b, sep) == SplitOn(a, sep) + SplitOn(b, sep)
    decreases |a|
  {
    var s := a + [sep] + b;
    if |a| == 0 {
      assert s[1..] == b;
    } else {
      assert s[1..] == a[1..] + [sep] + b;
      SplitOnAppend(a[1..], b, sep);
    }
  }

  /** Text without the separator is a single piece. */
  lemma {:induction false} SplitOnWhole(w: string, sep: char)
    requires sep !in w
    ensures SplitOn(w, sep) == [w]
    decreases |w|
  {
    if |w| > 0 {
      assert sep !in w[1..];
      SplitOnWhole(w[1..], sep);
      assert [w[0]] + w[1..] == w;
    }
  }

  /** Splitting joined components gives the components back. */
  lemma {:induction false} SplitOnJoin(parts: seq<string>)
    requires |parts| > 0
    requires forall k :: 0 <= k < |parts| ==> '/' !in parts[k]
    ensures SplitOn(Join(parts, "/"), '/') == parts
    decreases |parts|
  {
    SplitOnWhole(parts[0], '/');
    if |parts| > 1 {
      SplitOnJoin(parts[1..]);
      assert Join(parts, "/") == parts[0] + ['/'] + Join(parts[1..], "/");
      SplitOnAppend(parts[0], Join(parts[1..], "/"), '/');
    }
  }

  lemma {:induction false} KeptAppend(x: seq<string>, y: seq<string>)
    ensures Kept(x + y) == Kept(x) + Kept(y)
    decreases |x|
  {
    if |x| == 0 {
      assert x + y == y;
    } else {
      assert (x + y)[0] == x[0] && (x + y)[1..] == x[1..] + y;
      KeptAppend(x[1..], y);
    }
  }

  lemma {:induction false} KeptComponents(parts: seq<string>)
    requires forall k :: 0 <= k < |parts| ==> !Skipped(parts[k])
    ensures Kept(parts) == parts
    decreases |parts|
  {
    if |parts| > 0 {
      KeptComponents(parts[1..]);
    }
  }

  /** The joined components start with the first component. */
  lemma JoinStarts(parts: seq<string>)
    requires |parts| > 0
    ensures IsPrefix(parts[0], Join(parts, "/"))
  {
  }

  /** A rendered path reads back as the same path. */
  lemma ParseRenderPath(p: PurePath)
    requires NormalPath(p)
    ensures ParsePath(RenderPath(p)) == p
  {
    var body := Join(p.parts, "/");
    if |p.parts| > 0 {
      SplitOnJoin(p.parts);
      KeptComponents(p.parts);
      JoinStarts(p.parts);
      assert body[0] == p.parts[0][0];
    }
    if p.absolute {
      SplitOnAppend("", body, '/');
      assert "" + ['/'] + body == "/" + body;
      assert SplitOn("", '/') == [""];
      KeptAppend([""], SplitOn(body, '/'));
      assert Kept([""]) == [];
      if |p.parts| == 0 {
        assert body == "";
      }
    } else if |p.parts| == 0 {
      SplitOnWhole(".", '/');
      assert Kept(["."]) == [];
    }
  }

  /** `Path(a) / b` is the path of the joined text `a/b`. */
  lemma DivIsJoinedText(a: string, b: string)
    requires a != "" && !IsAbsolute(b)
    ensures Div(ParsePath(a), b) == ParsePath(a + "/" + b)
  {
    SplitOnAppend(a, b, '/');
    KeptAppend(SplitOn(a, '/'), SplitOn(b, '/'));
    assert a + ['/'] + b == a + "/" + b;
    assert (a + "/" + b)[0] == a[0];
  }

  /** Dividing by one component appends it: it is the new path's name and the old path its parent. */
  lemma DivComponent(p: PurePath, c: string)
    ensures Component(c) ==> ParsePath(c) == PurePath(false, [c])
    ensures Component(c) ==> (p.parts + [c])[..|p.parts|] == p.parts
  {
    if Component(c) {
      SplitOnWhole(c, '/');
      assert Kept([c]) == [c];
    }
  }

  /**
   * The component walk of `resolve_under_root` (lines 20-31), from
   * `current`: `None` when it rejects, otherwise where it ends. A `..`
   * rejects; an existing symbolic link must resolve inside the root and
   * the walk continues from its target.
   */
  function Walk(root: Path, current: Path, parts: seq<string>, fs: FsView): Option<Path>
    decreases |parts|
  {
    if |parts| == 0 then Some(current)
    else
      var part := parts[0];
      if Skipped(part) then Walk(root, current, parts[1..], fs)
      else if part == ".." then None
      else
        var next := current + [part];
        if fs.present(next) && fs.isSymlink(next) then
          var target := fs.resolve(next);
          if !Within(root, target) then None else Walk(root, target, parts[1..], fs)
        else Walk(root, next, parts[1..], fs)
  }

  /** `resolve_under_root(root, user_path)`. */
  function ResolveUnderRootSpec(root: Path, userPath: string, fs: FsView): (r: Option<Path>)
    ensures IsAbsolute(userPath) ==> r.None?
    ensures r.Some? ==> Within(fs.resolve(root), r.value)
    ensures r.Some? ==> r.value == fs.resolve(fs.resolve(root) + Kept(Parts(userPath)))
  {
    var base := fs.resolve(root);
    if IsAbsolute(userPath) then None
    else if Walk(base, base, Parts(userPath), fs).None? then None
    else
      var resolved := fs.resolve(base + Kept(Parts(userPath)));
      if Within(base, resolved) then Some(resolved) else None
  }

  /** The walk from a point inside the root never leaves it. */
  lemma {:induction false} WalkStaysWithin(root: Path, current: Path, parts: seq<string>, fs: FsView)
    requires Within(root, current)
    ensures Walk(root, current, parts, fs).Some? ==> Within(root, Walk(root, current, parts, fs).value)
    decreases |parts|
  {
    if |parts| > 0 {
      var part := parts[0];
      if Skipped(part) {
        WalkStaysWithin(root, current, parts[1..], fs);
      } else if part != ".." {
        var next := current + [part];
        if fs.present(next) && fs.isSymlink(next) {
          var target := fs.resolve(next);
          if Within(root, target) {
            WalkStaysWithin(root, target, parts[1..], fs);
          }
        } else {
          assert next[..|root|] == current[..|root|];
          WalkStaysWithin(root, next, parts[1..], fs);
        }
      }
    }
  }

  /** Walking `a + b` is walking `a`, then `b` from where `a` ended. */
  lemma {:induction false} WalkAppend(root: Path, current: Path, a: seq<string>, b: seq<string>, fs: FsView)
    ensures Walk(root, current, a + b, fs) ==
              match Walk(root, current, a, fs)
              case None => None
              case Some(c) => Walk(root, c, b, fs)
    decreases |a|
  {
    if |a| > 0 {
      assert (a + b)[0] == a[0] && (a + b)[1..] == a[1..] + b;
      var part := a[0];
      if Skipped(part) {
        WalkAppend(root, current, a[1..], b, fs);
      } else if part != ".." {
        var next := current + [part];
        if fs.present(next) && fs.isSymlink(next) {
          WalkAppend(root, fs.resolve(next), a[1..], b, fs);
        } else {
          WalkAppend(root, next, a[1..], b, fs);
        }
      }
    } else {
      assert a + b == b;
    }
  }

  /** Any `..` component rejects the path, wherever it stands. */
  lemma {:induction false} DotDotRejected(root: Path, current: Path, parts: seq<string>, fs: FsView)
    requires ".." in parts
    ensures Walk(root, current, parts, fs).None?
    decreases |parts|
  {
    var part := parts[0];
    if part != ".." {
      assert ".." in parts[1..];
      if Skipped(part) {
        DotDotRejected(root, current, parts[1..], fs);
      } else {
        var next := current + [part];
        if fs.present(next) && fs.isSymlink(next) {
          var target := fs.resolve(next);
          if Within(root, target) {
            DotDotRejected(root, target, parts[1..], fs);
          }
        } else {
          DotDotRejected(root, next, parts[1..], fs);
        }
      }
    }
  }

  /**
   * Once the walk over `before` has reached `c`, a next component that is
   * an existing symbolic link resolving outside the root rejects the path,
   * whatever follows it.
   */
  lemma SymlinkEscapeRejected(root: Path, current: Path, before: seq<string>, part: string,
                              after: seq<string>, fs: FsView, c: Path)
    requires Walk(root, current, before, fs) == Some(c)
    requires !Skipped(part) && part != ".."
    requires fs.present(c + [part]) && fs.isSymlink(c + [part]) && !Within(root, fs.resolve(c + [part]))
    ensures Walk(root, current, before + [part] + after, fs).None?
  {
    WalkAppend(root, current, before, [part] + after, fs);
    assert before + [part] + after == before + ([part] + after);
    assert ([part] + after)[1..] == after;
  }

  /** A user path with a `..` component never resolves. */
  lemma ParentComponentRejected(root: Path, userPath: string, fs: FsView)
    requires ".." in Parts(userPath)
    ensures ResolveUnderRootSpec(root, userPath, fs).None?
  {
    DotDotRejected(fs.resolve(root), fs.resolve(root), Parts(userPath), fs);
  }

  /**
   * `resolve_under_root`: the walk over the components, then the final
   * resolution and containment check.
   */
  method ResolveUnderRoot(root: Path, userPath: string, fs: FsView) returns (r: Option<Path>)
    ensures r == ResolveUnderRootSpec(root, userPath, fs)
  {
    var base := fs.resolve(root);
    if IsAbsolute(userPath) {
      return None;
    }
    var parts := Parts(userPath);
    var current := base;
    for i := 0 to |parts|
      invariant Walk(base, current, parts[i..], fs) == Walk(base, base, parts, fs)
    {
      assert parts[i..][1..] == parts[i + 1..];
      var part := parts[i];
      if part == "" || part == "." {
        continue;
      }
      if part == ".." {
        return None;
      }
      current := current + [part];
      if fs.present(current) && fs.isSymlink(current) {
        var resolved := fs.resolve(current);
        if !Within(base, resolved) {
          return None;
        }
        current := resolved;
      }
    }
    var resolvedPath := fs.resolve(base + Kept(parts));
    if !Within(base, resolvedPath) {
      return None;
    }
    return Some(resolvedPath);
  }

  // ------------------------------------------------------------ shell policy

  const CommandNotAllowed: string := "command not allowed"
  const DeniedSubstring: string := "command contains denied substring"

  /** The left-trimmed command is an allowed prefix or starts with one followed by a space. */
  predicate PrefixAllowed(stripped: string, allowPrefixes: seq<string>) {
    exists k :: 0 <= k < |allowPrefixes| &&
      (stripped == allowPrefixes[k] || IsPrefix(allowPrefixes[k] + " ", stripped))
  }

  /** Some denied substring occurs in the command as given, leading whitespace included. */
  predicate HasDenied(cmd: string, denySubstrings: seq<string>) {
    exists k :: 0 <= k < |denySubstrings| && Contains(cmd, denySubstrings[k])
  }

  /**
   * `validate_shell_cmd`: the prefix test comes first and decides the
   * reason when it fails; the denied substrings are checked only after.
   */
  function ValidateShellCmd(cmd: string, allowPrefixes: seq<string>, denySubstrings: seq<string>)
    : (r: (bool, Option<string>))
    ensures r.0 <==> r.1.None?
    ensures r.0 <==> PrefixAllowed(LStrip(cmd), allowPrefixes) && !HasDenied(cmd, denySubstrings)
    ensures !PrefixAllowed(LStrip(cmd), allowPrefixes) ==> r.1 == Some(CommandNotAllowed)
    ensures PrefixAllowed(LStrip(cmd), allowPrefixes) && HasDenied(cmd, denySubstrings) ==>
              r.1 == Some(DeniedSubstring)
  {
    if !PrefixAllowed(LStrip(cmd), allowPrefixes) then (false, Some(CommandNotAllowed))
    else if HasDenied(cmd, denySubstrings) then (false, Some(DeniedSubstring))
    else (true, None)
  }

  /**
   * A command whose first word is not allowed is refused for that reason,
   * even when it also holds a denied substring.
   */
  lemma UnlistedCommandRefusedFirst(cmd: string, allowPrefixes: seq<string>, denySubstrings: seq<string>)
    requires forall k :: 0 <= k < |allowPrefixes| ==> |allowPrefixes[k]| > 0 && !IsPrefix(allowPrefixes[k], LStrip(cmd))
    ensures ValidateShellCmd(cmd, allowPrefixes, denySubstrings) == (false, Some(CommandNotAllowed))
  {
  }
}
