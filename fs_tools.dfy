/**
 * The filesystem tools `fs.read_text`, `fs.list_dir` and `fs.write_text`
 * over the files and directories of the sandbox, kept as a map from
 * paths to bytes and a set of directory paths. Path resolution goes
 * through `Sandbox`; UTF-8 encoding and decoding and the order in which
 * a directory lists its entries are parameters.
 */
module FsTools {
  import opened Wrappers
  import opened JsonValue
  import opened Strings
  import opened Sorting
  import opened Sandbox

  /** `str.encode("utf-8")` and `bytes.decode("utf-8", errors="replace")`. */
  datatype Codec = Codec(encode: string -> seq<Byte>, decode: seq<Byte> -> string)

  /** `Path.iterdir()`: the entry names of a directory, in whatever order the system gives. */
  type Listing = Path -> seq<string>

  const DefaultMaxBytes: int := 20000
  const DefaultMaxEntries: int := 200
  const SandboxPrefix: string := "/sandbox/"

  // ------------------------------------------------------------ _get_path

  /** The user path with the `/sandbox` alias taken off. */
  function Unaliased(userPath: string): (r: string)
    ensures userPath == "/sandbox" ==> r == "."
    ensures IsPrefix(SandboxPrefix, userPath) ==> r == userPath[|SandboxPrefix|..]
    ensures userPath != "/sandbox" && !IsPrefix(SandboxPrefix, userPath) ==> r == userPath
  {
    if userPath == "/sandbox" then "."
    else if IsPrefix(SandboxPrefix, userPath) then userPath[|SandboxPrefix|..]
    else userPath
  }

  /** `_get_path`: no NUL, the alias taken off, then the path must resolve inside the root. */
  function GetPath(root: Path, userPath: string, fs: FsView): (r: Result<Path>)
    ensures '\0' in userPath ==> r == Err("path contains NUL byte")
    ensures '\0' !in userPath ==>
              (r == Err("path escapes sandbox") <==> ResolveUnderRootSpec(root, Unaliased(userPath), fs).None?)
    ensures r.Ok? ==> '\0' !in userPath && Within(fs.resolve(root), r.value)
    ensures r.Ok? ==> Some(r.value) == ResolveUnderRootSpec(root, Unaliased(userPath), fs)
  {
    if '\0' in userPath then Err("path contains NUL byte")
    else
      match ResolveUnderRootSpec(root, Unaliased(userPath), fs)
      case None => Err("path escapes sandbox")
      case Some(p) => Ok(p)
  }

  /** `/sandbox/<rest>` names what the plain relative `<rest>` names. */
  lemma AliasIsRelative(root: Path, rest: string, fs: FsView)
    requires '\0' !in rest
    ensures GetPath(root, SandboxPrefix + rest, fs) ==
              match ResolveUnderRootSpec(root, rest, fs)
              case None => Err("path escapes sandbox")
              case Some(p) => Ok(p)
  {
    var u := SandboxPrefix + rest;
    assert IsPrefix(SandboxPrefix, u) && u[|SandboxPrefix|..] == rest;
    assert u != "/sandbox" by { assert |u| > |"/sandbox"|; }
    assert '\0' !in u by {
      forall k | 0 <= k < |u| ensures u[k] != '\0' {
        if k >= |SandboxPrefix| { assert u[k] == rest[k - |SandboxPrefix|]; }
      }
    }
  }

  // ------------------------------------------------------------ the filesystem

  datatype FsState = FsState(files: map<Path, seq<Byte>>, dirs: set<Path>)

  /** `data = handle.read(max_bytes)`: at most `n` bytes from the front. */
  function ReadPrefix(content: seq<Byte>, n: nat): (r: seq<Byte>)
    ensures |r| <= n && |r| <= |content| && r == content[..|r|]
    ensures |content| <= n ==> r == content
  {
    if |content| <= n then content else content[..n]
  }

  /** `read_text`'s handler, which reads and changes nothing. */
  function ReadTextSpec(st: FsState, root: Path, args: map<string, Json>, fs: FsView, codec: Codec)
    : (r: Result<Json>)
    ensures !Get(args, "path").JStr? ==> r == Err("path must be a string")
    ensures var m := GetOr(args, "max_bytes", JInt(DefaultMaxBytes));
              Get(args, "path").JStr? && !(IsPyInt(m) && PyIntValue(m) > 0) ==> r == Err("max_bytes must be a positive integer")
  {
    var path := Get(args, "path");
    var maxBytes := GetOr(args, "max_bytes", JInt(DefaultMaxBytes));
    if !path.JStr? then Err("path must be a string")
    else if !IsPyInt(maxBytes) || PyIntValue(maxBytes) <= 0 then Err("max_bytes must be a positive integer")
    else
      var resolved :- GetPath(root, path.s, fs);
      if resolved !in st.files then Err("path is not a file")
      else
        var data := ReadPrefix(st.files[resolved], PyIntValue(maxBytes));
        Ok(JObj(map["path" := path, "text" := JStr(codec.decode(data))]))
  }

  /**
   * A successful read answers with the requested path and the decoding
   * of at most `max_bytes` bytes from the front of the resolved file.
   */
  lemma ReadTextReadsPrefix(st: FsState, root: Path, args: map<string, Json>, fs: FsView, codec: Codec)
    requires ReadTextSpec(st, root, args, fs, codec).Ok?
    ensures var path := Get(args, "path");
            var n := PyIntValue(GetOr(args, "max_bytes", JInt(DefaultMaxBytes)));
            var resolved := GetPath(root, path.s, fs);
            && path.JStr? && n > 0 && resolved.Ok? && resolved.value in st.files
            && exists data: seq<Byte> {:trigger codec.decode(data)} ::
                 |data| <= n && |data| <= |st.files[resolved.value]| && data == st.files[resolved.value][..|data|]
                 && ReadTextSpec(st, root, args, fs, codec)
                    == Ok(JObj(map["path" := path, "text" := JStr(codec.decode(data))]))
  {
    var n := PyIntValue(GetOr(args, "max_bytes", JInt(DefaultMaxBytes)));
    var resolved := GetPath(root, Get(args, "path").s, fs).value;
    var data := ReadPrefix(st.files[resolved], n);
    assert |data| <= n && |data| <= |st.files[resolved]| && data == st.files[resolved][..|data|];
  }

  /** `list_dir`'s handler: the sorted entry names, cut to `max_entries`. */
  function ListDirSpec(st: FsState, root: Path, args: map<string, Json>, fs: FsView, listing: Listing)
    : (r: Result<Json>)
    ensures !GetOr(args, "path", JStr(".")).JStr? ==> r == Err("path must be a string")
    ensures var m := GetOr(args, "max_entries", JInt(DefaultMaxEntries));
              GetOr(args, "path", JStr(".")).JStr? && !(IsPyInt(m) && PyIntValue(m) > 0) ==> r == Err("max_entries must be a positive integer")
  {
    var path := GetOr(args, "path", JStr("."));
    var maxEntries := GetOr(args, "max_entries", JInt(DefaultMaxEntries));
    if !path.JStr? then Err("path must be a string")
    else if !IsPyInt(maxEntries) || PyIntValue(maxEntries) <= 0 then Err("max_entries must be a positive integer")
    else
      var resolved :- GetPath(root, path.s, fs);
      if resolved !in st.dirs then Err("path is not a directory")
      else
        var entries := SortStrings(listing(resolved));
        var n := PyIntValue(maxEntries);
        Ok(JObj(map["path" := path, "entries" := StringList(if |entries| <= n then entries else entries[..n])]))
  }

  /** The entries of a directory as the store holds them. */
  ghost predicate ListingMatches(st: FsState, listing: Listing, dir: Path) {
    forall name :: name in listing(dir) <==> (dir + [name] in st.files || dir + [name] in st.dirs)
  }

  /**
   * A listing is sorted, no longer than `max_entries`, and, when the
   * system lists the store's own entries, names only entries of the
   * directory; when they all fit, it names every one of them.
   */
  lemma ListDirSortedAndCapped(st: FsState, root: Path, args: map<string, Json>, fs: FsView, listing: Listing)
    requires ListDirSpec(st, root, args, fs, listing).Ok?
    ensures var resolved := GetPath(root, GetOr(args, "path", JStr(".")).s, fs).value;
            var n := PyIntValue(GetOr(args, "max_entries", JInt(DefaultMaxEntries)));
            var out := ListDirSpec(st, root, args, fs, listing).value.fields["entries"];
            && resolved in st.dirs
            && IsStringList(out)
            && var names := StringsOf(out);
               && |names| <= n
               && (forall i, j :: 0 <= i < j < |names| ==> StrLe(names[i], names[j]))
               && (ListingMatches(st, listing, resolved) ==>
                     forall k :: 0 <= k < |names| ==>
                       resolved + [names[k]] in st.files || resolved + [names[k]] in st.dirs)
               && (|listing(resolved)| <= n ==> multiset(names) == multiset(listing(resolved)))
  {
    var resolved := GetPath(root, GetOr(args, "path", JStr(".")).s, fs).value;
    var n := PyIntValue(GetOr(args, "max_entries", JInt(DefaultMaxEntries)));
    var entries := SortStrings(listing(resolved));
    var names := if |entries| <= n then entries else entries[..n];
    CappedListing(listing(resolved), n);
    assert StringsOf(StringList(names)) == names;
  }

  /** The first `n` sorted names: sorted, at most `n`, all listed, and all of them when they fit. */
  lemma CappedListing(items: seq<string>, n: int)
    requires n > 0
    ensures var entries := SortStrings(items);
            var names := if |entries| <= n then entries else entries[..n];
            && |names| <= n
            && (forall i, j :: 0 <= i < j < |names| ==> StrLe(names[i], names[j]))
            && (forall k :: 0 <= k < |names| ==> names[k] in items)
            && (|items| <= n ==> multiset(names) == multiset(items))
  {
    var entries := SortStrings(items);
    var names := if |entries| <= n then entries else entries[..n];
    forall k | 0 <= k < |names| ensures names[k] in items {
      assert names[k] == entries[k];
      assert entries[k] in multiset(entries);
    }
  }

  // ------------------------------------------------------------ write_text

  /** `p.parent`; the root is its own parent. */
  function Parent(p: Path): Path {
    if |p| == 0 then p else p[..|p| - 1]
  }

  /** The directories `mkdir(parents=True)` ensures: the path and all its ancestors. */
  function Ancestors(p: Path): (r: set<Path>)
    ensures forall k :: 0 <= k <= |p| ==> p[..k] in r
    ensures forall q :: q in r ==> |q| <= |p| && q == p[..|q|]
  {
    set k | 0 <= k <= |p| :: p[..k]
  }

  /**
   * `write_text`'s checks, in order: the argument types, the path, the
   * overwrite guard, then the directory creation and the write, which
   * fail when an ancestor is a file or the target is a directory. The
   * path written on success.
   */
  function WritePlan(st: FsState, root: Path, args: map<string, Json>, fs: FsView): (r: Result<Path>)
    ensures !Get(args, "path").JStr? ==> r == Err("path must be a string")
    ensures r.Ok? ==>
              && Get(args, "path").JStr? && Get(args, "text").JStr?
              && GetPath(root, Get(args, "path").s, fs) == Ok(r.value)
              && r.value !in st.dirs
              && (r.value in st.files ==> GetOr(args, "overwrite", JBool(false)) == JBool(true))
  {
    var path := Get(args, "path");
    var text := Get(args, "text");
    var overwrite := GetOr(args, "overwrite", JBool(false));
    if !path.JStr? then Err("path must be a string")
    else if !text.JStr? then Err("text must be a string")
    else if !overwrite.JBool? then Err("overwrite must be a boolean")
    else
      var resolved :- GetPath(root, path.s, fs);
      if (resolved in st.files || resolved in st.dirs) && !overwrite.b then Err("refusing to overwrite existing file")
      else if exists q :: q in Ancestors(Parent(resolved)) && q in st.files then Err("NotADirectoryError")
      else if resolved in st.dirs then Err("IsADirectoryError")
      else Ok(resolved)
  }

  /** An existing file is never replaced unless `overwrite` is `True`. */
  lemma NoOverwriteByDefault(st: FsState, root: Path, args: map<string, Json>, fs: FsView)
    requires Get(args, "path").JStr? && Get(args, "text").JStr?
    requires "overwrite" !in args || args["overwrite"] == JBool(false)
    requires GetPath(root, Get(args, "path").s, fs).Ok?
    requires GetPath(root, Get(args, "path").s, fs).value in st.files
    ensures WritePlan(st, root, args, fs) == Err("refusing to overwrite existing file")
  {
  }

  class SandboxFs {
    var files: map<Path, seq<Byte>>
    var dirs: set<Path>

    function Value(): FsState
      reads this
    {
      FsState(files, dirs)
    }

    constructor (st: FsState)
      ensures Value() == st
    {
      files := st.files;
      dirs := st.dirs;
    }

    /**
     * `write_text`'s handler: on success the parent directories exist and
     * the file holds the UTF-8 encoding of the text, whose length is
     * reported; a refused call changes nothing.
     */
    method WriteText(root: Path, args: map<string, Json>, fs: FsView, codec: Codec) returns (r: Result<Json>)
      modifies this
      ensures match WritePlan(old(Value()), root, args, fs)
        case Err(m) => r == Err(m) && Value() == old(Value())
        case Ok(p) =>
          var bytes := codec.encode(Get(args, "text").s);
          && files == old(files)[p := bytes]
          && dirs == old(dirs) + Ancestors(Parent(p))
          && r == Ok(JObj(map["path" := Get(args, "path"), "bytes" := JInt(|bytes|)]))
    {
      var plan := WritePlan(Value(), root, args, fs);
      if plan.Err? {
        return Err(plan.msg);
      }
      var resolved := plan.value;
      dirs := dirs + Ancestors(Parent(resolved));
      var bytes := codec.encode(Get(args, "text").s);
      files := files[resolved := bytes];
      r := Ok(JObj(map["path" := Get(args, "path"), "bytes" := JInt(|bytes|)]));
    }
  }

  /**
   * Reading back a file just written, with a byte budget that covers it,
   * gives the decoding of the text's encoding.
   */
  lemma WriteThenRead(st: FsState, root: Path, args: map<string, Json>, fs: FsView, codec: Codec,
                      readArgs: map<string, Json>)
    requires WritePlan(st, root, args, fs).Ok?
    requires Get(readArgs, "path") == Get(args, "path")
    requires var bytes := codec.encode(Get(args, "text").s);
             var m := GetOr(readArgs, "max_bytes", JInt(DefaultMaxBytes));
             IsPyInt(m) && PyIntValue(m) >= |bytes| && PyIntValue(m) > 0
    ensures var p := WritePlan(st, root, args, fs).value;
            var bytes := codec.encode(Get(args, "text").s);
            var after := FsState(st.files[p := bytes], st.dirs + Ancestors(Parent(p)));
            ReadTextSpec(after, root, readArgs, fs, codec)
              == Ok(JObj(map["path" := Get(args, "path"), "text" := JStr(codec.decode(bytes))]))
  {
    var p := WritePlan(st, root, args, fs).value;
    var bytes := codec.encode(Get(args, "text").s);
    var after := FsState(st.files[p := bytes], st.dirs + Ancestors(Parent(p)));
    assert p in after.files && after.files[p] == bytes;
    assert ReadPrefix(bytes, PyIntValue(GetOr(readArgs, "max_bytes", JInt(DefaultMaxBytes)))) == bytes;
  }
}
