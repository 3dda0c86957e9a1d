/**
 * `build_default_registry`: the registry of built-in tools and its
 * executor. Whether the HTTP tool's module can be imported is the
 * parameter `httpAvailable`.
 */
module DefaultRegistry {
  import opened Wrappers
  import opened Settings
  import opened ToolRegistry
  import opened Executor

  /** The `settings` argument: left out, a `ToolSettings`, or any other value. */
  datatype SettingsArg = Omitted | Given(settings: ToolSettings) | OtherValue

  const SettingsTypeError: string := "settings must be a ToolSettings instance"

  /** The message of the `TypeError` a call with the wrong arguments raises. */
  const CallShapeError: string := "TypeError"

  /** The built-in tool names in registration order. */
  function DefaultToolNames(httpAvailable: bool): (r: seq<string>)
    ensures "fs.read_text" in r && "fs.write_text" in r && "fs.list_dir" in r && "shell.exec" in r
    ensures "http.get" in r <==> httpAvailable
    ensures forall i, j :: 0 <= i < j < |r| ==> r[i] != r[j]
  {
    ["fs.read_text", "fs.write_text", "fs.list_dir", "shell.exec"]
      + (if httpAvailable then ["http.get"] else [])
  }

  /**
   * The function as written: a settings value of the wrong type is
   * rejected first; otherwise `http_get_handler(root, settings=...)` (when
   * the HTTP module loads) and `ToolExecutor(reg)` are both called with
   * argument lists their definitions do not accept.
   */
  function BuildAsWritten(settings: SettingsArg, httpAvailable: bool): (r: Result<()>)
    ensures settings.OtherValue? ==> r == Err(SettingsTypeError)
    ensures !settings.OtherValue? ==> r == Err(CallShapeError)
  {
    if settings.OtherValue? then Err(SettingsTypeError)
    else if httpAvailable then Err(CallShapeError)  // http_get_handler takes only `settings`
    else Err(CallShapeError)                         // ToolExecutor takes `root` and `registry`
  }

  /** As written, no call of `build_default_registry` returns a registry. */
  lemma AsWrittenNeverBuilds(settings: SettingsArg, httpAvailable: bool)
    ensures BuildAsWritten(settings, httpAvailable).Err?
  {
  }

  /** The built-in names differ pairwise, as their first or fourth characters show. */
  lemma BuiltinNamesDistinct()
    ensures "fs.read_text" != "fs.write_text" && "fs.read_text" != "fs.list_dir"
    ensures "fs.write_text" != "fs.list_dir"
    ensures "fs.read_text" != "shell.exec" && "fs.write_text" != "shell.exec" && "fs.list_dir" != "shell.exec"
    ensures "fs.read_text" != "http.get" && "fs.write_text" != "http.get" && "fs.list_dir" != "http.get"
    ensures "shell.exec" != "http.get"
  {
    assert "fs.read_text"[3] == 'r' && "fs.write_text"[3] == 'w' && "fs.list_dir"[3] == 'l';
    assert "fs.read_text"[0] == 'f' && "fs.write_text"[0] == 'f' && "fs.list_dir"[0] == 'f';
    assert "shell.exec"[0] == 's' && "http.get"[0] == 'h';
  }

  /** Two registrations under new, different names: both go to the end of the order. */
  method RegisterTwo(reg: Registry, n1: string, h1: Handler, n2: string, h2: Handler)
    requires reg.Valid() && n1 != n2 && n1 !in reg.tools && n2 !in reg.tools
    modifies reg
    ensures reg.Valid() && reg.order == old(reg.order) + [n1, n2]
    ensures reg.tools == old(reg.tools)[n1 := ToolSpec(n1, h1)][n2 := ToolSpec(n2, h2)]
  {
    reg.Register(n1, h1);
    reg.Register(n2, h2);
  }

  /** Four registrations under pairwise different names into an empty registry. */
  method RegisterDistinct(reg: Registry, n1: string, h1: Handler, n2: string, h2: Handler,
                          n3: string, h3: Handler, n4: string, h4: Handler)
    requires reg.Valid() && reg.order == []
    requires n1 != n2 && n1 != n3 && n1 != n4 && n2 != n3 && n2 != n4 && n3 != n4
    modifies reg
    ensures reg.Valid() && reg.order == [n1, n2, n3, n4]
    ensures reg.tools[n1].handler == h1 && reg.tools[n2].handler == h2
    ensures reg.tools[n3].handler == h3 && reg.tools[n4].handler == h4
  {
    assert reg.tools == map[];
    RegisterTwo(reg, n1, h1, n2, h2);
    RegisterTwo(reg, n3, h3, n4, h4);
  }

  /**
   * The registrations of every default registry (lines 46-51), then the
   * HTTP tool over `http` when its module loads (lines 53-55).
   */
  method RegisterBuiltins(reg: Registry, root: string, http: Option<ToolSettings>)
    requires reg.Valid() && reg.order == []
    modifies reg
    ensures reg.Valid() && reg.order == DefaultToolNames(http.Some?)
    ensures reg.tools["fs.read_text"].handler == ReadTextHandler(root)
    ensures reg.tools["fs.write_text"].handler == WriteTextHandler(root)
    ensures reg.tools["fs.list_dir"].handler == ListDirHandler(root)
    ensures reg.tools["shell.exec"].handler == ShellExecHandler(root)
    ensures http.Some? ==> reg.tools["http.get"].handler == HttpGetHandler(http.value)
  {
    BuiltinNamesDistinct();
    RegisterDistinct(reg, "fs.read_text", ReadTextHandler(root), "fs.write_text", WriteTextHandler(root),
                     "fs.list_dir", ListDirHandler(root), "shell.exec", ShellExecHandler(root));
    assert DefaultToolNames(false) == ["fs.read_text", "fs.write_text", "fs.list_dir", "shell.exec"] + [];
    if http.Some? {
      assert "http.get" !in reg.tools;
      ghost var before := reg.tools;
      reg.Register("http.get", HttpGetHandler(http.value));
      assert forall n | n in before :: reg.tools[n] == before[n];
      assert DefaultToolNames(true) == ["fs.read_text", "fs.write_text", "fs.list_dir", "shell.exec"] + ["http.get"];
    }
  }

  /**
   * The evident intent: register the built-ins in order, the HTTP handler
   * over the settings (the defaults under `root` when none are given),
   * and build `ToolExecutor(root, reg)`.
   */
  method BuildDefaultRegistry(root: string, settings: SettingsArg, httpAvailable: bool)
    returns (r: Result<(Registry, ToolExecutor)>)
    ensures settings.OtherValue? <==> r.Err?
    ensures settings.OtherValue? ==> r == Err(SettingsTypeError)
    ensures r.Ok? ==>
      var (reg, executor) := r.value;
      && fresh(reg) && fresh(executor)
      && reg.Valid() && executor.registry == reg && executor.root == root
      && reg.order == DefaultToolNames(httpAvailable)
      && reg.tools["fs.read_text"].handler == ReadTextHandler(root)
      && reg.tools["fs.write_text"].handler == WriteTextHandler(root)
      && reg.tools["fs.list_dir"].handler == ListDirHandler(root)
      && reg.tools["shell.exec"].handler == ShellExecHandler(root)
    ensures r.Ok? && httpAvailable && settings.Given? ==>
      r.value.0.tools["http.get"].handler == HttpGetHandler(settings.settings)
    ensures r.Ok? && httpAvailable && settings.Omitted? ==>
      var h := r.value.0.tools["http.get"].handler;
      && h.HttpGetHandler? && fresh(h.settings)
      && h.settings.httpCachePath == Some(JoinPath(root, CacheFileName))
      && !h.settings.httpAllowlistEnabled && h.settings.httpAllowlist == {}
  {
    var s: ToolSettings;
    match settings {
      case OtherValue =>
        return Err(SettingsTypeError);
      case Omitted =>
        s := DefaultToolSettings(root);
      case Given(given) =>
        s := given;
    }
    var reg := new Registry();
    RegisterBuiltins(reg, root, if httpAvailable then Some(s) else None);
    var executor := new ToolExecutor(root, reg);
    return Ok((reg, executor));
  }
}
