/**
 Properties of the plugin manager that relate several operations, or one operation to
 what the environment answered: when a load fails, succeeds or is skipped, what unloading
 undoes and what it does not, and what a shutdown leaves behind.
 */
module ManagerProperties {
  import opened Outcomes
  import Driver
  import Wire
  import Stub
  import PluginAdapter
  import Registry
  import opened Discovery
  import opened Manager

  /** The plugin at `path` answers with a name: the client connects, hands out the
      interface and answers the info request. */
  predicate Answers(m: Manager, path: string, env: Env)
  {
    && env.stat(path).None?
    && env.launch(path, m.spawned).connect.None?
    && env.launch(path, m.spawned).dispense.None?
    && Stub.GetInfo(env.launch(path, m.spawned).channel).err.None?
  }

  /** The name the plugin at `path` reports. */
  function ReportedName(m: Manager, path: string, env: Env): string
  {
    Stub.GetInfo(env.launch(path, m.spawned).channel).value.name
  }

  /** The driver list the plugin at `path` reports, with the error of that request. */
  function ReportedDrivers(m: Manager, path: string, env: Env): Stub.Exchange<seq<string>>
  {
    Stub.GetDrivers(env.launch(path, m.spawned).channel)
  }

  /**
   A load fails exactly when the file cannot be stat'ed, the client cannot connect or hand
   out the interface, the info request fails, or the plugin is new and its driver list
   cannot be read; each failure is reported with its own wrapping.
   */
  lemma LoadPluginErrors(m: Manager, path: string, env: Env)
    ensures LoadPlugin(m, path, env).status.Fail? <==>
              || !Answers(m, path, env)
              || (ReportedName(m, path, env) !in m.plugins && ReportedDrivers(m, path, env).err.Some?)
    ensures env.stat(path).None? && env.launch(path, m.spawned).connect.Some? ==>
              LoadPlugin(m, path, env).status == Fail(ConnectFailed(env.launch(path, m.spawned).connect.value))
    ensures env.stat(path).None? && env.launch(path, m.spawned).connect.None?
            && env.launch(path, m.spawned).dispense.Some? ==>
              LoadPlugin(m, path, env).status == Fail(DispenseFailed(env.launch(path, m.spawned).dispense.value))
    ensures env.stat(path).None? && env.launch(path, m.spawned).connect.None?
            && env.launch(path, m.spawned).dispense.None?
            && Stub.GetInfo(env.launch(path, m.spawned).channel).err.Some? ==>
              LoadPlugin(m, path, env).status ==
              Fail(InfoFailed(Stub.GetInfo(env.launch(path, m.spawned).channel).err.value))
    ensures Answers(m, path, env) && ReportedName(m, path, env) !in m.plugins
            && ReportedDrivers(m, path, env).err.Some? ==>
              LoadPlugin(m, path, env).status == Fail(DriversFailed(ReportedDrivers(m, path, env).err.value))
  {
  }

  /**
   Every load attempt past the stat creates one client, and that client is stopped unless
   the plugin entered the table.
   */
  lemma LoadPluginClients(m: Manager, path: string, env: Env)
    requires Inv(m)
    ensures env.stat(path).Some? ==> LoadPlugin(m, path, env).next == m
    ensures env.stat(path).None? ==>
              var next := LoadPlugin(m, path, env).next;
              && next.spawned == m.spawned + 1
              && (m.spawned in next.killed <==> next.plugins.Keys == m.plugins.Keys)
  {
  }

  /**
   A successful load of a new plugin adds exactly its entry, with the path, the new
   client and the full driver list, registers the list's free names, and makes the list
   available through `GetPluginDrivers`.
   */
  lemma LoadPluginSuccess(m: Manager, path: string, env: Env)
    requires Answers(m, path, env) && ReportedName(m, path, env) !in m.plugins
    requires ReportedDrivers(m, path, env).err.None?
    ensures var r := LoadPlugin(m, path, env);
            var name := ReportedName(m, path, env);
            var drivers := ReportedDrivers(m, path, env).value;
            && r.status == Nil
            && r.next.plugins == m.plugins[name := Instance(name, path, m.spawned, drivers, map[])]
            && r.next.registry == RegisterPluginDrivers(m.registry, m.spawned, drivers, env.mustProxy)
            && GetPluginDrivers(r.next, name) == Ok(drivers)
  {
  }

  /**
   Loading a plugin whose reported name is already in the table succeeds without changing
   the table or the registry: the first plugin of that name stays, the new client is stopped.
   */
  lemma LoadPluginDuplicate(m: Manager, path: string, env: Env)
    requires Answers(m, path, env) && ReportedName(m, path, env) in m.plugins
    ensures var r := LoadPlugin(m, path, env);
            && r.status == Nil
            && r.next.plugins == m.plugins
            && r.next.registry == m.registry
            && m.spawned in r.next.killed
  {
  }

  /**
   Unloading a plugin right after loading it restores the table and the registry, when
   none of its driver names was registered before the load.
   */
  lemma UnloadUndoesLoad(m: Manager, path: string, env: Env)
    requires Inv(m)
    requires Answers(m, path, env) && ReportedName(m, path, env) !in m.plugins
    requires ReportedDrivers(m, path, env).err.None?
    requires forall d :: d in ReportedDrivers(m, path, env).value ==> !Registry.IsDriverRegistered(m.registry, d)
    ensures var u := UnloadPlugin(LoadPlugin(m, path, env).next, ReportedName(m, path, env));
            u.status == Nil && u.next.plugins == m.plugins && u.next.registry == m.registry
  {
    var name := ReportedName(m, path, env);
    var drivers := ReportedDrivers(m, path, env).value;
    LoadPluginSuccess(m, path, env);
    UnloadLoaded(m, LoadPlugin(m, path, env).next, Instance(name, path, m.spawned, drivers, map[]), env.mustProxy);
  }

  /** The unload half of `UnloadUndoesLoad`, on the state a successful load produced. */
  lemma UnloadLoaded(m: Manager, loaded: Manager, instance: Instance, mustProxy: Driver.Config -> bool)
    requires Registry.Valid(m.registry) && instance.name !in m.plugins
    requires forall d :: d in instance.drivers ==> !Registry.IsDriverRegistered(m.registry, d)
    requires loaded.plugins == m.plugins[instance.name := instance]
    requires loaded.registry == RegisterPluginDrivers(m.registry, instance.client, instance.drivers, mustProxy)
    ensures var u := UnloadPlugin(loaded, instance.name);
            u.status == Nil && u.next.plugins == m.plugins && u.next.registry == m.registry
  {
    assert loaded.plugins - {instance.name} == m.plugins;
    UnregisterUndoesRegisterAll(m.registry, instance.client, instance.drivers, mustProxy);
  }

  /** Unregistering a driver list right after registering it restores the registry, when
      none of the names was registered before. */
  lemma UnregisterUndoesRegisterAll(reg: Registry.Registry, client: ClientId, names: seq<string>,
                                    mustProxy: Driver.Config -> bool)
    requires Registry.Valid(reg)
    requires forall d :: d in names ==> !Registry.IsDriverRegistered(reg, d)
    ensures UnregisterAll(RegisterPluginDrivers(reg, client, names, mustProxy), names) == reg
  {
    var mid := RegisterPluginDrivers(reg, client, names, mustProxy);
    RemovingAddedNames(reg, mid, UnregisterAll(mid, names), names);
  }

  /** The extensionality step: removing exactly the added names from a registry that only
      gained those names gives back the original. */
  lemma RemovingAddedNames(reg: Registry.Registry, mid: Registry.Registry, fin: Registry.Registry,
                           names: seq<string>)
    requires reg.drivers.Keys == reg.infos.Keys
    requires forall d :: d in names ==> d !in reg.drivers
    requires forall n :: n in reg.drivers ==> n in mid.drivers && mid.drivers[n] == reg.drivers[n]
    requires forall n :: n in reg.infos ==> n in mid.infos && mid.infos[n] == reg.infos[n]
    requires forall n :: n in mid.drivers <==> n in reg.drivers || n in names
    requires forall n :: n in mid.infos <==> n in reg.infos || n in names
    requires forall n :: n in fin.drivers <==> n in mid.drivers && n !in names
    requires forall n :: n in fin.infos <==> n in mid.infos && n !in names
    requires forall n :: n in fin.drivers ==> fin.drivers[n] == mid.drivers[n]
    requires forall n :: n in fin.infos ==> fin.infos[n] == mid.infos[n]
    ensures fin == reg
  {
    assert fin.drivers == reg.drivers;
    assert fin.infos == reg.infos;
  }

  /**
   Unloading a plugin unregisters every driver name in its list, also a name that was
   taken by another source when the plugin loaded: that other source's driver is gone.
   */
  lemma UnloadDeletesForeignDriver(m: Manager, p: string, d: string)
    requires p in m.plugins && d in m.plugins[p].drivers
    requires Registry.IsDriverRegistered(m.registry, d)
    requires m.registry.drivers[d].origin != Registry.PluginBinding(m.plugins[p].client, d)
    ensures !Registry.IsDriverRegistered(UnloadPlugin(m, p).next.registry, d)
    ensures Registry.GetDriver(UnloadPlugin(m, p).next.registry, d) == Err(NoDriverNamed(d))
  {
  }

  /**
   The whole collision: a host driver `d` survives the load of a plugin that also offers
   `d` (the plugin's adapter is not registered), the plugin still lists `d`, and unloading
   the plugin removes the host's driver.
   */
  lemma {:induction false} CollisionThenUnload(m: Manager, path: string, env: Env, d: string)
    requires Inv(m)
    requires d in m.registry.drivers && m.registry.drivers[d].origin.BuiltIn?
    requires Answers(m, path, env) && ReportedName(m, path, env) !in m.plugins
    requires ReportedDrivers(m, path, env).err.None? && d in ReportedDrivers(m, path, env).value
    ensures var loaded := LoadPlugin(m, path, env).next;
            && loaded.registry.drivers[d] == m.registry.drivers[d]
            && d in loaded.plugins[ReportedName(m, path, env)].drivers
            && !Registry.IsDriverRegistered(UnloadPlugin(loaded, ReportedName(m, path, env)).next.registry, d)
  {
    LoadPluginSuccess(m, path, env);
    var loaded := LoadPlugin(m, path, env).next;
    var name := ReportedName(m, path, env);
    assert loaded.plugins[name].drivers == ReportedDrivers(m, path, env).value;
    UnloadDeletesForeignDriver(loaded, name, d);
  }

  /**
   After a shutdown every driver a loaded plugin registered is still registered, bound
   to a client that has been stopped.
   */
  lemma ShutdownStrandsDrivers(m: Manager, p: string, d: string)
    requires p in m.plugins
    requires d in m.registry.drivers
    requires m.registry.drivers[d].origin == Registry.PluginBinding(m.plugins[p].client, d)
    ensures Registry.IsDriverRegistered(Shutdown(m).registry, d)
    ensures Shutdown(m).registry.drivers[d].origin.client in Shutdown(m).killed
    ensures GetLoadedPlugins(Shutdown(m)) == map[]
  {
  }

  /** Loading a list of paths in two parts is loading the whole list. */
  lemma {:induction false} LoadAllAppend(m: Manager, a: seq<string>, b: seq<string>, env: Env)
    ensures LoadAll(m, a + b, env) == LoadAll(LoadAll(m, a, env), b, env)
    decreases |a|
  {
    if a == [] {
      assert a + b == b;
    } else {
      assert (a + b)[1..] == a[1..] + b;
      LoadAllAppend(LoadPlugin(m, a[0], env).next, a[1..], b, env);
    }
  }

  /** A directory listing in two parts is scanned as the first part, then the second. */
  lemma ScanListingInParts(m: Manager, dir: string, a: seq<Entry>, b: seq<Entry>, env: Env)
    requires env.fs(dir) == Listing(a + b)
    ensures LoadPluginsFromDir(m, dir, env).next ==
              LoadAll(LoadAll(m, CandidatePaths(dir, a, env.join), env), CandidatePaths(dir, b, env.join), env)
  {
    var pa := CandidatePaths(dir, a, env.join);
    var pb := CandidatePaths(dir, b, env.join);
    CandidatePathsAppend(dir, a, b, env.join);
    LoadAllAppend(m, pa, pb, env);
  }

  /** A rescan scans the four plugin directories in their fixed order and reports no error. */
  lemma {:induction false} RescanOrder(m: Manager, env: Env)
    ensures var m1 := LoadPluginsFromDir(m, "./plugins", env).next;
            var m2 := LoadPluginsFromDir(m1, "./data/plugins", env).next;
            var m3 := LoadPluginsFromDir(m2, "/usr/local/share/openlist/plugins", env).next;
            var m4 := LoadPluginsFromDir(m3, "/opt/openlist/plugins", env).next;
            RescanPlugins(m, env) == Step(m4, Nil)
  {
    var m1 := LoadPluginsFromDir(m, "./plugins", env).next;
    var m2 := LoadPluginsFromDir(m1, "./data/plugins", env).next;
    var m3 := LoadPluginsFromDir(m2, "/usr/local/share/openlist/plugins", env).next;
    var m4 := LoadPluginsFromDir(m3, "/opt/openlist/plugins", env).next;
    var ds := PluginDirs;
    assert ScanDirs(m3, ds[3..], env) == m4 by {
      assert ds[3..][1..] == [];
    }
    assert ScanDirs(m2, ds[2..], env) == m4 by {
      assert ds[2..][1..] == ds[3..];
    }
    assert ScanDirs(m1, ds[1..], env) == m4 by {
      assert ds[1..][1..] == ds[2..];
    }
  }

  // ---------------------------------------------------------------------------
  // A concrete collision
  // ---------------------------------------------------------------------------

  /** A plugin calling itself "demo" that offers one driver, "Local". */
  function DemoChannel(): Wire.Transport
  {
    (req: Wire.Request) =>
      if req.methodName == "Plugin.GetInfo" then
        Wire.Reply(Wire.InfoPayload(Wire.PluginInfo("demo", "1.0.0", "", "")), None)
      else if req.methodName == "Plugin.GetDrivers" then
        Wire.Reply(Wire.NamesPayload(["Local"]), None)
      else Wire.Reply(Wire.NoPayload, None)
  }

  /** A world where every file exists and every plugin executable is the demo plugin. */
  function DemoEnv(): Env
  {
    Env(_ => Missing, _ => None, (dir, name) => dir + "/" + name,
        (path, id) => Launch(None, None, DemoChannel()), _ => false)
  }

  /** The host's own "Local" driver, with an addition struct that has no fields. */
  function LocalConstructor(): (c: Registry.Constructor)
    ensures c.config.name == "Local" && c.origin.BuiltIn?
    ensures Registry.AdditionSupported(c.addition)
  {
    var config := Driver.Config(
      name := "Local",
      localSort := true,
      onlyLinkMFile := false,
      onlyProxy := false,
      noCache := true,
      noUpload := false,
      needMs := false,
      defaultRoot := "/",
      checkStatus := false,
      alert := "",
      noOverwriteUpload := false,
      proxyRangeOption := false,
      noLinkURL := false);
    Registry.Constructor(Registry.BuiltIn("local"), config, Driver.Struct([]))
  }

  /**
   Starting with only the host's "Local" driver, loading the demo plugin keeps the host's
   "Local" (the plugin's is skipped), but unloading the demo plugin leaves no "Local" at all.
   */
  lemma LocalDriverScenario()
    ensures var reg := Registry.RegisterDriver(Registry.Empty, LocalConstructor(), _ => false);
            var m := Start(reg);
            var loaded := LoadPlugin(m, "./plugins/demo", DemoEnv());
            var unloaded := UnloadPlugin(loaded.next, "demo");
            && loaded.status == Nil
            && Registry.GetDriver(loaded.next.registry, "Local") == Ok(LocalConstructor())
            && GetPluginDrivers(loaded.next, "demo") == Ok(["Local"])
            && unloaded.status == Nil
            && Registry.GetDriver(unloaded.next.registry, "Local") == Err(NoDriverNamed("Local"))
  {
    var reg := Registry.RegisterDriver(Registry.Empty, LocalConstructor(), _ => false);
    var m := Start(reg);
    assert BuiltInOnly(reg);
    var env := DemoEnv();
    var path := "./plugins/demo";
    var info := Stub.GetInfo(DemoChannel());
    assert info.sent[0].methodName == "Plugin.GetInfo";
    assert info.value.name == "demo";
    var drivers := Stub.GetDrivers(DemoChannel());
    assert drivers.sent[0].methodName == "Plugin.GetDrivers";
    assert drivers.value == ["Local"];
    assert Answers(m, path, env) && ReportedName(m, path, env) == "demo";
    assert ReportedDrivers(m, path, env) == drivers;
    CollisionThenUnload(m, path, env, "Local");
    LoadPluginSuccess(m, path, env);
  }
}
