/**
 The plugin manager: a table of loaded plugins, keyed by the name each plugin reports,
 together with the host's driver registry. Loading a plugin starts its process, asks it
 who it is and which drivers it offers, and registers an adapter for every driver name
 that is still free; unloading removes the plugin's driver names and stops the process.

 Every operation is a transition from one state to the next. The process machinery and
 the file system are the environment `Env`; a plugin client is identified by the serial
 number of the load attempt that created it, and stopping a client adds it to `killed`.
 */
module Manager {
  import opened Outcomes
  import Driver
  import Wire
  import Stub
  import PluginAdapter
  import Registry
  import Schema
  import opened Discovery

  /** A loaded plugin: the name it reported, the executable it was started from, its
      client, every driver name it offered (taken or not), and its (always empty) settings. */
  datatype Instance = Instance(
    name: string,
    path: string,
    client: ClientId,
    drivers: seq<string>,
    config: map<string, Wire.Json>)

  /**
   The manager state: the plugin table, the host's driver registry, how many plugin
   clients were ever created (the next client gets this number), and the clients stopped.
   */
  datatype Manager = Manager(
    plugins: map<string, Instance>,
    registry: Registry.Registry,
    spawned: nat,
    killed: set<ClientId>)

  /** What starting a plugin client yields: whether connecting to the process failed,
      whether obtaining the driver-plugin interface failed, and the RPC channel. */
  datatype Launch = Launch(connect: Option<Error>, dispense: Option<Error>, channel: Wire.Transport)

  /**
   The world the manager runs in: directory listings, whether a file can be stat'ed, how a
   directory and a name are joined into a path, what starting the executable at a path as
   client number `id` yields, and the `MustProxy()` of a driver configuration.
   */
  datatype Env = Env(
    fs: string -> Dir,
    stat: string -> Option<Error>,
    join: (string, string) -> string,
    launch: (string, ClientId) -> Launch,
    mustProxy: Driver.Config -> bool)

  /** The state after an operation and the error it returned. */
  datatype Step = Step(next: Manager, status: Status)

  /** Every registered driver is one of the host's own. */
  predicate BuiltInOnly(reg: Registry.Registry)
  {
    forall n :: n in reg.drivers ==> reg.drivers[n].origin.BuiltIn?
  }

  /** The manager the process starts with: no plugins, over the registry of the host's
      own drivers. */
  function Start(reg: Registry.Registry): (m: Manager)
    ensures m.plugins == map[] && m.registry == reg
    ensures Registry.Valid(reg) && BuiltInOnly(reg) ==> Inv(m)
  {
    Manager(map[], reg, 0, {})
  }

  /** The directories searched for plugins on a rescan, in search order. */
  const PluginDirs: seq<string> :=
    ["./plugins", "./data/plugins", "/usr/local/share/openlist/plugins", "/opt/openlist/plugins"]

  /**
   The manager invariant: every plugin sits under the name it reported; live plugins have
   distinct clients that were created and not stopped; only created clients are stopped;
   the registry is consistent and refers to created clients only.
   */
  predicate Inv(m: Manager)
  {
    && (forall n :: n in m.plugins ==> m.plugins[n].name == n)
    && (forall n :: n in m.plugins ==> m.plugins[n].client < m.spawned && m.plugins[n].client !in m.killed)
    && (forall n1, n2 :: n1 in m.plugins && n2 in m.plugins && n1 != n2 ==>
          m.plugins[n1].client != m.plugins[n2].client)
    && (forall c :: c in m.killed ==> c < m.spawned)
    && Registry.Valid(m.registry)
    && (forall n :: n in m.registry.drivers && m.registry.drivers[n].origin.PluginBinding? ==>
          m.registry.drivers[n].origin.client < m.spawned)
  }

  // ---------------------------------------------------------------------------
  // Driver registration
  // ---------------------------------------------------------------------------

  /** The constructor registered for driver `driverName` of plugin client `client`: it
      builds an adapter bound to both, and is described by what that adapter reports. */
  function PluginConstructor(client: ClientId, driverName: string): (c: Registry.Constructor)
    ensures c.origin == Registry.PluginBinding(client, driverName)
    ensures c.config.name == driverName && c.config.defaultRoot == "/"
    ensures Registry.AdditionSupported(c.addition)
  {
    var a := PluginAdapter.New(client, driverName);
    Registry.Constructor(Registry.PluginBinding(client, driverName), PluginAdapter.Config(a),
                         PluginAdapter.GetAddition(a))
  }

  /**
   Registers driver `driverName` of plugin client `client` unless the name is taken; a
   taken name keeps its constructor, whoever registered it.
   */
  function RegisterPluginDriver(reg: Registry.Registry, client: ClientId, driverName: string,
                                mustProxy: Driver.Config -> bool): (r: Registry.Registry)
    ensures Registry.IsDriverRegistered(reg, driverName) ==> r == reg
    ensures !Registry.IsDriverRegistered(reg, driverName) ==>
              && Registry.GetDriver(r, driverName) == Ok(PluginConstructor(client, driverName))
              && driverName in r.infos
              && r.infos[driverName].additional == []
              && r.infos[driverName].common ==
                 Schema.MainItems(PluginConstructor(client, driverName).config,
                                           mustProxy(PluginConstructor(client, driverName).config))
    ensures forall n :: n != driverName ==>
              (n in r.drivers <==> n in reg.drivers) && (n in r.infos <==> n in reg.infos)
    ensures forall n :: n != driverName && n in reg.drivers ==> r.drivers[n] == reg.drivers[n]
    ensures forall n :: n != driverName && n in reg.infos ==> r.infos[n] == reg.infos[n]
    ensures Registry.Valid(reg) ==> Registry.Valid(r)
  {
    if Registry.IsDriverRegistered(reg, driverName) then reg
    else Registry.RegisterDriver(reg, PluginConstructor(client, driverName), mustProxy)
  }

  /**
   Registers every driver name of a plugin's list, in order. Names registered before keep
   their constructor; every other listed name ends up bound to this client, so a name
   listed twice is registered once; unlisted names are untouched.
   */
  function RegisterPluginDrivers(reg: Registry.Registry, client: ClientId, names: seq<string>,
                                 mustProxy: Driver.Config -> bool): (r: Registry.Registry)
    ensures forall n :: n in r.drivers <==> n in reg.drivers || n in names
    ensures forall n :: n in reg.drivers ==> r.drivers[n] == reg.drivers[n]
    ensures forall n :: n in names && n !in reg.drivers ==> r.drivers[n] == PluginConstructor(client, n)
    ensures forall n :: n in r.infos <==> n in reg.infos || (n in names && n !in reg.drivers)
    ensures forall n :: n in reg.infos && (n in reg.drivers || n !in names) ==> r.infos[n] == reg.infos[n]
    ensures Registry.Valid(reg) ==> Registry.Valid(r)
    decreases |names|
  {
    if names == [] then reg
    else RegisterPluginDrivers(RegisterPluginDriver(reg, client, names[0], mustProxy),
                               client, names[1..], mustProxy)
  }

  /** Unregisters every name of the list: exactly those names leave both maps. */
  function UnregisterAll(reg: Registry.Registry, names: seq<string>): (r: Registry.Registry)
    ensures forall n :: n in r.drivers <==> n in reg.drivers && n !in names
    ensures forall n :: n in r.infos <==> n in reg.infos && n !in names
    ensures forall n :: n in r.drivers ==> r.drivers[n] == reg.drivers[n]
    ensures forall n :: n in r.infos ==> r.infos[n] == reg.infos[n]
    ensures Registry.Valid(reg) ==> Registry.Valid(r)
    decreases |names|
  {
    if names == [] then reg
    else UnregisterAll(Registry.UnregisterDriver(reg, names[0]), names[1..])
  }

  // ---------------------------------------------------------------------------
  // Loading and unloading
  // ---------------------------------------------------------------------------

  /** Stops client `c`. Stopping a client no loaded plugin uses keeps the invariant. */
  function Kill(m: Manager, c: ClientId): (r: Manager)
    ensures c in r.killed && m.killed <= r.killed
    ensures forall k :: k in r.killed ==> k in m.killed || k == c
    ensures r.plugins == m.plugins && r.registry == m.registry && r.spawned == m.spawned
    ensures Inv(m) && c < m.spawned && (forall n :: n in m.plugins ==> m.plugins[n].client != c) ==> Inv(r)
  {
    m.(killed := m.killed + {c})
  }

  /**
   Loads the plugin executable at `path`. A file that cannot be stat'ed fails before any
   client exists. Otherwise client number `spawned` is created; it is stopped again when
   connecting, obtaining the interface, or asking for the plugin's info fails, when a
   plugin of the reported name is already loaded (which is not an error: the first plugin
   keeps its place), or when asking for the driver list fails. On success every free
   driver name is registered and the plugin enters the table under its reported name,
   with its full driver list.
   */
  function LoadPlugin(m: Manager, path: string, env: Env): (r: Step)
    ensures r.status.Fail? ==> r.next.plugins == m.plugins && r.next.registry == m.registry
    ensures env.stat(path).Some? ==> r == Step(m, Fail(PluginFileNotFound(env.stat(path).value)))
    ensures forall n :: n in m.plugins ==> n in r.next.plugins && r.next.plugins[n] == m.plugins[n]
    ensures forall n :: n in r.next.plugins && n !in m.plugins ==>
              && r.status.Nil?
              && r.next.plugins[n] == Instance(n, path, m.spawned, r.next.plugins[n].drivers, map[])
              && (forall d :: d in r.next.plugins[n].drivers ==> Registry.IsDriverRegistered(r.next.registry, d))
    ensures forall n1, n2 :: n1 in r.next.plugins && n1 !in m.plugins && n2 in r.next.plugins && n2 !in m.plugins
              ==> n1 == n2
    ensures forall n :: n in m.registry.drivers ==>
              n in r.next.registry.drivers && r.next.registry.drivers[n] == m.registry.drivers[n]
    ensures Inv(m) ==> Inv(r.next)
  {
    if env.stat(path).Some? then Step(m, Fail(PluginFileNotFound(env.stat(path).value)))
    else
      var id := m.spawned;
      var created := m.(spawned := id + 1);
      var l := env.launch(path, id);
      if l.connect.Some? then Step(Kill(created, id), Fail(ConnectFailed(l.connect.value)))
      else if l.dispense.Some? then Step(Kill(created, id), Fail(DispenseFailed(l.dispense.value)))
      else
        var info := Stub.GetInfo(l.channel);
        if info.err.Some? then Step(Kill(created, id), Fail(InfoFailed(info.err.value)))
        else if info.value.name in m.plugins then Step(Kill(created, id), Nil)
        else
          var drivers := Stub.GetDrivers(l.channel);
          if drivers.err.Some? then Step(Kill(created, id), Fail(DriversFailed(drivers.err.value)))
          else
            var reg := RegisterPluginDrivers(m.registry, id, drivers.value, env.mustProxy);
            var instance := Instance(info.value.name, path, id, drivers.value, map[]);
            assert Inv(m) ==> Inv(created.(registry := reg, plugins := m.plugins[info.value.name := instance])) by {
              if Inv(m) {
                LoadedInv(m, reg, instance);
              }
            }
            Step(created.(registry := reg, plugins := m.plugins[info.value.name := instance]), Nil)
  }

  /** The state a successful load produces satisfies the invariant. */
  lemma LoadedInv(m: Manager, reg: Registry.Registry, instance: Instance)
    requires Inv(m)
    requires instance.client == m.spawned && instance.name !in m.plugins
    requires Registry.Valid(reg)
    requires forall n :: n in reg.drivers ==>
               (n in m.registry.drivers && reg.drivers[n] == m.registry.drivers[n])
               || reg.drivers[n].origin == Registry.PluginBinding(m.spawned, n)
    ensures Inv(Manager(m.plugins[instance.name := instance], reg, m.spawned + 1, m.killed))
  {
    var m' := Manager(m.plugins[instance.name := instance], reg, m.spawned + 1, m.killed);
    assert forall n :: n in m'.plugins ==> m'.plugins[n].name == n;
    assert forall n :: n in m'.plugins ==> m'.plugins[n].client < m'.spawned && m'.plugins[n].client !in m'.killed;
    forall n1, n2 | n1 in m'.plugins && n2 in m'.plugins && n1 != n2
      ensures m'.plugins[n1].client != m'.plugins[n2].client
    {
      if n1 == instance.name {
        assert m'.plugins[n2] == m.plugins[n2];
      } else if n2 == instance.name {
        assert m'.plugins[n1] == m.plugins[n1];
      }
    }
  }

  /**
   Unloads the plugin called `name`: every driver name in its list leaves the registry
   (including names it found taken at load time), its client is stopped and its entry
   leaves the table. An unknown name is an error that changes nothing.
   */
  function UnloadPlugin(m: Manager, name: string): (r: Step)
    ensures name !in m.plugins ==> r == Step(m, Fail(PluginNotFound(name)))
    ensures name in m.plugins ==>
              && r.status == Nil
              && r.next.plugins == m.plugins - {name}
              && r.next.registry == UnregisterAll(m.registry, m.plugins[name].drivers)
              && r.next.killed == m.killed + {m.plugins[name].client}
              && r.next.spawned == m.spawned
    ensures Inv(m) ==> Inv(r.next)
  {
    if name !in m.plugins then Step(m, Fail(PluginNotFound(name)))
    else
      var instance := m.plugins[name];
      var next := Manager(m.plugins - {name}, UnregisterAll(m.registry, instance.drivers),
                          m.spawned, m.killed + {instance.client});
      assert Inv(m) ==> Inv(next) by {
        if Inv(m) {
          UnloadedInv(m, name, next);
        }
      }
      Step(next, Nil)
  }

  lemma UnloadedInv(m: Manager, name: string, next: Manager)
    requires Inv(m) && name in m.plugins
    requires next.plugins == m.plugins - {name} && next.spawned == m.spawned
    requires next.killed == m.killed + {m.plugins[name].client}
    requires Registry.Valid(next.registry)
    requires forall n :: n in next.registry.drivers ==>
               n in m.registry.drivers && next.registry.drivers[n] == m.registry.drivers[n]
    ensures Inv(next)
  {
    forall n | n in next.plugins
      ensures next.plugins[n].client !in next.killed
    {
      assert next.plugins[n] == m.plugins[n];
    }
  }

  /**
   Reloads the plugin called `name` from the executable it was loaded from: an unload
   followed by a load of that path. An unknown name is an error that changes nothing; a
   failed load is reported against `name` and leaves the plugin unloaded.
   */
  function ReloadPlugin(m: Manager, name: string, env: Env): (r: Step)
    ensures name !in m.plugins ==> r == Step(m, Fail(PluginNotFound(name)))
    ensures name in m.plugins ==>
              var load := LoadPlugin(UnloadPlugin(m, name).next, m.plugins[name].path, env);
              && r.next == load.next
              && (load.status.Nil? ==> r.status.Nil?)
              && (load.status.Fail? ==> r.status == Fail(ReloadFailed(name, load.status.error)))
    ensures name in m.plugins && r.status.Fail? ==> name !in r.next.plugins
    ensures Inv(m) ==> Inv(r.next)
  {
    if name !in m.plugins then Step(m, Fail(PluginNotFound(name)))
    else
      var path := m.plugins[name].path;
      var load := LoadPlugin(UnloadPlugin(m, name).next, path, env);
      match load.status
      case Nil => load
      case Fail(e) => Step(load.next, Fail(ReloadFailed(name, e)))
  }

  /** The plugin table, as a copy. */
  function GetLoadedPlugins(m: Manager): (loaded: map<string, Instance>)
    ensures loaded.Keys == m.plugins.Keys
    ensures forall n :: n in loaded ==> loaded[n] == m.plugins[n]
    ensures Inv(m) ==> forall n :: n in loaded ==> loaded[n].name == n && loaded[n].client !in m.killed
  {
    map n | n in m.plugins :: m.plugins[n]
  }

  /** The driver list of the plugin called `name`, every name it offered included. */
  function GetPluginDrivers(m: Manager, name: string): (r: Result<seq<string>>)
    ensures r.Ok? <==> name in m.plugins
    ensures r.Ok? ==> r.value == m.plugins[name].drivers
    ensures r.Err? ==> r.error == PluginNotFound(name)
  {
    if name in m.plugins then Ok(m.plugins[name].drivers) else Err(PluginNotFound(name))
  }

  /**
   Stops every loaded plugin's client and empties the table; the registry is left as it
   is, so the drivers of the stopped plugins stay registered.
   */
  function Shutdown(m: Manager): (r: Manager)
    ensures r.plugins == map[]
    ensures r.registry == m.registry && r.spawned == m.spawned
    ensures forall n :: n in m.plugins ==> m.plugins[n].client in r.killed
    ensures m.killed <= r.killed
    ensures forall c :: c in r.killed && c !in m.killed ==> exists n :: n in m.plugins && m.plugins[n].client == c
    ensures Inv(m) ==> Inv(r)
  {
    Manager(map[], m.registry, m.spawned, m.killed + (set n | n in m.plugins :: m.plugins[n].client))
  }

  // ---------------------------------------------------------------------------
  // Scanning directories
  // ---------------------------------------------------------------------------

  /** Loads the given paths in order; a failed load is skipped and the scan goes on. */
  function LoadAll(m: Manager, paths: seq<string>, env: Env): (r: Manager)
    ensures forall n :: n in m.plugins ==> n in r.plugins && r.plugins[n] == m.plugins[n]
    ensures forall n :: n in m.registry.drivers ==>
              n in r.registry.drivers && r.registry.drivers[n] == m.registry.drivers[n]
    ensures m.spawned <= r.spawned
    ensures Inv(m) ==> Inv(r)
    decreases |paths|
  {
    if paths == [] then m
    else LoadAll(LoadPlugin(m, paths[0], env).next, paths[1..], env)
  }

  /**
   Loads every candidate entry of directory `dir`, in listing order. A missing directory
   is skipped without error; one that cannot be read is an error; failures of single
   plugins do not stop the scan and are not reported.
   */
  function LoadPluginsFromDir(m: Manager, dir: string, env: Env): (r: Step)
    ensures env.fs(dir).Missing? ==> r == Step(m, Nil)
    ensures env.fs(dir).Unreadable? ==> r == Step(m, Fail(ReadDirFailed(env.fs(dir).cause)))
    ensures env.fs(dir).Listing? ==>
              r.status.Nil? && r.next == LoadAll(m, CandidatePaths(dir, env.fs(dir).entries, env.join), env)
    ensures forall n :: n in m.plugins ==> n in r.next.plugins && r.next.plugins[n] == m.plugins[n]
    ensures forall n :: n in m.registry.drivers ==>
              n in r.next.registry.drivers && r.next.registry.drivers[n] == m.registry.drivers[n]
    ensures Inv(m) ==> Inv(r.next)
  {
    match env.fs(dir)
    case Missing => Step(m, Nil)
    case Unreadable(e) => Step(m, Fail(ReadDirFailed(e)))
    case Listing(entries) => Step(LoadAll(m, CandidatePaths(dir, entries, env.join), env), Nil)
  }

  /** Scans the given directories in order, whatever each scan reports. */
  function ScanDirs(m: Manager, dirs: seq<string>, env: Env): (r: Manager)
    ensures forall n :: n in m.plugins ==> n in r.plugins && r.plugins[n] == m.plugins[n]
    ensures forall n :: n in m.registry.drivers ==>
              n in r.registry.drivers && r.registry.drivers[n] == m.registry.drivers[n]
    ensures Inv(m) ==> Inv(r)
    decreases |dirs|
  {
    if dirs == [] then m
    else ScanDirs(LoadPluginsFromDir(m, dirs[0], env).next, dirs[1..], env)
  }

  /** Scans the plugin directories for plugins not loaded yet; it never fails. */
  function RescanPlugins(m: Manager, env: Env): (r: Step)
    ensures r.status.Nil?
    ensures forall n :: n in m.plugins ==> n in r.next.plugins && r.next.plugins[n] == m.plugins[n]
    ensures forall n :: n in m.registry.drivers ==>
              n in r.next.registry.drivers && r.next.registry.drivers[n] == m.registry.drivers[n]
    ensures Inv(m) ==> Inv(r.next)
  {
    Step(ScanDirs(m, PluginDirs, env), Nil)
  }
}
