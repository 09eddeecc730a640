# OpenList driver plugins, modelled in Dafny

OpenList serves storages through drivers that are registered by name. This project models the
subsystem that lets drivers live in separate plugin executables:

- **The host driver registry.** A map from driver name to constructor, paired with a map from
  driver name to the configuration-form schema derived for that driver. The schema has two parts:
  - the common items computed from the driver's `Config` flags;
  - the items read from the fields and tags of the driver's "addition" struct.
- **The plugin manager.** A table of loaded plugins.
  - Loading starts the executable and asks it for its info and its driver names. It then registers
    an adapter for every driver name that is still free.
  - Unloading unregisters the plugin's driver names and stops its process.
  - Reload, shutdown, directory scan and rescan are built on these two.
- **The adapter and the RPC stub.** The adapter is the driver the host sees for one remote driver
  name. It converts host records to field maps and forwards each driver call to the plugin. It does
  so through a stub that sends one named RPC request per call.

Every operation is a pure function on immutable values. The manager's operations are transitions
`Manager -> Step(next, status)`, where `status` is the Go `error` (`Nil` or `Fail(e)`). Each error
message the code builds is a constructor of `Outcomes.Error`. Things outside the model are
parameters:

| Parameter | What it abstracts |
|---|---|
| `Env.fs` and `Env.stat` | the file system |
| `Env.join` | `filepath.Join` |
| `Env.launch(path, id)` | starting the plugin process, connecting to it and dispensing the interface |
| `Launch.channel` (a `Transport`) | the RPC channel: a function from request to reply |
| `Env.mustProxy` | `Config.MustProxy()` |
| `Codec` | `structToMap` and `json.Unmarshal` |

Go reflection is replaced by the `Driver.TypeDesc` datatype, which has pointers, maps, structs of
tagged fields and other named types.

A plugin client is identified by the number of the load attempt that created it (`spawned`).
Stopping a client adds it to `killed`. The invariant `Manager.Inv` relates the table, the registry
and the clients:

- every entry is keyed by the name its plugin reported;
- live plugins have distinct clients that were created and not stopped;
- only created clients are stopped;
- the registry is consistent and refers only to created clients.

Every manager operation preserves `Inv`.

Modules:

| Module | Models |
|---|---|
| `Outcomes` | Option, Result, Status, errors |
| `Driver` | Config, Item, Info, TypeDesc |
| `Schema` | `getMainItems`, `getAdditionalItems` |
| `Registry` | internal/op/driver.go |
| `Wire` | request shapes, and how a plugin reads them back |
| `Stub` | `DriverPluginRPC` |
| `PluginAdapter` | adapter.go |
| `Discovery` | `filepath.Ext` and the candidate filter |
| `Manager` | manager.go |
| `ManagerProperties` | properties that span several operations |

Behaviours of the code worth knowing:

- A rescan does not skip already-loaded plugins before starting them. Every candidate executable is
  started and asked for its info. Only then is a duplicate stopped, and the call reports success.
- No name-conflict error exists. A duplicate plugin name returns `nil`, and a taken driver name is
  skipped without an error (only a warning is logged; logging is not modelled).
- Candidate files are those with extension ".exe" or no extension, on every platform.

## Model

| member | source | states |
|---|---|---|
| Schema.MainItems | internal/op/driver.go:110-204 | The item names are exactly the conditional name list. The items start with mount_path (required), order, remark and end with extract_folder, then disable_index and enable_sign (both required). The webdav_policy item is the proxying or redirecting variant according to MustProxy. The proxy_range default is "true" exactly for the driver 139Yun |
| Schema.MainItemsPresence | internal/op/driver.go:124-185 | Each of these is an iff: cache_expiration present iff caching is on; web_proxy iff not MustProxy; proxy_range iff not MustProxy and ProxyRangeOption; order_by and order_direction iff LocalSort. webdav_policy is present exactly once |
| Schema.StripPointers | internal/op/driver.go:89-92 | The result is never a pointer type, and a non-pointer type is returned unchanged |
| Schema.StripIsPointee | internal/op/driver.go:89-92 | The result is the type the pointers lead to: the original type is the result wrapped in some number of pointer types |
| Schema.ItemOf | internal/op/driver.go:213-240 | Name from the json tag; the type tag overrides the lower-cased type name, and an empty type becomes "string". Options and help come from their tags. A root folder field defaults to defaultRoot and is required iff its final default is non-empty; any other field keeps its default tag and is required iff its required tag is "true" |
| Schema.AdditionalItems | internal/op/driver.go:205-243 | Every item has a non-empty type, and there are at most as many items as leaf fields |
| Schema.AdditionalItemsAreKeptLeaves | internal/op/driver.go:205-243 | The recursive walk equals flattening nested structs in field order, keeping the fields that have a json tag and are not ignored, and converting each kept field |
| Schema.KeptLeafHasItem | internal/op/driver.go:214-218 | Every kept leaf field of the addition struct contributes its item |
| Schema.KeptItemsFromKept | internal/op/driver.go:214-240 | Every item comes from some kept leaf field |
| Registry.RegisterDriverItems | internal/op/driver.go:83-108 | The schema is stored under the config's name, holding that config and the common items. The additional items are empty for a map addition and derived from the fields for a struct addition. Other entries are unchanged |
| Registry.IsDriverRegistered | internal/op/driver.go:40-47 | True iff a constructor is registered under the name; in a consistent registry, iff a form schema is recorded for it |
| Registry.GetDriver | internal/op/driver.go:49-58 | Succeeds iff the name is registered and returns its constructor; otherwise fails with "no driver named" |
| Registry.RegisterDriver | internal/op/driver.go:20-29 | Afterwards the name the driver reports is registered and GetDriver returns the given constructor. Every other name keeps its entries, and consistency is preserved |
| Registry.UnregisterDriver | internal/op/driver.go:32-38 | The name leaves both maps and every other name keeps its entries. An absent name is a no-op |
| Registry.GetDriverNames | internal/op/driver.go:60-69 | Exactly the names of the schema map, each once |
| Registry.GetDriverInfoMap | internal/op/driver.go:71-81 | A copy with the same names and schemas. In a consistent registry each schema's config is the registered driver's and carries its key |
| Registry.RegisterOverwrites | internal/op/driver.go:28 | Registering the same name twice leaves the second constructor: the registry never refuses a duplicate |
| Registry.UnregisterUndoesRegister | internal/op/driver.go:20-38 | Unregistering a name that was free and just registered gives back the original registry |
| Wire.Encode | internal/plugin/interface.go:46-98 | The method name of each call, and its argument: null, the bare name, or a record with exactly the listed keys holding the arguments |
| Wire.DecodeEncode | internal/plugin/interface.go:46-98 | Every request reads back as the call that produced it |
| Wire.EncodeInjective | internal/plugin/interface.go:46-98 | Distinct calls never send the same request |
| Stub.GetInfo | internal/plugin/interface.go:46-50 | Exactly one request, reading back as GetInfo. The error is the channel's, unchanged. The info is the reply's when it has that shape |
| Stub.GetDrivers | internal/plugin/interface.go:52-56 | Exactly one GetDrivers request. The error is unchanged. The names are the reply's when it has that shape |
| Stub.GetDriverConfig | internal/plugin/interface.go:58-62 | Exactly one request carrying the bare name. The error is unchanged, and the field map is the reply's |
| Stub.InitDriver | internal/plugin/interface.go:64-70 | Exactly one request reading back as InitDriver with the same name and storage map; the error is unchanged |
| Stub.DropDriver | internal/plugin/interface.go:72-74 | Exactly one request reading back as DropDriver of the name; the error is unchanged |
| Stub.List | internal/plugin/interface.go:76-86 | Exactly one request reading back as List with the same arguments. The raw reply bytes and the error are returned unchanged |
| Stub.Link | internal/plugin/interface.go:88-98 | Exactly one request reading back as Link with the same arguments. The raw reply bytes and the error are returned unchanged |
| PluginAdapter.New | internal/plugin/adapter.go:20-25 | Keeps the client and the driver name; no storage is set |
| PluginAdapter.Config | internal/plugin/adapter.go:28-46 | The name is the bound driver name, the root is "/", the alert is empty and every flag is off |
| PluginAdapter.GetStorage | internal/plugin/adapter.go:48-51 | The stored record; unset for a new adapter (`New`) and the record last set afterwards (`SetThenGetStorage`) |
| PluginAdapter.SetStorage | internal/plugin/adapter.go:53-56 | Afterwards GetStorage returns the storage; the binding is unchanged |
| PluginAdapter.SetThenGetStorage | internal/plugin/adapter.go:49-56 | Storing then reading the storage gives it back, and nothing else changes |
| PluginAdapter.GetAddition | internal/plugin/adapter.go:59-63 | The addition is a map type, so the registry derives no additional items from it |
| PluginAdapter.Init | internal/plugin/adapter.go:66-73 | A conversion failure is wrapped as a storage conversion error and sends no request. Otherwise the result is exactly the stub's InitDriver for the bound name. Every request sent is about the bound name |
| PluginAdapter.Drop | internal/plugin/adapter.go:76-78 | Exactly the stub's DropDriver for the bound name |
| PluginAdapter.List | internal/plugin/adapter.go:81-102 | A dir or args conversion failure is reported, in that order, before any request. A remote error is returned unchanged with no objects. Otherwise the objects and the error are the decoding of the reply bytes. At most one request is sent, and it is about the bound name |
| PluginAdapter.Link | internal/plugin/adapter.go:105-126 | Same order of errors as List. Once the plugin answered, a link is returned together with the decode error. Without an error there is always a link |
| Discovery.ExtFromSpec | internal/plugin/manager.go:62 | The backward scan finds nothing iff no '.' is left in the last path element; otherwise it returns a proper extension of the name |
| Discovery.Ext | internal/plugin/manager.go:62 | `filepath.Ext` is empty iff the last path element has no '.', and otherwise it is a suffix of the name that starts with '.' and holds no other '.' or separator |
| Discovery.ExtExe | internal/plugin/manager.go:62 | The extension is ".exe" iff the name ends with ".exe" |
| Discovery.IsCandidate | internal/plugin/manager.go:57-62 | An entry is tried iff it is not a directory and its name ends with ".exe" or its last path element has no '.' |
| Discovery.Candidates | internal/plugin/manager.go:56-63 | An entry is kept iff it is not a directory and its extension is ".exe" or empty |
| Discovery.CandidatesAppend | internal/plugin/manager.go:56-68 | The filter works entry by entry, in listing order: the candidates of a concatenation are the concatenated candidates |
| Discovery.CandidatePathsAppend | internal/plugin/manager.go:56-68 | The paths tried for a concatenated listing are the paths of its first part followed by those of its second |
| Discovery.CandidatePaths | internal/plugin/manager.go:61-64 | One path per candidate, in order: the candidate's name joined to the directory |
| Manager.Start | internal/plugin/manager.go:34-42 | The first manager has an empty table. Over a consistent registry of host drivers it satisfies the invariant |
| Manager.PluginConstructor | internal/plugin/manager.go:171-174 | The constructor is bound to the client and driver name. Its driver reports that name with root "/", and its addition is supported by the schema builder |
| Manager.RegisterPluginDriver | internal/plugin/manager.go:164-179 | A taken name leaves the registry unchanged. A free name becomes bound to the plugin's adapter, with no additional items and the common items of the adapter's config. Every other name is untouched |
| Manager.RegisterPluginDrivers | internal/plugin/manager.go:143-146 | The names now registered are the old ones plus the listed ones. Previously registered names keep their constructors, so a name listed twice is registered once. The newly registered names are bound to this client, and consistency is preserved |
| Manager.UnregisterAll | internal/plugin/manager.go:191-195 | Exactly the listed names leave both maps; everything else keeps its entry |
| Manager.Kill | internal/plugin/manager.go:99-138 | The client is recorded as stopped and nothing else changes; stopping a client that no loaded plugin uses keeps the invariant |
| Manager.LoadPlugin | internal/plugin/manager.go:74-161 | A failure changes neither the table nor the registry, and a stat failure changes nothing at all. Existing entries and registered drivers are never changed. At most one entry is added: under success, with the load path and the new client. Every driver in its list is then registered. The invariant is preserved |
| Manager.LoadedInv | internal/plugin/manager.go:143-157 | The table and registry after a successful load satisfy the invariant |
| Manager.UnloadPlugin | internal/plugin/manager.go:182-205 | An unknown name fails with "plugin not found" and changes nothing. Otherwise the entry is removed, every listed driver name is unregistered, and the client is stopped. The invariant is preserved |
| Manager.UnloadedInv | internal/plugin/manager.go:182-205 | The state after an unload satisfies the invariant |
| Manager.ReloadPlugin | internal/plugin/manager.go:208-227 | An unknown name fails with no change. Otherwise the result is an unload followed by a load of the old path, and a load failure is wrapped with the plugin name and leaves it unloaded. The invariant is preserved |
| Manager.GetLoadedPlugins | internal/plugin/manager.go:255-265 | The same names as the table, each with the table's entry (path, client, drivers). Under the invariant each entry carries its own name and a live client |
| Manager.GetPluginDrivers | internal/plugin/manager.go:268-278 | Succeeds iff the plugin is loaded, returning its full driver list; otherwise "plugin not found" |
| Manager.Shutdown | internal/plugin/manager.go:299-309 | The table is empty and the registry is unchanged. Exactly the loaded plugins' clients are stopped. The invariant is preserved |
| Manager.LoadAll | internal/plugin/manager.go:56-68 | Loading a path list never changes existing entries or registered drivers and preserves the invariant |
| Manager.LoadPluginsFromDir | internal/plugin/manager.go:45-71 | A missing directory gives nil and no change, and an unreadable one gives the read error. Otherwise the result is nil after loading the candidate paths in listing order. Existing entries and drivers are kept |
| Manager.ScanDirs | internal/plugin/manager.go:289-293 | Scanning directories in turn keeps existing entries and drivers and preserves the invariant |
| Manager.RescanPlugins | internal/plugin/manager.go:281-296 | Always nil. Existing entries and drivers are kept, and the invariant is preserved |
| ManagerProperties.LoadPluginErrors | internal/plugin/manager.go:79-139 | A load fails exactly when stat, connect, dispense or the info request fails, or when the plugin is new and its driver list fails. Each failure carries its own wrapping |
| ManagerProperties.LoadPluginClients | internal/plugin/manager.go:79-139 | A stat failure changes nothing. Otherwise exactly one client is created, and it is stopped iff the table gained no entry |
| ManagerProperties.LoadPluginSuccess | internal/plugin/manager.go:135-157 | The table gains exactly the entry for the reported name, with the path, the new client and the full driver list. The registry registers that list, and GetPluginDrivers returns it |
| ManagerProperties.LoadPluginDuplicate | internal/plugin/manager.go:126-131 | A plugin whose name is already loaded gives nil with the table and registry unchanged. The first plugin stays and the new client is stopped |
| ManagerProperties.UnloadUndoesLoad | internal/plugin/manager.go:182-205 | Unloading right after a successful load restores table and registry when none of the plugin's driver names was taken |
| ManagerProperties.UnregisterUndoesRegisterAll | internal/plugin/manager.go:191-195 | Unregistering a list of free names right after registering it gives back the registry |
| ManagerProperties.UnloadDeletesForeignDriver | internal/plugin/manager.go:191-195 | Unload removes a listed driver name even when the registered constructor belongs to another source |
| ManagerProperties.CollisionThenUnload | internal/plugin/manager.go:164-195 | A host driver survives loading a plugin that offers the same name, the plugin still lists that name, and unloading the plugin removes the host's driver |
| ManagerProperties.ShutdownStrandsDrivers | internal/plugin/manager.go:299-309 | After shutdown a loaded plugin's drivers stay registered, bound to a stopped client, and no plugin is loaded |
| ManagerProperties.LoadAllAppend | internal/plugin/manager.go:56-68 | Loading a path list in two parts is the same as loading it whole |
| ManagerProperties.ScanListingInParts | internal/plugin/manager.go:51-68 | A listing in two parts is scanned as its first part, then its second |
| ManagerProperties.RescanOrder | internal/plugin/manager.go:281-296 | A rescan is the scan of ./plugins, ./data/plugins, /usr/local/share/openlist/plugins and /opt/openlist/plugins, in this order, reporting nil |
| ManagerProperties.LocalDriverScenario | internal/plugin/manager.go:164-205 | With a host "Local" driver, loading a plugin "demo" that offers "Local" keeps the host's driver, and unloading "demo" leaves no "Local" registered |

## Left out

- Process lifecycle and handshake are parameters of `Env.launch`. This covers `plugin.NewClient`, `client.Client()`, `Dispense`, the handshake constants and `Kill`; a stopped client is only recorded in `killed`.
- `GetPluginClient` (internal/plugin/manager.go:230-252) is not modelled. It only re-connects and re-dispenses an existing client, which is process machinery.
- `GetManager` and `sync.Once` are not modelled. `Manager.Start` gives the initial state.
- Locking is not modelled; the model has sequential semantics. Two concurrency defects fall outside it:
  - `RegisterDriver` holds the registry lock while `registerDriverItems` takes it again, which self-deadlocks with Go's non-reentrant mutex;
  - `ReloadPlugin` reads the table without the lock.
- `ReloadPlugin`'s "failed to unload" wrapping (internal/plugin/manager.go:217-219) is not modelled. Under sequential semantics `UnloadPlugin` cannot fail after the presence check just made.
- JSON is the `Codec` parameter, and no round trip of it is claimed. This covers `structToMap` and `json.Unmarshal`, along with the conversion of host records (`Storage`, `Obj`, `ListArgs`, `LinkArgs`, `Link`).
- `net/rpc` encoding is not modelled. The channel is a function from request to reply. A reply of another shape leaves the Go zero value in the reply variable (`Stub.InfoOf` and the like).
- `Config.MustProxy()` is the parameter `Env.mustProxy`; its definition is not part of this model.
- The form item type constants are not in the modelled files. They are taken as "string", "number", "text", "select" and "bool".
- `strings.ToLower` is modelled for ASCII letters only.
- An addition type that is neither a map nor a struct makes Go's reflection panic. `Registry.RegisterDriver` therefore requires a supported addition.
- `filepath.Join` path cleaning is the parameter `Env.join`.
- `filepath.Ext` is modelled with '/' as the only path separator, which is the Unix rule; Windows also stops at '\\'.
- Only `os.IsNotExist` on a directory is distinguished from other stat errors. `Dir.Missing` stands for it, and every other failure is `Unreadable`.
- Logging is not modelled.
- Manager.GetLoadedPlugins: the Go copy of the map shares the `*PluginInstance` pointers, and `GetPluginDrivers` returns the table's own `Drivers` slice, so a Go caller can change the manager's state, including the list `UnloadPlugin` later unregisters. The model is value-based and hands out independent copies, so that aliasing is not modelled.
- PluginAdapter.Init: requires the storage to be set. Go dereferences the storage pointer without a check, so `Init` on an adapter whose storage was never set panics; the model does not model the panic.
- cmd/common.go bootstrap and the goroutine test harness are not modelled.
- Schema.AdditionalItems: its own contract states only item types and count. Its content is stated against the reference definition by `Schema.AdditionalItemsAreKeptLeaves`.
