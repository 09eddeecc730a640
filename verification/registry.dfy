/**
 The host's driver registry: a map from driver name to constructor and a map from driver
 name to the derived form schema. Both are keyed by the name the constructed driver
 reports in its configuration.
 */
module Registry {
  import opened Outcomes
  import opened Driver
  import Schema

  /** Where a constructor's drivers come from: one of the host's own drivers, or an adapter
      bound to one driver name of one plugin client. */
  datatype Origin = BuiltIn(id: string) | PluginBinding(client: ClientId, driverName: string)

  /**
   A driver constructor, described by what a driver it builds reports: its `Config()` and
   the type of its `GetAddition()`.
   */
  datatype Constructor = Constructor(origin: Origin, config: Config, addition: TypeDesc)

  datatype Registry = Registry(drivers: map<string, Constructor>, infos: map<string, Info>)

  const Empty := Registry(map[], map[])

  /** The schema builder handles an addition that is, behind any pointers, a map or a
      struct; on any other type reflection panics. */
  predicate AdditionSupported(t: TypeDesc)
  {
    var u := Schema.StripPointers(t);
    u.MapType? || u.Struct?
  }

  /** Both maps have the same names, and every entry sits under the name its driver reports. */
  predicate Valid(reg: Registry)
  {
    && reg.drivers.Keys == reg.infos.Keys
    && (forall n :: n in reg.drivers ==> reg.drivers[n].config.name == n)
    && (forall n :: n in reg.infos ==> reg.infos[n].config == reg.drivers[n].config)
  }

  /**
   Records the form schema of a driver with configuration `config` and addition type
   `addition`: the common items, and the items of the addition struct unless the addition
   is a map, which contributes none.
   */
  function RegisterDriverItems(reg: Registry, config: Config, addition: TypeDesc, mustProxy: bool)
    : (r: Registry)
    requires AdditionSupported(addition)
    ensures r.drivers == reg.drivers
    ensures r.infos.Keys == reg.infos.Keys + {config.name}
    ensures forall n :: n in reg.infos && n != config.name ==> r.infos[n] == reg.infos[n]
    ensures r.infos[config.name].config == config
    ensures r.infos[config.name].common == Schema.MainItems(config, mustProxy)
    ensures Schema.StripPointers(addition).MapType? ==> r.infos[config.name].additional == []
    ensures Schema.StripPointers(addition).Struct? ==>
              r.infos[config.name].additional ==
              Schema.AdditionalItems(Schema.StripPointers(addition), config.defaultRoot)
  {
    var t := Schema.StripPointers(addition);
    var additional := if t.MapType? then [] else Schema.AdditionalItems(t, config.defaultRoot);
    reg.(infos := reg.infos[config.name := Info(Schema.MainItems(config, mustProxy), additional, config)])
  }

  /** Whether a constructor is registered under `name`; in a consistent registry this is
      also whether a form schema is recorded for it. */
  predicate IsDriverRegistered(reg: Registry, name: string): (b: bool)
    ensures b <==> name in reg.drivers
    ensures Valid(reg) ==> (b <==> name in reg.infos)
  {
    name in reg.drivers
  }

  function GetDriver(reg: Registry, name: string): (r: Result<Constructor>)
    ensures r.Ok? <==> IsDriverRegistered(reg, name)
    ensures r.Ok? ==> r.value == reg.drivers[name]
    ensures r.Err? ==> r.error == NoDriverNamed(name)
  {
    if name in reg.drivers then Ok(reg.drivers[name]) else Err(NoDriverNamed(name))
  }

  /**
   Registers constructor `c` under the name its driver reports, replacing whatever was
   registered under that name; `mustProxy` is the driver configuration's `MustProxy()`.
   */
  function RegisterDriver(reg: Registry, c: Constructor, mustProxy: Config -> bool): (r: Registry)
    requires AdditionSupported(c.addition)
    ensures IsDriverRegistered(r, c.config.name)
    ensures GetDriver(r, c.config.name) == Ok(c)
    ensures c.config.name in r.infos && r.infos[c.config.name].config == c.config
    ensures forall n :: n != c.config.name ==>
              (n in r.drivers <==> n in reg.drivers) && (n in r.infos <==> n in reg.infos)
    ensures forall n :: n != c.config.name && n in reg.drivers ==> r.drivers[n] == reg.drivers[n]
    ensures forall n :: n != c.config.name && n in reg.infos ==> r.infos[n] == reg.infos[n]
    ensures Valid(reg) ==> Valid(r)
  {
    var withItems := RegisterDriverItems(reg, c.config, c.addition, mustProxy(c.config));
    withItems.(drivers := withItems.drivers[c.config.name := c])
  }

  /** Removes `name` from both maps; every other name keeps its entries. */
  function UnregisterDriver(reg: Registry, name: string): (r: Registry)
    ensures !IsDriverRegistered(r, name) && name !in r.infos
    ensures forall n :: n != name ==>
              (n in r.drivers <==> n in reg.drivers) && (n in r.infos <==> n in reg.infos)
    ensures forall n :: n != name && n in reg.drivers ==> r.drivers[n] == reg.drivers[n]
    ensures forall n :: n != name && n in reg.infos ==> r.infos[n] == reg.infos[n]
    ensures name !in reg.drivers && name !in reg.infos ==> r == reg
    ensures Valid(reg) ==> Valid(r)
  {
    Registry(reg.drivers - {name}, reg.infos - {name})
  }

  /** The names in the schema map, each once, in an unspecified order. */
  method GetDriverNames(reg: Registry) returns (names: seq<string>)
    ensures forall n :: n in names <==> n in reg.infos
    ensures forall i, j :: 0 <= i < j < |names| ==> names[i] != names[j]
    ensures |names| == |reg.infos|
  {
    names := [];
    var rest := reg.infos.Keys;
    while rest != {}
      invariant rest <= reg.infos.Keys
      invariant forall n :: n in names <==> n in reg.infos.Keys - rest
      invariant forall i, j :: 0 <= i < j < |names| ==> names[i] != names[j]
      invariant |names| + |rest| == |reg.infos.Keys|
      decreases rest
    {
      var k :| k in rest;
      assert k !in names;
      names := names + [k];
      rest := rest - {k};
    }
  }

  /** A copy of the schema map: the same names, each with its schema, which in a consistent
      registry describes the driver registered under that name. */
  function GetDriverInfoMap(reg: Registry): (infos: map<string, Info>)
    ensures infos.Keys == reg.infos.Keys
    ensures forall n :: n in infos ==> infos[n] == reg.infos[n]
    ensures Valid(reg) ==>
              forall n :: n in infos ==> infos[n].config == reg.drivers[n].config && infos[n].config.name == n
  {
    map n | n in reg.infos :: reg.infos[n]
  }

  /** Registering a name twice keeps only the second constructor: the registry itself
      never refuses a duplicate. */
  lemma RegisterOverwrites(reg: Registry, c1: Constructor, c2: Constructor, mustProxy: Config -> bool)
    requires AdditionSupported(c1.addition) && AdditionSupported(c2.addition)
    requires c1.config.name == c2.config.name
    ensures GetDriver(RegisterDriver(RegisterDriver(reg, c1, mustProxy), c2, mustProxy),
                      c1.config.name) == Ok(c2)
  {
  }

  /** Unregistering a name that was just registered restores the registry, when the name
      was free before. */
  lemma {:induction false} UnregisterUndoesRegister(reg: Registry, c: Constructor, mustProxy: Config -> bool)
    requires AdditionSupported(c.addition)
    requires c.config.name !in reg.drivers && c.config.name !in reg.infos
    ensures UnregisterDriver(RegisterDriver(reg, c, mustProxy), c.config.name) == reg
  {
    var r := UnregisterDriver(RegisterDriver(reg, c, mustProxy), c.config.name);
    assert r.drivers == reg.drivers;
    assert r.infos == reg.infos;
  }
}
