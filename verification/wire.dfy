/**
 The requests the host sends to a plugin over RPC: one named method per call, with a
 fixed argument shape for each, and the replies the channel delivers.
 */
module Wire {
  import opened Outcomes

  /** A schema-less structural value, as `map[string]interface{}` holds after a JSON round trip. */
  datatype Json =
    | JNull
    | JBool(b: bool)
    | JNumber(n: int)
    | JString(s: string)
    | JArray(items: seq<Json>)
    | JObject(fields: map<string, Json>)

  /** A host record converted to a field map. */
  type Envelope = map<string, Json>

  datatype PluginInfo = PluginInfo(name: string, version: string, description: string, author: string)

  /** The logical calls of the plugin's RPC surface. */
  datatype Call =
    | GetInfo
    | GetDrivers
    | GetDriverConfig(name: string)
    | InitDriver(driverName: string, storageData: Envelope)
    | DropDriver(driverName: string)
    | List(driverName: string, dirData: Envelope, argsData: Envelope)
    | Link(driverName: string, fileData: Envelope, argsData: Envelope)

  /** What travels over the channel: the RPC method name and its argument. */
  datatype Request = Request(methodName: string, args: Json)

  /** The value the channel leaves in the reply variable. */
  datatype Payload =
    | NoPayload
    | InfoPayload(info: PluginInfo)
    | NamesPayload(names: seq<string>)
    | FieldsPayload(fields: Envelope)
    | BytesPayload(bytes: seq<bv8>)

  /** The outcome of one `rpc.Client.Call`: the reply it decoded and the error it returned. */
  datatype Reply = Reply(payload: Payload, err: Option<Error>)

  /** One plugin's RPC channel, which is not part of this model: it answers every request. */
  type Transport = Request -> Reply

  /** The driver a call is about, if any. */
  function TargetDriver(c: Call): Option<string>
  {
    match c
    case GetInfo => None
    case GetDrivers => None
    case GetDriverConfig(n) => Some(n)
    case InitDriver(n, _) => Some(n)
    case DropDriver(n) => Some(n)
    case List(n, _, _) => Some(n)
    case Link(n, _, _) => Some(n)
  }

  /**
   The request of a call. Calls without arguments send a null placeholder, calls about a
   driver by name alone send the bare name, and the others send a record with one key per
   argument.
   */
  function Encode(c: Call): (req: Request)
    ensures c.GetInfo? ==> req == Request("Plugin.GetInfo", JNull)
    ensures c.GetDrivers? ==> req == Request("Plugin.GetDrivers", JNull)
    ensures c.GetDriverConfig? ==> req == Request("Plugin.GetDriverConfig", JString(c.name))
    ensures c.DropDriver? ==> req == Request("Plugin.DropDriver", JString(c.driverName))
    ensures c.InitDriver? ==>
              req.methodName == "Plugin.InitDriver" && req.args.JObject?
              && req.args.fields.Keys == {"driver_name", "storage_data"}
              && req.args.fields["driver_name"] == JString(c.driverName)
              && req.args.fields["storage_data"] == JObject(c.storageData)
    ensures c.List? ==>
              req.methodName == "Plugin.List" && req.args.JObject?
              && req.args.fields.Keys == {"driver_name", "dir_data", "args_data"}
              && req.args.fields["driver_name"] == JString(c.driverName)
              && req.args.fields["dir_data"] == JObject(c.dirData)
              && req.args.fields["args_data"] == JObject(c.argsData)
    ensures c.Link? ==>
              req.methodName == "Plugin.Link" && req.args.JObject?
              && req.args.fields.Keys == {"driver_name", "file_data", "args_data"}
              && req.args.fields["driver_name"] == JString(c.driverName)
              && req.args.fields["file_data"] == JObject(c.fileData)
              && req.args.fields["args_data"] == JObject(c.argsData)
  {
    match c
    case GetInfo => Request("Plugin.GetInfo", JNull)
    case GetDrivers => Request("Plugin.GetDrivers", JNull)
    case GetDriverConfig(n) => Request("Plugin.GetDriverConfig", JString(n))
    case InitDriver(n, s) =>
      Request("Plugin.InitDriver", JObject(map["driver_name" := JString(n), "storage_data" := JObject(s)]))
    case DropDriver(n) => Request("Plugin.DropDriver", JString(n))
    case List(n, d, a) =>
      Request("Plugin.List",
              JObject(map["driver_name" := JString(n), "dir_data" := JObject(d), "args_data" := JObject(a)]))
    case Link(n, f, a) =>
      Request("Plugin.Link",
              JObject(map["driver_name" := JString(n), "file_data" := JObject(f), "args_data" := JObject(a)]))
  }

  /** A record argument with exactly the given keys, each an object except `driver_name`, a string. */
  predicate RecordShape(args: Json, keys: set<string>)
  {
    && args.JObject?
    && args.fields.Keys == keys
    && "driver_name" in keys
    && args.fields["driver_name"].JString?
    && (forall k :: k in keys && k != "driver_name" ==> args.fields[k].JObject?)
  }

  /** How the plugin side reads a request back into a call; `None` for a malformed request. */
  function Decode(req: Request): (c: Option<Call>)
    ensures c.Some? ==> req.methodName == Encode(c.value).methodName
  {
    var a := req.args;
    if req.methodName == "Plugin.GetInfo" && a == JNull then Some(GetInfo)
    else if req.methodName == "Plugin.GetDrivers" && a == JNull then Some(GetDrivers)
    else if req.methodName == "Plugin.GetDriverConfig" && a.JString? then Some(GetDriverConfig(a.s))
    else if req.methodName == "Plugin.DropDriver" && a.JString? then Some(DropDriver(a.s))
    else if req.methodName == "Plugin.InitDriver" && RecordShape(a, {"driver_name", "storage_data"}) then
      Some(InitDriver(a.fields["driver_name"].s, a.fields["storage_data"].fields))
    else if req.methodName == "Plugin.List" && RecordShape(a, {"driver_name", "dir_data", "args_data"}) then
      Some(List(a.fields["driver_name"].s, a.fields["dir_data"].fields, a.fields["args_data"].fields))
    else if req.methodName == "Plugin.Link" && RecordShape(a, {"driver_name", "file_data", "args_data"}) then
      Some(Link(a.fields["driver_name"].s, a.fields["file_data"].fields, a.fields["args_data"].fields))
    else None
  }

  /** Every request is read back as the call that produced it. */
  lemma DecodeEncode(c: Call)
    ensures Decode(Encode(c)) == Some(c)
  {
    match c
    case InitDriver(n, s) =>
      assert RecordShape(Encode(c).args, {"driver_name", "storage_data"});
    case List(n, d, a) =>
      assert RecordShape(Encode(c).args, {"driver_name", "dir_data", "args_data"});
    case Link(n, f, a) =>
      assert RecordShape(Encode(c).args, {"driver_name", "file_data", "args_data"});
    case _ =>
  }

  /** Distinct calls send distinct requests. */
  lemma EncodeInjective(c1: Call, c2: Call)
    requires Encode(c1) == Encode(c2)
    ensures c1 == c2
  {
    DecodeEncode(c1);
    DecodeEncode(c2);
  }

  /** The request addresses driver `name`: it reads back as a call about that driver. */
  predicate BoundTo(req: Request, name: string)
  {
    Decode(req).Some? && TargetDriver(Decode(req).value) == Some(name)
  }
}
