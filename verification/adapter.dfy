/**
 The driver a plugin exposes, as the host sees it: an adapter bound to one plugin client
 and one remote driver name, forwarding each driver call to the plugin through the stub.
 */
module PluginAdapter {
  import opened Outcomes
  import opened Driver
  import opened Wire
  import Stub
  import Schema

  /** A host record (a storage, an object, list or link arguments, a link); its contents
      belong to the host and are not modelled. */
  datatype Record = Record(handle: nat)

  /**
   The JSON conversions the adapter relies on: a host record to a field map (which may
   fail), and the reply bytes of `List` and `Link` back to host records. A decoder returns
   whatever it filled in together with its error, as `json.Unmarshal` does.
   */
  datatype Codec = Codec(
    toMap: Record -> Result<Envelope>,
    decodeObjects: seq<bv8> -> (seq<Record>, Option<Error>),
    decodeLink: seq<bv8> -> (Record, Option<Error>))

  /** The adapter: the plugin client whose channel it calls, the remote driver name it is
      bound to, and the storage the host handed it, if any. */
  datatype Adapter = Adapter(client: ClientId, driverName: string, storage: Option<Record>)

  function New(client: ClientId, driverName: string): (a: Adapter)
    ensures a.client == client && a.driverName == driverName
    ensures GetStorage(a).None?
  {
    Adapter(client, driverName, None)
  }

  /** The fixed configuration every plugin driver reports: its remote name, root "/", and
      every flag off. */
  function Config(a: Adapter): (c: Driver.Config)
    ensures c.name == a.driverName
    ensures c.defaultRoot == "/" && c.alert == ""
    ensures !c.localSort && !c.onlyLinkMFile && !c.onlyProxy && !c.noCache && !c.noUpload
    ensures !c.needMs && !c.checkStatus && !c.noOverwriteUpload && !c.proxyRangeOption
    ensures !c.noLinkURL
  {
    Driver.Config(
      name := a.driverName,
      localSort := false,
      onlyLinkMFile := false,
      onlyProxy := false,
      noCache := false,
      noUpload := false,
      needMs := false,
      defaultRoot := "/",
      checkStatus := false,
      alert := "",
      noOverwriteUpload := false,
      proxyRangeOption := false,
      noLinkURL := false)
  }

  /** The storage record the adapter holds: unset for a new adapter, afterwards the last
      one set. */
  function GetStorage(a: Adapter): (s: Option<Record>)
    ensures s == a.storage
  {
    a.storage
  }

  function SetStorage(a: Adapter, s: Record): (r: Adapter)
    ensures GetStorage(r) == Some(s)
    ensures r.client == a.client && r.driverName == a.driverName
  {
    a.(storage := Some(s))
  }

  /** The addition is an empty generic map: its type is an unnamed map type. */
  function GetAddition(a: Adapter): (t: TypeDesc)
    ensures Schema.StripPointers(t).MapType?
  {
    MapType("")
  }

  /**
   Converts the storage and asks the plugin to initialise the driver. A failed conversion
   is reported without contacting the plugin; otherwise the result is exactly the stub's.
   */
  function Init(a: Adapter, codec: Codec, t: Transport): (x: Stub.Exchange<()>)
    requires a.storage.Some?
    ensures codec.toMap(a.storage.value).Err? ==>
              x.sent == [] && x.err == Some(ConvertFailed("storage", codec.toMap(a.storage.value).error))
    ensures codec.toMap(a.storage.value).Ok? ==>
              x == Stub.InitDriver(t, a.driverName, codec.toMap(a.storage.value).value)
    ensures forall q :: q in x.sent ==> BoundTo(q, a.driverName)
  {
    match codec.toMap(a.storage.value)
    case Err(e) => Stub.Exchange([], (), Some(ConvertFailed("storage", e)))
    case Ok(storageData) => Stub.InitDriver(t, a.driverName, storageData)
  }

  function Drop(a: Adapter, t: Transport): (x: Stub.Exchange<()>)
    ensures x == Stub.DropDriver(t, a.driverName)
    ensures forall q :: q in x.sent ==> BoundTo(q, a.driverName)
  {
    Stub.DropDriver(t, a.driverName)
  }

  /**
   Lists a directory through the plugin. A failed conversion of the directory or of the
   arguments is reported before any request; a remote error comes back unchanged with no
   objects; otherwise the objects are the decoding of the reply bytes, with the decoder's
   error.
   */
  function List(a: Adapter, codec: Codec, t: Transport, dir: Record, args: Record)
    : (x: Stub.Exchange<Option<seq<Record>>>)
    ensures codec.toMap(dir).Err? ==>
              x.sent == [] && x.value.None? && x.err == Some(ConvertFailed("dir", codec.toMap(dir).error))
    ensures codec.toMap(dir).Ok? && codec.toMap(args).Err? ==>
              x.sent == [] && x.value.None? && x.err == Some(ConvertFailed("args", codec.toMap(args).error))
    ensures codec.toMap(dir).Ok? && codec.toMap(args).Ok? ==>
              var y := Stub.List(t, a.driverName, codec.toMap(dir).value, codec.toMap(args).value);
              && x.sent == y.sent
              && (y.err.Some? ==> x.value.None? && x.err == y.err)
              && (y.err.None? ==> x.value == Some(codec.decodeObjects(y.value).0)
                                  && x.err == codec.decodeObjects(y.value).1)
    ensures |x.sent| <= 1
    ensures forall q :: q in x.sent ==> BoundTo(q, a.driverName)
  {
    match codec.toMap(dir)
    case Err(e) => Stub.Exchange([], None, Some(ConvertFailed("dir", e)))
    case Ok(dirData) =>
      match codec.toMap(args)
      case Err(e) => Stub.Exchange([], None, Some(ConvertFailed("args", e)))
      case Ok(argsData) =>
        var resp := Stub.List(t, a.driverName, dirData, argsData);
        if resp.err.Some? then Stub.Exchange(resp.sent, None, resp.err)
        else
          var (objects, err) := codec.decodeObjects(resp.value);
          Stub.Exchange(resp.sent, Some(objects), err)
  }

  /**
   Produces a link through the plugin, with the same error order as `List`; once the
   plugin answered, a link is returned even when decoding the reply failed.
   */
  function Link(a: Adapter, codec: Codec, t: Transport, file: Record, args: Record)
    : (x: Stub.Exchange<Option<Record>>)
    ensures codec.toMap(file).Err? ==>
              x.sent == [] && x.value.None? && x.err == Some(ConvertFailed("file", codec.toMap(file).error))
    ensures codec.toMap(file).Ok? && codec.toMap(args).Err? ==>
              x.sent == [] && x.value.None? && x.err == Some(ConvertFailed("args", codec.toMap(args).error))
    ensures codec.toMap(file).Ok? && codec.toMap(args).Ok? ==>
              var y := Stub.Link(t, a.driverName, codec.toMap(file).value, codec.toMap(args).value);
              && x.sent == y.sent
              && (y.err.Some? ==> x.value.None? && x.err == y.err)
              && (y.err.None? ==> x.value == Some(codec.decodeLink(y.value).0)
                                  && x.err == codec.decodeLink(y.value).1)
    ensures x.err.None? ==> x.value.Some?
    ensures |x.sent| <= 1
    ensures forall q :: q in x.sent ==> BoundTo(q, a.driverName)
  {
    match codec.toMap(file)
    case Err(e) => Stub.Exchange([], None, Some(ConvertFailed("file", e)))
    case Ok(fileData) =>
      match codec.toMap(args)
      case Err(e) => Stub.Exchange([], None, Some(ConvertFailed("args", e)))
      case Ok(argsData) =>
        var resp := Stub.Link(t, a.driverName, fileData, argsData);
        if resp.err.Some? then Stub.Exchange(resp.sent, None, resp.err)
        else
          var (link, err) := codec.decodeLink(resp.value);
          Stub.Exchange(resp.sent, Some(link), err)
  }

  /** Storing a storage and reading it back yields that storage; the binding is kept. */
  lemma SetThenGetStorage(a: Adapter, s: Record)
    ensures GetStorage(SetStorage(a, s)) == Some(s)
    ensures SetStorage(a, s).client == a.client && SetStorage(a, s).driverName == a.driverName
  {
  }
}
