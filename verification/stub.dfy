/**
 The host-side RPC stub of a plugin: each method sends exactly one request over the
 plugin's channel and hands back what the channel replied, error included, unchanged.
 */
module Stub {
  import opened Outcomes
  import opened Wire

  /** The requests one operation sent, in order, with its result value and error. */
  datatype Exchange<T> = Exchange(sent: seq<Request>, value: T, err: Option<Error>)

  /** The one-request exchange of `call`: the channel sees the request and sees nothing else. */
  predicate SingleCall<T>(x: Exchange<T>, t: Transport, call: Call)
  {
    && |x.sent| == 1
    && Decode(x.sent[0]) == Some(call)
    && x.err == t(x.sent[0]).err
  }

  function Invoke(t: Transport, call: Call): (x: Exchange<Payload>)
    ensures SingleCall(x, t, call)
    ensures x.value == t(x.sent[0]).payload
  {
    DecodeEncode(call);
    var req := Encode(call);
    Exchange([req], t(req).payload, t(req).err)
  }

  // The value the reply variable holds afterwards: the channel's reply when it has the
  // expected shape, the Go zero value otherwise.

  function InfoOf(p: Payload): PluginInfo
  {
    if p.InfoPayload? then p.info else PluginInfo("", "", "", "")
  }

  function NamesOf(p: Payload): seq<string>
  {
    if p.NamesPayload? then p.names else []
  }

  function FieldsOf(p: Payload): Envelope
  {
    if p.FieldsPayload? then p.fields else map[]
  }

  function BytesOf(p: Payload): seq<bv8>
  {
    if p.BytesPayload? then p.bytes else []
  }

  function GetInfo(t: Transport): (x: Exchange<PluginInfo>)
    ensures SingleCall(x, t, Call.GetInfo)
    ensures t(x.sent[0]).payload.InfoPayload? ==> x.value == t(x.sent[0]).payload.info
  {
    var r := Invoke(t, Call.GetInfo);
    Exchange(r.sent, InfoOf(r.value), r.err)
  }

  function GetDrivers(t: Transport): (x: Exchange<seq<string>>)
    ensures SingleCall(x, t, Call.GetDrivers)
    ensures t(x.sent[0]).payload.NamesPayload? ==> x.value == t(x.sent[0]).payload.names
  {
    var r := Invoke(t, Call.GetDrivers);
    Exchange(r.sent, NamesOf(r.value), r.err)
  }

  function GetDriverConfig(t: Transport, name: string): (x: Exchange<Envelope>)
    ensures SingleCall(x, t, Call.GetDriverConfig(name))
    ensures t(x.sent[0]).payload.FieldsPayload? ==> x.value == t(x.sent[0]).payload.fields
  {
    var r := Invoke(t, Call.GetDriverConfig(name));
    Exchange(r.sent, FieldsOf(r.value), r.err)
  }

  function InitDriver(t: Transport, driverName: string, storageData: Envelope): (x: Exchange<()>)
    ensures SingleCall(x, t, Call.InitDriver(driverName, storageData))
  {
    var r := Invoke(t, Call.InitDriver(driverName, storageData));
    Exchange(r.sent, (), r.err)
  }

  function DropDriver(t: Transport, driverName: string): (x: Exchange<()>)
    ensures SingleCall(x, t, Call.DropDriver(driverName))
  {
    var r := Invoke(t, Call.DropDriver(driverName));
    Exchange(r.sent, (), r.err)
  }

  function List(t: Transport, driverName: string, dirData: Envelope, argsData: Envelope)
    : (x: Exchange<seq<bv8>>)
    ensures SingleCall(x, t, Call.List(driverName, dirData, argsData))
    ensures x.value == BytesOf(t(x.sent[0]).payload)
  {
    var r := Invoke(t, Call.List(driverName, dirData, argsData));
    Exchange(r.sent, BytesOf(r.value), r.err)
  }

  function Link(t: Transport, driverName: string, fileData: Envelope, argsData: Envelope)
    : (x: Exchange<seq<bv8>>)
    ensures SingleCall(x, t, Call.Link(driverName, fileData, argsData))
    ensures x.value == BytesOf(t(x.sent[0]).payload)
  {
    var r := Invoke(t, Call.Link(driverName, fileData, argsData));
    Exchange(r.sent, BytesOf(r.value), r.err)
  }
}
