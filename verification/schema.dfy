/**
 The configuration-form schema the driver registry derives for every driver: the common
 items every storage has (`getMainItems`) and the items read from the fields and tags of
 the driver's addition struct (`getAdditionalItems`).
 */
module Schema {
  import opened Driver

  // ---------------------------------------------------------------------------
  // Common items
  // ---------------------------------------------------------------------------

  const MountPath := Item("mount_path", TypeString, "", "", true,
                          "The path you want to mount to, it is unique and cannot be repeated")
  const Order := Item("order", TypeNumber, "", "", false, "use to sort")
  const Remark := Item("remark", TypeText, "", "", false, "")
  const CacheExpiration := Item("cache_expiration", TypeNumber, "30", "", true,
                                "The cache expiration time for this storage")
  const WebProxy := Item("web_proxy", TypeBool, "", "", false, "")
  const DownProxyUrl := Item("down_proxy_url", TypeText, "", "", false, "")
  const DisableProxySign := Item("disable_proxy_sign", TypeBool, "false", "", false,
                                 "Disable sign for Download proxy URL")
  const OrderBy := Item("order_by", TypeSelect, "", "name,size,modified", false, "")
  const OrderDirection := Item("order_direction", TypeSelect, "", "asc,desc", false, "")
  const ExtractFolder := Item("extract_folder", TypeSelect, "", "front,back", false, "")
  const DisableIndex := Item("disable_index", TypeBool, "false", "", true, "")
  const EnableSign := Item("enable_sign", TypeBool, "false", "", true, "")

  /** The webdav policy item: a driver that must proxy offers no redirect. */
  function WebdavPolicy(mustProxy: bool): Item
  {
    if mustProxy then
      Item("webdav_policy", TypeSelect, "native_proxy", "use_proxy_url,native_proxy", true, "")
    else
      Item("webdav_policy", TypeSelect, "302_redirect", "302_redirect,use_proxy_url,native_proxy", true, "")
  }

  /** The proxy-range switch; only the driver named 139Yun turns it on by default. */
  function ProxyRange(driverName: string): Item
  {
    Item("proxy_range", TypeBool, if driverName == "139Yun" then "true" else "", "", false,
         "Need to enable proxy")
  }

  /**
   The names of the common items of a driver with configuration `config`, in form order,
   where `mustProxy` is what `config.MustProxy()` reports: the cache item unless caching
   is off; the web proxy switch and the proxy-range switch only for drivers that may
   redirect; the sort items only for locally sorted drivers.
   */
  function MainNames(config: Config, mustProxy: bool): seq<string>
  {
    ["mount_path", "order", "remark"]
    + (if !config.noCache then ["cache_expiration"] else [])
    + (if mustProxy then ["webdav_policy"]
       else ["web_proxy", "webdav_policy"] + (if config.proxyRangeOption then ["proxy_range"] else []))
    + ["down_proxy_url", "disable_proxy_sign"]
    + (if config.localSort then ["order_by", "order_direction"] else [])
    + ["extract_folder", "disable_index", "enable_sign"]
  }

  /** The common item called `name` for this driver. */
  function MainItem(name: string, config: Config, mustProxy: bool): (item: Item)
    ensures item.name == name
  {
    if name == "mount_path" then MountPath
    else if name == "order" then Order
    else if name == "remark" then Remark
    else if name == "cache_expiration" then CacheExpiration
    else if name == "web_proxy" then WebProxy
    else if name == "webdav_policy" then WebdavPolicy(mustProxy)
    else if name == "proxy_range" then ProxyRange(config.name)
    else if name == "down_proxy_url" then DownProxyUrl
    else if name == "disable_proxy_sign" then DisableProxySign
    else if name == "order_by" then OrderBy
    else if name == "order_direction" then OrderDirection
    else if name == "extract_folder" then ExtractFolder
    else if name == "disable_index" then DisableIndex
    else if name == "enable_sign" then EnableSign
    else Item(name, "", "", "", false, "")
  }

  /** The common items of a driver: the items of `MainNames`, in that order. */
  function MainItems(config: Config, mustProxy: bool): (items: seq<Item>)
    ensures ItemNames(items) == MainNames(config, mustProxy)
    ensures |items| >= 9
    ensures items[0] == MountPath && items[0].required
    ensures items[1] == Order && items[2] == Remark
    ensures items[|items| - 3] == ExtractFolder
    ensures items[|items| - 2] == DisableIndex && items[|items| - 2].required
    ensures items[|items| - 1] == EnableSign && items[|items| - 1].required
    ensures forall i :: 0 <= i < |items| && items[i].name == "webdav_policy" ==>
              items[i] == WebdavPolicy(mustProxy)
    ensures forall i :: 0 <= i < |items| && items[i].name == "proxy_range" ==>
              (items[i].default == "true" <==> config.name == "139Yun")
  {
    var names := MainNames(config, mustProxy);
    seq(|names|, i requires 0 <= i < |names| => MainItem(names[i], config, mustProxy))
  }

  /**
   Which optional items the common form holds: the cache item unless caching is off, the
   web proxy switch unless the driver must proxy, the proxy-range switch when the driver
   may redirect and offers it, the sort items for locally sorted drivers, and in every
   case exactly one webdav policy item.
   */
  lemma MainItemsPresence(config: Config, mustProxy: bool)
    ensures "cache_expiration" in ItemNames(MainItems(config, mustProxy)) <==> !config.noCache
    ensures "web_proxy" in ItemNames(MainItems(config, mustProxy)) <==> !mustProxy
    ensures "proxy_range" in ItemNames(MainItems(config, mustProxy)) <==>
              !mustProxy && config.proxyRangeOption
    ensures "order_by" in ItemNames(MainItems(config, mustProxy)) <==> config.localSort
    ensures "order_direction" in ItemNames(MainItems(config, mustProxy)) <==> config.localSort
    ensures "webdav_policy" in ItemNames(MainItems(config, mustProxy))
    ensures forall i, j ::
              (0 <= i < j < |MainItems(config, mustProxy)| &&
               MainItems(config, mustProxy)[i].name == "webdav_policy") ==>
              MainItems(config, mustProxy)[j].name != "webdav_policy"
  {
    CacheNamed(config, mustProxy);
    ProxyNamed(config, mustProxy);
    ProxyRangeNamed(config, mustProxy);
    SortNamed(config, mustProxy);
    WebdavNamed(config, mustProxy);
  }

  // One fact per lemma about the name list: together they exhaust the solver.

  lemma CacheNamed(config: Config, mustProxy: bool)
    ensures "cache_expiration" in MainNames(config, mustProxy) <==> !config.noCache
  {}

  lemma ProxyNamed(config: Config, mustProxy: bool)
    ensures "web_proxy" in MainNames(config, mustProxy) <==> !mustProxy
  {}

  lemma ProxyRangeNamed(config: Config, mustProxy: bool)
    ensures "proxy_range" in MainNames(config, mustProxy) <==> !mustProxy && config.proxyRangeOption
  {}

  lemma SortNamed(config: Config, mustProxy: bool)
    ensures "order_by" in MainNames(config, mustProxy) <==> config.localSort
    ensures "order_direction" in MainNames(config, mustProxy) <==> config.localSort
  {}

  lemma WebdavNamed(config: Config, mustProxy: bool)
    ensures "webdav_policy" in MainNames(config, mustProxy)
    ensures forall i, j ::
              (0 <= i < j < |MainNames(config, mustProxy)| &&
               MainNames(config, mustProxy)[i] == "webdav_policy") ==>
              MainNames(config, mustProxy)[j] != "webdav_policy"
  {}

  // ---------------------------------------------------------------------------
  // Items derived from the addition type
  // ---------------------------------------------------------------------------

  /** Follows pointer types down to the type they point at. */
  function StripPointers(t: TypeDesc): (u: TypeDesc)
    ensures !u.Pointer?
    ensures !t.Pointer? ==> u == t
  {
    match t
    case Pointer(e) => StripPointers(e)
    case _ => t
  }

  /** `u` behind `k` pointer types. */
  function Wrap(u: TypeDesc, k: nat): TypeDesc
  {
    if k == 0 then u else Pointer(Wrap(u, k - 1))
  }

  /** The stripped type is the one the pointers lead to: wrapping it again in some number
      of pointers gives back the original type. */
  lemma {:induction false} StripIsPointee(t: TypeDesc) returns (k: nat)
    ensures Wrap(StripPointers(t), k) == t
  {
    match t
    case Pointer(e) =>
      var j := StripIsPointee(e);
      k := j + 1;
    case _ =>
      k := 0;
  }

  /** Lower-cases the ASCII letters of `s`. */
  function ToLower(s: string): (r: string)
    ensures |r| == |s|
    ensures forall i :: 0 <= i < |s| ==> r[i] == LowerChar(s[i])
  {
    if s == [] then [] else [LowerChar(s[0])] + ToLower(s[1..])
  }

  function LowerChar(c: char): char
  {
    if 'A' <= c <= 'Z' then (c as int + 32) as char else c
  }

  /** A leaf field contributes an item unless its `ignore` tag is "true" or it has no `json` tag. */
  predicate Kept(f: Field)
  {
    !("ignore" in f.tag && f.tag["ignore"] == "true") && "json" in f.tag
  }

  predicate IsRootField(name: string)
  {
    name == "root_folder_id" || name == "root_folder_path"
  }

  /**
   The form item of a kept leaf field. The `type` tag overrides the lower-cased type name;
   a root folder field falls back to `defaultRoot` and is required exactly when it then
   has a default; an empty type becomes "string".
   */
  function ItemOf(f: Field, defaultRoot: string): (item: Item)
    requires Kept(f)
    ensures item.name == f.tag["json"]
    ensures item.typ != ""
    ensures TagGet(f.tag, "type") != "" ==> item.typ == TagGet(f.tag, "type")
    ensures TagGet(f.tag, "type") == "" && ToLower(TypeName(f.typ)) != "" ==>
              item.typ == ToLower(TypeName(f.typ))
    ensures TagGet(f.tag, "type") == "" && TypeName(f.typ) == "" ==> item.typ == "string"
    ensures item.options == TagGet(f.tag, "options") && item.help == TagGet(f.tag, "help")
    ensures IsRootField(item.name) ==>
              item.default == (if TagGet(f.tag, "default") == "" then defaultRoot
                               else TagGet(f.tag, "default"))
              && (item.required <==> item.default != "")
    ensures !IsRootField(item.name) ==>
              item.default == TagGet(f.tag, "default")
              && (item.required <==> TagGet(f.tag, "required") == "true")
  {
    var tag := f.tag;
    var name := tag["json"];
    var typ := if TagGet(tag, "type") != "" then TagGet(tag, "type") else ToLower(TypeName(f.typ));
    var default0 := TagGet(tag, "default");
    var default := if IsRootField(name) && default0 == "" then defaultRoot else default0;
    var required := if IsRootField(name) then default != "" else TagGet(tag, "required") == "true";
    Item(name, if typ == "" then "string" else typ, default, TagGet(tag, "options"), required,
         TagGet(tag, "help"))
  }

  /**
   The items of struct type `t`: its fields in order, a struct-typed field contributing the
   items of its own fields in its place.
   */
  function AdditionalItems(t: TypeDesc, defaultRoot: string): (items: seq<Item>)
    requires t.Struct?
    ensures forall i :: 0 <= i < |items| ==> items[i].typ != ""
    ensures |items| <= |LeafFields(t)|
    decreases t, 1
  {
    AdditionalItemsFrom(t, 0, defaultRoot)
  }

  /** The items of the fields of `t` from index `i` on. */
  function AdditionalItemsFrom(t: TypeDesc, i: nat, defaultRoot: string): (items: seq<Item>)
    requires t.Struct? && i <= |t.fields|
    ensures forall k :: 0 <= k < |items| ==> items[k].typ != ""
    ensures |items| <= |LeafFieldsFrom(t, i)|
    decreases t, 0, |t.fields| - i
  {
    if i == |t.fields| then []
    else
      var f := t.fields[i];
      var here :=
        if f.typ.Struct? then AdditionalItems(f.typ, defaultRoot)
        else if !Kept(f) then []
        else [ItemOf(f, defaultRoot)];
      here + AdditionalItemsFrom(t, i + 1, defaultRoot)
  }

  // ---------------------------------------------------------------------------
  // Reference definition: flatten first, then filter and convert
  // ---------------------------------------------------------------------------

  /** The non-struct fields reachable from struct `t`, nested structs flattened in place. */
  function LeafFields(t: TypeDesc): (fs: seq<Field>)
    requires t.Struct?
    ensures forall k :: 0 <= k < |fs| ==> !fs[k].typ.Struct?
    decreases t, 1
  {
    LeafFieldsFrom(t, 0)
  }

  function LeafFieldsFrom(t: TypeDesc, i: nat): (fs: seq<Field>)
    requires t.Struct? && i <= |t.fields|
    ensures forall k :: 0 <= k < |fs| ==> !fs[k].typ.Struct?
    decreases t, 0, |t.fields| - i
  {
    if i == |t.fields| then []
    else
      var f := t.fields[i];
      (if f.typ.Struct? then LeafFields(f.typ) else [f]) + LeafFieldsFrom(t, i + 1)
  }

  /** The items of the kept fields of a flat field list, in order. */
  function KeptItems(fs: seq<Field>, defaultRoot: string): seq<Item>
  {
    if fs == [] then []
    else (if Kept(fs[0]) then [ItemOf(fs[0], defaultRoot)] else []) + KeptItems(fs[1..], defaultRoot)
  }

  lemma {:induction false} KeptItemsAppend(a: seq<Field>, b: seq<Field>, defaultRoot: string)
    ensures KeptItems(a + b, defaultRoot) == KeptItems(a, defaultRoot) + KeptItems(b, defaultRoot)
    decreases |a|
  {
    if a == [] {
      assert a + b == b;
    } else {
      assert (a + b)[1..] == a[1..] + b;
      KeptItemsAppend(a[1..], b, defaultRoot);
    }
  }

  /** The schema walk equals flattening the struct and keeping the tagged, not ignored leaves. */
  lemma {:induction false} AdditionalItemsAreKeptLeaves(t: TypeDesc, defaultRoot: string)
    requires t.Struct?
    ensures AdditionalItems(t, defaultRoot) == KeptItems(LeafFields(t), defaultRoot)
    decreases t, 1
  {
    AdditionalItemsFromAreKeptLeaves(t, 0, defaultRoot);
  }

  lemma {:induction false} AdditionalItemsFromAreKeptLeaves(t: TypeDesc, i: nat, defaultRoot: string)
    requires t.Struct? && i <= |t.fields|
    ensures AdditionalItemsFrom(t, i, defaultRoot) == KeptItems(LeafFieldsFrom(t, i), defaultRoot)
    decreases t, 0, |t.fields| - i
  {
    if i < |t.fields| {
      var f := t.fields[i];
      var here := if f.typ.Struct? then LeafFields(f.typ) else [f];
      AdditionalItemsFromAreKeptLeaves(t, i + 1, defaultRoot);
      KeptItemsAppend(here, LeafFieldsFrom(t, i + 1), defaultRoot);
      if f.typ.Struct? {
        AdditionalItemsAreKeptLeaves(f.typ, defaultRoot);
      } else {
        assert KeptItems([f], defaultRoot) == (if Kept(f) then [ItemOf(f, defaultRoot)] else []);
      }
    }
  }

  /** A kept leaf field of `t` yields exactly one item, named by its json tag. */
  lemma KeptLeafHasItem(t: TypeDesc, defaultRoot: string, k: nat)
    requires t.Struct?
    requires k < |LeafFields(t)| && Kept(LeafFields(t)[k])
    ensures ItemOf(LeafFields(t)[k], defaultRoot) in AdditionalItems(t, defaultRoot)
  {
    AdditionalItemsAreKeptLeaves(t, defaultRoot);
    KeptItemsContains(LeafFields(t), defaultRoot, k);
  }

  lemma {:induction false} KeptItemsContains(fs: seq<Field>, defaultRoot: string, k: nat)
    requires k < |fs| && Kept(fs[k])
    ensures ItemOf(fs[k], defaultRoot) in KeptItems(fs, defaultRoot)
    decreases |fs|
  {
    if k > 0 {
      KeptItemsContains(fs[1..], defaultRoot, k - 1);
    }
  }

  /** Every item comes from a kept leaf field, converted by `ItemOf`. */
  lemma {:induction false} KeptItemsFromKept(fs: seq<Field>, defaultRoot: string, item: Item)
    requires item in KeptItems(fs, defaultRoot)
    ensures exists k :: 0 <= k < |fs| && Kept(fs[k]) && item == ItemOf(fs[k], defaultRoot)
    decreases |fs|
  {
    if fs != [] {
      if Kept(fs[0]) && item == ItemOf(fs[0], defaultRoot) {
        assert Kept(fs[0]) && item == ItemOf(fs[0], defaultRoot);
      } else {
        KeptItemsFromKept(fs[1..], defaultRoot, item);
        var k :| 0 <= k < |fs[1..]| && Kept(fs[1..][k]) && item == ItemOf(fs[1..][k], defaultRoot);
        assert fs[k + 1] == fs[1..][k];
      }
    }
  }
}
