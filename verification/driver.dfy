/**
 The host's driver description types: the configuration a driver reports about itself,
 the form items derived from it, and a reflection-free description of a driver's
 "addition" type (its extra configuration struct).
 */
module Driver {

  /** The flags and names a driver reports through `Config()`. */
  datatype Config = Config(
    name: string,
    localSort: bool,
    onlyLinkMFile: bool,
    onlyProxy: bool,
    noCache: bool,
    noUpload: bool,
    needMs: bool,
    defaultRoot: string,
    checkStatus: bool,
    alert: string,
    noOverwriteUpload: bool,
    proxyRangeOption: bool,
    noLinkURL: bool)

  /** One field of the storage configuration form. */
  datatype Item = Item(
    name: string,
    typ: string,
    default: string,
    options: string,
    required: bool,
    help: string)

  /** What the registry stores per driver name: the common items, the items derived from
      the addition, and the configuration the driver reported. */
  datatype Info = Info(common: seq<Item>, additional: seq<Item>, config: Config)

  /** The form item types of the host's configuration package. */
  const TypeString := "string"
  const TypeNumber := "number"
  const TypeText := "text"
  const TypeSelect := "select"
  const TypeBool := "bool"

  /**
   The shape of a Go type as reflection sees it, restricted to what the schema builder
   inspects: pointers are followed, maps are recognised, structs are walked field by field,
   and every other type only contributes its name (empty for unnamed types).
   */
  datatype TypeDesc =
    | Pointer(elem: TypeDesc)
    | MapType(name: string)
    | Struct(fields: seq<Field>)
    | Other(name: string)

  /** A struct field: its type and its tag, as key/value pairs. */
  datatype Field = Field(typ: TypeDesc, tag: map<string, string>)

  /** The name reflection reports for a type; pointer and struct types reach the leaf
      rule unnamed. */
  function TypeName(t: TypeDesc): string
  {
    match t
    case MapType(n) => n
    case Other(n) => n
    case _ => ""
  }

  /** `tag.Get(key)`: the value for the key, or the empty string. */
  function TagGet(tag: map<string, string>, key: string): string
  {
    if key in tag then tag[key] else ""
  }

  function ItemNames(items: seq<Item>): (names: seq<string>)
    ensures |names| == |items|
    ensures forall i :: 0 <= i < |items| ==> names[i] == items[i].name
  {
    seq(|items|, i requires 0 <= i < |items| => items[i].name)
  }
}
