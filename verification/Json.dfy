/** Plain data as the harness stores and exchanges it: JSON values, and how
    JavaScript reads a property of one or turns one into a string. */
module Json {
  datatype Option<+T> = None | Some(value: T)

  datatype Value =
    | Null
    | Bool(b: bool)
    | Num(n: int)
    | Str(s: string)
    | Arr(items: seq<Value>)
    | Obj(fields: map<string, Value>)

  /** `v.key`: None stands for `undefined`. */
  function Field(v: Value, key: string): Option<Value> {
    if v.Obj? && key in v.fields then Some(v.fields[key]) else None
  }

  /** The property when it is a string, as `typeof v.key === "string"` asks. */
  function TextField(v: Value, key: string): Option<string> {
    match Field(v, key)
    case Some(Str(s)) => Some(s)
    case _ => None
  }

  /** `v.type === tag`. */
  predicate HasType(v: Value, tag: string) {
    TextField(v, "type") == Some(tag)
  }

  predicate Truthy(v: Option<Value>) {
    match v
    case None => false
    case Some(Null) => false
    case Some(Bool(b)) => b
    case Some(Num(n)) => n != 0
    case Some(Str(s)) => s != ""
    case Some(_) => true
  }

  function Decimal(n: nat): string
  {
    if n < 10 then ["0123456789"[n]] else Decimal(n / 10) + ["0123456789"[n % 10]]
  }

  /** `String(v)`. None when the conversion throws: an object that carries its own
      `toString` data property cannot be made into a string. */
  function Show(v: Value): Option<string>
    decreases v
  {
    match v
    case Null => Some("null")
    case Bool(b) => Some(if b then "true" else "false")
    case Num(n) => Some(if n < 0 then "-" + Decimal(-n) else Decimal(n))
    case Str(s) => Some(s)
    case Arr(items) => ShowItems(items)
    case Obj(fields) => if "toString" in fields then None else Some("[object Object]")
  }

  function ShowItems(items: seq<Value>): Option<string>
    decreases items
  {
    if items == [] then Some("")
    else
      var head := if items[0].Null? then Some("") else Show(items[0]);
      var rest := ShowItems(items[1..]);
      if head.None? || rest.None? then None
      else if |items| == 1 then head
      else Some(head.value + "," + rest.value)
  }

  /** `String(v.key ?? "")`. */
  function ShowField(v: Value, key: string): Option<string> {
    match Field(v, key)
    case None => Some("")
    case Some(Null) => Some("")
    case Some(x) => Show(x)
  }

  /** `v ?? {}` */
  function OrEmpty(v: Option<Value>): Value {
    if v.None? || v.value.Null? then Obj(map[]) else v.value
  }

  /** The platform's own encoders. Their texts are not modelled; what the harness relies on is
      that reading back what was written gives what was written. */
  datatype Codec = Codec(stringify: Value -> string, parse: string -> Option<Value>,
                         encode64: string -> string, decode64: string -> string)
  {
    ghost predicate Lawful() {
      && (forall v: Value :: parse(stringify(v)) == Some(v))
      && (forall v: Value :: stringify(v) != "")
      && (forall s: string :: decode64(encode64(s)) == s)
    }
  }
}
