/** JavaScript values as the realm code handles them, and their canonical encoding. */
module JsonValues {
  import opened Text

  /** Numbers are integers; an object is its finite map from keys to values. */
  datatype Json =
    | Undefined
    | Null
    | Bool(b: bool)
    | Num(n: int)
    | Str(s: string)
    | Arr(items: seq<Json>)
    | Obj(fields: map<string, Json>)

  type Fields = map<string, Json>

  /** `payload.name`, which is undefined for a missing key. */
  function Field(fields: Fields, name: string): Json {
    if name in fields then fields[name] else Undefined
  }

  /** `value.name` for any value that is neither null nor undefined. */
  function Get(v: Json, name: string): Json {
    if v.Obj? then Field(v.fields, name) else Undefined
  }

  predicate Truthy(v: Json) {
    match v
    case Undefined => false
    case Null => false
    case Bool(b) => b
    case Num(n) => n != 0
    case Str(s) => s != ""
    case Arr(_) => true
    case Obj(_) => true
  }

  /** `a || b` */
  function Or(a: Json, b: Json): Json {
    if Truthy(a) then a else b
  }

  /** `a === b`; arrays and objects are compared by identity, so two of them are never the same value. */
  predicate StrictEq(a: Json, b: Json) {
    a == b && !a.Arr? && !a.Obj?
  }

  function IntText(n: int): string {
    if n < 0 then "-" + Decimal(-n) else Decimal(n)
  }

  /** `String(v)` */
  function ToText(v: Json): string
    decreases v, 1, 0
  {
    match v
    case Undefined => "undefined"
    case Null => "null"
    case Bool(b) => if b then "true" else "false"
    case Num(n) => IntText(n)
    case Str(s) => s
    case Arr(_) => JoinText(v, 0)
    case Obj(_) => "[object Object]"
  }

  /** The comma-separated texts of the slots from `i` on. */
  function JoinText(arr: Json, i: nat): string
    requires arr.Arr? && i <= |arr.items|
    decreases arr, 0, |arr.items| - i
  {
    if i == |arr.items| then ""
    else
      var slot := arr.items[i];
      var first := if slot.Undefined? || slot.Null? then "" else ToText(slot);
      if i + 1 == |arr.items| then first else first + "," + JoinText(arr, i + 1)
  }

  /** `typeof v === 'string' && v.trim() !== ''` */
  predicate NonBlank(v: Json) {
    v.Str? && Trim(v.s) != ""
  }

  /** `Number(v)` where that is an integer; strings are read as decimal numerals. */
  function Integer(v: Json): Option<int> {
    match v
    case Num(n) => Some(n)
    case Null => Some(0)
    case Bool(b) => Some(if b then 1 else 0)
    case Str(s) =>
      var t := Trim(s);
      if t == "" then Some(0)
      else if t[0] == '-' && |t| > 1 && ReadDigits(t[1..], 0).1 == "" then Some(0 - ReadDigits(t[1..], 0).0)
      else if ReadDigits(t, 0).1 == "" then Some(ReadDigits(t, 0).0)
      else None
    case _ => None
  }

  // ---- canonical encoding ----

  function HexChar(d: nat): char
    requires d < 16
  {
    if d < 10 then DigitChar(d) else ('a' as int + (d - 10)) as char
  }

  /** The escapes JSON.stringify uses (section 7 of RFC 8259). */
  function Escape(c: char): string {
    var u := c as int;
    if c == '\"' then "\\\""
    else if c == '\\' then "\\\\"
    else if u == 8 then "\\b"
    else if u == 12 then "\\f"
    else if u == 10 then "\\n"
    else if u == 13 then "\\r"
    else if u == 9 then "\\t"
    else if u < 32 then "\\u00" + [HexChar(u / 16), HexChar(u % 16)]
    else [c]
  }

  function EscapeAll(s: string): string {
    if s == "" then "" else Escape(s[0]) + EscapeAll(s[1..])
  }

  function Quote(s: string): string {
    "\"" + EscapeAll(s) + "\""
  }

  /** The keys `Object.keys(v).filter(defined).sort()` yields. */
  function DefinedKeys(fields: Fields): set<string> {
    set k | k in fields && fields[k] != Undefined
  }

  /** The encoder meets undefined only in array slots, where it writes null. */
  function Encode(v: Json): string
    decreases v, 1, 0
  {
    match v
    case Undefined => "null"
    case Null => "null"
    case Bool(b) => if b then "true" else "false"
    case Num(n) => IntText(n)
    case Str(s) => Quote(s)
    case Arr(_) => "[" + EncodeItems(v, 0) + "]"
    case Obj(fields) => "{" + EncodeMembers(v, Sorted(DefinedKeys(fields))) + "}"
  }

  /** The slots from `i` on. */
  function EncodeItems(arr: Json, i: nat): string
    requires arr.Arr? && i <= |arr.items|
    decreases arr, 0, |arr.items| - i
  {
    if i == |arr.items| then ""
    else if i + 1 == |arr.items| then Encode(arr.items[i])
    else Encode(arr.items[i]) + "," + EncodeItems(arr, i + 1)
  }

  function EncodeMembers(obj: Json, keys: seq<string>): string
    requires obj.Obj? && forall k :: k in keys ==> k in obj.fields
    decreases obj, 0, |keys|
  {
    if keys == [] then ""
    else
      assert keys[0] in keys;
      var member := Quote(keys[0]) + ":" + Encode(obj.fields[keys[0]]);
      if |keys| == 1 then member else member + "," + EncodeMembers(obj, keys[1..])
  }

  // ---- what the encoding keeps of a value ----

  /** Undefined members are dropped, undefined array slots become null. */
  function Normal(v: Json): Json
    decreases v
  {
    match v
    case Undefined => Null
    case Arr(items) => Arr(seq(|items|, i requires 0 <= i < |items| => Normal(items[i])))
    case Obj(fields) => Obj(map k | k in fields && fields[k] != Undefined :: Normal(fields[k]))
    case _ => v
  }

  /** No undefined anywhere: the values a JSON document can hold. */
  predicate Plain(v: Json)
    decreases v
  {
    match v
    case Undefined => false
    case Arr(items) => forall i :: 0 <= i < |items| ==> Plain(items[i])
    case Obj(fields) => forall k :: k in fields ==> Plain(fields[k])
    case _ => true
  }

  predicate PlainFields(fields: Fields) {
    forall k :: k in fields ==> Plain(fields[k])
  }

  lemma {:induction false} PlainIsNormal(v: Json)
    requires Plain(v)
    ensures Normal(v) == v
    decreases v
  {
    match v
    case Arr(items) =>
      forall i | 0 <= i < |items| ensures Normal(items[i]) == items[i] { PlainIsNormal(items[i]); }
    case Obj(fields) =>
      forall k | k in fields ensures Normal(fields[k]) == fields[k] { PlainIsNormal(fields[k]); }
    case _ =>
  }
}
