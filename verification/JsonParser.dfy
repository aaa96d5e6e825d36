/** A parser for the canonical encoding, and the proof that encoding loses nothing but undefined. */
module JsonParser {
  import opened Text
  import opened JsonValues

  type Parsed<T> = Option<(T, string)>

  predicate IsHex(c: char) {
    IsDigit(c) || 'a' <= c <= 'f'
  }

  function HexValue(c: char): (d: nat)
    requires IsHex(c)
    ensures d < 16
  {
    if IsDigit(c) then DigitValue(c) else c as int - 'a' as int + 10
  }

  /** Reads one character of a string literal, undoing an escape. */
  function ReadChar(s: string): (r: Parsed<char>)
    ensures r.Some? ==> |r.value.1| < |s|
  {
    if s == "" then None
    else if s[0] != '\\' then Some((s[0], s[1..]))
    else if |s| < 2 then None
    else
      var rest := s[2..];
      match s[1]
      case '\"' => Some(('\"', rest))
      case '\\' => Some(('\\', rest))
      case 'b' => Some((8 as char, rest))
      case 'f' => Some((12 as char, rest))
      case 'n' => Some((10 as char, rest))
      case 'r' => Some((13 as char, rest))
      case 't' => Some((9 as char, rest))
      case 'u' =>
        if |rest| >= 4 && rest[..2] == "00" && IsHex(rest[2]) && IsHex(rest[3])
        then Some(((16 * HexValue(rest[2]) + HexValue(rest[3])) as char, rest[4..]))
        else None
      case _ => None
  }

  /** Reads up to and over the closing quote. */
  function ReadChars(s: string): (r: Parsed<string>)
    ensures r.Some? ==> |r.value.1| < |s|
    decreases |s|
  {
    if s == "" then None
    else if s[0] == '\"' then Some(("", s[1..]))
    else
      match ReadChar(s)
      case None => None
      case Some((c, rest)) =>
        match ReadChars(rest)
        case None => None
        case Some((cs, after)) => Some(([c] + cs, after))
  }

  function ReadString(s: string): (r: Parsed<string>)
    ensures r.Some? ==> |r.value.1| < |s|
  {
    if s != "" && s[0] == '\"' then ReadChars(s[1..]) else None
  }

  predicate Starts(s: string, word: string) {
    |word| <= |s| && s[..|word|] == word
  }

  function ReadValue(s: string): (r: Parsed<Json>)
    ensures r.Some? ==> |r.value.1| < |s|
    decreases |s|, 0
  {
    if s == "" then None
    else if s[0] == '[' then
      if |s| > 1 && s[1] == ']' then Some((Arr([]), s[2..]))
      else
        match ReadItems(s[1..])
        case None => None
        case Some((items, rest)) => Some((Arr(items), rest))
    else if s[0] == '{' then
      if |s| > 1 && s[1] == '}' then Some((Obj(map[]), s[2..]))
      else
        match ReadMembers(s[1..])
        case None => None
        case Some((fields, rest)) => Some((Obj(fields), rest))
    else ReadScalar(s)
  }

  function ReadScalar(s: string): (r: Parsed<Json>)
    requires s != ""
    ensures r.Some? ==> |r.value.1| < |s|
  {
    if IsDigit(s[0]) then var (n, rest) := ReadDigits(s[1..], DigitValue(s[0])); Some((Num(n), rest))
    else if s[0] == '-' then var (n, rest) := ReadDigits(s[1..], 0); Some((Num(0 - n), rest))
    else if s[0] == '\"' then
      match ReadString(s)
      case None => None
      case Some((text, rest)) => Some((Str(text), rest))
    else if Starts(s, "null") then Some((Null, s[4..]))
    else if Starts(s, "true") then Some((Bool(true), s[4..]))
    else if Starts(s, "false") then Some((Bool(false), s[5..]))
    else None
  }

  /** One or more values up to and over the closing bracket. */
  function ReadItems(s: string): (r: Parsed<seq<Json>>)
    ensures r.Some? ==> |r.value.1| < |s|
    decreases |s|, 1
  {
    match ReadValue(s)
    case None => None
    case Some((v, rest)) =>
      if rest == "" then None
      else if rest[0] == ']' then Some(([v], rest[1..]))
      else if rest[0] == ',' then
        match ReadItems(rest[1..])
        case None => None
        case Some((vs, after)) => Some(([v] + vs, after))
      else None
  }

  /** One or more members up to and over the closing brace. */
  function ReadMembers(s: string): (r: Parsed<Fields>)
    ensures r.Some? ==> |r.value.1| < |s|
    decreases |s|, 1
  {
    match ReadString(s)
    case None => None
    case Some((key, colon)) =>
      if colon == "" || colon[0] != ':' then None
      else
        match ReadValue(colon[1..])
        case None => None
        case Some((v, rest)) =>
          if rest == "" then None
          else if rest[0] == '}' then Some((map[key := v], rest[1..]))
          else if rest[0] == ',' then
            match ReadMembers(rest[1..])
            case None => None
            case Some((others, after)) => Some((others[key := v], after))
          else None
  }

  /** The value a canonical encoding stands for, if the text is one. */
  function Decode(s: string): Option<Json> {
    match ReadValue(s)
    case Some((v, "")) => Some(v)
    case _ => None
  }

  // ---- reading back what was written ----

  lemma Wrapped(open: string, body: string, close: string, rest: string)
    ensures open + body + close + rest == open + (body + close + rest)
  {
  }

  lemma ReadEscape(c: char, rest: string)
    ensures Escape(c) != "" && Escape(c)[0] != '\"'
    ensures ReadChar(Escape(c) + rest) == Some((c, rest))
  {
    var s := Escape(c) + rest;
    if Escape(c) == [c] {
      assert s[1..] == rest;
    } else if |Escape(c)| == 2 {
      assert s[2..] == rest;
    } else {
      assert s[2..][4..] == rest;
      assert s[2..][..2] == "00";
    }
  }

  lemma NextChar(s: string, c: char, tail: string, cs: string, rest: string)
    requires s != "" && s[0] != '\"' && ReadChar(s) == Some((c, tail))
    requires ReadChars(tail) == Some((cs, rest))
    ensures ReadChars(s) == Some(([c] + cs, rest))
  {
  }

  lemma {:induction false} ReadQuoted(s: string, rest: string)
    ensures ReadChars(EscapeAll(s) + "\"" + rest) == Some((s, rest))
    decreases |s|
  {
    if s == "" {
      assert (EscapeAll(s) + "\"" + rest)[1..] == rest;
    } else {
      var tail := EscapeAll(s[1..]) + "\"" + rest;
      Wrapped(Escape(s[0]), EscapeAll(s[1..]), "\"", rest);
      ReadEscape(s[0], tail);
      ReadQuoted(s[1..], rest);
      NextChar(Escape(s[0]) + tail, s[0], tail, s[1..], rest);
      assert s == [s[0]] + s[1..];
    }
  }

  lemma ReadQuote(s: string, rest: string)
    ensures ReadString(Quote(s) + rest) == Some((s, rest))
  {
    assert (Quote(s) + rest)[1..] == EscapeAll(s) + "\"" + rest;
    ReadQuoted(s, rest);
  }

  lemma ReadNatural(n: nat, rest: string)
    requires rest == "" || !IsDigit(rest[0])
    ensures ReadValue(Decimal(n) + rest) == Some((Num(n), rest))
  {
    var s := Decimal(n) + rest;
    ReadDecimal(n, rest);
    assert IsDigit(s[0]);
    assert ReadDigits(s, 0) == ReadDigits(s[1..], DigitValue(s[0]));
  }

  lemma ReadNegative(digits: string, n: nat, rest: string)
    requires ReadDigits(digits, 0) == (n, rest)
    ensures ReadValue("-" + digits) == Some((Num(0 - n), rest))
  {
    assert ("-" + digits)[1..] == digits;
  }

  lemma ReadInt(n: int, rest: string)
    requires rest == "" || !IsDigit(rest[0])
    ensures ReadValue(IntText(n) + rest) == Some((Num(n), rest))
  {
    if n < 0 {
      var digits := Decimal(-n) + rest;
      assert ReadDigits(digits, 0) == (-n, rest) by { ReadDecimal(-n, rest); }
      ReadNegative(digits, -n, rest);
      assert IntText(n) + rest == "-" + digits;
    } else {
      ReadNatural(n, rest);
    }
  }

  /** An encoding never begins like the end of an array. */
  lemma EncodingStarts(v: Json)
    ensures Encode(v) != "" && Encode(v)[0] != ']'
  {
  }

  lemma ReadLiteral(v: Json, rest: string)
    requires v.Undefined? || v.Null? || v.Bool?
    ensures ReadValue(Encode(v) + rest) == Some((Normal(v), rest))
  {
    var s := Encode(v) + rest;
    assert s[..|Encode(v)|] == Encode(v) && s[|Encode(v)|..] == rest;
    assert s[0] == Encode(v)[0];
    assert v == Bool(false) ==> s[..4] == "fals";
  }

  lemma ReadQuoteValue(t: string, rest: string)
    ensures ReadValue(Quote(t) + rest) == Some((Str(t), rest))
  {
    ReadQuote(t, rest);
    assert (Quote(t) + rest)[0] == '\"';
  }

  lemma ReadArray(inner: string, items: seq<Json>, rest: string)
    requires inner != "" && inner[0] != ']' && ReadItems(inner) == Some((items, rest))
    ensures ReadValue("[" + inner) == Some((Arr(items), rest))
  {
    assert ("[" + inner)[1..] == inner;
    assert ("[" + inner)[1] == inner[0];
  }

  lemma ReadObject(inner: string, fields: Fields, rest: string)
    requires inner != "" && inner[0] == '\"' && ReadMembers(inner) == Some((fields, rest))
    ensures ReadValue("{" + inner) == Some((Obj(fields), rest))
  {
    assert ("{" + inner)[1..] == inner;
    assert ("{" + inner)[1] == inner[0];
  }

  lemma ReadEmpty(rest: string)
    ensures ReadValue("[]" + rest) == Some((Arr([]), rest))
    ensures ReadValue("{}" + rest) == Some((Obj(map[]), rest))
  {
    assert ("[]" + rest)[2..] == rest;
    assert ("{}" + rest)[2..] == rest;
  }

  lemma {:induction false} ReadEncoding(v: Json, rest: string)
    requires rest == "" || !IsDigit(rest[0])
    ensures ReadValue(Encode(v) + rest) == Some((Normal(v), rest))
    decreases v, 1, 0
  {
    match v
    case Num(n) => ReadInt(n, rest);
    case Str(t) => ReadQuoteValue(t, rest);
    case Arr(items) => ReadArrayBack(v, rest);
    case Obj(fields) => ReadObjectBack(v, rest);
    case _ => ReadLiteral(v, rest);
  }

  lemma ArrayText(v: Json, rest: string)
    requires v.Arr? && v.items != []
    ensures Encode(v) + rest == "[" + (EncodeItems(v, 0) + "]" + rest)
    ensures EncodeItems(v, 0) != "" && EncodeItems(v, 0)[0] != ']'
    ensures Normal(v) == Arr(NormalSlots(v, 0))
  {
    EncodingStarts(v.items[0]);
  }

  lemma {:induction false} ReadArrayBack(v: Json, rest: string)
    requires v.Arr?
    ensures ReadValue(Encode(v) + rest) == Some((Normal(v), rest))
    decreases v, 0, |v.items| + 1
  {
    if v.items == [] {
      assert Encode(v) == "[" + EncodeItems(v, 0) + "]" == "[]";
      assert Normal(v).items == [];
      ReadEmpty(rest);
    } else {
      ArrayText(v, rest);
      ReadItemsBack(v, 0, rest);
      ReadArray(EncodeItems(v, 0) + "]" + rest, NormalSlots(v, 0), rest);
    }
  }

  lemma MembersStart(v: Json, keys: seq<string>)
    requires v.Obj? && keys != [] && forall k :: k in keys ==> k in v.fields
    ensures EncodeMembers(v, keys) != "" && EncodeMembers(v, keys)[0] == '\"'
  {
    assert keys[0] in keys;
  }

  lemma NormalObject(v: Json, keys: seq<string>)
    requires v.Obj? && forall k :: k in keys <==> k in DefinedKeys(v.fields)
    ensures Normal(v) == Obj(NormalMembers(v, keys))
  {
    assert Normal(v).fields == NormalMembers(v, keys);
  }

  lemma {:induction false} ReadObjectBack(v: Json, rest: string)
    requires v.Obj?
    ensures ReadValue(Encode(v) + rest) == Some((Normal(v), rest))
    decreases v, 0, |Sorted(DefinedKeys(v.fields))| + 1
  {
    var keys := Sorted(DefinedKeys(v.fields));
    if keys == [] {
      assert Encode(v) == "{}";
      NormalObject(v, keys);
      assert NormalMembers(v, keys) == map[];
      ReadEmpty(rest);
    } else {
      Wrapped("{", EncodeMembers(v, keys), "}", rest);
      MembersStart(v, keys);
      NormalObject(v, keys);
      ReadMembersBack(v, keys, rest);
      ReadObject(EncodeMembers(v, keys) + "}" + rest, NormalMembers(v, keys), rest);
    }
  }

  function NormalSlots(arr: Json, i: nat): seq<Json>
    requires arr.Arr? && i <= |arr.items|
  {
    seq(|arr.items| - i, j requires 0 <= j < |arr.items| - i => Normal(arr.items[i + j]))
  }

  function NormalMembers(obj: Json, keys: seq<string>): Fields
    requires obj.Obj? && forall k :: k in keys ==> k in obj.fields
  {
    map k | k in keys :: Normal(obj.fields[k])
  }

  lemma LastItem(s: string, v: Json, rest: string)
    requires ReadValue(s) == Some((v, "]" + rest))
    ensures ReadItems(s) == Some(([v], rest))
  {
    assert ("]" + rest)[1..] == rest;
  }

  lemma NextItem(s: string, v: Json, tail: string, vs: seq<Json>, rest: string)
    requires ReadValue(s) == Some((v, "," + tail))
    requires ReadItems(tail) == Some((vs, rest))
    ensures ReadItems(s) == Some(([v] + vs, rest))
  {
    assert ("," + tail)[1..] == tail;
  }

  lemma LastMember(s: string, key: string, text: string, v: Json, rest: string)
    requires ReadString(s) == Some((key, ":" + text))
    requires ReadValue(text) == Some((v, "}" + rest))
    ensures ReadMembers(s) == Some((map[key := v], rest))
  {
    assert (":" + text)[1..] == text;
    assert ("}" + rest)[1..] == rest;
  }

  lemma NextMember(s: string, key: string, text: string, v: Json, tail: string, others: Fields, rest: string)
    requires ReadString(s) == Some((key, ":" + text))
    requires ReadValue(text) == Some((v, "," + tail))
    requires ReadMembers(tail) == Some((others, rest))
    ensures ReadMembers(s) == Some((others[key := v], rest))
  {
    assert (":" + text)[1..] == text;
    assert ("," + tail)[1..] == tail;
  }

  lemma ItemsText(arr: Json, i: nat, rest: string)
    requires arr.Arr? && i < |arr.items|
    ensures EncodeItems(arr, i) + "]" + rest
         == Encode(arr.items[i])
           + (if i + 1 == |arr.items| then "]" + rest else "," + (EncodeItems(arr, i + 1) + "]" + rest))
  {
  }

  lemma SlotsStep(arr: Json, i: nat)
    requires arr.Arr? && i < |arr.items|
    ensures NormalSlots(arr, i)
         == if i + 1 == |arr.items| then [Normal(arr.items[i])] else [Normal(arr.items[i])] + NormalSlots(arr, i + 1)
  {
  }

  lemma {:induction false} ReadItemsBack(arr: Json, i: nat, rest: string)
    requires arr.Arr? && i < |arr.items|
    ensures ReadItems(EncodeItems(arr, i) + "]" + rest) == Some((NormalSlots(arr, i), rest))
    decreases arr, 0, |arr.items| - i
  {
    ItemsText(arr, i, rest);
    SlotsStep(arr, i);
    var v := arr.items[i];
    if i + 1 == |arr.items| {
      ReadEncoding(v, "]" + rest);
      LastItem(Encode(v) + ("]" + rest), Normal(v), rest);
    } else {
      var tail := EncodeItems(arr, i + 1) + "]" + rest;
      ReadEncoding(v, "," + tail);
      ReadItemsBack(arr, i + 1, rest);
      NextItem(Encode(v) + ("," + tail), Normal(v), tail, NormalSlots(arr, i + 1), rest);
    }
  }

  lemma MembersText(obj: Json, keys: seq<string>, rest: string)
    requires obj.Obj? && keys != [] && forall k :: k in keys ==> k in obj.fields
    ensures keys[0] in obj.fields
    ensures EncodeMembers(obj, keys) + "}" + rest
         == Quote(keys[0]) + (":" + (Encode(obj.fields[keys[0]])
            + (if |keys| == 1 then "}" + rest else "," + (EncodeMembers(obj, keys[1..]) + "}" + rest))))
  {
    assert keys[0] in keys;
  }

  lemma {:induction false} ReadMembersBack(obj: Json, keys: seq<string>, rest: string)
    requires obj.Obj? && keys != [] && Ascending(keys)
    requires forall k :: k in keys ==> k in obj.fields
    ensures ReadMembers(EncodeMembers(obj, keys) + "}" + rest) == Some((NormalMembers(obj, keys), rest))
    decreases obj, 0, |keys|
  {
    hide Encode, Quote, EncodeMembers, ReadMembers, ReadString, ReadValue, Normal;
    MembersText(obj, keys, rest);
    var key := keys[0];
    var v := obj.fields[key];
    if |keys| == 1 {
      var text := Encode(v) + ("}" + rest);
      ReadEncoding(v, "}" + rest);
      ReadQuote(key, ":" + text);
      LastMember(Quote(key) + (":" + text), key, text, Normal(v), rest);
      assert NormalMembers(obj, keys) == map[key := Normal(v)];
    } else {
      var others := keys[1..];
      var tail := EncodeMembers(obj, others) + "}" + rest;
      var text := Encode(v) + ("," + tail);
      ReadEncoding(v, "," + tail);
      ReadMembersBack(obj, others, rest);
      ReadQuote(key, ":" + text);
      NextMember(Quote(key) + (":" + text), key, text, Normal(v), tail, NormalMembers(obj, others), rest);
      assert NormalMembers(obj, keys) == NormalMembers(obj, others)[key := Normal(v)];
    }
  }

  /** Decoding undoes encoding, up to what `Normal` drops. */
  lemma DecodeEncode(v: Json)
    ensures Decode(Encode(v)) == Some(Normal(v))
  {
    ReadEncoding(v, "");
    assert Encode(v) + "" == Encode(v);
  }

  /** Two values share an encoding exactly when they differ only in undefined members and slots. */
  lemma EncodeInjective(a: Json, b: Json)
    ensures Encode(a) == Encode(b) <==> Normal(a) == Normal(b)
  {
    DecodeEncode(a);
    DecodeEncode(b);
    if Normal(a) == Normal(b) {
      EncodeNormal(a);
      EncodeNormal(b);
    }
  }

  lemma {:induction false} EncodeNormal(v: Json)
    ensures Encode(Normal(v)) == Encode(v)
    decreases v, 1, 0
  {
    match v
    case Arr(items) => EncodeNormalItems(v, 0);
    case Obj(fields) =>
      assert DefinedKeys(Normal(v).fields) == DefinedKeys(fields) by {
        forall k | k in DefinedKeys(fields) ensures Normal(v).fields[k] != Undefined {}
      }
      EncodeNormalMembers(v, Sorted(DefinedKeys(fields)));
    case _ =>
  }

  lemma {:induction false} EncodeNormalItems(arr: Json, i: nat)
    requires arr.Arr? && i <= |arr.items|
    ensures EncodeItems(Normal(arr), i) == EncodeItems(arr, i)
    decreases arr, 0, |arr.items| - i
  {
    if i < |arr.items| {
      EncodeNormal(arr.items[i]);
      EncodeNormalItems(arr, i + 1);
    }
  }

  lemma {:induction false} EncodeNormalMembers(obj: Json, keys: seq<string>)
    requires obj.Obj? && forall k :: k in keys ==> k in obj.fields && obj.fields[k] != Undefined
    ensures EncodeMembers(Normal(obj), keys) == EncodeMembers(obj, keys)
    decreases obj, 0, |keys|
  {
    if keys != [] {
      assert keys[0] in keys;
      EncodeNormal(obj.fields[keys[0]]);
      EncodeNormalMembers(obj, keys[1..]);
    }
  }
}
