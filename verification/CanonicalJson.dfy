// The canonical printer of the session log (crates/kernel/src/session.rs, `to_canonical_json`),
// with a reader that recovers every value it prints.
module CanonicalJson {
  import opened Collections
  import opened Wrappers

  const SAFE_INTEGER: int := 9007199254740992

  /**
   * Numbers as the serializer sees them: integers, floats with an integral value in the safe range,
   * and all other floats, named by the text the serializer renders them with.
   */
  datatype Num = Int(i: int) | IntegralFloat(i: int) | OtherFloat(text: string)

  datatype Field = Field(key: string, value: Json)

  datatype Json =
    | Null
    | Bool(b: bool)
    | Number(n: Num)
    | Str(s: string)
    | Arr(items: seq<Json>)
    | Obj(fields: seq<Field>)

  // ---------------------------------------------------------------- the printer

  function Digit(d: int): char
    requires 0 <= d < 10
  {
    '0' + d as char
  }

  function Digits(n: nat): (s: string)
    ensures s != []
  {
    if n < 10 then [Digit(n)] else Digits(n / 10) + [Digit(n % 10)]
  }

  function IntText(i: int): string {
    if i < 0 then "-" + Digits(-i) else Digits(i)
  }

  /** An integral float is rendered like the integer it equals. */
  function NumText(n: Num): string {
    match n
    case Int(i) => IntText(i)
    case IntegralFloat(i) => IntText(i)
    case OtherFloat(text) => text
  }

  function HexDigit(d: int): char
    requires 0 <= d < 16
  {
    if d < 10 then Digit(d) else 'a' + (d - 10) as char
  }

  /** String escapes of RFC 8259, section 7, in the serializer's choice of short forms. */
  function Escape(c: char): string {
    if c == '"' then ['\\', '"']
    else if c == '\\' then ['\\', '\\']
    else if c == 8 as char then ['\\', 'b']
    else if c == 12 as char then ['\\', 'f']
    else if c == '\n' then ['\\', 'n']
    else if c == '\r' then ['\\', 'r']
    else if c == '\t' then ['\\', 't']
    else if c as int < 32 then ['\\', 'u', '0', '0', HexDigit(c as int / 16), HexDigit(c as int % 16)]
    else [c]
  }

  function Escaped(s: string): string {
    if s == [] then [] else Escape(s[0]) + Escaped(s[1..])
  }

  function Quote(s: string): string {
    ['"'] + Escaped(s) + ['"']
  }

  datatype Part = Part(key: string, text: string)

  predicate PartBefore(a: Part, b: Part) { TextAtMost(a.key, b.key) }

  predicate FieldBefore(a: Field, b: Field) { TextAtMost(a.key, b.key) }

  /** The parts between brackets, separated by commas. */
  function Join(parts: seq<string>): string {
    if parts == [] then []
    else if |parts| == 1 then parts[0]
    else parts[0] + "," + Join(parts[1..])
  }

  function PartTexts(parts: seq<Part>): (ts: seq<string>)
    ensures |ts| == |parts|
  {
    seq(|parts|, i requires 0 <= i < |parts| => Quote(parts[i].key) + ":" + parts[i].text)
  }

  function Canonical(v: Json): string {
    match v
    case Null => "null"
    case Bool(b) => if b then "true" else "false"
    case Number(n) => NumText(n)
    case Str(s) => Quote(s)
    case Arr(items) => "[" + Join(seq(|items|, i requires 0 <= i < |items| => Canonical(items[i]))) + "]"
    case Obj(fields) =>
      var parts := seq(|fields|, i requires 0 <= i < |fields| => Part(fields[i].key, Canonical(fields[i].value)));
      "{" + Join(PartTexts(Sort(PartBefore, parts))) + "}"
  }

  // ---------------------------------------------------------------- the form it prints

  function NormalNum(n: Num): Num {
    match n
    case IntegralFloat(i) => Int(i)
    case _ => n
  }

  /** A value up to the order of object keys and the float form of integers. */
  function Normal(v: Json): Json {
    match v
    case Number(n) => Number(NormalNum(n))
    case Arr(items) => Arr(seq(|items|, i requires 0 <= i < |items| => Normal(items[i])))
    case Obj(fields) => Obj(Sort(FieldBefore, NormalFields(fields)))
    case _ => v
  }

  function NormalFields(fields: seq<Field>): (r: seq<Field>)
    ensures |r| == |fields|
  {
    seq(|fields|, i requires 0 <= i < |fields| => Field(fields[i].key, Normal(fields[i].value)))
  }

  /** The plain printer, in the order given. */
  function Print(v: Json): string {
    match v
    case Null => "null"
    case Bool(b) => if b then "true" else "false"
    case Number(n) => NumText(n)
    case Str(s) => Quote(s)
    case Arr(items) => "[" + Join(seq(|items|, i requires 0 <= i < |items| => Print(items[i]))) + "]"
    case Obj(fields) => "{" + Join(FieldTexts(fields)) + "}"
  }

  function FieldTexts(fields: seq<Field>): (ts: seq<string>)
    ensures |ts| == |fields|
  {
    seq(|fields|, i requires 0 <= i < |fields| => Quote(fields[i].key) + ":" + Print(fields[i].value))
  }

  function PartsOf(fields: seq<Field>): (ps: seq<Part>)
    ensures |ps| == |fields|
  {
    seq(|fields|, i requires 0 <= i < |fields| => Part(fields[i].key, Print(fields[i].value)))
  }

  lemma {:induction false} InsertCommutes(f: Field, fields: seq<Field>)
    ensures PartsOf(Insert(FieldBefore, f, fields)) == Insert(PartBefore, Part(f.key, Print(f.value)), PartsOf(fields))
  {
    hide TextAtMost, Print;
    if fields != [] {
      InsertCommutes(f, fields[1..]);
      assert PartsOf(fields)[1..] == PartsOf(fields[1..]);
    }
  }

  /** Sorting looks at keys only, so it commutes with rendering the values. */
  lemma {:induction false} SortCommutes(fields: seq<Field>)
    ensures PartsOf(Sort(FieldBefore, fields)) == Sort(PartBefore, PartsOf(fields))
  {
    hide Print, Insert;
    if fields != [] {
      SortCommutes(fields[1..]);
      InsertCommutes(fields[0], Sort(FieldBefore, fields[1..]));
      assert PartsOf(fields)[1..] == PartsOf(fields[1..]);
    }
  }

  /** The canonical text is the plain text of the normal form. */
  lemma {:induction false} CanonicalPrintsNormal(v: Json)
    ensures Canonical(v) == Print(Normal(v))
  {
    match v
    case Arr(items) =>
      forall i | 0 <= i < |items| ensures Canonical(items[i]) == Print(Normal(items[i])) {
        CanonicalPrintsNormal(items[i]);
      }
      assert seq(|items|, i requires 0 <= i < |items| => Canonical(items[i]))
          == seq(|items|, i requires 0 <= i < |items| => Print(Normal(v).items[i]));
    case Obj(fields) =>
      forall i | 0 <= i < |fields| ensures Canonical(fields[i].value) == Print(Normal(fields[i].value)) {
        CanonicalPrintsNormal(fields[i].value);
      }
      var parts := seq(|fields|, i requires 0 <= i < |fields| => Part(fields[i].key, Canonical(fields[i].value)));
      assert parts == PartsOf(NormalFields(fields));
      SortCommutes(NormalFields(fields));
      assert PartTexts(PartsOf(Normal(v).fields)) == FieldTexts(Normal(v).fields);
    case _ =>
  }

  // ---------------------------------------------------------------- the reader

  predicate IsDigit(c: char) { '0' <= c <= '9' }

  predicate IsNumberChar(c: char) {
    IsDigit(c) || c == '-' || c == '+' || c == '.' || c == 'e' || c == 'E'
  }

  predicate Fractional(token: string) { '.' in token || 'e' in token }

  /** How the serializer renders a float that is not a safe integer: a number token with a point or an exponent. */
  predicate FloatText(token: string) {
    token != [] && (IsDigit(token[0]) || token[0] == '-') && Fractional(token) && forall c :: c in token ==>
        IsNumberChar(c)
  }

  predicate WellFormedNum(n: Num) {
    match n
    case Int(_) => true
    case IntegralFloat(i) => -SAFE_INTEGER <= i <= SAFE_INTEGER
    case OtherFloat(text) => FloatText(text)
  }

  predicate WellFormed(v: Json) {
    match v
    case Number(n) => WellFormedNum(n)
    case Arr(items) => forall i :: 0 <= i < |items| ==> WellFormed(items[i])
    case Obj(fields) => forall i :: 0 <= i < |fields| ==> WellFormed(fields[i].value)
    case _ => true
  }

  /** Values in normal form as far as numbers go. */
  predicate Plain(v: Json) {
    match v
    case Number(n) => n.Int? || (n.OtherFloat? && FloatText(n.text))
    case Arr(items) => forall i :: 0 <= i < |items| ==> Plain(items[i])
    case Obj(fields) => forall i :: 0 <= i < |fields| ==> Plain(fields[i].value)
    case _ => true
  }

  function HexValue(c: char): Option<int> {
    if IsDigit(c) then Some(c as int - '0' as int)
    else if 'a' <= c <= 'f' then Some(c as int - 'a' as int + 10)
    else None
  }

  /** One possibly escaped character. */
  function ReadChar(s: string): (r: Option<(char, string)>)
    requires s != []
    ensures r.Some? ==> |r.value.1| < |s|
  {
    if s[0] as int < 32 then None
    else if s[0] != '\\' then Some((s[0], s[1..]))
    else if |s| < 2 then None
    else if s[1] == '"' || s[1] == '\\' then Some((s[1], s[2..]))
    else if s[1] == 'b' then Some((8 as char, s[2..]))
    else if s[1] == 'f' then Some((12 as char, s[2..]))
    else if s[1] == 'n' then Some(('\n', s[2..]))
    else if s[1] == 'r' then Some(('\r', s[2..]))
    else if s[1] == 't' then Some(('\t', s[2..]))
    else if |s| >= 6 && s[1] == 'u' && s[2] == '0' && s[3] == '0' then
      match (HexValue(s[4]), HexValue(s[5]))
      case (Some(h), Some(l)) => Some(((16 * h + l) as char, s[6..]))
      case _ => None
    else None
  }

  function ReadString(s: string): (r: Option<(string, string)>)
    ensures r.Some? ==> |r.value.1| < |s|
    decreases |s|
  {
    if s == [] then None
    else if s[0] == '"' then Some(([], s[1..]))
    else
      match ReadChar(s)
      case None => None
      case Some((c, rest)) =>
        match ReadString(rest)
        case None => None
        case Some((cs, left)) => Some(([c] + cs, left))
  }

  function TokenLength(s: string): (n: nat)
    ensures n <= |s|
  {
    if s == [] || !IsNumberChar(s[0]) then 0 else 1 + TokenLength(s[1..])
  }

  function DigitsValue(s: string): int {
    if s == [] then 0 else 10 * DigitsValue(s[..|s| - 1]) + (s[|s| - 1] as int - '0' as int)
  }

  function ReadNum(token: string): Num
    requires token != []
  {
    if Fractional(token) then OtherFloat(token)
    else if token[0] == '-' then Int(-DigitsValue(token[1..]))
    else Int(DigitsValue(token))
  }

  function Read(s: string): (r: Option<(Json, string)>)
    ensures r.Some? ==> |r.value.1| < |s|
    decreases |s|, 0
  {
    if s == [] then None
    else if s[0] == 'n' then if "null" <= s then Some((Null, s[4..])) else None
    else if s[0] == 't' then if "true" <= s then Some((Bool(true), s[4..])) else None
    else if s[0] == 'f' then if "false" <= s then Some((Bool(false), s[5..])) else None
    else if s[0] == '"' then
      match ReadString(s[1..])
      case Some((cs, rest)) => Some((Str(cs), rest))
      case None => None
    else if s[0] == '[' then
      if |s| >= 2 && s[1] == ']' then Some((Arr([]), s[2..]))
      else
        match ReadItems(s[1..])
        case Some((items, rest)) => Some((Arr(items), rest))
        case None => None
    else if s[0] == '{' then
      if |s| >= 2 && s[1] == '}' then Some((Obj([]), s[2..]))
      else
        match ReadFields(s[1..])
        case Some((fields, rest)) => Some((Obj(fields), rest))
        case None => None
    else
      var n := TokenLength(s);
      if n == 0 then None else Some((Number(ReadNum(s[..n])), s[n..]))
  }

  function ReadItems(s: string): (r: Option<(seq<Json>, string)>)
    ensures r.Some? ==> |r.value.1| < |s|
    decreases |s|, 1
  {
    match Read(s)
    case None => None
    case Some((v, rest)) =>
      if rest == [] then None
      else if rest[0] == ']' then Some(([v], rest[1..]))
      else if rest[0] != ',' then None
      else
        match ReadItems(rest[1..])
        case None => None
        case Some((vs, left)) => Some(([v] + vs, left))
  }

  function ReadField(s: string): (r: Option<(Field, string)>)
    ensures r.Some? ==> |r.value.1| < |s|
    decreases |s|, 1
  {
    if s == [] || s[0] != '"' then None
    else
      match ReadString(s[1..])
      case None => None
      case Some((key, rest)) =>
        if rest == [] || rest[0] != ':' then None
        else
          match Read(rest[1..])
          case None => None
          case Some((v, left)) => Some((Field(key, v), left))
  }

  function ReadFields(s: string): (r: Option<(seq<Field>, string)>)
    ensures r.Some? ==> |r.value.1| < |s|
    decreases |s|, 2
  {
    match ReadField(s)
    case None => None
    case Some((f, rest)) =>
      if rest == [] then None
      else if rest[0] == '}' then Some(([f], rest[1..]))
      else if rest[0] != ',' then None
      else
        match ReadFields(rest[1..])
        case None => None
        case Some((fs, left)) => Some(([f] + fs, left))
  }

  // ---------------------------------------------------------------- reading back what was printed

  lemma ReadEscape(c: char, t: string)
    ensures Escape(c) != [] && Escape(c)[0] != '"'
    ensures ReadChar(Escape(c) + t) == Some((c, t))
  {
    var s := Escape(c) + t;
    if c as int < 32 && |Escape(c)| == 6 {
      assert s[6..] == t;
    } else if |Escape(c)| == 2 {
      assert s[2..] == t;
    } else {
      assert s[1..] == t;
    }
  }

  lemma {:induction false} ReadEscaped(s: string, rest: string)
    ensures ReadString(Escaped(s) + ['"'] + rest) == Some((s, rest))
  {
    hide Escape, ReadChar;
    if s == [] {
      assert (Escaped(s) + ['"'] + rest)[1..] == rest;
    } else {
      var tail := Escaped(s[1..]) + ['"'] + rest;
      ReadEscape(s[0], tail);
      assert Escaped(s) + ['"'] + rest == Escape(s[0]) + tail;
      ReadEscaped(s[1..], rest);
      assert s == [s[0]] + s[1..];
    }
  }

  lemma {:induction false} TokenEnds(t: string, rest: string)
    requires (forall c :: c in t ==> IsNumberChar(c)) && (rest == [] || !IsNumberChar(rest[0]))
    ensures TokenLength(t + rest) == |t|
  {
    hide IsNumberChar;
    if t == [] {
      assert t + rest == rest;
    } else {
      assert (t + rest)[1..] == t[1..] + rest;
      TokenEnds(t[1..], rest);
    }
  }

  lemma {:induction false} DigitsRead(n: nat)
    ensures DigitsValue(Digits(n)) == n && forall c :: c in Digits(n) ==> IsDigit(c)
  {
    if n >= 10 {
      DigitsRead(n / 10);
      var s := Digits(n);
      assert s[..|s| - 1] == Digits(n / 10) && s[|s| - 1] == Digit(n % 10);
    } else {
      assert Digits(n)[..0] == [];
    }
  }

  lemma IntRead(i: int)
    ensures var t := IntText(i);
            t != [] && ReadNum(t) == Int(i) && (IsDigit(t[0]) || t[0] == '-') && forall c :: c in t ==> IsNumberChar(c)
  {
    var digits := Digits(if i < 0 then -i else i);
    DigitsRead(if i < 0 then -i else i);
    assert '.' !in digits && 'e' !in digits && digits[0] in digits;
    if i < 0 {
      assert IntText(i) == ['-'] + digits && IntText(i)[1..] == digits;
      assert forall c :: c in IntText(i) ==> c == '-' || c in digits;
    }
    assert !Fractional(IntText(i));
  }

  /** What may follow a value inside an array or object, or at the end. */
  predicate Delimited(rest: string) {
    rest == [] || rest[0] == ',' || rest[0] == ']' || rest[0] == '}'
  }

  lemma NotAWord(s: string)
    requires s != [] && (IsDigit(s[0]) || s[0] == '-')
    ensures s[0] !in ['n', 't', 'f', '"', '[', '{']
  {
  }

  lemma NumberUnfolds(t: string, rest: string)
    requires t != [] && (IsDigit(t[0]) || t[0] == '-') && TokenLength(t + rest) == |t|
    ensures Read(t + rest) == Some((Number(ReadNum(t)), rest))
  {
    hide ReadNum, TokenLength, ReadString, ReadItems, ReadFields;
    var s := t + rest;
    assert s[0] == t[0] && s[..|t|] == t && s[|t|..] == rest;
    NotAWord(s);
  }

  lemma ReadNumber(n: Num, rest: string)
    requires Plain(Number(n)) && Delimited(rest)
    ensures Read(NumText(n) + rest) == Some((Number(n), rest))
  {
    hide Read, TokenLength;
    var t := NumText(n);
    if n.Int? {
      IntRead(n.i);
    }
    assert ReadNum(t) == n;
    TokenEnds(t, rest);
    NumberUnfolds(t, rest);
  }

  lemma ArrayUnfolds(s: string, items: seq<Json>, rest: string)
    requires |s| >= 2 && s[0] == '[' && s[1] != ']' && ReadItems(s[1..]) == Some((items, rest))
    ensures Read(s) == Some((Arr(items), rest))
  {
    hide ReadItems, ReadFields, ReadString;
  }

  lemma ItemsEnd(s: string, v: Json, rest: string)
    requires Read(s) == Some((v, "]" + rest))
    ensures ReadItems(s) == Some(([v], rest))
  {
    hide Read;
    assert ("]" + rest)[1..] == rest;
  }

  lemma ItemsGoOn(s: string, v: Json, more: string, vs: seq<Json>, rest: string)
    requires Read(s) == Some((v, "," + more)) && ReadItems(more) == Some((vs, rest))
    ensures ReadItems(s) == Some(([v] + vs, rest))
  {
    hide Read;
    assert ("," + more)[1..] == more;
  }

  lemma ObjectUnfolds(s: string, fields: seq<Field>, rest: string)
    requires |s| >= 2 && s[0] == '{' && s[1] != '}' && ReadFields(s[1..]) == Some((fields, rest))
    ensures Read(s) == Some((Obj(fields), rest))
  {
    hide ReadItems, ReadFields, ReadString;
  }

  lemma FieldsEnd(s: string, f: Field, rest: string)
    requires ReadField(s) == Some((f, "}" + rest))
    ensures ReadFields(s) == Some(([f], rest))
  {
    hide ReadField;
    assert ("}" + rest)[1..] == rest;
  }

  lemma FieldsGoOn(s: string, f: Field, more: string, fs: seq<Field>, rest: string)
    requires ReadField(s) == Some((f, "," + more)) && ReadFields(more) == Some((fs, rest))
    ensures ReadFields(s) == Some(([f] + fs, rest))
  {
    hide ReadField;
    assert ("," + more)[1..] == more;
  }

  function ItemTexts(items: seq<Json>): (ts: seq<string>)
    ensures |ts| == |items|
  {
    seq(|items|, i requires 0 <= i < |items| => Print(items[i]))
  }

  lemma EmptyBrackets(rest: string)
    ensures Read("[]" + rest) == Some((Arr([]), rest)) && Read("{}" + rest) == Some((Obj([]), rest))
  {
    hide ReadItems, ReadFields, ReadString;
    assert ("[]" + rest)[2..] == rest && ("{}" + rest)[2..] == rest;
  }

  lemma Words(rest: string)
    ensures Read("null" + rest) == Some((Null, rest))
    ensures Read("true" + rest) == Some((Bool(true), rest)) && Read("false" + rest) == Some((Bool(false), rest))
  {
    hide ReadItems, ReadFields, ReadString;
    assert "null" <= "null" + rest && "true" <= "true" + rest && "false" <= "false" + rest;
    assert ("null" + rest)[4..] == rest && ("true" + rest)[4..] == rest && ("false" + rest)[5..] == rest;
  }

  lemma StringUnfolds(s: string, rest: string)
    ensures Read(Quote(s) + rest) == Some((Str(s), rest))
  {
    hide ReadItems, ReadFields, ReadString, Escaped;
    ReadEscaped(s, rest);
    assert (Quote(s) + rest)[1..] == Escaped(s) + ['"'] + rest;
  }

  /** A printed value never starts with a closing bracket. */
  lemma PrintStarts(v: Json)
    requires Plain(v)
    ensures Print(v) != [] && Print(v)[0] != ']'
  {
    hide Join, FieldTexts, Escaped, Digits, DigitsValue;
    if v.Number? && v.n.Int? {
      IntRead(v.n.i);
    }
  }

  lemma JoinStarts(texts: seq<string>)
    requires texts != [] && texts[0] != []
    ensures Join(texts) != [] && Join(texts)[0] == texts[0][0]
  {
  }

  lemma JoinOne(t: string)
    ensures Join([t]) == t
  {
  }

  lemma JoinMore(texts: seq<string>)
    requires |texts| > 1
    ensures Join(texts) == texts[0] + ("," + Join(texts[1..]))
  {
  }

  /** Reading inverts printing, whatever delimiter follows. */
  lemma {:induction false} ReadPrint(v: Json, rest: string)
    requires Plain(v) && Delimited(rest)
    ensures Read(Print(v) + rest) == Some((v, rest))
    decreases v, 1
  {
    hide Read, Escaped, Join, Digits, Delimited;
    match v
    case Null => Words(rest);
    case Bool(b) => Words(rest);
    case Number(n) => ReadNumber(n, rest);
    case Str(s) => StringUnfolds(s, rest);
    case Arr(items) => ReadArray(v, rest);
    case Obj(fields) => ReadObject(v, rest);
  }

  lemma {:induction false} ReadArray(v: Json, rest: string)
    requires v.Arr? && Plain(v) && Delimited(rest)
    ensures Read(Print(v) + rest) == Some((v, rest))
    decreases v, 0
  {
    hide Read, ReadItems, Join, Delimited;
    var inner := Join(ItemTexts(v.items));
    assert ItemTexts(v.items) == seq(|v.items|, i requires 0 <= i < |v.items| => Print(v.items[i]));
    if v.items == [] {
      EmptyBrackets(rest);
      JoinNothing();
      assert Print(v) + rest == "[]" + rest;
    } else {
      PrintStarts(v.items[0]);
      JoinStarts(ItemTexts(v.items));
      ReadItemsPrint(v.items, rest);
      var s := Print(v) + rest;
      assert s[1..] == inner + "]" + rest;
      assert s[1] == inner[0];
      ArrayUnfolds(s, v.items, rest);
    }
  }

  lemma JoinNothing()
    ensures Join([]) == []
  {
  }

  lemma {:induction false} ReadItemsPrint(items: seq<Json>, rest: string)
    requires items != [] && (forall i :: 0 <= i < |items| ==> Plain(items[i]))
    ensures ReadItems(Join(ItemTexts(items)) + "]" + rest) == Some((items, rest))
    decreases items
  {
    hide Read, ReadItems, Join, Print, Plain;
    var texts := ItemTexts(items);
    if |items| == 1 {
      ReadPrint(items[0], "]" + rest);
      assert texts == [texts[0]];
      JoinOne(texts[0]);
      assert Join(texts) + "]" + rest == Print(items[0]) + ("]" + rest);
      ItemsEnd(Print(items[0]) + ("]" + rest), items[0], rest);
      assert items == [items[0]];
    } else {
      var more := Join(texts[1..]) + "]" + rest;
      ReadPrint(items[0], "," + more);
      assert texts[1..] == ItemTexts(items[1..]);
      ReadItemsPrint(items[1..], rest);
      JoinMore(texts);
      assert Join(texts) + "]" + rest == Print(items[0]) + ("," + more);
      ItemsGoOn(Print(items[0]) + ("," + more), items[0], more, items[1..], rest);
      assert items == [items[0]] + items[1..];
    }
  }

  lemma FieldUnfolds(s: string, key: string, tail: string, v: Json, rest: string)
    requires s != [] && s[0] == '"' && ReadString(s[1..]) == Some((key, tail))
    requires tail != [] && tail[0] == ':' && Read(tail[1..]) == Some((v, rest))
    ensures ReadField(s) == Some((Field(key, v), rest))
  {
    hide Read, ReadString;
  }

  lemma {:induction false} ReadFieldPrint(f: Field, rest: string)
    requires Plain(f.value) && Delimited(rest)
    ensures ReadField(Quote(f.key) + ":" + Print(f.value) + rest) == Some((f, rest))
    decreases f
  {
    hide Read, ReadString, ReadField, Print, Plain, Escaped;
    var tail := ":" + Print(f.value) + rest;
    var s := Quote(f.key) + ":" + Print(f.value) + rest;
    assert s[1..] == Escaped(f.key) + ['"'] + tail;
    ReadEscaped(f.key, tail);
    assert tail[1..] == Print(f.value) + rest;
    ReadPrint(f.value, rest);
    FieldUnfolds(s, f.key, tail, f.value, rest);
  }

  lemma {:induction false} ReadObject(v: Json, rest: string)
    requires v.Obj? && Plain(v) && Delimited(rest)
    ensures Read(Print(v) + rest) == Some((v, rest))
    decreases v, 0
  {
    hide Read, ReadFields, Join, Delimited, Escaped;
    var texts := FieldTexts(v.fields);
    if v.fields == [] {
      EmptyBrackets(rest);
      JoinNothing();
      assert texts == [];
      assert Print(v) + rest == "{}" + rest;
    } else {
      JoinStarts(texts);
      ReadFieldsPrint(v.fields, rest);
      var s := Print(v) + rest;
      assert s[1..] == Join(texts) + "}" + rest;
      assert s[1] == '"';
      ObjectUnfolds(s, v.fields, rest);
    }
  }

  lemma {:induction false} ReadFieldsPrint(fields: seq<Field>, rest: string)
    requires fields != [] && (forall i :: 0 <= i < |fields| ==> Plain(fields[i].value))
    ensures ReadFields(Join(FieldTexts(fields)) + "}" + rest) == Some((fields, rest))
    decreases fields
  {
    hide Read, ReadFields, ReadField, Join, Print, Plain, Quote;
    var texts := FieldTexts(fields);
    var t := Quote(fields[0].key) + ":" + Print(fields[0].value);
    if |fields| == 1 {
      ReadFieldPrint(fields[0], "}" + rest);
      assert texts == [t];
      JoinOne(t);
      assert Join(texts) + "}" + rest == t + ("}" + rest);
      FieldsEnd(t + ("}" + rest), fields[0], rest);
      assert fields == [fields[0]];
    } else {
      var more := Join(texts[1..]) + "}" + rest;
      ReadFieldPrint(fields[0], "," + more);
      assert texts[1..] == FieldTexts(fields[1..]);
      ReadFieldsPrint(fields[1..], rest);
      JoinMore(texts);
      assert Join(texts) + "}" + rest == t + ("," + more);
      FieldsGoOn(t + ("," + more), fields[0], more, fields[1..], rest);
      assert fields == [fields[0]] + fields[1..];
    }
  }

  lemma {:induction false} NormalIsPlain(v: Json)
    requires WellFormed(v)
    ensures Plain(Normal(v))
  {
    match v
    case Arr(items) =>
      forall i | 0 <= i < |items| ensures Plain(Normal(v).items[i]) {
        NormalIsPlain(items[i]);
      }
    case Obj(fields) =>
      forall i | 0 <= i < |fields| ensures Plain(NormalFields(fields)[i].value) {
        NormalIsPlain(fields[i].value);
      }
      SortedMembers(NormalFields(fields));
      forall i | 0 <= i < |Normal(v).fields| ensures Plain(Normal(v).fields[i].value) {
        assert Normal(v).fields[i] in NormalFields(fields);
      }
    case _ =>
  }

  lemma FieldOrder()
    ensures Orders(FieldBefore)
  {
    forall a: Field, b: Field ensures FieldBefore(a, b) || FieldBefore(b, a) {
      TextsAreOrdered(a.key, b.key, []);
    }
    forall a: Field, b: Field, c: Field | FieldBefore(a, b) && FieldBefore(b, c) ensures FieldBefore(a, c) {
      TextsAreOrdered(a.key, b.key, c.key);
    }
  }

  lemma SortedMembers(fields: seq<Field>)
    ensures multiset(Sort(FieldBefore, fields)) == multiset(fields)
    ensures forall f :: f in Sort(FieldBefore, fields) ==> f in fields
  {
    hide Sort, Orders;
    FieldOrder();
    SortSorts(FieldBefore, fields);
    forall f | f in Sort(FieldBefore, fields) ensures f in fields {
      assert f in multiset(Sort(FieldBefore, fields));
    }
  }

  /** The printer can be undone: reading canonical text gives the normal form of the value. */
  lemma CanonicalRoundTrip(v: Json)
    requires WellFormed(v)
    ensures Read(Canonical(v)) == Some((Normal(v), []))
  {
    hide *;
    CanonicalPrintsNormal(v);
    NormalIsPlain(v);
    EndDelimits();
    ReadPrint(Normal(v), []);
    assert Print(Normal(v)) + [] == Print(Normal(v));
  }

  lemma EndDelimits()
    ensures Delimited([])
  {
  }

  /** Canonical texts are equal exactly when the values agree up to key order and integral floats. */
  lemma CanonicalIsUnambiguous(a: Json, b: Json)
    requires WellFormed(a) && WellFormed(b)
    ensures Canonical(a) == Canonical(b) <==> Normal(a) == Normal(b)
  {
    hide *;
    CanonicalRoundTrip(a);
    CanonicalRoundTrip(b);
    CanonicalPrintsNormal(a);
    CanonicalPrintsNormal(b);
  }

  ghost predicate DistinctKeys(fields: seq<Field>) {
    forall i, j :: 0 <= i < j < |fields| ==> fields[i].key != fields[j].key
  }

  lemma HeadIsLeast(fields: seq<Field>, f: Field)
    requires Sorted(FieldBefore, fields) && f in fields
    ensures TextAtMost(fields[0].key, f.key)
  {
    hide TextAtMost;
    TextsAreOrdered(f.key, f.key, []);
    var i :| 0 <= i < |fields| && fields[i] == f;
    assert i > 0 ==> FieldBefore(fields[0], fields[i]);
  }

  lemma HeadsAgree(a: seq<Field>, b: seq<Field>)
    requires Sorted(FieldBefore, a) && Sorted(FieldBefore, b) && multiset(a) == multiset(b) && DistinctKeys(b)
    requires a != [] && b != []
    ensures a[0] == b[0]
  {
    hide TextAtMost, Sorted;
    assert a[0] in multiset(b) && b[0] in multiset(a);
    HeadIsLeast(a, b[0]);
    HeadIsLeast(b, a[0]);
    TextsAreOrdered(a[0].key, b[0].key, []);
    var i :| 0 <= i < |b| && b[i] == a[0];
  }

  lemma TailBag(a: seq<Field>)
    requires a != []
    ensures multiset(a[1..]) == multiset(a) - multiset{a[0]}
  {
    hide *;
    BagWithout(a, 0);
    assert a[..0] + a[1..] == a[1..];
  }

  lemma TailsAgree(a: seq<Field>, b: seq<Field>)
    requires a != [] && b != [] && a[0] == b[0] && multiset(a) == multiset(b)
    ensures multiset(a[1..]) == multiset(b[1..])
  {
    TailBag(a);
    TailBag(b);
  }

  lemma TailIsSorted(a: seq<Field>)
    requires a != [] && Sorted(FieldBefore, a)
    ensures Sorted(FieldBefore, a[1..])
    ensures DistinctKeys(a) ==> DistinctKeys(a[1..])
  {
    hide FieldBefore;
    SortedTail(FieldBefore, a);
  }

  lemma {:induction false} SortedIsUnique(a: seq<Field>, b: seq<Field>)
    requires Sorted(FieldBefore, a) && Sorted(FieldBefore, b) && multiset(a) == multiset(b) && DistinctKeys(b)
    ensures a == b
    decreases |a|
  {
    hide *;
    assert |multiset(a)| == |a| && |multiset(b)| == |b|;
    if a == [] {
      BagOfNothing(b);
    } else {
      HeadsAgree(a, b);
      TailsAgree(a, b);
      TailIsSorted(a);
      TailIsSorted(b);
      SortedIsUnique(a[1..], b[1..]);
      assert a == [a[0]] + a[1..] && b == [b[0]] + b[1..];
    }
  }

  /** Objects have the same normal form exactly when they hold the same keys with the same normal values. */
  lemma KeyOrderIsIgnored(a: seq<Field>, b: seq<Field>)
    requires DistinctKeys(a) && DistinctKeys(b)
    ensures Normal(Obj(a)) == Normal(Obj(b)) <==> multiset(NormalFields(a)) == multiset(NormalFields(b))
  {
    var x, y := NormalFields(a), NormalFields(b);
    assert Normal(Obj(a)) == Obj(Sort(FieldBefore, x)) && Normal(Obj(b)) == Obj(Sort(FieldBefore, y));
    assert DistinctKeys(y);
    hide Normal, NormalFields, Sort, Orders, FieldBefore;
    FieldOrder();
    SortSorts(FieldBefore, x);
    SortSorts(FieldBefore, y);
    if multiset(x) == multiset(y) {
      DistinctKeysStay(Sort(FieldBefore, y), y);
      SortedIsUnique(Sort(FieldBefore, x), Sort(FieldBefore, y));
    }
  }

  lemma DistinctKeysStay(xs: seq<Field>, ys: seq<Field>)
    requires multiset(xs) == multiset(ys) && DistinctKeys(ys)
    ensures DistinctKeys(xs)
  {
    assert |multiset(xs)| == |xs| && |multiset(ys)| == |ys|;
    forall y | y in ys ensures y in xs {
      assert y in multiset(ys);
    }
    CoveringIsPermutation(ys, xs);
    forall i, j | 0 <= i < j < |xs| ensures xs[i].key != xs[j].key {
      assert xs[i] in multiset(ys) && xs[j] in multiset(ys);
      var a :| 0 <= a < |ys| && ys[a] == xs[i];
      var b :| 0 <= b < |ys| && ys[b] == xs[j];
      assert xs[i] != xs[j];
    }
  }
}
