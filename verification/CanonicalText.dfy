// The canonical text of a JSON value, described character by character without reference to the printer
// (crates/kernel/src/session.rs, `to_canonical_json`), and the proof that the printer writes exactly this text.
module CanonicalText {
  import opened CanonicalJson
  import opened Collections
  import opened Wrappers

  /** The characters with a short form, and the letter that stands for each. */
  const SHORT: map<char, char> :=
    map['"' := '"', '\\' := '\\', 8 as char := 'b', 12 as char := 'f', '\n' := 'n', '\r' := 'r', '\t' := 't']

  const HEX: string := "0123456789abcdef"

  ghost predicate IsCharText(c: char, t: string) {
    if c in SHORT then t == ['\\', SHORT[c]]
    else if c as int < 32 then t == ['\\', 'u', '0', '0', HEX[c as int / 16], HEX[c as int % 16]]
    else t == [c]
  }

  ghost function Glued(parts: seq<string>): string {
    if parts == [] then [] else Glued(parts[..|parts| - 1]) + parts[|parts| - 1]
  }

  ghost predicate IsStringText(s: string, t: string) {
    exists parts: seq<string> :: |parts| == |s| && t == ['"'] + Glued(parts) + ['"']
      && forall i :: 0 <= i < |s| ==> IsCharText(s[i], parts[i])
  }

  /** Decimal digits without a leading zero. */
  ghost predicate IsNumeral(digits: string) {
    digits != [] && (|digits| > 1 ==> digits[0] != '0') && forall i :: 0 <= i < |digits| ==> '0' <= digits[i] <= '9'
  }

  ghost predicate IsIntegerText(i: int, t: string) {
    exists digits: string :: IsNumeral(digits) && t == (if i < 0 then "-" else "") + digits
      && DigitsValue(digits) == if i < 0 then -i else i
  }

  /** A float with an integral value is written like that integer. */
  ghost predicate IsNumberText(n: Num, t: string) {
    match n
    case Int(i) => IsIntegerText(i, t)
    case IntegralFloat(i) => IsIntegerText(i, t)
    case OtherFloat(text) => t == text
  }

  /** The texts in order, with a comma between any two. */
  ghost function Listed(texts: seq<string>): string {
    if texts == [] then []
    else if |texts| == 1 then texts[0]
    else Listed(texts[..|texts| - 1]) + "," + texts[|texts| - 1]
  }

  /** `a` comes strictly before `b`: it ends first, or has the smaller character where they first differ. */
  ghost predicate KeyBelow(a: string, b: string) {
    exists k: nat :: k <= |a| && k < |b| && a[..k] == b[..k] && (k == |a| || a[k] < b[k])
  }

  /** `at` goes through all the fields in strictly ascending order of their keys. */
  ghost predicate InKeyOrder(fields: seq<Field>, at: seq<int>) {
    && |at| == |fields|
    && (forall i :: 0 <= i < |at| ==> 0 <= at[i] < |fields|)
    && (forall j :: 0 <= j < |fields| ==> j in at)
    && (forall i, j :: 0 <= i < j < |at| ==> KeyBelow(fields[at[i]].key, fields[at[j]].key))
  }

  ghost function Paired(keys: seq<string>, texts: seq<string>): (ps: seq<string>)
    requires |keys| == |texts|
    ensures |ps| == |keys|
  {
    seq(|keys|, i requires 0 <= i < |keys| => keys[i] + ":" + texts[i])
  }

  /** `t` is the canonical text of the value. */
  ghost predicate IsText(v: Json, t: string) {
    match v
    case Null => t == "null"
    case Bool(b) => t == if b then "true" else "false"
    case Number(n) => IsNumberText(n, t)
    case Str(s) => IsStringText(s, t)
    case Arr(items) =>
      exists texts: seq<string> :: |texts| == |items| && t == "[" + Listed(texts) + "]"
        && forall i :: 0 <= i < |items| ==> IsText(items[i], texts[i])
    case Obj(fields) =>
      exists at: seq<int>, keys: seq<string>, texts: seq<string> ::
        AreFieldTexts(fields, at, keys, texts) && |keys| == |texts| && t == "{" + Listed(Paired(keys, texts)) + "}"
  }

  /** The texts of keys and values, in the order of the keys. */
  ghost predicate AreFieldTexts(fields: seq<Field>, at: seq<int>, keys: seq<string>, texts: seq<string>) {
    && InKeyOrder(fields, at) && |keys| == |fields| == |texts|
    && forall i :: 0 <= i < |fields| ==>
         IsStringText(fields[at[i]].key, keys[i]) && IsText(fields[at[i]].value, texts[i])
  }

  /** No object holds a key twice. */
  ghost predicate Keyed(v: Json) {
    match v
    case Arr(items) => forall i :: 0 <= i < |items| ==> Keyed(items[i])
    case Obj(fields) => DistinctKeys(fields) && forall i :: 0 <= i < |fields| ==> Keyed(fields[i].value)
    case _ => true
  }

  // ---------------------------------------------------------------- strings

  lemma EscapeIsCharText(c: char)
    ensures IsCharText(c, Escape(c))
  {
    var n := c as int;
    if n < 32 {
      assert HEX[n / 16] == HexDigit(n / 16) && HEX[n % 16] == HexDigit(n % 16);
    }
  }

  /**
   * The escape is the shortest: whatever other text is read as the same character, on its own before anything at all,
   * is longer.
   */
  lemma EscapeIsShortest(c: char, t: string, rest: string, u: string)
    requires t != [] && t[0] != '"' && ReadChar(t + rest) == Some((c, rest)) && IsCharText(c, u)
    ensures t == u || |t| > |u|
  {
    var s := t + rest;
    assert s[0] == t[0] && |t| == |s| - |rest|;
    if t[0] != '\\' {
      assert |t| == 1 && t == [c];
    } else if |t| == 2 {
      assert s[1] == t[1] && t == ['\\', t[1]];
    } else {
      assert |t| == 6 && s[4] == t[4] && s[5] == t[5];
      assert t == ['\\', 'u', '0', '0', t[4], t[5]];
    }
  }

  lemma {:induction false} GluedFirst(first: string, parts: seq<string>)
    ensures Glued([first] + parts) == first + Glued(parts)
  {
    var all := [first] + parts;
    if parts == [] {
      assert all[..0] == [];
    } else {
      GluedFirst(first, parts[..|parts| - 1]);
      assert all[..|all| - 1] == [first] + parts[..|parts| - 1];
    }
  }

  ghost function Escapes(s: string): (parts: seq<string>)
    ensures |parts| == |s|
  {
    seq(|s|, i requires 0 <= i < |s| => Escape(s[i]))
  }

  lemma {:induction false} EscapedIsGlued(s: string)
    ensures Escaped(s) == Glued(Escapes(s))
  {
    hide Escape;
    if s != [] {
      EscapedIsGlued(s[1..]);
      GluedFirst(Escape(s[0]), Escapes(s[1..]));
      assert Escapes(s) == [Escape(s[0])] + Escapes(s[1..]);
    }
  }

  lemma QuoteIsStringText(s: string)
    ensures IsStringText(s, Quote(s))
  {
    hide IsCharText, Escape, Glued, Escaped;
    EscapedIsGlued(s);
    forall i | 0 <= i < |s| ensures IsCharText(s[i], Escapes(s)[i]) {
      EscapeIsCharText(s[i]);
    }
  }

  lemma StringTextIsUnique(s: string, t: string)
    requires IsStringText(s, t)
    ensures t == Quote(s)
  {
    var parts: seq<string> :| |parts| == |s| && t == ['"'] + Glued(parts) + ['"']
      && forall i :: 0 <= i < |s| ==> IsCharText(s[i], parts[i]);
    EscapedIsGlued(s);
    forall i | 0 <= i < |s| ensures parts[i] == Escapes(s)[i] {
      EscapeIsCharText(s[i]);
    }
    assert parts == Escapes(s);
  }

  // ---------------------------------------------------------------- numbers

  lemma {:induction false} DigitsAreNumeral(n: nat)
    ensures IsNumeral(Digits(n)) && DigitsValue(Digits(n)) == n && (n > 0 ==> Digits(n)[0] != '0')
  {
    DigitsRead(n);
    var s := Digits(n);
    forall i | 0 <= i < |s| ensures '0' <= s[i] <= '9' {
      assert s[i] in s;
    }
    if n >= 10 {
      DigitsAreNumeral(n / 10);
    }
  }

  lemma {:induction false} NumeralIsPositive(s: string)
    requires IsNumeral(s) && s[0] != '0'
    ensures DigitsValue(s) >= 1
  {
    if |s| > 1 {
      NumeralIsPositive(s[..|s| - 1]);
    } else {
      assert s[..0] == [];
    }
  }

  lemma {:induction false} NumeralIsUnique(a: string, b: string)
    requires IsNumeral(a) && IsNumeral(b) && DigitsValue(a) == DigitsValue(b)
    ensures a == b
  {
    var m, n := |a| - 1, |b| - 1;
    assert a == a[..m] + [a[m]] && b == b[..n] + [b[n]];
    var x, y := a[m] as int - '0' as int, b[n] as int - '0' as int;
    if m > 0 { NumeralIsPositive(a[..m]); } else { assert a[..m] == []; }
    if n > 0 { NumeralIsPositive(b[..n]); } else { assert b[..n] == []; }
    assert 10 * DigitsValue(a[..m]) + x == 10 * DigitsValue(b[..n]) + y;
    assert DigitsValue(a[..m]) == DigitsValue(b[..n]) && x == y;
    if m > 0 && n > 0 {
      NumeralIsUnique(a[..m], b[..n]);
    }
  }

  lemma IntTextIsIntegerText(i: int)
    ensures IsIntegerText(i, IntText(i))
  {
    hide IsNumeral;
    var n := if i < 0 then -i else i;
    DigitsAreNumeral(n);
    assert IntText(i) == (if i < 0 then "-" else "") + Digits(n);
  }

  lemma IntegerTextIsUnique(i: int, t: string)
    requires IsIntegerText(i, t)
    ensures t == IntText(i)
  {
    hide IsNumeral;
    var n := if i < 0 then -i else i;
    var digits: string :| IsNumeral(digits) && t == (if i < 0 then "-" else "") + digits && DigitsValue(digits) == n;
    DigitsAreNumeral(n);
    NumeralIsUnique(digits, Digits(n));
  }

  // ---------------------------------------------------------------- lists

  lemma {:induction false} ListedFirst(first: string, texts: seq<string>)
    requires texts != []
    ensures Listed([first] + texts) == first + "," + Listed(texts)
  {
    var all := [first] + texts;
    var n := |texts| - 1;
    assert all[..|texts|] == [first] + texts[..n];
    if n == 0 {
      assert all[..1] == [first];
    } else {
      ListedFirst(first, texts[..n]);
    }
  }

  lemma {:induction false} JoinIsListed(texts: seq<string>)
    ensures Join(texts) == Listed(texts)
  {
    if |texts| > 1 {
      JoinIsListed(texts[1..]);
      ListedFirst(texts[0], texts[1..]);
      assert texts == [texts[0]] + texts[1..];
    }
  }

  // ---------------------------------------------------------------- keys

  lemma {:induction false} DifferIsBelow(a: string, b: string)
    requires TextAtMost(a, b) && a != b
    ensures KeyBelow(a, b)
  {
    if a == [] {
      assert a[..0] == b[..0];
    } else if a[0] < b[0] {
      assert a[..0] == b[..0];
    } else {
      assert a == [a[0]] + a[1..] && b == [b[0]] + b[1..];
      DifferIsBelow(a[1..], b[1..]);
      var k: nat :| k <= |a[1..]| && k < |b[1..]| && a[1..][..k] == b[1..][..k]
        && (k == |a[1..]| || a[1..][k] < b[1..][k]);
      assert a[..k + 1] == [a[0]] + a[1..][..k] && b[..k + 1] == [b[0]] + b[1..][..k];
    }
  }

  lemma {:induction false} BelowIsAtMost(a: string, b: string, k: nat)
    requires k <= |a| && k < |b| && a[..k] == b[..k] && (k == |a| || a[k] < b[k])
    ensures TextAtMost(a, b) && a != b
  {
    if k > 0 {
      assert a[0] == a[..k][0] && b[0] == b[..k][0];
      assert a[1..][..k - 1] == a[..k][1..] && b[1..][..k - 1] == b[..k][1..];
      BelowIsAtMost(a[1..], b[1..], k - 1);
    }
  }

  lemma BelowIsOneWay(a: string, b: string)
    requires KeyBelow(a, b)
    ensures !KeyBelow(b, a) && a != b
  {
    var k: nat :| k <= |a| && k < |b| && a[..k] == b[..k] && (k == |a| || a[k] < b[k]);
    BelowIsAtMost(a, b, k);
    if KeyBelow(b, a) {
      var l: nat :| l <= |b| && l < |a| && b[..l] == a[..l] && (l == |b| || b[l] < a[l]);
      BelowIsAtMost(b, a, l);
      TextsAreOrdered(a, b, []);
    }
  }

  /** There is one way only to go through the fields in order. */
  lemma {:induction false} OrderIsUnique(fields: seq<Field>, at: seq<int>, to: seq<int>, k: nat)
    requires InKeyOrder(fields, at) && InKeyOrder(fields, to) && k <= |fields|
    ensures at[..k] == to[..k]
  {
    hide KeyBelow;
    if k > 0 {
      OrderIsUnique(fields, at, to, k - 1);
      var x, y := at[k - 1], to[k - 1];
      assert x in to && y in at;
      var p :| 0 <= p < |to| && to[p] == x;
      var q :| 0 <= q < |at| && at[q] == y;
      forall i | 0 <= i < k - 1 ensures at[i] == to[i] && at[i] != x && to[i] != y {
        assert at[..k - 1][i] == to[..k - 1][i];
        BelowIsOneWay(fields[at[i]].key, fields[x].key);
        BelowIsOneWay(fields[to[i]].key, fields[y].key);
      }
      if x != y {
        BelowIsOneWay(fields[x].key, fields[y].key);
      }
      assert at[..k] == at[..k - 1] + [x] && to[..k] == to[..k - 1] + [y];
    }
  }

  // ---------------------------------------------------------------- values

  ghost function PartsIn(fields: seq<Field>): (ps: seq<Part>)
    ensures |ps| == |fields|
  {
    seq(|fields|, i requires 0 <= i < |fields| => Part(fields[i].key, Canonical(fields[i].value)))
  }

  lemma PartOrder()
    ensures Orders(PartBefore)
  {
    forall a: Part, b: Part ensures PartBefore(a, b) || PartBefore(b, a) {
      TextsAreOrdered(a.key, b.key, []);
    }
    forall a: Part, b: Part, c: Part | PartBefore(a, b) && PartBefore(b, c) ensures PartBefore(a, c) {
      TextsAreOrdered(a.key, b.key, c.key);
    }
  }

  lemma {:induction false} FindAll(ps: seq<Part>, parts: seq<Part>) returns (at: seq<int>)
    requires forall p :: p in ps ==> p in parts
    ensures |at| == |ps| && forall i :: 0 <= i < |at| ==> 0 <= at[i] < |parts| && parts[at[i]] == ps[i]
  {
    if ps == [] {
      at := [];
    } else {
      var before := FindAll(ps[..|ps| - 1], parts);
      assert ps[|ps| - 1] in ps;
      var j :| 0 <= j < |parts| && parts[j] == ps[|ps| - 1];
      at := before + [j];
    }
  }

  lemma SortedParts(parts: seq<Part>) returns (ps: seq<Part>, at: seq<int>)
    requires Distinct(parts)
    ensures ps == Sort(PartBefore, parts) && Sorted(PartBefore, ps) && Distinct(ps) && |at| == |ps| == |parts|
    ensures forall i :: 0 <= i < |at| ==> 0 <= at[i] < |parts| && parts[at[i]] == ps[i]
    ensures forall p :: p in parts ==> p in ps
  {
    hide PartBefore, Sort, Orders, Sorted;
    ps := Sort(PartBefore, parts);
    PartOrder();
    SortSorts(PartBefore, parts);
    forall p ensures p in ps <==> p in parts {
      assert p in ps <==> p in multiset(ps);
      assert p in parts <==> p in multiset(parts);
    }
    CoveringIsPermutation(parts, ps);
    at := FindAll(ps, parts);
  }

  /** The printer goes through the fields of an object in order. */
  lemma SortingOrders(fields: seq<Field>) returns (at: seq<int>)
    requires DistinctKeys(fields)
    ensures InKeyOrder(fields, at)
    ensures var ps := Sort(PartBefore, PartsIn(fields));
            |ps| == |fields| && forall i :: 0 <= i < |ps| ==> ps[i] == PartsIn(fields)[at[i]]
  {
    hide Sort, KeyBelow, Canonical;
    var parts := PartsIn(fields);
    var ps;
    ps, at := SortedParts(parts);
    forall j | 0 <= j < |fields| ensures j in at {
      assert parts[j] in ps;
      var i :| 0 <= i < |ps| && ps[i] == parts[j];
      assert parts[at[i]].key == parts[j].key && at[i] == j;
    }
    forall i, j | 0 <= i < j < |at| ensures KeyBelow(fields[at[i]].key, fields[at[j]].key) {
      assert PartBefore(ps[i], ps[j]) && ps[i] != ps[j];
      DifferIsBelow(ps[i].key, ps[j].key);
    }
  }

  ghost function SortedKeys(fields: seq<Field>, at: seq<int>): (ts: seq<string>)
    requires InKeyOrder(fields, at)
    ensures |ts| == |fields|
  {
    seq(|fields|, i requires 0 <= i < |fields| => Quote(fields[at[i]].key))
  }

  ghost function SortedTexts(fields: seq<Field>, at: seq<int>): (ts: seq<string>)
    requires InKeyOrder(fields, at)
    ensures |ts| == |fields|
  {
    seq(|fields|, i requires 0 <= i < |fields| => Canonical(fields[at[i]].value))
  }

  lemma ObjectText(fields: seq<Field>) returns (at: seq<int>)
    requires DistinctKeys(fields)
    ensures InKeyOrder(fields, at)
    ensures Canonical(Obj(fields)) == "{" + Listed(Paired(SortedKeys(fields, at), SortedTexts(fields, at))) + "}"
  {
    at := SortingOrders(fields);
    var ps := Sort(PartBefore, PartsIn(fields));
    assert Canonical(Obj(fields)) == "{" + Join(PartTexts(ps)) + "}";
    hide *;
    JoinIsListed(PartTexts(ps));
    PairsAreParts(fields, at, ps);
  }

  lemma PairsAreParts(fields: seq<Field>, at: seq<int>, ps: seq<Part>)
    requires InKeyOrder(fields, at) && |ps| == |fields|
    requires forall i :: 0 <= i < |ps| ==> ps[i] == PartsIn(fields)[at[i]]
    ensures PartTexts(ps) == Paired(SortedKeys(fields, at), SortedTexts(fields, at))
  {
    hide KeyBelow, Quote, Canonical;
  }

  ghost function ItemCanonicals(items: seq<Json>): (ts: seq<string>)
    ensures |ts| == |items|
  {
    seq(|items|, i requires 0 <= i < |items| => Canonical(items[i]))
  }

  lemma ArrayText(items: seq<Json>)
    ensures Canonical(Arr(items)) == "[" + Listed(ItemCanonicals(items)) + "]"
  {
    JoinIsListed(ItemCanonicals(items));
  }

  /** What the printer writes is the canonical text. */
  lemma {:induction false} CanonicalIsText(v: Json)
    requires Keyed(v)
    ensures IsText(v, Canonical(v))
  {
    hide Canonical, IsStringText, Quote, IsIntegerText, IntText, InKeyOrder, Listed, Paired;
    match v
    case Number(n) =>
      NumberIsText(n);
    case Str(s) =>
      QuoteIsStringText(s);
      StringIsQuoted(s);
    case Arr(items) =>
      ArrayText(items);
      forall i | 0 <= i < |items| ensures IsText(items[i], ItemCanonicals(items)[i]) {
        CanonicalIsText(items[i]);
      }
    case Obj(fields) =>
      var at := ObjectText(fields);
      AtIsIndex(fields, at);
      forall i | 0 <= i < |fields|
        ensures IsStringText(fields[at[i]].key, SortedKeys(fields, at)[i])
        ensures IsText(fields[at[i]].value, SortedTexts(fields, at)[i])
      {
        QuoteIsStringText(fields[at[i]].key);
        CanonicalIsText(fields[at[i]].value);
      }
      assert AreFieldTexts(fields, at, SortedKeys(fields, at), SortedTexts(fields, at));
    case _ => Simple(v);
  }

  lemma AtIsIndex(fields: seq<Field>, at: seq<int>)
    requires InKeyOrder(fields, at)
    ensures |at| == |fields| && forall i :: 0 <= i < |at| ==> 0 <= at[i] < |fields|
  {
  }

  lemma StringIsQuoted(s: string)
    ensures Canonical(Str(s)) == Quote(s)
  {
  }

  lemma Simple(v: Json)
    requires v.Null? || v.Bool?
    ensures Canonical(v) == if v.Null? then "null" else if v.b then "true" else "false"
  {
  }

  lemma NumberIsText(n: Num)
    ensures forall t :: IsNumberText(n, t) <==> t == Canonical(Number(n))
  {
    hide IsIntegerText, IntText;
    match n
    case OtherFloat(_) =>
    case _ =>
      IntTextIsIntegerText(n.i);
      forall t | IsNumberText(n, t) ensures t == IntText(n.i) {
        IntegerTextIsUnique(n.i, t);
      }
  }

  lemma ObjectIsCanonical(fields: seq<Field>, at: seq<int>, keys: seq<string>, texts: seq<string>)
    requires DistinctKeys(fields) && InKeyOrder(fields, at) && |keys| == |fields| == |texts|
    requires forall i :: 0 <= i < |fields| ==>
               IsStringText(fields[at[i]].key, keys[i]) && texts[i] == Canonical(fields[at[i]].value)
    ensures Canonical(Obj(fields)) == "{" + Listed(Paired(keys, texts)) + "}"
  {
    var to := ObjectText(fields);
    OrderIsUnique(fields, at, to, |fields|);
    assert at == at[..|fields|] && to == to[..|fields|];
    hide Canonical, IsStringText, Quote, Listed, KeyBelow;
    forall i | 0 <= i < |fields| ensures keys[i] == SortedKeys(fields, at)[i] {
      StringTextIsUnique(fields[at[i]].key, keys[i]);
    }
    assert keys == SortedKeys(fields, at) && texts == SortedTexts(fields, at);
  }

  lemma {:induction false} ArrayIsCanonical(v: Json, t: string)
    requires v.Arr? && Keyed(v) && IsText(v, t)
    ensures t == Canonical(v)
    decreases v, 0
  {
    hide Canonical, Listed;
    var items := v.items;
    var texts: seq<string> :| |texts| == |items| && t == "[" + Listed(texts) + "]"
      && forall i :: 0 <= i < |items| ==> IsText(items[i], texts[i]);
    forall i | 0 <= i < |items| ensures texts[i] == ItemCanonicals(items)[i] {
      TextIsCanonical(items[i], texts[i]);
    }
    assert texts == ItemCanonicals(items);
    ArrayText(items);
  }

  lemma {:induction false} FieldsAreCanonical(v: Json, t: string)
    requires v.Obj? && Keyed(v) && IsText(v, t)
    ensures t == Canonical(v)
    decreases v, 0
  {
    hide Canonical, Listed, Paired, AreFieldTexts;
    var fields := v.fields;
    var at: seq<int>, keys: seq<string>, texts: seq<string> :|
      AreFieldTexts(fields, at, keys, texts) && |keys| == |texts| && t == "{" + Listed(Paired(keys, texts)) + "}";
    FieldTextsAt(fields, at, keys, texts);
    forall i | 0 <= i < |fields| ensures texts[i] == Canonical(fields[at[i]].value) {
      TextIsCanonical(fields[at[i]].value, texts[i]);
    }
    ObjectIsCanonical(fields, at, keys, texts);
  }

  lemma FieldTextsAt(fields: seq<Field>, at: seq<int>, keys: seq<string>, texts: seq<string>)
    requires AreFieldTexts(fields, at, keys, texts)
    ensures InKeyOrder(fields, at) && |keys| == |fields| == |texts|
    ensures forall i :: 0 <= i < |fields| ==>
              IsStringText(fields[at[i]].key, keys[i]) && IsText(fields[at[i]].value, texts[i])
  {
    hide KeyBelow, IsStringText, IsText;
  }

  /** There is no other canonical text. */
  lemma {:induction false} TextIsCanonical(v: Json, t: string)
    requires Keyed(v) && IsText(v, t)
    ensures t == Canonical(v)
    decreases v, 1
  {
    hide Canonical, IsStringText, Quote, IsNumberText, Listed, Paired, InKeyOrder;
    match v
    case Number(n) =>
      NumberIsText(n);
    case Str(s) =>
      StringTextIsUnique(s, t);
      StringIsQuoted(s);
    case Arr(items) =>
      ArrayIsCanonical(v, t);
    case Obj(fields) =>
      FieldsAreCanonical(v, t);
    case _ => Simple(v);
  }

  /** The canonical text is exactly the text described. */
  lemma TextIsExact(v: Json, t: string)
    requires Keyed(v)
    ensures IsText(v, t) <==> t == Canonical(v)
  {
    hide *;
    CanonicalIsText(v);
    if IsText(v, t) {
      TextIsCanonical(v, t);
    }
  }
}
