/**
  JSON values and their text (RFC 8259, section 3), in the layout of Python's
  `json.dumps(..., sort_keys=True)`, which writes everything in ASCII.  An object is
  the list of its fields in sorted order; a float is known by its `repr`.

  Ids hash several such texts one after the other, so what matters is that a text
  shows where it ends: a concatenation can be read in only one way.
 */
module JsonText {
  import opened Decimal

  datatype Json =
    | Null
    | Bool(b: bool)
    | Num(n: int)
    | Real(repr: Float)
    | Infinite(negative: bool)
    | NaN
    | Str(s: string)
    | Arr(items: seq<Json>)
    | Obj(fields: seq<Field>)

  datatype Field = Field(key: string, value: Json)

  // ------------------------------------------------------------------- numerals

  predicate NumChar(c: char) { IsDigit(c) || c == '-' || c == '+' || c == '.' || c == 'e' }

  predicate AllNumChars(s: string) { forall i :: 0 <= i < |s| ==> NumChar(s[i]) }

  // How a finite float is written; a point or an exponent tells it from an integer.
  type Float = s: string | IsFloat(s) witness "0.0"

  predicate IsFloat(s: string) {
    |s| >= 2 && AllNumChars(s) && (s[0] == '-' || IsDigit(s[0])) && ('.' in s || 'e' in s)
  }

  predicate IsNumeric(j: Json) { j.Num? || j.Real? || j.Infinite? || j.NaN? }

  function Numeral(j: Json): (s: string)
    requires IsNumeric(j)
    ensures s != "" && Kind(j, s[0])
  {
    match j
    case Num(n) => Show(n)
    case Real(repr) => repr
    case Infinite(negative) => if negative then "-Infinity" else "Infinity"
    case NaN => "NaN"
  }

  // The text after a number must not continue it.
  predicate Ends(r: string) { r == "" || !NumChar(r[0]) }

  lemma NotLonger(a: string, b: string, r: string, t: string)
    requires a + r == b + t && AllNumChars(b) && Ends(r)
    ensures |b| <= |a|
  {
    AtConcat(a, r, |a|);
    AtConcat(b, t, |a|);
  }

  lemma TokenUnique(a: string, b: string, r: string, t: string)
    requires a + r == b + t && AllNumChars(a) && AllNumChars(b) && Ends(r) && Ends(t)
    ensures a == b && r == t
  {
    NotLonger(a, b, r, t);
    NotLonger(b, a, t, r);
    assert (a + r)[..|a|] == a && (b + t)[..|b|] == b;
    assert (a + r)[|a|..] == r && (b + t)[|b|..] == t;
  }

  lemma ShowIsInteger(n: int)
    ensures AllNumChars(Show(n)) && '.' !in Show(n) && 'e' !in Show(n) && (n < 0 ==> |Show(n)| >= 2)
  {
    var digits := Digits(if n < 0 then -n else n);
    assert forall c :: c in digits ==> IsDigit(c);
  }

  lemma FiniteUnique(a: Json, b: Json, r: string, t: string)
    requires (a.Num? || a.Real?) && (b.Num? || b.Real?) && Numeral(a) + r == Numeral(b) + t && Ends(r) && Ends(t)
    ensures a == b && r == t
  {
    if a.Num? { ShowIsInteger(a.n); }
    if b.Num? { ShowIsInteger(b.n); }
    TokenUnique(Numeral(a), Numeral(b), r, t);
    if a.Num? && b.Num? {
      ShowUnique(a.n, b.n, "", "");
    }
  }

  // A finite number is not read as an infinite one, nor as none.
  lemma FiniteIsFinite(a: Json, b: Json, r: string, t: string)
    requires (a.Num? || a.Real?) && (b.Infinite? || b.NaN?)
    ensures Numeral(a) + r != Numeral(b) + t
  {
    if a.Num? { ShowIsInteger(a.n); }
    AtConcat(Numeral(a), r, 0);
    AtConcat(Numeral(b), t, 0);
    AtConcat(Numeral(a), r, 1);
    AtConcat(Numeral(b), t, 1);
    assert a.Num? && Show(a.n)[0] == '-' ==> a.n < 0 by {
      if a.Num? && a.n >= 0 { assert IsDigit(Digits(a.n)[0]); }
    }
  }

  lemma NumericUnique(a: Json, b: Json, r: string, t: string)
    requires IsNumeric(a) && IsNumeric(b) && Numeral(a) + r == Numeral(b) + t && Ends(r) && Ends(t)
    ensures a == b && r == t
  {
    if a.Num? || a.Real? {
      if b.Num? || b.Real? {
        FiniteUnique(a, b, r, t);
      } else {
        FiniteIsFinite(a, b, r, t);
      }
    } else if b.Num? || b.Real? {
      FiniteIsFinite(b, a, t, r);
    } else {
      assert (Numeral(a) + r)[0] == Numeral(a)[0] && (Numeral(b) + t)[0] == Numeral(b)[0];
      Strip(Numeral(a), r, t);
    }
  }

  // -------------------------------------------------------------------- strings

  function HexDigit(d: nat): (c: char)
    requires d < 16
  {
    if d < 10 then ('0' as int + d) as char else ('a' as int + d - 10) as char
  }

  // `\\u{:04x}`
  function Unicode(n: nat): (s: string)
    requires n < 0x10000
    ensures |s| == 6
  {
    ['\\', 'u', HexDigit(n / 0x1000), HexDigit(n / 0x100 % 0x10), HexDigit(n / 0x10 % 0x10), HexDigit(n % 0x10)]
  }

  lemma UnicodeUnique(n: nat, m: nat)
    requires n < 0x10000 && m < 0x10000 && Unicode(n) == Unicode(m)
    ensures n == m
  {
    var a, b := Unicode(n), Unicode(m);
    HexUnique(n / 0x1000, m / 0x1000, a[2], b[2]);
    HexUnique(n / 0x100 % 0x10, m / 0x100 % 0x10, a[3], b[3]);
    HexUnique(n / 0x10 % 0x10, m / 0x10 % 0x10, a[4], b[4]);
    HexUnique(n % 0x10, m % 0x10, a[5], b[5]);
    FourDigits(n);
    FourDigits(m);
  }

  lemma HexUnique(d: nat, e: nat, c: char, c': char)
    requires d < 16 && e < 16 && c == HexDigit(d) && c' == HexDigit(e) && c == c'
    ensures d == e
  {
  }

  lemma FourDigits(n: nat)
    ensures n == n / 0x1000 * 0x1000 + n / 0x100 % 0x10 * 0x100 + n / 0x10 % 0x10 * 0x10 + n % 0x10
  {
    assert n / 0x100 == n / 0x1000 * 0x10 + n / 0x100 % 0x10;
    assert n / 0x10 == n / 0x100 * 0x10 + n / 0x10 % 0x10;
  }

  // The letter of a short escape, if there is one.
  function Short(c: char): char {
    if c == '"' || c == '\\' then c
    else if c as int == 8 then 'b'
    else if c == '\t' then 't'
    else if c == '\n' then 'n'
    else if c as int == 12 then 'f'
    else if c == '\r' then 'r'
    else 'u'
  }

  predicate Printable(c: char) { ' ' <= c <= '~' && c != '"' && c != '\\' }

  // One character in a string; beyond 16 bits it is written as two.
  function Code(c: char): (s: string)
    ensures s != "" && s[0] != '"'
  {
    var n := c as int;
    if Printable(c) then [c]
    else if Short(c) != 'u' then ['\\', Short(c)]
    else if n < 0x10000 then Unicode(n)
    else Unicode(0xd800 + (n - 0x10000) / 0x400) + Unicode(0xdc00 + (n - 0x10000) % 0x400)
  }

  // The first of the two.
  function High(c: char): nat { if c as int < 0x10000 then c as int else 0xd800 + (c as int - 0x10000) / 0x400 }

  lemma LongCode(c: char)
    requires !Printable(c) && Short(c) == 'u'
    ensures |Code(c)| >= 6 && High(c) < 0x10000 && Code(c)[..6] == Unicode(High(c))
    ensures |Code(c)| == if c as int < 0x10000 then 6 else 12
    ensures c as int >= 0x10000 ==>
      Code(c)[6..] == Unicode(0xdc00 + (c as int - 0x10000) % 0x400) && 0xd800 <= High(c) < 0xdc00
    ensures c as int < 0x10000 ==> !(0xd800 <= High(c) < 0xdc00)
  {
  }

  lemma LongUnique(c: char, d: char, x: string, y: string)
    requires !Printable(c) && Short(c) == 'u' && !Printable(d) && Short(d) == 'u' && Code(c) + x == Code(d) + y
    ensures c == d && x == y
  {
    LongCode(c);
    LongCode(d);
    var s, t := Code(c) + x, Code(d) + y;
    assert s[..6] == Code(c)[..6] && t[..6] == Code(d)[..6];
    UnicodeUnique(High(c), High(d));
    if c as int >= 0x10000 {
      assert s[6..12] == Code(c)[6..] && t[6..12] == Code(d)[6..];
      UnicodeUnique(0xdc00 + (c as int - 0x10000) % 0x400, 0xdc00 + (d as int - 0x10000) % 0x400);
    }
    assert s[|Code(c)|..] == x && t[|Code(d)|..] == y;
  }

  lemma CodeUnique(c: char, d: char, x: string, y: string)
    requires Code(c) + x == Code(d) + y
    ensures c == d && x == y
  {
    var s, t := Code(c) + x, Code(d) + y;
    assert s[0] == Code(c)[0] && t[0] == Code(d)[0];
    if Printable(c) || Printable(d) {
      assert s[1..] == x || !Printable(c);
      assert t[1..] == y || !Printable(d);
    } else {
      assert s[1] == Code(c)[1] && t[1] == Code(d)[1];
      assert s[1] == Short(c) && t[1] == Short(d);
      if Short(c) == 'u' {
        LongUnique(c, d, x, y);
      } else {
        assert s[2..] == x && t[2..] == y;
      }
    }
  }

  // ------------------------------------------------------------------- printing

  // Every printer takes the text `r` that follows.

  function Escape(s: string, r: string): string {
    if s == "" then ['"'] + r else Code(s[0]) + Escape(s[1..], r)
  }

  function Quote(s: string, r: string): string { ['"'] + Escape(s, r) }

  function Put(j: Json, r: string): (t: string)
    ensures t != "" && Kind(j, t[0])
    decreases j, 2, 0
  {
    match j
    case Null => "null" + r
    case Bool(b) => if b then "true" + r else "false" + r
    case Num(_) => Numeral(j) + r
    case Real(_) => Numeral(j) + r
    case Infinite(_) => Numeral(j) + r
    case NaN => Numeral(j) + r
    case Str(s) => Quote(s, r)
    case Arr(items) =>
      if items == [] then "[]" + r else "[" + Put(items[0], MoreItems(j, items[1..], r))
    case Obj(fields) =>
      if fields == [] then "{}" + r
      else "{" + Quote(fields[0].key, ": " + Put(fields[0].value, MoreFields(j, fields[1..], r)))
  }

  // The first character shows what is coming.
  predicate Kind(j: Json, c: char) {
    match j
    case Null => c == 'n'
    case Bool(b) => c == (if b then 't' else 'f')
    case Num(_) => c == '-' || IsDigit(c)
    case Real(_) => c == '-' || IsDigit(c)
    case Infinite(negative) => c == (if negative then '-' else 'I')
    case NaN => c == 'N'
    case Str(_) => c == '"'
    case Arr(_) => c == '['
    case Obj(_) => c == '{'
  }

  function MoreItems(whole: Json, items: seq<Json>, r: string): (t: string)
    requires forall i :: 0 <= i < |items| ==> items[i] < whole
    ensures Ends(t)
    decreases whole, 1, |items|
  {
    if items == [] then "]" + r else ", " + Put(items[0], MoreItems(whole, items[1..], r))
  }

  function MoreFields(whole: Json, fields: seq<Field>, r: string): (t: string)
    requires forall i :: 0 <= i < |fields| ==> fields[i].value < whole
    ensures Ends(t)
    decreases whole, 1, |fields|
  {
    if fields == [] then "}" + r
    else ", " + Quote(fields[0].key, ": " + Put(fields[0].value, MoreFields(whole, fields[1..], r)))
  }

  // ------------------------------------------------------------- unique reading

  // Only a number needs the following text to stop it.
  predicate Clear(j: Json, r: string) { IsNumeric(j) ==> Ends(r) }

  // Taking the same text off both.
  lemma Strip(p: string, x: string, y: string)
    requires p + x == p + y
    ensures x == y
  {
    assert (p + x)[|p|..] == x;
    assert (p + y)[|p|..] == y;
  }

  lemma {:induction false} EscapeUnique(a: string, b: string, r: string, t: string)
    requires Escape(a, r) == Escape(b, t)
    ensures a == b && r == t
  {
    var x, y := Escape(a, r), Escape(b, t);
    if a == "" || b == "" {
      assert x[0] == y[0];
      Strip(['"'], r, t);
    } else {
      CodeUnique(a[0], b[0], Escape(a[1..], r), Escape(b[1..], t));
      EscapeUnique(a[1..], b[1..], r, t);
    }
  }

  lemma QuoteUnique(a: string, b: string, r: string, t: string)
    requires Quote(a, r) == Quote(b, t)
    ensures a == b && r == t
  {
    Strip(['"'], Escape(a, r), Escape(b, t));
    EscapeUnique(a, b, r, t);
  }

  /** Whatever follows, a JSON text can be read off the front in only one way. */
  lemma {:induction false} PutUnique(a: Json, b: Json, r: string, t: string)
    requires Put(a, r) == Put(b, t) && Clear(a, r) && Clear(b, t)
    ensures a == b && r == t
    decreases a, 2, 0
  {
    assert Kind(a, Put(a, r)[0]) && Kind(b, Put(a, r)[0]);
    match a
    case Null => Strip("null", r, t);
    case Bool(p) => Strip(if p then "true" else "false", r, t);
    case Num(_) => NumericUnique(a, b, r, t);
    case Real(_) => NumericUnique(a, b, r, t);
    case Infinite(_) => NumericUnique(a, b, r, t);
    case NaN => NumericUnique(a, b, r, t);
    case Str(s) => QuoteUnique(s, b.s, r, t);
    case Arr(_) => ArrUnique(a, b, r, t);
    case Obj(_) => ObjUnique(a, b, r, t);
  }

  lemma ArrUnique(a: Json, b: Json, r: string, t: string)
    requires a.Arr? && b.Arr? && Put(a, r) == Put(b, t)
    ensures a == b && r == t
    decreases a, 1, |a.items|
  {
    assert Put(a, r)[1] == Put(b, t)[1];
    if a.items == [] || b.items == [] {
      Strip("[]", r, t);
    } else {
      var u, v := MoreItems(a, a.items[1..], r), MoreItems(b, b.items[1..], t);
      Strip("[", Put(a.items[0], u), Put(b.items[0], v));
      PutUnique(a.items[0], b.items[0], u, v);
      MoreItemsUnique(a, b, a.items[1..], b.items[1..], r, t);
    }
  }

  lemma {:induction false} MoreItemsUnique(whole: Json, whole': Json, a: seq<Json>, b: seq<Json>, r: string, t: string)
    requires forall i :: 0 <= i < |a| ==> a[i] < whole
    requires forall i :: 0 <= i < |b| ==> b[i] < whole'
    requires MoreItems(whole, a, r) == MoreItems(whole', b, t)
    ensures a == b && r == t
    decreases whole, 0, |a|
  {
    assert MoreItems(whole, a, r)[0] == MoreItems(whole', b, t)[0];
    if a == [] || b == [] {
      Strip("]", r, t);
    } else {
      var u, v := MoreItems(whole, a[1..], r), MoreItems(whole', b[1..], t);
      Strip(", ", Put(a[0], u), Put(b[0], v));
      PutUnique(a[0], b[0], u, v);
      MoreItemsUnique(whole, whole', a[1..], b[1..], r, t);
    }
  }

  lemma ObjUnique(a: Json, b: Json, r: string, t: string)
    requires a.Obj? && b.Obj? && Put(a, r) == Put(b, t)
    ensures a == b && r == t
    decreases a, 1, |a.fields|
  {
    assert Put(a, r)[1] == Put(b, t)[1];
    if a.fields == [] || b.fields == [] {
      Strip("{}", r, t);
    } else {
      var u, v := MoreFields(a, a.fields[1..], r), MoreFields(b, b.fields[1..], t);
      Strip("{", Quote(a.fields[0].key, ": " + Put(a.fields[0].value, u)),
            Quote(b.fields[0].key, ": " + Put(b.fields[0].value, v)));
      FieldUnique(a, a.fields[0], b.fields[0], u, v);
      MoreFieldsUnique(a, b, a.fields[1..], b.fields[1..], r, t);
    }
  }

  lemma FieldUnique(whole: Json, a: Field, b: Field, u: string, v: string)
    requires Quote(a.key, ": " + Put(a.value, u)) == Quote(b.key, ": " + Put(b.value, v))
    requires Ends(u) && Ends(v) && a.value < whole
    ensures a == b && u == v
    decreases whole, 0, 0
  {
    QuoteUnique(a.key, b.key, ": " + Put(a.value, u), ": " + Put(b.value, v));
    Strip(": ", Put(a.value, u), Put(b.value, v));
    PutUnique(a.value, b.value, u, v);
  }

  lemma {:induction false} MoreFieldsUnique(whole: Json, whole': Json, a: seq<Field>, b: seq<Field>, r: string,
                                            t: string)
    requires forall i :: 0 <= i < |a| ==> a[i].value < whole
    requires forall i :: 0 <= i < |b| ==> b[i].value < whole'
    requires MoreFields(whole, a, r) == MoreFields(whole', b, t)
    ensures a == b && r == t
    decreases whole, 0, |a| + 1
  {
    assert MoreFields(whole, a, r)[0] == MoreFields(whole', b, t)[0];
    if a == [] || b == [] {
      Strip("}", r, t);
    } else {
      var u, v := MoreFields(whole, a[1..], r), MoreFields(whole', b[1..], t);
      Strip(", ", Quote(a[0].key, ": " + Put(a[0].value, u)), Quote(b[0].key, ": " + Put(b[0].value, v)));
      FieldUnique(whole, a[0], b[0], u, v);
      MoreFieldsUnique(whole, whole', a[1..], b[1..], r, t);
    }
  }

  // ------------------------------------------------------ several texts in a row

  function Text(pieces: seq<Json>): string {
    if pieces == [] then "" else Put(pieces[0], Text(pieces[1..]))
  }

  // Two numbers never meet.
  predicate Spread(pieces: seq<Json>) {
    forall i :: 0 <= i < |pieces| - 1 ==> !IsNumeric(pieces[i]) || !IsNumeric(pieces[i + 1])
  }

  lemma TextClear(pieces: seq<Json>)
    requires pieces != [] && Spread(pieces)
    ensures Clear(pieces[0], Text(pieces[1..]))
  {
  }

  /** The text that is hashed determines the pieces. */
  lemma {:induction false} TextUnique(a: seq<Json>, b: seq<Json>)
    requires Text(a) == Text(b) && Spread(a) && Spread(b)
    ensures a == b
  {
    if a != [] && b != [] {
      TextClear(a);
      TextClear(b);
      PutUnique(a[0], b[0], Text(a[1..]), Text(b[1..]));
      TextUnique(a[1..], b[1..]);
    }
  }
}
