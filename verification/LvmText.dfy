/**
  LVM metadata as text (osbuild/util/lvm2.py:380-526): a printer for nested ordered
  dictionaries, and the parser that reads them back from a shared list of tokens.

  What Python reads as a number is up to the reader `number`; floats are read but cannot
  be printed, and are known by their text.
 */
module LvmText {
  import opened Wrappers
  import opened Decimal
  import opened LvmTokens

  datatype Value =
    | Int(n: int)
    | Float(text: string)   // can be read, but not printed
    | Str(s: string)
    | List(items: seq<Value>)
    | Section(fields: seq<Field>)

  // An item of an ordered dictionary.
  datatype Field = Field(key: string, value: Value)

  // ------------------------------------------------------------------- printing

  function EncodeVal(v: Value): string
    decreases v, 2
  {
    match v
    case Int(n) => Show(n)
    case Float(_) => ""   // `encode_val` has no case for it and raises an exception
    case Str(s) => "\"" + s + "\""
    case List(items) => "[" + EncodeItems(v, items) + "]"
    case Section(fields) => "{\n" + EncodeFields(v, fields) + "}\n"
  }

  // `", ".join(...)`
  function EncodeItems(whole: Value, items: seq<Value>): string
    requires forall i :: 0 <= i < |items| ==> items[i] < whole
    decreases whole, 1, |items|
  {
    if items == [] then ""
    else if |items| == 1 then EncodeVal(items[0])
    else EncodeVal(items[0]) + ", " + EncodeItems(whole, items[1..])
  }

  function EncodeFields(whole: Value, fields: seq<Field>): string
    requires forall i :: 0 <= i < |fields| ==> fields[i].value < whole
    decreases whole, 1, |fields|
  {
    if fields == [] then "" else EncodeField(fields[0]) + EncodeFields(whole, fields[1..])
  }

  function EncodeField(f: Field): string
    decreases f.value, 3
  {
    f.key + (if f.value.Section? then " " else " = ") + EncodeVal(f.value) + "\n"
  }

  // `encode_data`
  function Encode(data: seq<Field>): string {
    EncodeFields(Section(data), data) + "\0"
  }

  // --------------------------------------------------------------------- parsing

  const DICT_START := "{"
  const DICT_END := "}"
  const ARRAY_START := "["
  const ARRAY_END := "]"
  const QUOTE := "\""

  // `float(val)` for a word with a point and `int(val)` for any other; none for `ValueError`.
  type Numbers = string -> Option<Value>

  // Whatever else it takes, a reader of numbers reads what `str` prints.
  ghost predicate ReadsInts(number: Numbers) {
    forall n :: ReadsInt(number, n)
  }

  ghost predicate ReadsInt(number: Numbers, n: int) {
    number(Show(n)) == Some(Int(n))
  }

  predicate AllDigitsFrom(s: string, i: nat) { i < |s| && forall k :: i <= k < |s| ==> IsDigit(s[k]) }

  // One such reader: optionally signed decimal digits, with a point or without.
  function ParseInt(s: string): Option<int> {
    if AllDigitsFrom(s, 0) then Some(Decimal.Value(s))
    else if s != "" && s[0] == '-' && AllDigitsFrom(s, 1) then Some(-(Decimal.Value(s[1..]) as int))
    else None
  }

  function ParseFloat(s: string): Option<string> {
    var digits := if s != "" && s[0] == '-' then s[1..] else s;
    if IsPointed(digits) then Some(s) else None
  }

  predicate IsPointed(s: string) {
    |s| >= 2 && exists k :: 0 <= k < |s| && s[k] == '.' && forall i :: 0 <= i < |s| && i != k ==> IsDigit(s[i])
  }

  function PlainNumber(s: string): Option<Value> {
    if '.' in s then (match ParseFloat(s) case Some(text) => Some(Float(text)) case None => None)
    else (match ParseInt(s) case Some(n) => Some(Int(n)) case None => None)
  }

  // `d[key] = v` on an ordered dictionary.
  function Put(d: seq<Field>, key: string, v: Value): seq<Field> {
    if d == [] then [Field(key, v)]
    else if d[0].key == key then [Field(key, v)] + d[1..]
    else [d[0]] + Put(d[1..], key, v)
  }

  // Why parsing fails: an exception, or a string that is never closed, for which the
  // original asks for tokens for ever.
  datatype Fault = Malformed | Endless

  type Parsed<T> = Result<(T, seq<string>), Fault>

  // The words up to the closing quote, and what follows it.
  function StrAt(tokens: seq<string>, acc: string): (r: Parsed<string>)
    ensures r.Success? ==> |r.value.1| < |tokens|
  {
    if tokens == [] then Failure(Endless)
    else if tokens[0] == QUOTE then Success((Strip(acc), tokens[1..]))
    else StrAt(tokens[1..], acc + " " + tokens[0])
  }

  // `str.strip`
  function Strip(s: string): string { StripEnd(SkipSpace(s)) }

  function StripEnd(s: string): string {
    if s != "" && IsSpace(s[|s| - 1]) then StripEnd(s[..|s| - 1]) else s
  }

  function ScalarAt(number: Numbers, tokens: seq<string>): (r: Parsed<Value>)
    ensures r.Success? ==> |r.value.1| < |tokens|
  {
    if tokens == [] then Failure(Malformed)
    else if tokens[0] == QUOTE then
      match StrAt(tokens[1..], "")
      case Success(p) => Success((Str(p.0), p.1))
      case Failure(fault) => Failure(fault)
    else
      match number(tokens[0])
      case Some(v) => Success((v, tokens[1..]))
      case None => Failure(Malformed)
  }

  function ArrayAt(number: Numbers, tokens: seq<string>, acc: seq<Value>): (r: Parsed<seq<Value>>)
    ensures r.Success? ==> |r.value.1| < |tokens|
    decreases |tokens|
  {
    if tokens == [] then Failure(Malformed)
    else if tokens[0] == ARRAY_END then Success((acc, tokens[1..]))
    else
      match ScalarAt(number, tokens)
      case Success(v) => ArrayAt(number, v.1, acc + [v.0])
      case Failure(fault) => Failure(fault)
  }

  function ValueAt(number: Numbers, tokens: seq<string>): (r: Parsed<Value>)
    ensures r.Success? ==> |r.value.1| < |tokens|
    decreases |tokens|, 0
  {
    if tokens == [] then Failure(Malformed)
    else if tokens[0] == DICT_START then
      match SectionAt(number, tokens[1..], [])
      case Success(p) => Success((Section(p.0), p.1))
      case Failure(fault) => Failure(fault)
    else if tokens[0] == ARRAY_START then
      match ArrayAt(number, tokens[1..], [])
      case Success(p) => Success((List(p.0), p.1))
      case Failure(fault) => Failure(fault)
    else ScalarAt(number, tokens)
  }

  // A section ends at a closing brace, or with the tokens.
  function SectionAt(number: Numbers, tokens: seq<string>, acc: seq<Field>): (r: Parsed<seq<Field>>)
    ensures r.Success? ==> |r.value.1| <= |tokens|
    decreases |tokens|, 1
  {
    if tokens == [] then Success((acc, []))
    else if tokens[0] == DICT_END then Success((acc, tokens[1..]))
    else
      match ValueAt(number, tokens[1..])
      case Success(v) => SectionAt(number, v.1, Put(acc, tokens[0], v.0))
      case Failure(fault) => Failure(fault)
  }

  type Decoded = Result<(Option<string>, seq<Field>), Fault>

  // `decode_data`: the name is the first token, if there is one.
  function Decode(number: Numbers, raw: string): Decoded {
    var tokens := Tokenize(raw);
    match SectionAt(number, tokens, [])
    case Success(p) => Success((if tokens == [] then None else Some(tokens[0]), p.0))
    case Failure(fault) => Failure(fault)
  }

  // What a parsing method returns and leaves behind.
  predicate Reads<T(==)>(parsed: Parsed<T>, r: Result<T, Fault>, rest: seq<string>) {
    match parsed
    case Success(p) => r == Success(p.0) && rest == p.1
    case Failure(fault) => r == Failure(fault)
  }

  // The parser at work on its list of tokens.
  class Parser {
    const number: Numbers
    var data: seq<string>

    constructor (number: Numbers, raw: string)
      ensures data == Tokenize(raw) && this.number == number
    {
      data, this.number := Tokenize(raw), number;
    }

    method NextToken() returns (t: Option<string>)
      modifies this`data
      ensures old(data) == [] ==> t == None && data == []
      ensures old(data) != [] ==> t == Some(old(data)[0]) && data == old(data)[1..]
    {
      if data == [] {
        return None;
      }
      t := Some(data[0]);
      data := data[1..];
    }

    method ParseStr() returns (r: Result<string, Fault>)
      modifies this`data
      ensures Reads(StrAt(old(data), ""), r, data)
    {
      var result := "";
      var val := NextToken();
      while val.Some? && val.value != QUOTE
        invariant val.Some? ==> StrAt([val.value] + data, result) == StrAt(old(data), "")
        invariant val.None? ==> StrAt(old(data), "") == Failure(Endless)
        decreases |data| + (if val.Some? then 1 else 0)
      {
        ghost var before := data;
        assert ([val.value] + data)[1..] == data;
        result := result + " " + val.value;
        val := NextToken();
        assert val.Some? ==> before == [val.value] + data;
      }
      if val.None? {
        return Failure(Endless);
      }
      assert ([val.value] + data)[1..] == data;
      r := Success(Strip(result));
    }

    // `val` was taken off before.
    method ParseType(val: string) returns (r: Result<Value, Fault>)
      modifies this`data
      ensures Reads(ScalarAt(number, [val] + old(data)), r, data)
    {
      assert ([val] + data)[1..] == data;
      if val == QUOTE {
        var s := ParseStr();
        return if s.Success? then Success(Str(s.value)) else Failure(s.error);
      }
      var n := number(val);
      r := if n.None? then Failure(Malformed) else Success(n.value);
    }

    method ParseArray() returns (r: Result<seq<Value>, Fault>)
      modifies this`data
      ensures Reads(ArrayAt(number, old(data), []), r, data)
    {
      var result: seq<Value> := [];
      var val := NextToken();
      while val != Some(ARRAY_END)
        invariant val.Some? ==> ArrayAt(number, [val.value] + data, result) == ArrayAt(number, old(data), [])
        invariant val.None? ==> ArrayAt(number, old(data), []) == Failure(Malformed)
        decreases |data| + (if val.Some? then 1 else 0)
      {
        if val.None? {
          return Failure(Malformed);
        }
        ghost var before := [val.value] + data;
        var v := ParseType(val.value);
        if v.Failure? {
          return Failure(v.error);
        }
        ghost var rest := data;
        result := result + [v.value];
        val := NextToken();
        assert val.Some? ==> rest == [val.value] + data;
      }
      assert ([val.value] + data)[1..] == data;
      r := Success(result);
    }

    method ParseSection() returns (r: Result<seq<Field>, Fault>)
      modifies this`data
      ensures Reads(SectionAt(number, old(data), []), r, data)
      decreases |data|, 1
    {
      var result: seq<Field> := [];
      var val := NextToken();
      while val.Some? && val.value != DICT_END
        invariant |data| + (if val.Some? then 1 else 0) <= |old(data)|
        invariant val.Some? ==> SectionAt(number, [val.value] + data, result) == SectionAt(number, old(data), [])
        invariant val.None? ==> data == [] && SectionAt(number, old(data), []) == Success((result, []))
        decreases |data| + (if val.Some? then 1 else 0)
      {
        assert ([val.value] + data)[1..] == data;
        var v := ParseValue();
        if v.Failure? {
          return Failure(v.error);
        }
        ghost var rest := data;
        result := Put(result, val.value, v.value);
        val := NextToken();
        assert val.Some? ==> rest == [val.value] + data;
      }
      if val.Some? {
        assert ([val.value] + data)[1..] == data;
      }
      r := Success(result);
    }

    method ParseValue() returns (r: Result<Value, Fault>)
      modifies this`data
      ensures Reads(ValueAt(number, old(data)), r, data)
      decreases |data|, 0
    {
      var val := NextToken();
      if val.None? {
        return Failure(Malformed);
      }
      if val.value == DICT_START {
        var fields := ParseSection();
        return if fields.Success? then Success(Section(fields.value)) else Failure(fields.error);
      }
      if val.value == ARRAY_START {
        var items := ParseArray();
        return if items.Success? then Success(List(items.value)) else Failure(items.error);
      }
      assert old(data) == [val.value] + data;
      r := ParseType(val.value);
    }
  }

  lemma {:induction false} PutFirst(d: seq<Field>, key: string, v: Value)
    ensures |Put(d, key, v)| > 0 && Put(d, key, v)[0].key == if d == [] then key else d[0].key
  {
  }

  lemma {:induction false} FirstStays(number: Numbers, tokens: seq<string>, acc: seq<Field>)
    requires acc != [] && SectionAt(number, tokens, acc).Success?
    ensures var d := SectionAt(number, tokens, acc).value.0; d != [] && d[0].key == acc[0].key
    decreases |tokens|
  {
    if tokens != [] && tokens[0] != DICT_END {
      var v := ValueAt(number, tokens[1..]).value;
      PutFirst(acc, tokens[0], v.0);
      FirstStays(number, v.1, Put(acc, tokens[0], v.0));
    }
  }

  // The first token is the first key, unless it closes the section at once.
  lemma FirstIsName(number: Numbers, tokens: seq<string>)
    requires SectionAt(number, tokens, []).Success?
    ensures var d := SectionAt(number, tokens, []).value.0;
      if tokens == [] || tokens[0] == DICT_END then d == [] else d != [] && d[0].key == tokens[0]
  {
    if tokens != [] && tokens[0] != DICT_END {
      var v := ValueAt(number, tokens[1..]).value;
      FirstStays(number, v.1, Put([], tokens[0], v.0));
    }
  }

  /** The name is the first token; it is the first key as well, unless there is nothing
      to read. */
  method DecodeData(number: Numbers, raw: string) returns (r: Decoded)
    ensures r == Decode(number, raw)
    ensures r.Success? ==>
      match r.value.0
      case None => Tokenize(raw) == [] && r.value.1 == []
      case Some(name) =>
        (Tokenize(raw) != [] && name == Tokenize(raw)[0]
         && if name == DICT_END then r.value.1 == [] else r.value.1 != [] && r.value.1[0].key == name)
  {
    var parser := new Parser(number, raw);
    var name := if parser.data == [] then None else Some(parser.data[0]);
    var fields := parser.ParseSection();
    if fields.Failure? {
      return Failure(fields.error);
    }
    FirstIsName(number, Tokenize(raw));
    r := Success((name, fields.value));
  }

  // ----------------------------------------------------------------- the domain

  // Words separated by single blanks.
  predicate SingleSpaced(s: string) {
    && (forall i :: 0 <= i < |s| ==> IsPlain(s[i]) || s[i] == ' ')
    && (s != "" ==> s[0] != ' ' && s[|s| - 1] != ' ')
    && (forall i :: 0 <= i < |s| - 1 ==> s[i] != ' ' || s[i + 1] != ' ')
  }

  predicate IsKey(k: string) { IsWord(k) && k != DICT_END }

  predicate DistinctKeys(fields: seq<Field>) {
    forall i, j :: 0 <= i < j < |fields| ==> fields[i].key != fields[j].key
  }

  // What can be printed and read back.
  predicate Printable(v: Value) {
    match v
    case Int(_) => true
    case Float(_) => false
    case Str(s) => SingleSpaced(s)
    case List(items) => forall i :: 0 <= i < |items| ==> (items[i].Int? || items[i].Str?) && Printable(items[i])
    case Section(fields) =>
      DistinctKeys(fields) && forall i :: 0 <= i < |fields| ==> IsKey(fields[i].key) && Printable(fields[i].value)
  }

  // ---------------------------------------------------------------- text to tokens

  // The tokens of a value.
  function Toks(v: Value): seq<string>
    decreases v, 2
  {
    match v
    case Int(n) => [Show(n)]
    case Float(text) => [text]
    case Str(s) => [QUOTE] + Split(s) + [QUOTE]
    case List(items) => [ARRAY_START] + ItemToks(v, items) + [ARRAY_END]
    case Section(fields) => [DICT_START] + FieldToks(v, fields) + [DICT_END]
  }

  function ItemToks(whole: Value, items: seq<Value>): seq<string>
    requires forall i :: 0 <= i < |items| ==> items[i] < whole
    decreases whole, 1, |items|
  {
    if items == [] then [] else Toks(items[0]) + ItemToks(whole, items[1..])
  }

  function FieldToks(whole: Value, fields: seq<Field>): seq<string>
    requires forall i :: 0 <= i < |fields| ==> fields[i].value < whole
    decreases whole, 1, |fields|
  {
    if fields == [] then [] else [fields[0].key] + Toks(fields[0].value) + FieldToks(whole, fields[1..])
  }

  // The words of a text once it is cleaned.
  function Words(s: string): seq<string> { Split(Clean(s)) }

  // Cleaning keeps the two sides of a gap apart.
  lemma WordsAt(a: string, c: char, b: string)
    requires c == ' ' || c == '\n'
    ensures Words(a + [c] + b) == Words(a) + Words(b)
  {
    CleanConcat(a + [c], b);
    CleanConcat(a, [c]);
    CleanOrdinary([c]);
    SplitAt(Clean(a), c, Clean(b));
  }

  lemma WordsOfWord(w: string)
    requires w != "" && Ordinary(w) && forall i :: 0 <= i < |w| ==> !IsSpace(w[i])
    ensures Words(w) == [w]
  {
    CleanOrdinary(w);
    SplitWord(w);
  }

  lemma {:induction false} DigitsPlain(n: nat)
    ensures forall i :: 0 <= i < |Digits(n)| ==> IsPlain(Digits(n)[i])
  {
  }

  lemma ShowPlain(n: int)
    ensures Show(n) != "" && Ordinary(Show(n)) && forall i :: 0 <= i < |Show(n)| ==> !IsSpace(Show(n)[i])
  {
    DigitsPlain(if n < 0 then -n else n);
  }

  // The cleaned brackets and quotes.
  lemma CleanSpecials()
    ensures Clean("[") == "[ " && Clean("]") == " ]" && Clean("\"") == " \" " && Clean(",") == "" && Clean("=") == ""
  {
    CleanBrackets();
    CleanQuote();
    CleanGone();
  }

  lemma CleanBrackets()
    ensures Clean("[") == "[ " && Clean("]") == " ]"
  {
    assert Replace("[", '[', "[ ") == "[ ";
    assert Replace("]", ']', " ]") == " ]";
    ReplaceNone("[ ", ']', " ]"); ReplaceNone("[ ", '"', " \" ");
    ReplaceNone("[ ", '=', ""); ReplaceNone("[ ", ',', "");
    ReplaceNone("]", '[', "[ "); ReplaceNone(" ]", '"', " \" "); ReplaceNone(" ]", '=', ""); ReplaceNone(" ]", ',', "");
  }

  lemma CleanQuote()
    ensures Clean("\"") == " \" "
  {
    ReplaceNone("\"", '[', "[ "); ReplaceNone("\"", ']', " ]");
    ReplaceNone(" \" ", '=', ""); ReplaceNone(" \" ", ',', "");
    assert Replace("\"", '"', " \" ") == " \" ";
  }

  lemma CleanGone()
    ensures Clean(",") == "" && Clean("=") == ""
  {
    ReplaceNone(",", '[', "[ "); ReplaceNone(",", ']', " ]"); ReplaceNone(",", '"', " \" "); ReplaceNone(",", '=', "");
    ReplaceNone("=", '[', "[ "); ReplaceNone("=", ']', " ]"); ReplaceNone("=", '"', " \" ");
    assert Replace(",", ',', "") == "";
    assert Replace("=", '=', "") == "";
  }
}
