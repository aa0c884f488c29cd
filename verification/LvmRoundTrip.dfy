/**
  Printing LVM metadata and parsing it gives it back, also after the volume group has
  been renamed (osbuild/util/lvm2.py:393-526).
 */
module LvmRoundTrip {
  import opened Wrappers
  import opened Decimal
  import opened LvmTokens
  import opened LvmText

  // -------------------------------------------------------------- text to tokens

  // A text between two that cleaning turns into `l` and `r`.
  lemma CleanAround(a: string, b: string, c: string, l: string, r: string)
    requires Clean(a) == l && Clean(c) == r
    ensures Clean(a + b + c) == l + Clean(b) + r
  {
    CleanConcat(a + b, c);
    CleanConcat(a, b);
  }

  predicate NoSpace(s: string) { s != "" && forall i :: 0 <= i < |s| ==> !IsSpace(s[i]) }

  // Words on both sides, each set off by blanks.
  lemma SplitAround(l: string, x: string, r: string)
    requires NoSpace(l) && NoSpace(r)
    ensures Split(l + " " + x + " " + r) == [l] + Split(x) + [r]
  {
    var y := x + [' '] + r;
    assert l + " " + x + " " + r == l + [' '] + y;
    SplitAt(l, ' ', y);
    SplitAt(x, ' ', r);
    SplitWord(l);
    SplitWord(r);
  }

  lemma SplitPadded(y: string)
    ensures Split(" " + y + " ") == Split(y)
  {
    assert (" " + y + " ")[1..] == y + [' '] + "";
    SplitAt(y, ' ', "");
  }

  lemma CleanQuoted(s: string)
    requires Ordinary(s)
    ensures Clean("\"" + s + "\"") == " \" " + s + " \" "
  {
    CleanSpecials();
    CleanOrdinary(s);
    CleanAround("\"", s, "\"", " \" ", " \" ");
  }

  lemma SplitQuoted(s: string, text: string)
    requires text == " \" " + s + " \" "
    ensures Split(text) == [QUOTE] + Split(s) + [QUOTE]
  {
    var y := QUOTE + " " + s + " " + QUOTE;
    assert text == " " + y + " ";
    SplitPadded(y);
    SplitAround(QUOTE, s, QUOTE);
  }

  lemma WordsStr(s: string)
    requires SingleSpaced(s)
    ensures Words("\"" + s + "\"") == [QUOTE] + Split(s) + [QUOTE]
  {
    CleanQuoted(s);
    SplitQuoted(s, Clean("\"" + s + "\""));
  }

  lemma CleanList(e: string)
    ensures Clean("[" + e + "]") == "[ " + Clean(e) + " ]"
  {
    CleanSpecials();
    CleanAround("[", e, "]", "[ ", " ]");
  }

  lemma SplitList(x: string, text: string)
    requires text == "[ " + x + " ]"
    ensures Split(text) == [ARRAY_START] + Split(x) + [ARRAY_END]
  {
    assert text == ARRAY_START + " " + x + " " + ARRAY_END;
    SplitAround(ARRAY_START, x, ARRAY_END);
  }

  lemma WordsList(e: string)
    ensures Words("[" + e + "]") == [ARRAY_START] + Words(e) + [ARRAY_END]
  {
    CleanList(e);
    SplitList(Clean(e), Clean("[" + e + "]"));
  }

  lemma CleanNothing(a: string, c: string)
    requires Clean(c) == ""
    ensures Clean(a + c) == Clean(a)
  {
    CleanConcat(a, c);
  }

  // A gap of `c`, a blank, where `c` is cleaned away.
  lemma CleanGap(a: string, c: string, b: string)
    requires Clean(c) == ""
    ensures Clean(a + c + " " + b) == Clean(a) + [' '] + Clean(b)
  {
    CleanConcat(a + c + " ", b);
    CleanConcat(a + c, " ");
    CleanNothing(a, c);
    CleanOrdinary(" ");
  }

  lemma WordsGap(a: string, c: string, b: string, text: string)
    requires text == a + c + " " + b && Clean(c) == ""
    ensures Words(text) == Words(a) + Words(b)
  {
    CleanGap(a, c, b);
    SplitAt(Clean(a), ' ', Clean(b));
  }

  lemma WordsMore(a: string, b: string)
    ensures Words(a + ", " + b) == Words(a) + Words(b)
  {
    CleanComma();
    WordsGap(a, ",", b, a + ", " + b);
  }

  lemma CleanComma()
    ensures Clean(",") == ""
  {
    CleanSpecials();
  }

  predicate EndsLine(f: string) { f == "" || f[|f| - 1] == '\n' }

  lemma WordsBrace(c: char)
    requires c == '{' || c == '}'
    ensures Words([c]) == [[c]] && Words([c] + ['\n']) == [[c]]
  {
    WordsOfWord([c]);
    WordsLine([c]);
  }

  lemma WordsBetween(open: string, f: string, close: string)
    requires EndsLine(f)
    ensures Words(open + ['\n'] + (f + close)) == Words(open) + Words(f) + Words(close)
  {
    WordsAt(open, '\n', f + close);
    WordsAfterLine(f, close);
  }

  lemma WordsSection(f: string)
    requires EndsLine(f)
    ensures Words("{\n" + f + "}\n") == [DICT_START] + Words(f) + [DICT_END]
  {
    WordsBrace('{');
    WordsBrace('}');
    WordsBetween(['{'], f, ['}'] + ['\n']);
    assert "{\n" + f + "}\n" == ['{'] + ['\n'] + (f + (['}'] + ['\n']));
  }

  lemma WordsAfterLine(f: string, tail: string)
    requires EndsLine(f)
    ensures Words(f + tail) == Words(f) + Words(tail)
  {
    if f == "" {
      assert f + tail == tail;
      CleanOrdinary("");
    } else {
      var g := f[..|f| - 1];
      assert f == g + ['\n'];
      WordsAt(g, '\n', tail);
      WordsLine(g);
    }
  }

  lemma WordsLine(a: string)
    ensures Words(a + ['\n']) == Words(a)
  {
    assert a + ['\n'] == a + ['\n'] + "";
    WordsAt(a, '\n', "");
  }

  lemma WordsField(k: string, eq: bool, e: string)
    requires IsWord(k)
    ensures Words(k + (if eq then " = " else " ") + e + "\n") == [k] + Words(e)
  {
    WordsOfWord(k);
    WordsLine(e);
    var y := e + ['\n'];
    if eq {
      WordsAssigned(k, y, k + " = " + e + "\n");
    } else {
      WordsAt(k, ' ', y);
      assert k + " " + e + "\n" == k + [' '] + y;
    }
  }

  lemma WordsAssigned(k: string, y: string, text: string)
    requires text == k + " = " + y
    ensures Words(text) == Words(k) + Words(y)
  {
    CleanEquals();
    WordsGap(k + " ", "=", y, text);
    WordsBlank(k);
  }

  lemma CleanEquals()
    ensures Clean("=") == ""
  {
    CleanSpecials();
  }

  lemma WordsBlank(k: string)
    ensures Words(k + " ") == Words(k)
  {
    assert k + " " == k + [' '] + "";
    WordsAt(k, ' ', "");
  }

  /** The cleaned text of a value splits into the tokens of the value. */
  lemma {:induction false} WordsVal(v: Value)
    requires Printable(v)
    ensures Words(EncodeVal(v)) == Toks(v)
    decreases v, 2
  {
    match v
    case Int(n) =>
      ShowPlain(n);
      WordsOfWord(Show(n));
    case Str(s) => WordsStr(s);
    case List(items) =>
      WordsItems(v, items);
      WordsList(EncodeItems(v, items));
    case Section(fields) =>
      WordsFields(v, fields);
      WordsSection(EncodeFields(v, fields));
  }

  lemma {:induction false} WordsItems(whole: Value, items: seq<Value>)
    requires forall i :: 0 <= i < |items| ==> items[i] < whole && Printable(items[i])
    ensures Words(EncodeItems(whole, items)) == ItemToks(whole, items)
    decreases whole, 1, |items|
  {
    if items != [] {
      WordsVal(items[0]);
      if |items| > 1 {
        WordsItems(whole, items[1..]);
        WordsMore(EncodeVal(items[0]), EncodeItems(whole, items[1..]));
      }
    }
  }

  lemma {:induction false} WordsFields(whole: Value, fields: seq<Field>)
    requires forall i :: 0 <= i < |fields| ==>
      fields[i].value < whole && Printable(fields[i].value) && IsKey(fields[i].key)
    ensures Words(EncodeFields(whole, fields)) == FieldToks(whole, fields)
    ensures EndsLine(EncodeFields(whole, fields))
    decreases whole, 1, |fields|
  {
    if fields != [] {
      var f := fields[0];
      WordsVal(f.value);
      WordsFields(whole, fields[1..]);
      WordsField(f.key, !f.value.Section?, EncodeVal(f.value));
      var a, b := EncodeField(f), EncodeFields(whole, fields[1..]);
      var g := a[..|a| - 1];
      assert a == g + ['\n'];
      WordsAt(g, '\n', b);
      WordsLine(g);
    }
  }

  // ------------------------------------------------------------- tokens to values

  lemma ParseShow(n: int)
    ensures ParseInt(Show(n)) == Some(n)
  {
    var d := Digits(if n < 0 then -n else n);
    ValueOfDigits(if n < 0 then -n else n);
    if n < 0 {
      assert Show(n)[1..] == d;
      assert forall k :: 1 <= k < |Show(n)| ==> Show(n)[k] == d[k - 1];
    }
  }

  lemma NoPoint(n: int)
    ensures '.' !in Show(n)
  {
    var d := Digits(if n < 0 then -n else n);
    assert forall k :: 0 <= k < |d| ==> d[k] != '.';
  }

  lemma PlainReadsInts()
    ensures ReadsInts(PlainNumber)
  {
    forall n ensures ReadsInt(PlainNumber, n) {
      ParseShow(n);
      NoPoint(n);
    }
  }

  // Every word with a blank in front, as the parser glues them together.
  function Joined(ws: seq<string>): string {
    if ws == [] then "" else " " + ws[0] + Joined(ws[1..])
  }

  lemma {:induction false} StrAtWords(ws: seq<string>, acc: string, rest: seq<string>)
    requires QUOTE !in ws
    ensures StrAt(ws + [QUOTE] + rest, acc) == Success((Strip(acc + Joined(ws)), rest))
  {
    var tokens := ws + [QUOTE] + rest;
    if ws == [] {
      assert tokens[1..] == rest;
      assert acc + "" == acc;
    } else {
      assert tokens[1..] == ws[1..] + [QUOTE] + rest;
      StrAtWords(ws[1..], acc + " " + ws[0], rest);
      assert acc + " " + ws[0] + Joined(ws[1..]) == acc + (" " + ws[0] + Joined(ws[1..]));
    }
  }

  lemma {:induction false} SplitFirst(s: string, w: string)
    requires w in Split(s)
    ensures w != "" && w[0] in s
    decreases |s|
  {
    if IsSpace(s[0]) {
      SplitFirst(s[1..], w);
    } else if w != s[..WordEnd(s)] {
      SplitFirst(s[WordEnd(s)..], w);
    }
  }

  lemma {:induction false} WordEndStops(s: string)
    ensures WordEnd(s) < |s| ==> IsSpace(s[WordEnd(s)])
    ensures s != "" && !IsSpace(s[0]) ==> WordEnd(s) > 0
  {
    if s != "" && !IsSpace(s[0]) {
      WordEndStops(s[1..]);
    }
  }

  lemma JoinedCons(w: string, ws: seq<string>)
    ensures Joined([w] + ws) == " " + w + Joined(ws)
  {
    assert ([w] + ws)[1..] == ws;
  }

  lemma SplitBlank(s: string, n: nat)
    requires s != "" && !IsSpace(s[0]) && n == WordEnd(s) && n < |s| && s[n] == ' '
    ensures Split(s) == [s[..n]] + Split(s[n + 1..])
  {
    assert s[n..][1..] == s[n + 1..];
  }

  // What follows the first blank is single-spaced again.
  lemma SingleTail(s: string, n: nat)
    requires SingleSpaced(s) && n < |s| && s[n] == ' '
    ensures n + 1 < |s| && SingleSpaced(s[n + 1..])
  {
    assert s[|s| - 1] != ' ';
    var t := s[n + 1..];
    assert forall i :: 0 <= i < |t| ==> t[i] == s[n + 1 + i];
  }

  lemma Glue(s: string, n: nat)
    requires n < |s| && s[n] == ' '
    ensures " " + s[..n] + (" " + s[n + 1..]) == " " + s
  {
  }

  // A single-spaced text is one word, or a word, a blank and a single-spaced text.
  lemma FirstWord(s: string) returns (w: string, t: string)
    requires SingleSpaced(s) && s != ""
    ensures t == "" ==> Split(s) == [s]
    ensures t != "" ==> |t| < |s| && SingleSpaced(t) && Split(s) == [w] + Split(t) && " " + w + (" " + t) == " " + s
  {
    var n := WordEnd(s);
    WordEndStops(s);
    if n == |s| {
      SplitWhole(s);
      w, t := s, "";
    } else {
      SingleTail(s, n);
      SplitBlank(s, n);
      Glue(s, n);
      w, t := s[..n], s[n + 1..];
    }
  }

  // Gluing the words of a single-spaced text gives the text, after a blank.
  lemma {:induction false} JoinedSplit(s: string)
    requires SingleSpaced(s) && s != ""
    ensures Joined(Split(s)) == " " + s
    decreases |s|
  {
    var w, t := FirstWord(s);
    if t == "" {
      JoinedOne(s);
    } else {
      JoinedSplit(t);
      JoinedCons(w, Split(t));
    }
  }

  lemma JoinedOne(w: string)
    ensures Joined([w]) == " " + w
  {
    assert [w][1..] == [];
    assert Joined([w]) == " " + w + "";
  }

  lemma SplitWhole(s: string)
    requires s != "" && !IsSpace(s[0]) && WordEnd(s) == |s|
    ensures Split(s) == [s]
  {
    assert s[..|s|] == s && s[|s|..] == "";
  }

  lemma StripSingle(s: string)
    requires SingleSpaced(s) && s != ""
    ensures Strip(" " + s) == s
  {
    assert (" " + s)[1..] == s;
    assert SkipSpace(s) == s;
  }

  lemma StrParses(number: Numbers, s: string, rest: seq<string>)
    requires SingleSpaced(s)
    ensures ScalarAt(number, Toks(Str(s)) + rest) == Success((Str(s), rest))
  {
    if QUOTE in Split(s) {
      SplitFirst(s, QUOTE);
    }
    var tokens := Toks(Str(s)) + rest;
    assert tokens[1..] == Split(s) + [QUOTE] + rest;
    StrAtWords(Split(s), "", rest);
    assert "" + Joined(Split(s)) == Joined(Split(s));
    if s != "" {
      JoinedSplit(s);
      StripSingle(s);
    }
  }

  lemma ScalarParses(number: Numbers, v: Value, rest: seq<string>)
    requires ReadsInts(number) && Printable(v) && (v.Int? || v.Str?)
    ensures ScalarAt(number, Toks(v) + rest) == Success((v, rest))
    ensures Toks(v) != [] && Toks(v)[0] != ARRAY_END && Toks(v)[0] != ARRAY_START && Toks(v)[0] != DICT_START
  {
    match v
    case Int(n) =>
      assert ReadsInt(number, n);
      assert (Toks(v) + rest)[1..] == rest;
    case Str(s) => StrParses(number, s, rest);
  }

  lemma {:induction false} ArrayParses(number: Numbers, whole: Value, items: seq<Value>, acc: seq<Value>,
                                       rest: seq<string>)
    requires ReadsInts(number)
    requires forall i :: 0 <= i < |items| ==>
      items[i] < whole && Printable(items[i]) && (items[i].Int? || items[i].Str?)
    ensures ArrayAt(number, ItemToks(whole, items) + [ARRAY_END] + rest, acc) == Success((acc + items, rest))
    decreases |items|
  {
    var tokens := ItemToks(whole, items) + [ARRAY_END] + rest;
    if items == [] {
      assert tokens[1..] == rest;
      assert acc + [] == acc;
    } else {
      var more := ItemToks(whole, items[1..]) + [ARRAY_END] + rest;
      assert tokens == Toks(items[0]) + more;
      ScalarParses(number, items[0], more);
      ArrayParses(number, whole, items[1..], acc + [items[0]], rest);
      assert acc + [items[0]] + items[1..] == acc + items;
    }
  }

  predicate HasKey(fields: seq<Field>, key: string) {
    exists i :: 0 <= i < |fields| && fields[i].key == key
  }

  lemma {:induction false} PutNew(fields: seq<Field>, key: string, v: Value)
    requires !HasKey(fields, key)
    ensures Put(fields, key, v) == fields + [Field(key, v)]
  {
    if fields != [] {
      assert forall i :: 0 <= i < |fields[1..]| ==> fields[1..][i] == fields[i + 1];
      PutNew(fields[1..], key, v);
    }
  }

  /** The tokens of a value are parsed back into it, whatever follows. */
  lemma {:induction false} ValueParses(number: Numbers, v: Value, rest: seq<string>)
    requires ReadsInts(number) && Printable(v)
    ensures ValueAt(number, Toks(v) + rest) == Success((v, rest))
    decreases v, 2
  {
    var tokens := Toks(v) + rest;
    match v
    case List(items) =>
      assert tokens[1..] == ItemToks(v, items) + [ARRAY_END] + rest;
      ArrayParses(number, v, items, [], rest);
      assert [] + items == items;
    case Section(fields) =>
      assert tokens[1..] == FieldToks(v, fields) + ([DICT_END] + rest);
      SectionParses(number, v, fields, [], [DICT_END] + rest, rest);
      assert [] + fields == fields;
    case _ => ScalarParses(number, v, rest);
  }

  lemma {:induction false} SectionParses(number: Numbers, whole: Value, fields: seq<Field>, acc: seq<Field>,
                                         tail: seq<string>, rest: seq<string>)
    requires ReadsInts(number)
    requires forall i :: 0 <= i < |fields| ==>
      fields[i].value < whole && Printable(fields[i].value) && IsKey(fields[i].key)
    requires DistinctKeys(acc + fields)
    requires (tail == [] && rest == []) || tail == [DICT_END] + rest
    ensures SectionAt(number, FieldToks(whole, fields) + tail, acc) == Success((acc + fields, rest))
    decreases whole, 1, |fields|
  {
    var tokens := FieldToks(whole, fields) + tail;
    if fields == [] {
      assert tokens == tail && acc + fields == acc;
      assert tail != [] ==> tail[1..] == rest;
    } else {
      var f := fields[0];
      var more := FieldToks(whole, fields[1..]) + tail;
      assert tokens[0] == f.key && tokens[1..] == Toks(f.value) + more;
      ValueParses(number, f.value, more);
      NewKey(acc, fields);
      PutNew(acc, f.key, f.value);
      assert (acc + [f]) + fields[1..] == acc + fields;
      SectionParses(number, whole, fields[1..], acc + [f], tail, rest);
    }
  }

  lemma NewKey(acc: seq<Field>, fields: seq<Field>)
    requires DistinctKeys(acc + fields) && fields != []
    ensures !HasKey(acc, fields[0].key)
  {
    var all := acc + fields;
    assert all[|acc|] == fields[0];
    assert forall i :: 0 <= i < |acc| ==> all[i] == acc[i];
  }

  // ------------------------------------------------------------------ no comments

  lemma {:induction false} NoHash(v: Value)
    requires Printable(v)
    ensures '#' !in EncodeVal(v)
    decreases v, 2
  {
    match v
    case Int(n) => ShowPlain(n);
    case Str(s) =>
    case List(items) => NoHashItems(v, items);
    case Section(fields) => NoHashFields(v, fields);
  }

  lemma {:induction false} NoHashItems(whole: Value, items: seq<Value>)
    requires forall i :: 0 <= i < |items| ==> items[i] < whole && Printable(items[i])
    ensures '#' !in EncodeItems(whole, items)
    decreases whole, 1, |items|
  {
    if items != [] {
      NoHash(items[0]);
      NoHashItems(whole, items[1..]);
    }
  }

  lemma {:induction false} NoHashFields(whole: Value, fields: seq<Field>)
    requires forall i :: 0 <= i < |fields| ==>
      fields[i].value < whole && Printable(fields[i].value) && IsKey(fields[i].key)
    ensures '#' !in EncodeFields(whole, fields)
    decreases whole, 1, |fields|
  {
    if fields != [] {
      NoHash(fields[0].value);
      NoHashFields(whole, fields[1..]);
    }
  }

  // -------------------------------------------------------------------- theorems

  function FirstKey(data: seq<Field>): Option<string> { if data == [] then None else Some(data[0].key) }

  /** Printing and parsing gives back the name and the same nested, ordered value. */
  lemma RoundTrip(number: Numbers, data: seq<Field>)
    requires ReadsInts(number) && Printable(Section(data))
    ensures Decode(number, Encode(data)) == Success((FirstKey(data), data))
  {
    var v := Section(data);
    NoHashFields(v, data);
    TokenizeText(EncodeFields(v, data));
    UncommentNone(EncodeFields(v, data));
    WordsFields(v, data);
    var tokens := FieldToks(v, data);
    assert tokens + [] == tokens && [] + data == data;
    SectionParses(number, v, data, [], [], []);
  }

  // `del d[key]`
  function Without(fields: seq<Field>, key: string): (r: seq<Field>)
    ensures forall f :: f in r ==> f in fields
  {
    if fields == [] then []
    else if fields[0].key == key then fields[1..]
    else [fields[0]] + Without(fields[1..], key)
  }

  function Find(fields: seq<Field>, key: string): (v: Option<Value>)
    ensures v.Some? <==> HasKey(fields, key)
  {
    if fields == [] then None
    else if fields[0].key == key then Some(fields[0].value)
    else
      assert HasKey(fields[1..], key) <==> HasKey(fields, key) by {
        assert forall i :: 0 <= i < |fields[1..]| ==> fields[1..][i] == fields[i + 1];
        assert forall i :: 1 <= i < |fields| ==> fields[i] == fields[1..][i - 1];
      }
      Find(fields[1..], key)
  }

  class Metadata {
    var vgName: Option<string>
    var data: seq<Field>

    constructor (vgName: Option<string>, data: seq<Field>)
      ensures this.vgName == vgName && this.data == data
    {
      this.vgName, this.data := vgName, data;
    }

    // The name the object remembers is not updated.
    method RenameVg(newName: string) returns (ok: bool)
      modifies this`data
      ensures ok <==> vgName.Some? && HasKey(old(data), vgName.value)
      ensures !ok ==> data == old(data)
      ensures ok ==>
        var rest := Without(Without(old(data), vgName.value), newName);
        data == [Field(newName, Find(old(data), vgName.value).value)] + rest
    {
      if vgName.None? {
        return false;
      }
      var d := Find(data, vgName.value);
      if d.None? {
        return false;
      }
      data := Without(data, vgName.value);
      // assigned at the end or in place, then moved to the front
      data := [Field(newName, d.value)] + Without(data, newName);
      ok := true;
    }
  }

  lemma {:induction false} WithoutNone(fields: seq<Field>, key: string)
    requires !HasKey(fields, key)
    ensures Without(fields, key) == fields
  {
    if fields != [] {
      assert forall i :: 0 <= i < |fields[1..]| ==> fields[1..][i] == fields[i + 1];
      WithoutNone(fields[1..], key);
    }
  }

  lemma RenamedData(data: seq<Field>, newName: string)
    requires Printable(Section(data)) && data != [] && IsKey(newName) && !HasKey(data, newName)
    ensures Find(data, data[0].key) == Some(data[0].value)
    ensures [Field(newName, data[0].value)] + Without(Without(data, data[0].key), newName) ==
      data[0 := Field(newName, data[0].value)]
    ensures Printable(Section(data[0 := Field(newName, data[0].value)]))
  {
    var rest := data[1..];
    assert forall i :: 0 <= i < |rest| ==> rest[i] == data[i + 1];
    WithoutNone(rest, newName);
  }

  /** After decoding, renaming to a fresh name and printing again, parsing finds the
      new name first and all else unchanged and in order. */
  method RenameRoundTrip(number: Numbers, data: seq<Field>, newName: string)
    returns (name: Option<string>, parsed: seq<Field>)
    requires ReadsInts(number) && Printable(Section(data)) && data != [] && IsKey(newName) && !HasKey(data, newName)
    ensures name == Some(newName) && parsed == data[0 := Field(newName, data[0].value)]
  {
    RoundTrip(number, data);
    var decoded := Decode(number, Encode(data)).value;
    var md := new Metadata(decoded.0, decoded.1);
    assert HasKey(data, data[0].key);
    var ok := md.RenameVg(newName);
    RenamedData(data, newName);
    assert md.data == data[0 := Field(newName, data[0].value)];
    RoundTrip(number, md.data);
    var again := Decode(number, Encode(md.data)).value;
    name, parsed := again.0, again.1;
  }
}
