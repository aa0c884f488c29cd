/**
  When parsing LVM metadata fails, and how (osbuild/util/lvm2.py:439-497): one look at
  each token in turn, without a stack, tells exceptions and strings that are never
  closed, for which the original loops for ever, from texts that can be read.
 */
module LvmFaults {
  import opened Wrappers
  import opened LvmTokens
  import opened LvmText

  // Where a scan stands: before a key, before its value, in an array, in a string that
  // is a value or an element, past the text, or past help.
  datatype Mode = Key | Value | Array | Inside(element: bool) | Past | Bad

  // `depth` counts the open sections.
  function Step(number: Numbers, token: string, mode: Mode, depth: nat): (Mode, nat) {
    match mode
    case Key => if token != DICT_END then (Mode.Value, depth) else if depth == 0 then (Past, 0) else (Key, depth - 1)
    case Value =>
      if token == DICT_START then (Key, depth + 1)
      else if token == ARRAY_START then (Array, depth)
      else if token == QUOTE then (Inside(false), depth)
      else if number(token).Some? then (Key, depth)
      else (Bad, depth)
    case Array =>
      if token == ARRAY_END then (Key, depth)
      else if token == QUOTE then (Inside(true), depth)
      else if number(token).Some? then (Array, depth)
      else (Bad, depth)
    case Inside(element) => if token == QUOTE then (if element then Array else Key, depth) else (mode, depth)
    case Past => (Past, depth)
    case Bad => (Bad, depth)
  }

  function Scan(number: Numbers, tokens: seq<string>, mode: Mode, depth: nat): Mode {
    if tokens == [] then mode
    else
      var next := Step(number, tokens[0], mode, depth);
      Scan(number, tokens[1..], next.0, next.1)
  }

  // What a scan that ends in `mode` says of the text.
  function Verdict(mode: Mode): Option<Fault> {
    match mode
    case Inside(_) => Some(Endless)
    case Key => None
    case Past => None
    case _ => Some(Malformed)
  }

  lemma {:induction false} ScanStops(number: Numbers, tokens: seq<string>, mode: Mode, depth: nat)
    requires mode == Past || mode == Bad
    ensures Scan(number, tokens, mode, depth) == mode
  {
    if tokens != [] {
      ScanStops(number, tokens[1..], mode, depth);
    }
  }

  /** A string is never closed exactly when no quote follows. */
  lemma {:induction false} StrFaults(tokens: seq<string>, acc: string)
    ensures StrAt(tokens, acc) == Failure(Endless) <==> QUOTE !in tokens
    ensures StrAt(tokens, acc).Success? <==> QUOTE in tokens
  {
    if tokens != [] {
      StrFaults(tokens[1..], acc + " " + tokens[0]);
    }
  }

  // The scan after a value, an element or a section is the scan of what is left; a
  // value that cannot be read ends the scan the same way.
  ghost predicate Agrees<T(!new)>(number: Numbers, parsed: Parsed<T>, tokens: seq<string>, mode: Mode, depth: nat,
                                  after: Mode, left: nat)
  {
    match parsed
    case Success(p) => Scan(number, tokens, mode, depth) == Scan(number, p.1, after, left)
    case Failure(fault) => Verdict(Scan(number, tokens, mode, depth)) == Some(fault)
  }

  lemma {:induction false} StrScan(number: Numbers, tokens: seq<string>, acc: string, element: bool, depth: nat)
    ensures Agrees(number, StrAt(tokens, acc), tokens, Inside(element), depth, if element then Array else Key, depth)
  {
    if tokens != [] && tokens[0] != QUOTE {
      StrScan(number, tokens[1..], acc + " " + tokens[0], element, depth);
    }
  }

  lemma ScalarScan(number: Numbers, tokens: seq<string>, element: bool, depth: nat)
    requires tokens != []
    requires (if element then tokens[0] != ARRAY_END else tokens[0] != DICT_START && tokens[0] != ARRAY_START)
    ensures var mode := if element then Array else Mode.Value;
      Agrees(number, ScalarAt(number, tokens), tokens, mode, depth, if element then Array else Key, depth)
  {
    var mode := if element then Array else Mode.Value;
    if tokens[0] == QUOTE {
      StrScan(number, tokens[1..], "", element, depth);
    } else if number(tokens[0]).None? {
      ScanStops(number, tokens[1..], Bad, depth);
    }
  }

  lemma {:induction false} ArrayScan(number: Numbers, tokens: seq<string>, acc: seq<LvmText.Value>, depth: nat)
    ensures Agrees(number, ArrayAt(number, tokens, acc), tokens, Array, depth, Key, depth)
    decreases |tokens|
  {
    if tokens != [] && tokens[0] != ARRAY_END {
      ScalarScan(number, tokens, true, depth);
      var v := ScalarAt(number, tokens);
      if v.Success? {
        ArrayScan(number, v.value.1, acc + [v.value.0], depth);
      }
    }
  }

  lemma {:induction false} ValueScan(number: Numbers, tokens: seq<string>, depth: nat)
    ensures Agrees(number, ValueAt(number, tokens), tokens, Mode.Value, depth, Key, depth)
    decreases |tokens|, 0
  {
    if tokens != [] {
      if tokens[0] == DICT_START {
        SectionScan(number, tokens[1..], [], depth + 1);
      } else if tokens[0] == ARRAY_START {
        ArrayScan(number, tokens[1..], [], depth);
      } else {
        ScalarScan(number, tokens, false, depth);
      }
    }
  }

  // A section inside another one.
  lemma {:induction false} SectionScan(number: Numbers, tokens: seq<string>, acc: seq<Field>, depth: nat)
    requires depth > 0
    ensures Agrees(number, SectionAt(number, tokens, acc), tokens, Key, depth, Key, depth - 1)
    decreases |tokens|, 1
  {
    if tokens != [] && tokens[0] != DICT_END {
      ValueScan(number, tokens[1..], depth);
      var v := ValueAt(number, tokens[1..]);
      if v.Success? {
        SectionScan(number, v.value.1, Put(acc, tokens[0], v.value.0), depth);
      }
    }
  }

  // The outermost one.
  lemma {:induction false} TextScan(number: Numbers, tokens: seq<string>, acc: seq<Field>)
    ensures Verdict(Scan(number, tokens, Key, 0)) ==
      match SectionAt(number, tokens, acc) case Success(_) => None case Failure(fault) => Some(fault)
    decreases |tokens|
  {
    if tokens != [] {
      if tokens[0] == DICT_END {
        ScanStops(number, tokens[1..], Past, 0);
      } else {
        ValueScan(number, tokens[1..], 0);
        var v := ValueAt(number, tokens[1..]);
        if v.Success? {
          TextScan(number, v.value.1, Put(acc, tokens[0], v.value.0));
        }
      }
    }
  }

  /** Decoding loops for ever exactly when the text ends inside a string, raises an
      exception exactly when a token is out of place or the text ends where a value or
      an element has to follow, and succeeds on every other text. */
  lemma DecodeFaults(number: Numbers, raw: string)
    ensures var mode := Scan(number, Tokenize(raw), Key, 0);
      && (Decode(number, raw) == Failure(Endless) <==> mode.Inside?)
      && (Decode(number, raw) == Failure(Malformed) <==> mode == Bad || mode == Mode.Value || mode == Array)
      && (Decode(number, raw).Success? <==> mode == Key || mode == Past)
  {
    TextScan(number, Tokenize(raw), []);
  }

  lemma {:induction false} ScanPrefix(number: Numbers, a: seq<string>, b: seq<string>, mode: Mode, depth: nat)
    returns (left: nat)
    ensures Scan(number, a + b, mode, depth) == Scan(number, b, Scan(number, a, mode, depth), left)
  {
    if a == [] {
      assert a + b == b;
      left := depth;
    } else {
      assert (a + b)[1..] == a[1..] + b;
      var next := Step(number, a[0], mode, depth);
      left := ScanPrefix(number, a[1..], b, next.0, next.1);
    }
  }

  lemma {:induction false} StaysInside(number: Numbers, tokens: seq<string>, mode: Mode, depth: nat)
    requires mode.Inside? && QUOTE !in tokens
    ensures Scan(number, tokens, mode, depth) == mode
  {
    if tokens != [] {
      StaysInside(number, tokens[1..], mode, depth);
    }
  }

  lemma OpensForGood(number: Numbers, after: seq<string>, mode: Mode, depth: nat)
    requires (mode == Mode.Value || mode == Array) && QUOTE !in after
    ensures Scan(number, [QUOTE] + after, mode, depth) == Inside(mode == Array)
  {
    assert ([QUOTE] + after)[1..] == after;
    StaysInside(number, after, Inside(mode == Array), depth);
  }

  /** Every quote that opens a string and is the last one makes decoding loop for ever,
      whatever follows: cutting a text inside a string is enough. */
  lemma LastQuoteOpens(number: Numbers, raw: string, before: seq<string>, after: seq<string>)
    requires Tokenize(raw) == before + [QUOTE] + after && QUOTE !in after
    requires Scan(number, before, Key, 0) == Mode.Value || Scan(number, before, Key, 0) == Array
    ensures Decode(number, raw) == Failure(Endless)
  {
    var left := ScanPrefix(number, before, [QUOTE] + after, Key, 0);
    assert before + [QUOTE] + after == before + ([QUOTE] + after);
    OpensForGood(number, after, Scan(number, before, Key, 0), left);
    DecodeFaults(number, raw);
  }
}
