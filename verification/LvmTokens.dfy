/**
  From LVM metadata text to tokens (osbuild/util/lvm2.py:415-430): a list of
  substitutions, applied one after the other, and `str.split`.
 */
module LvmTokens {
  // What `\s` and `str.split` take for white space.
  predicate IsSpace(c: char) {
    var n := c as int;
    || 9 <= n <= 13 || 28 <= n <= 32 || n == 0x85 || n == 0xa0 || n == 0x1680 || 0x2000 <= n <= 0x200a
    || n == 0x2028 || n == 0x2029 || n == 0x202f || n == 0x205f || n == 0x3000
  }

  // Characters the substitutions rewrite.
  predicate IsSpecial(c: char) {
    c == '#' || c == '[' || c == ']' || c == '"' || c == '=' || c == ',' || c == '\0'
  }

  predicate IsPlain(c: char) { !IsSpace(c) && !IsSpecial(c) }

  predicate IsWord(s: string) { s != "" && forall i :: 0 <= i < |s| ==> IsPlain(s[i]) }

  // --------------------------------------------------------------- substitutions

  // Position of the first newline, the length if there is none.
  function LineEnd(s: string): (n: nat)
    ensures n <= |s|
  {
    if s == "" || s[0] == '\n' then 0 else 1 + LineEnd(s[1..])
  }

  // `#.*\n`: only a comment that ends in a newline is removed.
  function Uncomment(s: string): string
    decreases |s|
  {
    if s == "" then ""
    else if s[0] == '#' && LineEnd(s) < |s| then Uncomment(s[LineEnd(s) + 1..])
    else [s[0]] + Uncomment(s[1..])
  }

  // Every `c` becomes `r`.
  function Replace(s: string, c: char, r: string): string {
    if s == "" then "" else (if s[0] == c then r else [s[0]]) + Replace(s[1..], c, r)
  }

  function Clean(s: string): string {
    Replace(Replace(Replace(Replace(Replace(s, '[', "[ "), ']', " ]"), '"', " \" "), '=', ""), ',', "")
  }

  // `\s+` becomes one blank.
  function Collapse(s: string): string
    decreases |s|
  {
    if s == "" then ""
    else if IsSpace(s[0]) then [' '] + Collapse(SkipSpace(s))
    else [s[0]] + Collapse(s[1..])
  }

  function SkipSpace(s: string): (r: string)
    ensures |r| <= |s| && (s != "" && IsSpace(s[0]) ==> |r| < |s|)
    ensures r != "" ==> !IsSpace(r[0])
  {
    if s == "" || !IsSpace(s[0]) then s else SkipSpace(s[1..])
  }

  // `\0$`
  function StripNul(s: string): string {
    if s != "" && s[|s| - 1] == '\0' then s[..|s| - 1] else s
  }

  // Leading characters that are not white space.
  function WordEnd(s: string): (n: nat)
    ensures n <= |s|
  {
    if s == "" || IsSpace(s[0]) then 0 else 1 + WordEnd(s[1..])
  }

  function Split(s: string): seq<string>
    decreases |s|
  {
    if s == "" then []
    else if IsSpace(s[0]) then Split(s[1..])
    else [s[..WordEnd(s)]] + Split(s[WordEnd(s)..])
  }

  function Tokenize(raw: string): seq<string> {
    Split(StripNul(Collapse(Clean(Uncomment(raw)))))
  }

  // ------------------------------------------------------------------- laws

  lemma {:induction false} ReplaceConcat(a: string, b: string, c: char, r: string)
    ensures Replace(a + b, c, r) == Replace(a, c, r) + Replace(b, c, r)
  {
    if a == "" {
      assert a + b == b;
    } else {
      assert (a + b)[1..] == a[1..] + b;
      ReplaceConcat(a[1..], b, c, r);
    }
  }

  lemma {:induction false} ReplaceNone(s: string, c: char, r: string)
    requires c !in s
    ensures Replace(s, c, r) == s
  {
    if s != "" {
      ReplaceNone(s[1..], c, r);
    }
  }

  lemma CleanConcat(a: string, b: string)
    ensures Clean(a + b) == Clean(a) + Clean(b)
  {
    ReplaceConcat(a, b, '[', "[ ");
    var a1, b1 := Replace(a, '[', "[ "), Replace(b, '[', "[ ");
    ReplaceConcat(a1, b1, ']', " ]");
    var a2, b2 := Replace(a1, ']', " ]"), Replace(b1, ']', " ]");
    ReplaceConcat(a2, b2, '"', " \" ");
    var a3, b3 := Replace(a2, '"', " \" "), Replace(b2, '"', " \" ");
    ReplaceConcat(a3, b3, '=', "");
    ReplaceConcat(Replace(a3, '=', ""), Replace(b3, '=', ""), ',', "");
  }

  predicate Ordinary(s: string) { forall i :: 0 <= i < |s| ==> !IsSpecial(s[i]) }

  lemma CleanOrdinary(s: string)
    requires Ordinary(s)
    ensures Clean(s) == s
  {
    ReplaceNone(s, '[', "[ ");
    ReplaceNone(s, ']', " ]");
    ReplaceNone(s, '"', " \" ");
    ReplaceNone(s, '=', "");
    ReplaceNone(s, ',', "");
  }

  lemma {:induction false} UncommentNone(s: string)
    requires '#' !in s
    ensures Uncomment(s) == s
  {
    if s != "" {
      UncommentNone(s[1..]);
    }
  }

  // White space between two texts keeps their words apart.
  lemma {:induction false} SplitAt(a: string, c: char, b: string)
    requires IsSpace(c)
    ensures Split(a + [c] + b) == Split(a) + Split(b)
    decreases |a|
  {
    var s := a + [c] + b;
    if a == "" {
      assert s[1..] == b;
    } else if IsSpace(a[0]) {
      assert s[1..] == a[1..] + [c] + b;
      SplitAt(a[1..], c, b);
    } else {
      WordEndAt(a, c, b);
      var n := WordEnd(a);
      assert s[..n] == a[..n] && s[n..] == a[n..] + [c] + b;
      SplitAt(a[n..], c, b);
    }
  }

  lemma {:induction false} WordEndAt(a: string, c: char, b: string)
    requires IsSpace(c)
    ensures WordEnd(a + [c] + b) == WordEnd(a)
  {
    if a != "" && !IsSpace(a[0]) {
      assert (a + [c] + b)[1..] == a[1..] + [c] + b;
      WordEndAt(a[1..], c, b);
    }
  }

  lemma {:induction false} WordEndWord(s: string)
    requires forall i :: 0 <= i < |s| ==> !IsSpace(s[i])
    ensures WordEnd(s) == |s|
  {
    if s != "" {
      WordEndWord(s[1..]);
    }
  }

  lemma SplitWord(s: string)
    requires s != "" && forall i :: 0 <= i < |s| ==> !IsSpace(s[i])
    ensures Split(s) == [s]
  {
    WordEndWord(s);
    assert s[..|s|] == s && s[|s|..] == "";
  }

  lemma {:induction false} SplitSkips(s: string)
    ensures Split(SkipSpace(s)) == Split(s)
  {
    if s != "" && IsSpace(s[0]) {
      SplitSkips(s[1..]);
    }
  }

  // The first word stays the first word ...
  lemma {:induction false} CollapseWord(s: string)
    ensures WordEnd(Collapse(s)) == WordEnd(s)
  {
    if s != "" && !IsSpace(s[0]) {
      CollapseWord(s[1..]);
      assert Collapse(s)[1..] == Collapse(s[1..]);
    }
  }

  // ... and is kept.
  lemma {:induction false} CollapseAfter(w: string, t: string)
    requires forall i :: 0 <= i < |w| ==> !IsSpace(w[i])
    ensures Collapse(w + t) == w + Collapse(t)
  {
    if w == "" {
      assert w + t == t;
    } else {
      assert (w + t)[0] == w[0] && (w + t)[1..] == w[1..] + t;
      CollapseAfter(w[1..], t);
    }
  }

  lemma {:induction false} WordEndPlain(s: string)
    ensures forall i :: 0 <= i < WordEnd(s) ==> !IsSpace(s[i])
  {
    if s != "" && !IsSpace(s[0]) {
      WordEndPlain(s[1..]);
      forall i | 0 <= i < WordEnd(s) ensures !IsSpace(s[i]) {
        assert i > 0 ==> s[i] == s[1..][i - 1];
      }
    }
  }

  lemma CollapseKeeps(s: string, n: nat)
    requires n == WordEnd(s)
    ensures Collapse(s) == s[..n] + Collapse(s[n..])
  {
    WordEndPlain(s);
    CollapseAfter(s[..n], s[n..]);
    assert s[..n] + s[n..] == s;
  }

  // Collapsing white space does not change the words.
  lemma {:induction false} SplitCollapse(s: string)
    ensures Split(Collapse(s)) == Split(s)
    decreases |s|
  {
    if s != "" {
      if IsSpace(s[0]) {
        assert Collapse(s)[1..] == Collapse(SkipSpace(s));
        SplitCollapse(SkipSpace(s));
        SplitSkips(s);
      } else {
        var n := WordEnd(s);
        CollapseWord(s);
        CollapseKeeps(s, n);
        assert Collapse(s)[..n] == s[..n] && Collapse(s)[n..] == Collapse(s[n..]);
        SplitCollapse(s[n..]);
      }
    }
  }

  lemma {:induction false} CollapseNul(s: string)
    ensures Collapse(s + "\0") == Collapse(s) + "\0"
    decreases |s|
  {
    if s == "" {
      assert s + "\0" == "\0";
    } else if IsSpace(s[0]) {
      SkipNul(s);
      CollapseNul(SkipSpace(s));
    } else {
      assert (s + "\0")[1..] == s[1..] + "\0";
      CollapseNul(s[1..]);
    }
  }

  lemma {:induction false} SkipNul(s: string)
    ensures SkipSpace(s + "\0") == SkipSpace(s) + "\0"
  {
    if s != "" && IsSpace(s[0]) {
      assert (s + "\0")[1..] == s[1..] + "\0";
      SkipNul(s[1..]);
    }
  }

  lemma {:induction false} LineEndNul(s: string)
    ensures LineEnd(s + "\0") == if LineEnd(s) < |s| then LineEnd(s) else |s| + 1
  {
    if s != "" && s[0] != '\n' {
      assert (s + "\0")[1..] == s[1..] + "\0";
      LineEndNul(s[1..]);
    }
  }

  lemma {:induction false} UncommentNul(s: string)
    ensures Uncomment(s + "\0") == Uncomment(s) + "\0"
    decreases |s|
  {
    if s == "" {
      assert (s + "\0")[1..] == "";
    } else {
      LineEndNul(s);
      var n := LineEnd(s);
      if s[0] == '#' && n < |s| {
        assert (s + "\0")[n + 1..] == s[n + 1..] + "\0";
        UncommentNul(s[n + 1..]);
      } else {
        assert (s + "\0")[1..] == s[1..] + "\0";
        UncommentNul(s[1..]);
      }
    }
  }

  /** A text that ends in a NUL has the words of its cleaned part. */
  lemma TokenizeText(x: string)
    ensures Tokenize(x + "\0") == Split(Clean(Uncomment(x)))
  {
    UncommentNul(x);
    var y := Uncomment(x);
    CleanConcat(y, "\0");
    assert Clean("\0") == "\0" by {
      assert Replace("\0", '[', "[ ") == "\0";
    }
    CollapseNul(Clean(y));
    assert StripNul(Collapse(Clean(y)) + "\0") == Collapse(Clean(y));
    SplitCollapse(Clean(y));
  }
}
