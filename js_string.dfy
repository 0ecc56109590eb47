/** The JavaScript string built-ins the core relies on:
    `String.prototype.trim`, `toLowerCase` and `split` with a
    one-character separator. */
module JsString {

  /** A character that ECMAScript's trim() removes: a WhiteSpace code point
      (TAB, VT, FF, ZWNBSP or a Space_Separator) or a LineTerminator
      (LF, CR, LS, PS). */
  predicate IsWhitespace(c: char) {
    c == '\t' || c == '\n' || c == '\U{000B}' || c == '\U{000C}' || c == '\r'
    || c == ' ' || c == '\U{00A0}' || c == '\U{1680}'
    || ('\U{2000}' <= c <= '\U{200A}')
    || c == '\U{2028}' || c == '\U{2029}' || c == '\U{202F}' || c == '\U{205F}'
    || c == '\U{3000}' || c == '\U{FEFF}'
  }

  predicate AllWhitespace(s: string) {
    forall i :: 0 <= i < |s| ==> IsWhitespace(s[i])
  }

  /** Neither end of `s` is whitespace. */
  predicate Unpadded(s: string) {
    s == [] || (!IsWhitespace(s[0]) && !IsWhitespace(s[|s| - 1]))
  }

  /** `s` without its leading whitespace. */
  function TrimStart(s: string): (r: string)
    ensures |r| <= |s|
  {
    if |s| > 0 && IsWhitespace(s[0]) then TrimStart(s[1..]) else s
  }

  /** `s` without its trailing whitespace. */
  function TrimEnd(s: string): string {
    if |s| > 0 && IsWhitespace(s[|s| - 1]) then TrimEnd(s[..|s| - 1]) else s
  }

  /** TrimStart removes exactly a whitespace prefix and stops at the first other character. */
  lemma {:induction false} TrimStartRemovesLead(s: string)
    ensures var r := TrimStart(s);
      |r| <= |s| && r == s[|s| - |r|..] && AllWhitespace(s[..|s| - |r|])
      && (r == [] || !IsWhitespace(r[0]))
  {
    if |s| > 0 && IsWhitespace(s[0]) {
      TrimStartRemovesLead(s[1..]);
      var r := TrimStart(s[1..]);
      assert s[..|s| - |r|] == [s[0]] + s[1..][..|s| - 1 - |r|];
    }
  }

  /** TrimEnd removes exactly a whitespace suffix and stops at the last other character. */
  lemma {:induction false} TrimEndRemovesTail(s: string)
    ensures var r := TrimEnd(s);
      |r| <= |s| && r == s[..|r|] && AllWhitespace(s[|r|..])
      && (r == [] || !IsWhitespace(r[|r| - 1]))
  {
    if |s| > 0 && IsWhitespace(s[|s| - 1]) {
      TrimEndRemovesTail(s[..|s| - 1]);
      var r := TrimEnd(s[..|s| - 1]);
      assert s[|r|..] == s[..|s| - 1][|r|..] + [s[|s| - 1]];
    }
  }

  /** String.prototype.trim: the infix of `s` left after removing whitespace at both ends. */
  function Trim(s: string): (r: string)
    ensures var lead := |s| - |TrimStart(s)|;
      lead + |r| <= |s| && r == s[lead..lead + |r|]
      && AllWhitespace(s[..lead]) && AllWhitespace(s[lead + |r|..])
    ensures Unpadded(r)
    ensures r == [] <==> AllWhitespace(s)
  {
    var t := TrimStart(s);
    TrimStartRemovesLead(s);
    TrimEndRemovesTail(t);
    var r := TrimEnd(t);
    var lead := |s| - |t|;
    assert r == s[lead..lead + |r|];
    assert t[|r|..] == s[lead + |r|..];
    assert r != [] ==> r[0] == t[0];
    assert r == [] ==> s == s[..lead] + t[|r|..];
    r
  }

  lemma {:induction false} TrimStartSkips(w: string, x: string)
    requires AllWhitespace(w)
    ensures TrimStart(w + x) == TrimStart(x)
  {
    if w == [] {
      assert w + x == x;
    } else {
      assert IsWhitespace((w + x)[0]) && (w + x)[1..] == w[1..] + x;
      assert AllWhitespace(w[1..]) by {
        forall i | 0 <= i < |w| - 1 ensures IsWhitespace(w[1..][i]) { assert w[1..][i] == w[i + 1]; }
      }
      assert TrimStart(w + x) == TrimStart(w[1..] + x);
      TrimStartSkips(w[1..], x);
    }
  }

  lemma {:induction false} TrimEndSkips(x: string, w: string)
    requires AllWhitespace(w)
    ensures TrimEnd(x + w) == TrimEnd(x)
  {
    if w == [] {
      assert x + w == x;
    } else {
      var w' := w[..|w| - 1];
      assert IsWhitespace((x + w)[|x + w| - 1]) && (x + w)[..|x + w| - 1] == x + w';
      assert AllWhitespace(w') by {
        forall i | 0 <= i < |w'| ensures IsWhitespace(w'[i]) { assert w'[i] == w[i]; }
      }
      assert TrimEnd(x + w) == TrimEnd(x + w');
      TrimEndSkips(x, w');
    }
  }

  /** Trimming whitespace-padded text yields the text itself. */
  lemma TrimPadded(w1: string, v: string, w2: string)
    requires AllWhitespace(w1) && AllWhitespace(w2) && Unpadded(v)
    ensures Trim(w1 + v + w2) == v
  {
    assert w1 + v + w2 == w1 + (v + w2);
    TrimStartSkips(w1, v + w2);
    if v == [] {
      assert v + w2 == w2;
    } else {
      assert TrimStart(v + w2) == v + w2;
      TrimEndSkips(v, w2);
    }
  }

  /** trim() is idempotent. */
  lemma TrimIdempotent(s: string)
    ensures Trim(Trim(s)) == Trim(s)
  {
    TrimPadded([], Trim(s), []);
    assert [] + Trim(s) + [] == Trim(s);
  }

  /** The KELVIN SIGN, whose lower-case form is the ASCII letter 'k'. */
  const Kelvin: char := '\U{212A}'

  /** The lower-case form of one character, as far as the model goes:
      ASCII capitals and the KELVIN SIGN; every other character is kept. */
  function LowerChar(c: char): (r: char)
    ensures 'A' <= c <= 'Z' ==> 'a' <= r <= 'z' && r as int - 'a' as int == c as int - 'A' as int
    ensures c == Kelvin ==> r == 'k'
    ensures r != c <==> ('A' <= c <= 'Z' || c == Kelvin)
  {
    if 'A' <= c <= 'Z' then (c as int + 32) as char
    else if c == Kelvin then 'k'
    else c
  }

  /** String.prototype.toLowerCase, character by character. */
  function ToLower(s: string): string {
    seq(|s|, i requires 0 <= i < |s| => LowerChar(s[i]))
  }

  /** String.prototype.split with a one-character separator: the maximal
      separator-free pieces between separators, empty pieces included. */
  function Split(s: string, sep: char): (parts: seq<string>)
    ensures |parts| >= 1
    ensures forall i :: 0 <= i < |parts| ==> sep !in parts[i]
    decreases |s|
  {
    if s == [] then [[]]
    else
      var rest := Split(s[1..], sep);
      if s[0] == sep then [[]] + rest
      else [[s[0]] + rest[0]] + rest[1..]
  }

  /** There is more than one piece exactly when the separator occurs. */
  lemma {:induction false} SplitCount(s: string, sep: char)
    ensures |Split(s, sep)| >= 2 <==> sep in s
    decreases |s|
  {
    if s != [] {
      SplitCount(s[1..], sep);
      assert s == [s[0]] + s[1..];
    }
  }

  /** Array.prototype.join: the pieces with `sep` between neighbours. */
  function Join(parts: seq<string>, sep: char): string
    requires |parts| >= 1
    decreases |parts|
  {
    if |parts| == 1 then parts[0] else parts[0] + [sep] + Join(parts[1..], sep)
  }

  /** Joining the pieces of a split gives back the original string. */
  lemma {:induction false} JoinSplit(s: string, sep: char)
    ensures Join(Split(s, sep), sep) == s
    decreases |s|
  {
    if s != [] {
      var rest := Split(s[1..], sep);
      JoinSplit(s[1..], sep);
      if s[0] == sep {
        assert Split(s, sep)[1..] == rest;
      } else {
        var parts := Split(s, sep);
        if |rest| == 1 {
          assert parts == [[s[0]] + rest[0]];
        } else {
          assert parts[1..] == rest[1..];
          assert Join(rest, sep) == rest[0] + [sep] + Join(rest[1..], sep);
        }
        assert s == [s[0]] + s[1..];
      }
    }
  }

  /** A string without the separator is one piece. */
  lemma {:induction false} SplitWhole(x: string, sep: char)
    requires sep !in x
    ensures Split(x, sep) == [x]
    decreases |x|
  {
    if x != [] {
      SplitWhole(x[1..], sep);
      assert x == [x[0]] + x[1..];
    }
  }

  /** A separator splits cleanly: the pieces of `x + sep + y` are those of `x` followed by those of `y`. */
  lemma {:induction false} SplitAtSeparator(x: string, sep: char, y: string)
    ensures Split(x + [sep] + y, sep) == Split(x, sep) + Split(y, sep)
    decreases |x|
  {
    if x == [] {
      assert x + [sep] + y == [sep] + y;
      assert ([sep] + y)[1..] == y;
    } else {
      assert (x + [sep] + y)[1..] == x[1..] + [sep] + y;
      SplitAtSeparator(x[1..], sep, y);
    }
  }

  /** Splitting a join of separator-free pieces gives back the pieces. */
  lemma {:induction false} SplitJoin(parts: seq<string>, sep: char)
    requires |parts| >= 1
    requires forall i :: 0 <= i < |parts| ==> sep !in parts[i]
    ensures Split(Join(parts, sep), sep) == parts
    decreases |parts|
  {
    var head, tail := parts[0], parts[1..];
    SplitWhole(head, sep);
    if |parts| > 1 {
      forall i | 0 <= i < |tail|
        ensures sep !in tail[i]
      {
        assert tail[i] == parts[i + 1];
      }
      SplitJoin(tail, sep);
      SplitAtSeparator(head, sep, Join(tail, sep));
      assert parts == [head] + tail;
    }
  }
}
