/** Shared vocabulary of the model: Python's error kinds, an Option and a
    Result type for operations that can raise, and the handful of string and
    list operations (split, join, strip, sum) the instrument readers rely on. */
module Common {

  datatype Option<+T> = None | Some(value: T)

  /** The Python exception an operation raises, or the silent early return
      (`return` with no value) that several readers take on bad input. */
  datatype PyError =
    | IndexError
    | ValueError
    | KeyError
    | TypeError
    | ReturnedNone

  datatype Result<+T> = Ok(value: T) | Err(error: PyError)

  /** A float parser as Python's `float()` sees it: partial, abstract. */
  type Parser = string -> Option<real>

  // ---------------------------------------------------------------------
  // Sums and means over reals

  function Sum(s: seq<real>): real
  {
    if s == [] then 0.0 else Sum(s[..|s| - 1]) + s[|s| - 1]
  }

  lemma {:induction false} SumAppend(s: seq<real>, x: real)
    ensures Sum(s + [x]) == Sum(s) + x
  {
    assert (s + [x])[..|s + [x]| - 1] == s;
  }

  lemma {:induction false} SumConcat(a: seq<real>, b: seq<real>)
    ensures Sum(a + b) == Sum(a) + Sum(b)
    decreases |b|
  {
    if b == [] {
      assert a + b == a;
    } else {
      var b' := b[..|b| - 1];
      assert a + b == (a + b') + [b[|b| - 1]];
      SumAppend(a + b', b[|b| - 1]);
      SumConcat(a, b');
      SumAppend(b', b[|b| - 1]);
      assert b == b' + [b[|b| - 1]];
    }
  }

  /** Every element above `t` puts the sum above `|s| * t`, so a mean of
      values that all exceed a threshold exceeds it too. */
  lemma {:induction false} SumAbove(s: seq<real>, t: real)
    requires |s| > 0
    requires forall k :: 0 <= k < |s| ==> s[k] > t
    ensures Sum(s) > (|s| as real) * t
    decreases |s|
  {
    if |s| > 1 {
      SumAbove(s[..|s| - 1], t);
    }
  }

  /** The sum of `|s|` copies of one value. */
  lemma {:induction false} SumConstant(s: seq<real>, c: real)
    requires forall k :: 0 <= k < |s| ==> s[k] == c
    ensures Sum(s) == (|s| as real) * c
    decreases |s|
  {
    if s != [] {
      SumConstant(s[..|s| - 1], c);
    }
  }

  function Mean(s: seq<real>): real
    requires |s| > 0
  {
    Sum(s) / (|s| as real)
  }

  lemma MeanAbove(s: seq<real>, t: real)
    requires |s| > 0
    requires forall k :: 0 <= k < |s| ==> s[k] > t
    ensures Mean(s) > t
  {
    SumAbove(s, t);
  }

  // ---------------------------------------------------------------------
  // Strings

  /** Python's `str.split(sep)` for a one-character separator: always at
      least one part, and empty parts are kept. */
  function Split(s: string, sep: char): (parts: seq<string>)
    ensures |parts| >= 1
    ensures forall k :: 0 <= k < |parts| ==> sep !in parts[k]
  {
    if s == [] then [[]]
    else
      var rest := Split(s[1..], sep);
      if s[0] == sep then [[]] + rest
      else [[s[0]] + rest[0]] + rest[1..]
  }

  /** Python's `sep.join(parts)`. */
  function Join(sep: string, parts: seq<string>): string
  {
    if parts == [] then []
    else if |parts| == 1 then parts[0]
    else parts[0] + sep + Join(sep, parts[1..])
  }

  /** Splitting undoes joining when no part holds the separator. */
  lemma {:induction false} SplitJoin(parts: seq<string>, sep: char)
    requires |parts| >= 1
    requires forall k :: 0 <= k < |parts| ==> sep !in parts[k]
    ensures Split(Join([sep], parts), sep) == parts
    decreases |parts|, |parts[0]|
  {
    if |parts| == 1 {
      SplitNoSep(parts[0], sep);
    } else if parts[0] == [] {
      var tail := parts[1..];
      assert Join([sep], parts) == [sep] + Join([sep], tail);
      SplitJoin(tail, sep);
      assert [[]] + tail == parts;
    } else {
      var p0 := parts[0];
      var shorter := [p0[1..]] + parts[1..];
      assert Join([sep], parts) == [p0[0]] + Join([sep], shorter) by {
        assert Join([sep], shorter) == p0[1..] + [sep] + Join([sep], parts[1..]);
      }
      assert sep !in p0[1..] by {
        forall c | c in p0[1..] ensures c != sep {
          assert c in p0;
        }
      }
      assert forall k :: 0 <= k < |shorter| ==> sep !in shorter[k] by {
        forall k | 0 <= k < |shorter| ensures sep !in shorter[k] {
          if k > 0 { assert shorter[k] == parts[k]; }
        }
      }
      SplitJoin(shorter, sep);
      var j := Join([sep], shorter);
      assert ([p0[0]] + j)[0] == p0[0] && ([p0[0]] + j)[1..] == j;
      assert [p0[0]] + p0[1..] == p0;
      assert shorter[1..] == parts[1..];
      assert [[p0[0]] + p0[1..]] + parts[1..] == parts;
    }
  }

  /** Splitting a string without the separator gives that string back whole. */
  lemma {:induction false} SplitNoSep(s: string, sep: char)
    requires sep !in s
    ensures Split(s, sep) == [s]
    decreases |s|
  {
    if s != [] {
      assert sep !in s[1..] by {
        forall c | c in s[1..] ensures c != sep { assert c in s; }
      }
      SplitNoSep(s[1..], sep);
      assert [s[0]] + s[1..] == s;
    }
  }

  /** Joining the parts of a split gives the original string back. */
  lemma {:induction false} JoinSplit(s: string, sep: char)
    ensures Join([sep], Split(s, sep)) == s
    decreases |s|
  {
    if s != [] {
      var rest := Split(s[1..], sep);
      JoinSplit(s[1..], sep);
      if s[0] == sep {
        assert Join([sep], [[]] + rest) == [] + [sep] + Join([sep], rest);
      } else {
        var parts := [[s[0]] + rest[0]] + rest[1..];
        if |rest| == 1 {
          assert Join([sep], rest) == rest[0];
        } else {
          assert Join([sep], rest) == rest[0] + [sep] + Join([sep], rest[1..]);
          assert parts[1..] == rest[1..];
        }
        assert s == [s[0]] + s[1..];
      }
    }
  }

  /** Each part followed by the separator, all run together. */
  function Terminated(parts: seq<string>, sep: char): string
  {
    if parts == [] then [] else parts[0] + [sep] + Terminated(parts[1..], sep)
  }

  /** Ending every part with the separator is joining them with one more,
      empty, part at the end; so a split gives the parts back followed by
      an empty string. */
  lemma {:induction false} TerminatedSplit(parts: seq<string>, sep: char)
    requires forall k :: 0 <= k < |parts| ==> sep !in parts[k]
    ensures Terminated(parts, sep) == Join([sep], parts + [[]])
    ensures Split(Terminated(parts, sep), sep) == parts + [[]]
    decreases |parts|
  {
    if parts != [] {
      TerminatedSplit(parts[1..], sep);
      assert (parts + [[]])[1..] == parts[1..] + [[]];
    }
    SplitJoin(parts + [[]], sep);
  }

  lemma {:induction false} TerminatedAppend(parts: seq<string>, p: string, sep: char)
    ensures Terminated(parts + [p], sep) == Terminated(parts, sep) + p + [sep]
    decreases |parts|
  {
    if parts == [] {
      assert parts + [p] == [p];
    } else {
      assert (parts + [p])[1..] == parts[1..] + [p];
      TerminatedAppend(parts[1..], p, sep);
    }
  }

  /** A character other than the separator occurs in the terminated text
      only if it occurs in one of the parts. */
  lemma {:induction false} TerminatedChars(parts: seq<string>, sep: char, c: char)
    requires c != sep && forall k :: 0 <= k < |parts| ==> c !in parts[k]
    ensures c !in Terminated(parts, sep)
    decreases |parts|
  {
    if parts != [] {
      TerminatedChars(parts[1..], sep, c);
      assert forall k :: 0 <= k < |parts| - 1 ==> parts[1..][k] == parts[k + 1];
    }
  }

  /** The concatenation of the parts, Python's `"".join(parts)`. */
  function Concat(parts: seq<string>): string
  {
    if parts == [] then [] else parts[0] + Concat(parts[1..])
  }

  predicate StartsWith(s: string, prefix: string)
  {
    |prefix| <= |s| && s[..|prefix|] == prefix
  }

  /** The characters Python's `str.isspace()` accepts: tab, line feed,
      vertical tab, form feed and carriage return, the four information
      separators, space, next line, no-break space, the ogham space mark,
      the spaces from en quad to hair space, the line and paragraph
      separators, the narrow no-break space, the medium mathematical space
      and the ideographic space. */
  predicate IsWhitespace(c: char)
  {
    || ('\t' <= c <= '\r') || ('\U{1C}' <= c <= ' ') || c == '\U{85}' || c == '\U{A0}'
    || c == '\U{1680}' || ('\U{2000}' <= c <= '\U{200A}') || c == '\U{2028}' || c == '\U{2029}'
    || c == '\U{202F}' || c == '\U{205F}' || c == '\U{3000}'
  }

  /** The characters Python's argument-less `str.strip()` removes. */
  const Whitespace: set<char> := set c: char | '\t' <= c <= '\U{3000}' && IsWhitespace(c)

  /** Drop the leading characters that belong to `chars`. */
  function TrimStart(s: string, chars: set<char>): string
  {
    if s != [] && s[0] in chars then TrimStart(s[1..], chars) else s
  }

  /** Drop the trailing characters that belong to `chars`. */
  function TrimEnd(s: string, chars: set<char>): string
  {
    if s != [] && s[|s| - 1] in chars then TrimEnd(s[..|s| - 1], chars) else s
  }

  /** Trimming the start removes only characters of `chars`, and stops at
      the first character outside them. */
  lemma {:induction false} TrimStartBounds(s: string, chars: set<char>)
    ensures var r := TrimStart(s, chars);
      && |r| <= |s| && r == s[|s| - |r|..]
      && (r == [] || r[0] !in chars)
      && forall k :: 0 <= k < |s| - |r| ==> s[k] in chars
    decreases |s|
  {
    if s != [] && s[0] in chars {
      TrimStartBounds(s[1..], chars);
      var r := TrimStart(s[1..], chars);
      assert s[1..][|s| - 1 - |r|..] == s[|s| - |r|..];
      assert forall k :: 1 <= k < |s| - |r| ==> s[k] == s[1..][k - 1];
    }
  }

  /** Trimming the end removes only characters of `chars`, and stops at
      the last character outside them. */
  lemma {:induction false} TrimEndBounds(s: string, chars: set<char>)
    ensures var r := TrimEnd(s, chars);
      && |r| <= |s| && r == s[..|r|]
      && (r == [] || r[|r| - 1] !in chars)
      && forall k :: |r| <= k < |s| ==> s[k] in chars
    decreases |s|
  {
    if s != [] && s[|s| - 1] in chars {
      TrimEndBounds(s[..|s| - 1], chars);
      var r := TrimEnd(s[..|s| - 1], chars);
      assert s[..|s| - 1][..|r|] == s[..|r|];
      assert forall k :: |r| <= k < |s| - 1 ==> s[k] == s[..|s| - 1][k];
    }
  }

  /** Python's `s.strip(chars)`: drop the leading and trailing characters
      that belong to `chars`. */
  function Strip(s: string, chars: set<char>): string
  {
    TrimEnd(TrimStart(s, chars), chars)
  }

  /** `s.strip() == ''`: the string holds nothing but whitespace. */
  predicate IsBlank(s: string)
  {
    forall k :: 0 <= k < |s| ==> s[k] in Whitespace
  }

  /** Python's `str(n)` for a natural number. */
  function NatToString(n: nat): (r: string)
    ensures |r| >= 1
    ensures forall k :: 0 <= k < |r| ==> '0' <= r[k] <= '9'
    ensures |r| == 1 || r[0] != '0'
    ensures r[0] == '0' <==> n == 0
    decreases n
  {
    var d := [(48 + n % 10) as char];
    if n < 10 then d else NatToString(n / 10) + d
  }

  /** The number a string of decimal digits denotes, Python's `int(s)`. */
  function DigitsValue(s: string): nat
    requires forall k :: 0 <= k < |s| ==> '0' <= s[k] <= '9'
  {
    if s == [] then 0
    else DigitsValue(s[..|s| - 1]) * 10 + (s[|s| - 1] as int - 48)
  }

  /** `str(n)` is the decimal text of `n`: reading it back gives `n`. */
  lemma {:induction false} NatToStringValue(n: nat)
    ensures DigitsValue(NatToString(n)) == n
    decreases n
  {
    var r := NatToString(n);
    if n >= 10 {
      NatToStringValue(n / 10);
      assert r[..|r| - 1] == NatToString(n / 10);
    }
  }

  /** Different numbers have different decimal texts. */
  lemma NatToStringInjective(m: nat, n: nat)
    requires NatToString(m) == NatToString(n)
    ensures m == n
  {
    NatToStringValue(m);
    NatToStringValue(n);
  }
}
