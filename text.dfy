/**
 * The string operations the source borrows from Python's `str`: strip, lower,
 * split, join, substring tests and character filters. Strings are sequences of
 * characters; lower-casing and digit tests cover ASCII only.
 */
module Text {

  /** The characters Python's `str.isspace` accepts, which `str.strip()` removes. */
  predicate IsSpace(c: char)
  {
    || c == ' ' || c == '\t' || c == '\n' || c == '\r'
    || c == '\U{000B}' || c == '\U{000C}'
    || ('\U{001C}' <= c <= '\U{001F}')
    || c == '\U{0085}' || c == '\U{00A0}' || c == '\U{1680}'
    || ('\U{2000}' <= c <= '\U{200A}')
    || c == '\U{2028}' || c == '\U{2029}' || c == '\U{202F}' || c == '\U{205F}' || c == '\U{3000}'
  }

  predicate IsDigit(c: char)
  {
    '0' <= c <= '9'
  }

  predicate IsAsciiLetter(c: char)
  {
    ('a' <= c <= 'z') || ('A' <= c <= 'Z')
  }

  predicate IsUpper(c: char)
  {
    'A' <= c <= 'Z'
  }

  /** Leading white space removed. */
  function StripLeft(s: string): (r: string)
    ensures |r| <= |s| && r == s[|s| - |r|..]
    ensures r != [] ==> !IsSpace(r[0])
  {
    if s != [] && IsSpace(s[0]) then StripLeft(s[1..]) else s
  }

  /** Trailing white space removed. */
  function StripRight(s: string): (r: string)
    ensures r <= s
    ensures r != [] ==> !IsSpace(r[|r| - 1])
  {
    if s != [] && IsSpace(s[|s| - 1]) then StripRight(s[..|s| - 1]) else s
  }

  /** Python's `s.strip()`. */
  function Strip(s: string): (r: string)
    ensures |r| <= |s|
    ensures r != [] ==> !IsSpace(r[0]) && !IsSpace(r[|r| - 1])
  {
    StripRight(StripLeft(s))
  }

  function LowerChar(c: char): (r: char)
    ensures !IsUpper(r)
    ensures !IsUpper(c) ==> r == c
  {
    if IsUpper(c) then (c as int + 32) as char else c
  }

  /** Python's `s.lower()` on ASCII letters; every other character is kept. */
  function Lower(s: string): (r: string)
    ensures |r| == |s|
    ensures forall i :: 0 <= i < |s| ==> r[i] == LowerChar(s[i])
  {
    seq(|s|, i requires 0 <= i < |s| => LowerChar(s[i]))
  }

  /** No ASCII capital letter occurs in `s`. */
  predicate NoUpper(s: string)
  {
    forall i :: 0 <= i < |s| ==> !IsUpper(s[i])
  }

  /** Python's `sub in s`. */
  predicate Contains(s: string, sub: string)
  {
    exists i :: 0 <= i <= |s| - |sub| && sub <= s[i..]
  }

  /** Python's `s.split(c)`: the maximal pieces between occurrences of `c`. */
  function Split(s: string, c: char): (r: seq<string>)
    ensures |r| >= 1
    ensures forall i :: 0 <= i < |r| ==> c !in r[i]
  {
    if s == [] then [""]
    else
      var rest := Split(s[1..], c);
      if s[0] == c then [""] + rest else [[s[0]] + rest[0]] + rest[1..]
  }

  /** Python's `sep.join(xs)`. */
  function Join(sep: string, xs: seq<string>): string
  {
    if |xs| == 0 then ""
    else if |xs| == 1 then xs[0]
    else xs[0] + sep + Join(sep, xs[1..])
  }

  /** The longest prefix of `s` holding none of `stops`. */
  function TakeUntil(s: string, stops: set<char>): (r: string)
    ensures r <= s
    ensures forall i :: 0 <= i < |r| ==> r[i] !in stops
    ensures |r| < |s| ==> s[|r|] in stops
  {
    if s == [] || s[0] in stops then [] else [s[0]] + TakeUntil(s[1..], stops)
  }

  /** `s` with every character of `drop` removed, the rest kept in order. */
  function Remove(s: string, drop: set<char>): (r: string)
    ensures forall i :: 0 <= i < |r| ==> r[i] !in drop && r[i] in s
    ensures (forall i :: 0 <= i < |s| ==> s[i] !in drop) ==> r == s
  {
    if s == [] then []
    else (if s[0] in drop then [] else [s[0]]) + Remove(s[1..], drop)
  }

  /** `"".join(filter(str.isdigit, s))` for ASCII digits. */
  function Digits(s: string): (r: string)
    ensures |r| <= |s|
    ensures forall i :: 0 <= i < |r| ==> IsDigit(r[i])
  {
    if s == [] then []
    else (if IsDigit(s[0]) then [s[0]] else []) + Digits(s[1..])
  }

  /** `re.sub(r'[^a-zA-Z0-9]', '', s)`. */
  function Alphanumerics(s: string): (r: string)
    ensures |r| <= |s|
    ensures forall i :: 0 <= i < |r| ==> IsAsciiLetter(r[i]) || IsDigit(r[i])
  {
    if s == [] then []
    else (if IsAsciiLetter(s[0]) || IsDigit(s[0]) then [s[0]] else []) + Alphanumerics(s[1..])
  }

  /** Python's `s.replace(target, replacement)` for a single-character `target`. */
  function ReplaceChar(s: string, target: char, replacement: string): (r: string)
  {
    if s == [] then []
    else (if s[0] == target then replacement else [s[0]]) + ReplaceChar(s[1..], target, replacement)
  }

  /** The number of occurrences of `c` in `s`. */
  function Count(s: string, c: char): nat
  {
    if s == [] then 0 else (if s[0] == c then 1 else 0) + Count(s[1..], c)
  }

  /** Splitting a text made of a `c`-free head, `c`, and a tail gives the head and then the tail's pieces. */
  lemma {:induction false} SplitAt(a: string, b: string, c: char)
    requires c !in a
    ensures Split(a + [c] + b, c) == [a] + Split(b, c)
  {
    if a == [] {
      assert a + [c] + b == [c] + b;
      assert ([c] + b)[1..] == b;
    } else {
      assert (a + [c] + b)[1..] == a[1..] + [c] + b;
      SplitAt(a[1..], b, c);
      assert [a[0]] + a[1..] == a;
    }
  }

  /** A text without `c` splits into itself. */
  lemma {:induction false} SplitWhole(a: string, c: char)
    requires c !in a
    ensures Split(a, c) == [a]
  {
    if a != [] {
      SplitWhole(a[1..], c);
      assert [a[0]] + a[1..] == a;
    }
  }

  /** Splitting on `c` and joining with `c` gives back the text. */
  lemma {:induction false} JoinSplit(s: string, c: char)
    ensures Join([c], Split(s, c)) == s
  {
    if s != [] {
      JoinSplit(s[1..], c);
      var rest := Split(s[1..], c);
      if s[0] != c {
        if |rest| == 1 {
          assert Join([c], rest) == rest[0];
        } else {
          assert Join([c], rest) == rest[0] + [c] + Join([c], rest[1..]);
          assert ([s[0]] + rest[0]) + [c] + Join([c], rest[1..]) == [s[0]] + (rest[0] + [c] + Join([c], rest[1..]));
        }
        assert s == [s[0]] + s[1..];
      } else {
        assert Join([c], [""] + rest) == "" + [c] + Join([c], rest);
        assert s == [s[0]] + s[1..];
      }
    }
  }

  /** No white space at either end. */
  predicate Trimmed(s: string)
  {
    s != [] ==> !IsSpace(s[0]) && !IsSpace(s[|s| - 1])
  }

  /** `strip` leaves a trimmed text as it is. */
  lemma {:induction false} TrimmedStrip(s: string)
    requires Trimmed(s)
    ensures Strip(s) == s
  {
  }

  /** Leading white space does not survive `strip`. */
  lemma {:induction false} StripSpacePrefix(x: string)
    ensures Strip(" " + x) == Strip(x)
  {
    assert (" " + x)[1..] == x;
  }

  /** `filter` distributes over concatenation. */
  lemma {:induction false} DigitsConcat(a: string, b: string)
    ensures Digits(a + b) == Digits(a) + Digits(b)
  {
    if a == [] {
      assert a + b == b;
    } else {
      assert (a + b)[1..] == a[1..] + b;
      DigitsConcat(a[1..], b);
    }
  }

  /** Replacing `target` by a text one longer adds one character per occurrence. */
  lemma {:induction false} ReplaceCharLength(s: string, target: char, replacement: string)
    requires |replacement| == 2
    ensures |ReplaceChar(s, target, replacement)| == |s| + Count(s, target)
  {
    if s != [] {
      ReplaceCharLength(s[1..], target, replacement);
    }
  }
}
