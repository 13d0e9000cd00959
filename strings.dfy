/** String helpers with the semantics of the Python built-ins the source uses:
    `str.join`, `str(int)`, `str.replace`, `str.lower` (ASCII letters only),
    `str.startswith`, the `in` test on strings, `str.strip(c)`, slicing with a
    step, and the `repr` of `str` and `bytes` values. */
module Strings {

  newtype byte = b: int | 0 <= b < 256

  /** `sep.join(parts)` */
  function Join(parts: seq<string>, sep: string): (r: string)
    ensures |parts| == 1 ==> r == parts[0]
  {
    if |parts| == 0 then ""
    else if |parts| == 1 then parts[0]
    else parts[0] + sep + Join(parts[1..], sep)
  }

  /** The concatenation of a sequence of strings, `''.join(parts)`. */
  function Concat(parts: seq<string>): string
  {
    if |parts| == 0 then "" else parts[0] + Concat(parts[1..])
  }

  lemma {:induction false} ConcatAppend(a: seq<string>, b: seq<string>)
    ensures Concat(a + b) == Concat(a) + Concat(b)
  {
    if |a| == 0 {
      assert a + b == b;
    } else {
      assert (a + b)[1..] == a[1..] + b;
      ConcatAppend(a[1..], b);
    }
  }

  /** The concatenation ends with the last part. */
  lemma ConcatLast(parts: seq<string>)
    requires |parts| > 0
    ensures Concat(parts) == Concat(parts[..|parts| - 1]) + parts[|parts| - 1]
  {
    var n := |parts|;
    assert parts == parts[..n - 1] + [parts[n - 1]];
    ConcatAppend(parts[..n - 1], [parts[n - 1]]);
    assert Concat([parts[n - 1]]) == parts[n - 1];
  }

  predicate IsDigit(c: char) { '0' <= c <= '9' }

  function DigitChar(d: nat): (c: char)
    requires d < 10
    ensures IsDigit(c) && (c as int) - ('0' as int) == d
  {
    (('0' as int) + d) as char
  }

  /** Decimal digits of a natural number, as `str(n)` prints them. */
  function NatToString(n: nat): (s: string)
    ensures |s| >= 1 && forall i :: 0 <= i < |s| ==> IsDigit(s[i])
  {
    if n < 10 then [DigitChar(n)] else NatToString(n / 10) + [DigitChar(n % 10)]
  }

  /** `str(i)` for a Python int. */
  function IntToString(i: int): (s: string)
    ensures |s| >= 1
  {
    if i < 0 then "-" + NatToString(-i) else NatToString(i)
  }

  /** `int(s)` for a string of decimal digits. */
  function ParseNat(s: string): nat
    requires forall i :: 0 <= i < |s| ==> IsDigit(s[i])
  {
    if |s| == 0 then 0
    else ParseNat(s[..|s| - 1]) * 10 + DigitValue(s[|s| - 1])
  }

  function DigitValue(c: char): nat
    requires IsDigit(c)
  {
    (c as int) - ('0' as int)
  }

  /** Printing a natural number and reading it back gives the number. */
  lemma {:induction false} ParseNatToString(n: nat)
    ensures ParseNat(NatToString(n)) == n
  {
    if n >= 10 {
      var s := NatToString(n);
      assert s[..|s| - 1] == NatToString(n / 10);
      ParseNatToString(n / 10);
    }
  }

  /** `s.replace(from, to)` for single characters. */
  function ReplaceChar(s: string, from: char, to: char): (r: string)
    ensures |r| == |s|
    ensures forall i :: 0 <= i < |s| ==> r[i] == (if s[i] == from then to else s[i])
  {
    if |s| == 0 then "" else [if s[0] == from then to else s[0]] + ReplaceChar(s[1..], from, to)
  }

  function LowerChar(c: char): char
  {
    if 'A' <= c <= 'Z' then ((c as int) + 32) as char else c
  }

  /** `s.lower()`, for ASCII letters. */
  function Lower(s: string): (r: string)
    ensures |r| == |s|
    ensures forall i :: 0 <= i < |s| ==> r[i] == LowerChar(s[i])
  {
    if |s| == 0 then "" else [LowerChar(s[0])] + Lower(s[1..])
  }

  /** `s.startswith(p)` */
  predicate StartsWith(s: string, p: string)
  {
    |p| <= |s| && s[..|p|] == p
  }

  /** `p in s` */
  predicate Contains(s: string, p: string)
    decreases |s|
  {
    StartsWith(s, p) || (|s| > 0 && Contains(s[1..], p))
  }

  /** `p` occurs in `s` at offset `k`. */
  predicate OccursAt(s: string, p: string, k: nat)
  {
    k + |p| <= |s| && s[k..k + |p|] == p
  }

  /** `Contains` is the textbook "occurs at some offset". */
  lemma {:induction false} ContainsAt(s: string, p: string)
    ensures Contains(s, p) <==> exists k: nat :: OccursAt(s, p, k)
    decreases |s|
  {
    if StartsWith(s, p) {
      assert OccursAt(s, p, 0);
    } else if |s| > 0 {
      ContainsAt(s[1..], p);
      if Contains(s[1..], p) {
        var k: nat :| OccursAt(s[1..], p, k);
        assert s[k + 1..k + 1 + |p|] == s[1..][k..k + |p|];
        assert OccursAt(s, p, k + 1);
      }
      if exists k: nat :: OccursAt(s, p, k) {
        var k: nat :| OccursAt(s, p, k);
        assert k != 0;
        assert s[1..][k - 1..k - 1 + |p|] == s[k..k + |p|];
        assert OccursAt(s[1..], p, k - 1);
      }
    }
  }

  /** `s.lstrip(c)` */
  function StripLeft(s: string, c: char): (r: string)
  {
    if |s| > 0 && s[0] == c then StripLeft(s[1..], c) else s
  }

  /** `s.rstrip(c)` */
  function StripRight(s: string, c: char): (r: string)
  {
    if |s| > 0 && s[|s| - 1] == c then StripRight(s[..|s| - 1], c) else s
  }

  /** `s.strip(c)` */
  function Strip(s: string, c: char): string
  {
    StripRight(StripLeft(s, c), c)
  }

  function Repeat(c: char, n: nat): (r: string)
    ensures |r| == n && forall i :: 0 <= i < n ==> r[i] == c
  {
    if n == 0 then "" else [c] + Repeat(c, n - 1)
  }

  lemma {:induction false} StripLeftShape(s: string, c: char)
    ensures var r := StripLeft(s, c);
            (exists a: nat :: s == Repeat(c, a) + r) && (|r| == 0 || r[0] != c)
    decreases |s|
  {
    if |s| > 0 && s[0] == c {
      StripLeftShape(s[1..], c);
      var r := StripLeft(s, c);
      var a: nat :| s[1..] == Repeat(c, a) + r;
      assert s == Repeat(c, a + 1) + r;
    } else {
      assert s == Repeat(c, 0) + s;
    }
  }

  lemma {:induction false} StripRightShape(s: string, c: char)
    ensures var r := StripRight(s, c);
            (exists b: nat :: s == r + Repeat(c, b)) && (|r| == 0 || r[|r| - 1] != c)
    decreases |s|
  {
    if |s| > 0 && s[|s| - 1] == c {
      StripRightShape(s[..|s| - 1], c);
      var r := StripRight(s, c);
      var b: nat :| s[..|s| - 1] == r + Repeat(c, b);
      assert Repeat(c, b + 1) == Repeat(c, b) + [c];
      assert s == s[..|s| - 1] + [c];
      assert s == r + Repeat(c, b + 1);
    } else {
      assert s == s + Repeat(c, 0);
    }
  }

  lemma {:induction false} StripLeftNoEdge(s: string, c: char)
    requires |s| == 0 || s[|s| - 1] != c
    ensures var r := StripLeft(s, c); |r| == 0 || r[|r| - 1] != c
    decreases |s|
  {
    if |s| > 0 && s[0] == c {
      StripLeftNoEdge(s[1..], c);
    }
  }

  lemma {:induction false} StripRightKeepsFirst(s: string, c: char)
    requires |s| == 0 || s[0] != c
    ensures var r := StripRight(s, c); |r| == 0 || r[0] != c
    decreases |s|
  {
    if |s| > 0 && s[|s| - 1] == c {
      StripRightKeepsFirst(s[..|s| - 1], c);
    }
  }

  /** `s.strip(c)` removes every leading and trailing `c` and nothing else:
      the input is some `c`s, the result, and some `c`s, and the result neither
      starts nor ends with `c`. */
  lemma StripShape(s: string, c: char)
    ensures var r := Strip(s, c);
            (exists a: nat, b: nat :: s == Repeat(c, a) + r + Repeat(c, b))
            && (|r| == 0 || (r[0] != c && r[|r| - 1] != c))
  {
    var l := StripLeft(s, c);
    var r := Strip(s, c);
    StripLeftShape(s, c);
    StripRightShape(l, c);
    StripRightKeepsFirst(l, c);
    var a: nat :| s == Repeat(c, a) + l;
    var b: nat :| l == r + Repeat(c, b);
    assert s == Repeat(c, a) + r + Repeat(c, b);
  }

  /** Every fourth character starting at 0, Python's `s[::4]`. */
  function EveryFourth(s: string): string
    decreases |s|
  {
    if |s| == 0 then ""
    else if |s| <= 4 then [s[0]]
    else [s[0]] + EveryFourth(s[4..])
  }

  /** `s[::4]` has one character per started group of four, and its `i`-th
      character is `s[4 * i]`. */
  lemma {:induction false} EveryFourthAt(s: string, i: nat)
    ensures |EveryFourth(s)| == (|s| + 3) / 4
    ensures i < |EveryFourth(s)| ==> 4 * i < |s| && EveryFourth(s)[i] == s[4 * i]
    decreases |s|
  {
    if |s| > 4 {
      EveryFourthAt(s[4..], if i > 0 then i - 1 else 0);
    }
  }

  const HexDigits: string := "0123456789abcdef"

  function Hex2(b: byte): string
  {
    [HexDigits[(b as int) / 16], HexDigits[(b as int) % 16]]
  }

  /** One byte as Python prints it inside `repr(b'...')` quoted with `q`. */
  function ByteRepr(b: byte, q: char): string
  {
    if b == 92 then "\\\\"
    else if (b as int) == (q as int) then ['\\', q]
    else if b == 9 then "\\t"
    else if b == 10 then "\\n"
    else if b == 13 then "\\r"
    else if 32 <= b < 127 then [(b as int) as char]
    else "\\x" + Hex2(b)
  }

  function BytesBody(bs: seq<byte>, q: char): string
  {
    if |bs| == 0 then "" else ByteRepr(bs[0], q) + BytesBody(bs[1..], q)
  }

  /** `str(b)` for a bytes object: single quotes unless the bytes hold a single
      quote and no double quote. */
  function BytesRepr(bs: seq<byte>): string
  {
    var q := if 39 in bs && 34 !in bs then '"' else '\'';
    "b" + [q] + BytesBody(bs, q) + [q]
  }

  /** One character as Python prints it inside `repr('...')` quoted with `q`;
      non-ASCII characters are kept as they are. */
  function CharRepr(c: char, q: char): string
  {
    if c == '\\' then "\\\\"
    else if c == q then ['\\', q]
    else if c == '\t' then "\\t"
    else if c == '\n' then "\\n"
    else if c == '\r' then "\\r"
    else if (c as int) < 32 || (c as int) == 127 then "\\x" + Hex2((c as int) as byte)
    else [c]
  }

  function StrBody(s: string, q: char): string
  {
    if |s| == 0 then "" else CharRepr(s[0], q) + StrBody(s[1..], q)
  }

  /** `repr(s)` for a str. */
  function StrRepr(s: string): string
  {
    var q := if '\'' in s && '"' !in s then '"' else '\'';
    [q] + StrBody(s, q) + [q]
  }

  function ReprAll(ss: seq<string>): (r: seq<string>)
    ensures |r| == |ss|
  {
    if |ss| == 0 then [] else [StrRepr(ss[0])] + ReprAll(ss[1..])
  }

  /** `str(names)` for a list of str, e.g. `['df1', 'df2']`. */
  function ListRepr(names: seq<string>): string
  {
    "[" + Join(ReprAll(names), ", ") + "]"
  }

  /** `t.format(*args)` for the fields the app's templates use: `{}` takes
      the next positional argument, `{d}` the argument with that index.
      Every template formatted here names only arguments it is given. */
  function Format(t: string, args: seq<string>, next: nat): string
    decreases |t|
  {
    if |t| >= 2 && t[0] == '{' && t[1] == '}' && next < |args| then
      args[next] + Format(t[2..], args, next + 1)
    else if |t| >= 3 && t[0] == '{' && IsDigit(t[1]) && t[2] == '}' && DigitValue(t[1]) < |args| then
      args[DigitValue(t[1])] + Format(t[3..], args, next)
    else if |t| == 0 then ""
    else [t[0]] + Format(t[1..], args, next)
  }

  /** No character of `t` opens a field. */
  predicate NoBrace(t: string)
  {
    forall i :: 0 <= i < |t| ==> t[i] != '{'
  }

  /** Text without a brace is copied unchanged, whatever follows it. */
  lemma {:induction false} FormatLiteral(t: string, rest: string, args: seq<string>, next: nat)
    requires NoBrace(t)
    ensures Format(t + rest, args, next) == t + Format(rest, args, next)
    decreases |t|
  {
    if |t| > 0 {
      var u := t + rest;
      assert NoBrace(t[1..]) by {
        forall i | 0 <= i < |t| - 1 ensures t[1..][i] != '{' {
          assert t[1..][i] == t[i + 1];
        }
      }
      FormatLiteral(t[1..], rest, args, next);
      assert u[0] == t[0] != '{' && u[1..] == t[1..] + rest;
      assert Format(u, args, next) == [t[0]] + Format(u[1..], args, next);
      assert t == [t[0]] + t[1..];
    } else {
      assert t + rest == rest;
    }
  }

  /** A field at the front of a template is replaced by its argument. */
  lemma FormatField(field: string, rest: string, args: seq<string>, next: nat)
    requires (field == "{}" && next < |args|)
             || (|field| == 3 && field[0] == '{' && IsDigit(field[1]) && field[2] == '}' && DigitValue(field[1]) < |args|)
    ensures field == "{}" ==> Format(field + rest, args, next) == args[next] + Format(rest, args, next + 1)
    ensures field != "{}" ==> Format(field + rest, args, next) == args[DigitValue(field[1])] + Format(rest, args, next)
  {
    var t := field + rest;
    if field == "{}" {
      assert t[2..] == rest;
    } else {
      assert t[3..] == rest;
    }
  }

  /** A template with one field between two literal texts. */
  lemma FormatOneField(pre: string, field: string, post: string, args: seq<string>)
    requires NoBrace(pre) && NoBrace(post)
    requires (field == "{}" && 0 < |args|)
             || (|field| == 3 && field[0] == '{' && IsDigit(field[1]) && field[2] == '}' && DigitValue(field[1]) < |args|)
    ensures Format(pre + field + post, args, 0)
            == pre + (if field == "{}" then args[0] else args[DigitValue(field[1])]) + post
  {
    assert pre + field + post == pre + (field + post);
    FormatLiteral(pre, field + post, args, 0);
    FormatField(field, post, args, 0);
    FormatLiteral(post, "", args, if field == "{}" then 1 else 0);
    assert post + "" == post;
  }
}
