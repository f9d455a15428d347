/** The few JavaScript notions the chore card relies on: optional values,
    dynamically typed option values with their truthiness, and the string
    operations `trim`, `split`, `join` and `toLowerCase`. */
module Js {

  datatype Option<+T> = None | Some(value: T)

  /** An exception escaping a JavaScript call, or its normal result. */
  datatype Outcome<+T> = Ok(value: T) | Thrown

  /** A JavaScript value, as far as the card's options, colours and
      configuration fields hold one (numbers are integers here). */
  datatype Val = Undefined | Null | Bool(b: bool) | Num(n: int) | Str(s: string)

  /** JavaScript truthiness: `undefined`, `null`, `false`, `0` and `""` are falsy. */
  predicate Truthy(v: Val) {
    match v
    case Undefined => false
    case Null => false
    case Bool(b) => b
    case Num(n) => n != 0
    case Str(s) => s != ""
  }

  /** `value || fallback` */
  function Or(v: Val, fallback: Val): (r: Val)
    ensures Truthy(v) ==> r == v
    ensures !Truthy(v) ==> r == fallback
  {
    if Truthy(v) then v else fallback
  }

  /** `x || 0` for an optional number. */
  function OrZero(x: Option<int>): int {
    if x.Some? then x.value else 0
  }

  /** The characters `String.prototype.trim` removes: WhiteSpace and
      LineTerminator of ECMA-262. */
  predicate IsTrimmable(c: char) {
    || c == '\t' || c == '\n' || c == '\U{B}' || c == '\U{C}' || c == '\r'
    || c == ' ' || c == '\U{A0}' || c == '\U{1680}'
    || ('\U{2000}' <= c <= '\U{200A}')
    || c == '\U{2028}' || c == '\U{2029}' || c == '\U{202F}' || c == '\U{205F}'
    || c == '\U{3000}' || c == '\U{FEFF}'
  }

  function TrimStart(s: string): (r: string)
    ensures |r| <= |s| && r == s[|s| - |r|..]
    ensures r == [] || !IsTrimmable(r[0])
  {
    if |s| > 0 && IsTrimmable(s[0]) then TrimStart(s[1..]) else s
  }

  function TrimEnd(s: string): (r: string)
    ensures |r| <= |s| && r == s[..|r|]
    ensures r == [] || !IsTrimmable(r[|r| - 1])
  {
    if |s| > 0 && IsTrimmable(s[|s| - 1]) then TrimEnd(s[..|s| - 1]) else s
  }

  /** `s.trim()`: the result has nothing left to trim. */
  function Trim(s: string): (r: string)
    ensures IsTrimmed(r)
  {
    var start := TrimStart(s);
    var r := TrimEnd(start);
    assert r != [] ==> r[0] == start[0];
    r
  }

  /** A string that `trim` leaves alone. */
  predicate IsTrimmed(s: string) {
    s == [] || (!IsTrimmable(s[0]) && !IsTrimmable(s[|s| - 1]))
  }

  lemma TrimOfTrimmed(s: string)
    requires IsTrimmed(s)
    ensures Trim(s) == s
  {
  }

  lemma {:induction false} TrimLeadingSpace(s: string)
    requires IsTrimmed(s)
    ensures Trim(" " + s) == s
  {
    assert (" " + s)[1..] == s;
    TrimOfTrimmed(s);
  }

  /** `s.split(sep)` for a one-character separator: the pieces between
      separators, so always one more piece than there are separators. */
  function Split(s: string, sep: char): (r: seq<string>)
    ensures |r| >= 1
    ensures sep !in s ==> r == [s]
  {
    if |s| == 0 then [""]
    else if s[0] == sep then [""] + Split(s[1..], sep)
    else
      var rest := Split(s[1..], sep);
      assert sep !in s ==> sep !in s[1..] && [s[0]] + s[1..] == s;
      [[s[0]] + rest[0]] + rest[1..]
  }

  /** `xs.join(sep)` */
  function Join(xs: seq<string>, sep: string): string {
    if |xs| == 0 then ""
    else if |xs| == 1 then xs[0]
    else xs[0] + sep + Join(xs[1..], sep)
  }

  lemma {:induction false} SplitPrefix(a: string, b: string, sep: char)
    requires sep !in a
    ensures Split(a + [sep] + b, sep) == [a] + Split(b, sep)
  {
    if |a| == 0 {
      assert a + [sep] + b == [sep] + b;
      assert ([sep] + b)[1..] == b;
    } else {
      assert (a + [sep] + b)[1..] == a[1..] + [sep] + b;
      SplitPrefix(a[1..], b, sep);
      assert [a[0]] + a[1..] == a;
    }
  }

  /** Splitting a ", "-joined list on "," gives the items back, every one
      after the first with the one space of the separator in front. */
  lemma {:induction false} SplitJoin(xs: seq<string>)
    requires |xs| >= 1
    requires forall i :: 0 <= i < |xs| ==> ',' !in xs[i]
    ensures |Split(Join(xs, ", "), ',')| == |xs|
    ensures Split(Join(xs, ", "), ',')[0] == xs[0]
    ensures forall i :: 1 <= i < |xs| ==> Split(Join(xs, ", "), ',')[i] == " " + xs[i]
  {
    if |xs| > 1 {
      var tail := Join(xs[1..], ", ");
      assert Join(xs, ", ") == xs[0] + [','] + (" " + tail);
      SplitPrefix(xs[0], " " + tail, ',');
      SplitJoin(xs[1..]);
      SplitSpaceHead(tail);
      var parts := Split(tail, ',');
      assert Split(Join(xs, ", "), ',') == [xs[0]] + ([" " + parts[0]] + parts[1..]);
      forall i | 2 <= i < |xs| ensures Split(Join(xs, ", "), ',')[i] == " " + xs[i] {
        assert parts[i - 1] == " " + xs[1..][i - 1];
      }
    }
  }

  lemma SplitSpaceHead(s: string)
    ensures Split(" " + s, ',') == [" " + Split(s, ',')[0]] + Split(s, ',')[1..]
  {
    assert (" " + s)[1..] == s;
  }

  function LowerChar(c: char): char {
    if 'A' <= c <= 'Z' then (c as int + 32) as char else c
  }

  /** `s.toLowerCase()` on the ASCII letters. */
  function Lower(s: string): (r: string)
    ensures |r| == |s|
  {
    seq(|s|, i requires 0 <= i < |s| => LowerChar(s[i]))
  }

  lemma LowerIdempotent(s: string)
    ensures Lower(Lower(s)) == Lower(s)
  {
  }

  /** `xs.indexOf(x)`: the first position of `x`, or -1. */
  function IndexOf<T(==)>(xs: seq<T>, x: T): (r: int)
    ensures -1 <= r < |xs|
    ensures r == -1 <==> x !in xs
    ensures r >= 0 ==> xs[r] == x && forall j :: 0 <= j < r ==> xs[j] != x
  {
    if |xs| == 0 then -1
    else if xs[0] == x then 0
    else
      var k := IndexOf(xs[1..], x);
      if k == -1 then -1 else k + 1
  }
}
