/** The pieces of JavaScript's string handling the cache headers rely on:
    `Array.prototype.join` with a one-character separator, and the decimal
    rendering of a non-negative integer in a template literal. `Split` and
    `DecimalValue` are their inverses, used only to state what the
    renderings preserve. */
module JsText {

  /** Total length of all the parts. */
  function TotalLength(vs: seq<string>): nat
  {
    if |vs| == 0 then 0 else |vs[0]| + TotalLength(vs[1..])
  }

  /** `vs.join(sep)`: the elements in order with `sep` between neighbours.
      The result is as long as the parts together plus one separator per
      gap, and it starts with the first part. */
  function Join(vs: seq<string>, sep: char): (j: string)
    ensures |j| == TotalLength(vs) + (if |vs| == 0 then 0 else |vs| - 1)
    ensures |vs| > 0 ==> j[..|vs[0]|] == vs[0]
  {
    if |vs| == 0 then ""
    else if |vs| == 1 then vs[0]
    else vs[0] + [sep] + Join(vs[1..], sep)
  }

  /** Cuts `s` at every occurrence of `sep`; always yields at least one part
      (the empty string yields one empty part). */
  function Split(s: string, sep: char): (parts: seq<string>)
    ensures |parts| >= 1
    ensures forall k :: 0 <= k < |parts| ==> sep !in parts[k]
  {
    if |s| == 0 then [""]
    else
      var rest := Split(s[1..], sep);
      if s[0] == sep then [""] + rest
      else [[s[0]] + rest[0]] + rest[1..]
  }

  /** Number of occurrences of `c` in `s`. */
  function Count(s: string, c: char): nat
  {
    if |s| == 0 then 0
    else (if s[0] == c then 1 else 0) + Count(s[1..], c)
  }

  /** Total number of occurrences of `c` across all of `vs`. */
  function CountAll(vs: seq<string>, c: char): nat
  {
    if |vs| == 0 then 0 else Count(vs[0], c) + CountAll(vs[1..], c)
  }

  lemma {:induction false} CountAppend(a: string, b: string, c: char)
    ensures Count(a + b, c) == Count(a, c) + Count(b, c)
  {
    if |a| == 0 {
      assert a + b == b;
    } else {
      assert (a + b)[1..] == a[1..] + b;
      CountAppend(a[1..], b, c);
    }
  }

  /** Joining adds exactly one separator between neighbours and nothing else:
      every other character occurs in the joined string exactly as often as
      in the parts, and the separator `|vs| - 1` more times. */
  lemma {:induction false} JoinCount(vs: seq<string>, sep: char, c: char)
    requires |vs| > 0
    ensures Count(Join(vs, sep), c) == CountAll(vs, c) + (if c == sep then |vs| - 1 else 0)
  {
    if |vs| == 1 {
      assert CountAll(vs[1..], c) == 0;
    } else {
      JoinCount(vs[1..], sep, c);
      CountAppend(vs[0] + [sep], Join(vs[1..], sep), c);
      CountAppend(vs[0], [sep], c);
      assert Count([sep], c) == (if c == sep then 1 else 0) by {
        assert [sep][1..] == [];
      }
    }
  }

  /** With separator-free parts, the separator count is `|vs| - 1`. */
  lemma {:induction false} JoinSeparatorCount(vs: seq<string>, sep: char)
    requires |vs| > 0
    requires forall k :: 0 <= k < |vs| ==> sep !in vs[k]
    ensures Count(Join(vs, sep), sep) == |vs| - 1
  {
    JoinCount(vs, sep, sep);
    NoOccurrenceCountAll(vs, sep);
  }

  lemma {:induction false} NoOccurrenceCount(s: string, c: char)
    requires c !in s
    ensures Count(s, c) == 0
  {
    if |s| > 0 {
      assert s == [s[0]] + s[1..];
      NoOccurrenceCount(s[1..], c);
    }
  }

  lemma {:induction false} NoOccurrenceCountAll(vs: seq<string>, c: char)
    requires forall k :: 0 <= k < |vs| ==> c !in vs[k]
    ensures CountAll(vs, c) == 0
  {
    if |vs| > 0 {
      NoOccurrenceCount(vs[0], c);
      NoOccurrenceCountAll(vs[1..], c);
    }
  }

  /** A separator-free string is one part. */
  lemma {:induction false} SplitNoSeparator(s: string, sep: char)
    requires sep !in s
    ensures Split(s, sep) == [s]
  {
    if |s| > 0 {
      assert s == [s[0]] + s[1..];
      SplitNoSeparator(s[1..], sep);
    }
  }

  /** Splitting at the first separator peels off the part before it. */
  lemma {:induction false} SplitAtSeparator(a: string, sep: char, b: string)
    requires sep !in a
    ensures Split(a + [sep] + b, sep) == [a] + Split(b, sep)
  {
    var s := a + [sep] + b;
    if |a| == 0 {
      assert s == [sep] + b;
      assert s[1..] == b;
    } else {
      assert a == [a[0]] + a[1..];
      assert s[0] == a[0] && s[1..] == a[1..] + [sep] + b;
      SplitAtSeparator(a[1..], sep, b);
    }
  }

  /** `Split` undoes `Join` when no part contains the separator (a non-empty
      list: joining the empty list gives "", which splits into one part). */
  lemma {:induction false} SplitJoin(vs: seq<string>, sep: char)
    requires |vs| > 0
    requires forall k :: 0 <= k < |vs| ==> sep !in vs[k]
    ensures Split(Join(vs, sep), sep) == vs
  {
    if |vs| == 1 {
      SplitNoSeparator(vs[0], sep);
    } else {
      SplitJoin(vs[1..], sep);
      SplitAtSeparator(vs[0], sep, Join(vs[1..], sep));
      assert vs == [vs[0]] + vs[1..];
    }
  }

  /** Joined non-empty parts neither start nor end with the separator unless
      a part does: the first character is the first part's, the last the
      last part's. */
  lemma {:induction false} JoinEnds(vs: seq<string>, sep: char)
    requires |vs| > 0
    requires forall k :: 0 <= k < |vs| ==> |vs[k]| > 0
    ensures var j := Join(vs, sep);
      |j| > 0 && j[0] == vs[0][0] && j[|j| - 1] == vs[|vs| - 1][|vs[|vs| - 1]| - 1]
  {
    if |vs| > 1 {
      JoinEnds(vs[1..], sep);
    }
  }

  /** The character for a single decimal digit. */
  function DigitChar(d: nat): (c: char)
    requires d < 10
    ensures '0' <= c <= '9' && (c as int) - ('0' as int) == d
  {
    (('0' as int) + d) as char
  }

  /** `${n}` for a non-negative integer: its decimal digits, most significant
      first, with no leading zero except for 0 itself. */
  function NatToString(n: nat): (s: string)
    ensures |s| > 0
    ensures forall k :: 0 <= k < |s| ==> '0' <= s[k] <= '9'
    ensures s[0] == '0' ==> n == 0 && s == "0"
  {
    if n < 10 then [DigitChar(n)]
    else NatToString(n / 10) + [DigitChar(n % 10)]
  }

  /** The number a string of decimal digits denotes. */
  function DecimalValue(s: string): nat
    requires forall k :: 0 <= k < |s| ==> '0' <= s[k] <= '9'
  {
    if |s| == 0 then 0
    else 10 * DecimalValue(s[..|s| - 1]) + ((s[|s| - 1] as int) - ('0' as int))
  }

  /** Reading the rendered digits back gives the number: the rendering loses
      nothing. */
  lemma {:induction false} DecimalRoundTrip(n: nat)
    ensures DecimalValue(NatToString(n)) == n
  {
    var s := NatToString(n);
    if n >= 10 {
      DecimalRoundTrip(n / 10);
      assert s[..|s| - 1] == NatToString(n / 10);
    }
  }

  /** Distinct numbers render to distinct strings. */
  lemma NatToStringInjective(m: nat, n: nat)
    requires NatToString(m) == NatToString(n)
    ensures m == n
  {
    DecimalRoundTrip(m);
    DecimalRoundTrip(n);
  }
}
