/**
  The few pieces of Go's `strings` package and of `fmt`'s `%d` verb that the
  client code relies on, as functions with the properties the callers need.
  A Go `string` and a Go `[]byte` are both modelled as a Dafny `string`, one
  character per byte.
*/
module GoStrings {

  /** A Go byte slice or string: one character per byte. */
  type Bytes = string

  /**
    `strings.Cut(s, string(sep))`: the text before the first separator, the
    text after it, and whether there was one; `(s, "", false)` when there is none.
  */
  function Cut(s: string, sep: char): (r: (string, string, bool))
    ensures r.2 ==> s == r.0 + [sep] + r.1 && sep !in r.0
    ensures !r.2 ==> sep !in s && r.0 == s && r.1 == ""
  {
    if s == [] then ("", "", false)
    else if s[0] == sep then ("", s[1..], true)
    else
      var (before, after, found) := Cut(s[1..], sep);
      ([s[0]] + before, after, found)
  }

  /** Cutting at the first separator recovers both sides. */
  lemma {:induction false} CutAt(a: string, b: string, sep: char)
    requires sep !in a
    ensures Cut(a + [sep] + b, sep) == (a, b, true)
  {
    if a == [] {
      assert a + [sep] + b == [sep] + b;
    } else {
      CutAt(a[1..], b, sep);
      assert (a + [sep] + b)[1..] == a[1..] + [sep] + b;
      assert [a[0]] + a[1..] == a;
    }
  }

  /** `strings.Split(s, string(sep))` for a one-character separator. */
  function Split(s: string, sep: char): (parts: seq<string>)
    ensures |parts| >= 1
    decreases |s|
  {
    var (before, after, found) := Cut(s, sep);
    if found then [before] + Split(after, sep) else [s]
  }

  /** `strings.Join(parts, string(sep))`. */
  function Join(parts: seq<string>, sep: char): string
  {
    if |parts| == 0 then ""
    else if |parts| == 1 then parts[0]
    else parts[0] + [sep] + Join(parts[1..], sep)
  }

  /** No part of a split contains the separator. */
  lemma {:induction false} SplitPartsFree(s: string, sep: char)
    ensures forall i :: 0 <= i < |Split(s, sep)| ==> sep !in Split(s, sep)[i]
    decreases |s|
  {
    var (before, after, found) := Cut(s, sep);
    if found {
      SplitPartsFree(after, sep);
      var rest := Split(after, sep);
      assert Split(s, sep) == [before] + rest;
      forall i | 0 <= i < |Split(s, sep)| ensures sep !in Split(s, sep)[i] {
        if i > 0 {
          assert Split(s, sep)[i] == rest[i - 1];
        }
      }
    }
  }

  /** Joining the parts of a split gives back the split string. */
  lemma {:induction false} JoinSplit(s: string, sep: char)
    ensures Join(Split(s, sep), sep) == s
    decreases |s|
  {
    var (before, after, found) := Cut(s, sep);
    if found {
      JoinSplit(after, sep);
      var rest := Split(after, sep);
      assert ([before] + rest)[1..] == rest;
    }
  }

  /** Splitting a join of separator-free parts gives back the parts. */
  lemma {:induction false} SplitJoin(parts: seq<string>, sep: char)
    requires |parts| >= 1
    requires forall i :: 0 <= i < |parts| ==> sep !in parts[i]
    ensures Split(Join(parts, sep), sep) == parts
  {
    if |parts| > 1 {
      SplitJoin(parts[1..], sep);
      CutAt(parts[0], Join(parts[1..], sep), sep);
      assert [parts[0]] + parts[1..] == parts;
    }
  }

  /** Number of occurrences of `c` in `s`. */
  function Count(s: string, c: char): nat
  {
    if s == [] then 0 else (if s[0] == c then 1 else 0) + Count(s[1..], c)
  }

  lemma {:induction false} CountConcat(a: string, b: string, c: char)
    ensures Count(a + b, c) == Count(a, c) + Count(b, c)
  {
    if a == [] {
      assert a + b == b;
    } else {
      CountConcat(a[1..], b, c);
      assert (a + b)[1..] == a[1..] + b;
    }
  }

  lemma {:induction false} CountAbsent(s: string, c: char)
    requires c !in s
    ensures Count(s, c) == 0
  {
    if s != [] {
      CountAbsent(s[1..], c);
    }
  }

  /** Splitting yields one more part than there are separators. */
  lemma {:induction false} SplitCount(s: string, sep: char)
    ensures |Split(s, sep)| == Count(s, sep) + 1
    decreases |s|
  {
    var (before, after, found) := Cut(s, sep);
    if found {
      SplitCount(after, sep);
      CountConcat(before + [sep], after, sep);
      CountConcat(before, [sep], sep);
      CountAbsent(before, sep);
    } else {
      CountAbsent(s, sep);
    }
  }

  /** `strings.HasPrefix` and `strings.TrimPrefix`. */
  predicate HasPrefix(s: string, prefix: string)
  {
    prefix <= s
  }

  function TrimPrefix(s: string, prefix: string): (r: string)
    ensures HasPrefix(s, prefix) ==> prefix + r == s
    ensures !HasPrefix(s, prefix) ==> r == s
  {
    if HasPrefix(s, prefix) then s[|prefix|..] else s
  }

  predicate IsDigit(c: char)
  {
    '0' <= c <= '9'
  }

  predicate AllDigits(s: string)
  {
    forall i :: 0 <= i < |s| ==> IsDigit(s[i])
  }

  function Digit(d: nat): (c: char)
    requires d < 10
    ensures IsDigit(c) && c as int - '0' as int == d
  {
    ('0' as int + d) as char
  }

  /** `fmt.Sprintf("%d", n)` for a non-negative integer. */
  function Decimal(n: nat): (s: string)
    ensures |s| >= 1 && AllDigits(s)
  {
    if n < 10 then [Digit(n)] else Decimal(n / 10) + [Digit(n % 10)]
  }

  /** A formatted number holds no character other than digits. */
  lemma DecimalOnlyDigits(n: nat, c: char)
    requires !IsDigit(c)
    ensures c !in Decimal(n)
  {
    var d := Decimal(n);
    assert forall i :: 0 <= i < |d| ==> d[i] != c;
  }

  /** The value of a string of decimal digits (the empty string is 0). */
  function ParseDecimal(s: string): nat
    requires AllDigits(s)
  {
    if s == [] then 0 else 10 * ParseDecimal(s[..|s| - 1]) + (s[|s| - 1] as int - '0' as int)
  }

  /** Reading back a formatted number gives the number. */
  lemma {:induction false} DecimalRoundTrip(n: nat)
    ensures ParseDecimal(Decimal(n)) == n
  {
    if n >= 10 {
      DecimalRoundTrip(n / 10);
      var s := Decimal(n);
      assert s[..|s| - 1] == Decimal(n / 10);
    }
  }
}
