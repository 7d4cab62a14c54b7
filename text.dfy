/** String helpers shared by the serialisers: prefixes and suffixes, Java's
    decimal rendering of integers (`Integer.toString`, string concatenation of
    an int) and `Integer.parseInt` as a partial function. */
module Text {
  import opened Wrappers

  predicate IsPrefix(p: string, s: string)
  {
    |p| <= |s| && s[..|p|] == p
  }

  predicate EndsWith(s: string, suffix: string)
  {
    |suffix| <= |s| && s[|s| - |suffix|..] == suffix
  }

  lemma PrefixOfConcat(a: string, b: string)
    ensures IsPrefix(a, a + b)
  {
    assert (a + b)[..|a|] == a;
  }

  lemma SuffixOfConcat(a: string, b: string)
    ensures EndsWith(a + b, b)
  {
    assert (a + b)[|a + b| - |b|..] == b;
  }

  /** The empty sequence is a unit of concatenation. */
  lemma AppendEmpty<T>(s: seq<T>)
    ensures [] + s == s && s + [] == s
  {
  }

  /** Moving the head of `xs` onto the end of `a`. */
  lemma AppendHead<T>(a: seq<T>, xs: seq<T>)
    requires xs != []
    ensures a + [xs[0]] + xs[1..] == a + xs
  {
    assert xs == [xs[0]] + xs[1..];
  }

  /** A text made of a head, a middle and a tail starts with the head and
      ends with the tail. */
  lemma Framed(head: string, middle: string, tail: string)
    ensures IsPrefix(head, head + middle + tail) && EndsWith(head + middle + tail, tail)
  {
    assert (head + middle + tail)[..|head|] == head;
    assert (head + middle + tail)[|head + middle + tail| - |tail|..] == tail;
  }

  /** A text joined at a separator that its first part does not hold splits
      back into the same parts. */
  lemma SplitAtSeparator(a: string, b: string, a': string, b': string, sep: char)
    requires sep !in a && sep !in a'
    ensures a + [sep] + b == a' + [sep] + b' <==> a == a' && b == b'
  {
    if a + [sep] + b == a' + [sep] + b' {
      var t := a + [sep] + b;
      assert t[|a|] == sep && t[|a'|] == sep;
      assert forall k :: 0 <= k < |a| ==> t[k] == a[k];
      assert forall k :: 0 <= k < |a'| ==> t[k] == a'[k];
      assert |a| == |a'|;
      assert a == t[..|a|] == a';
      assert b == t[|a| + 1..] == b';
    }
  }

  /** The texts of the elements of `xs`, one after the other, in order:
      what a loop appending `f(x)` for each `x` builds. */
  function Concat<T>(f: T -> string, xs: seq<T>): string
  {
    if xs == [] then "" else Concat(f, xs[..|xs| - 1]) + f(xs[|xs| - 1])
  }

  lemma ConcatStep<T>(f: T -> string, xs: seq<T>, i: nat)
    requires i < |xs|
    ensures Concat(f, xs[..i + 1]) == Concat(f, xs[..i]) + f(xs[i])
  {
    assert xs[..i + 1][..i] == xs[..i];
  }

  lemma ConcatSingle<T>(f: T -> string, x: T)
    ensures Concat(f, [x]) == f(x)
  {
    assert [x][..0] == [];
  }

  /** Two translations that agree on every element concatenate alike. */
  lemma {:induction false} ConcatAgree<T>(f: T -> string, g: T -> string, xs: seq<T>)
    requires forall k :: 0 <= k < |xs| ==> f(xs[k]) == g(xs[k])
    ensures Concat(f, xs) == Concat(g, xs)
    decreases |xs|
  {
    if xs != [] {
      var ys := xs[..|xs| - 1];
      assert forall k :: 0 <= k < |ys| ==> ys[k] == xs[k];
      ConcatAgree(f, g, ys);
    }
  }

  lemma {:induction false} ConcatAppend<T>(f: T -> string, xs: seq<T>, ys: seq<T>)
    ensures Concat(f, xs + ys) == Concat(f, xs) + Concat(f, ys)
  {
    if ys != [] {
      assert (xs + ys)[..|xs + ys| - 1] == xs + ys[..|ys| - 1];
      ConcatAppend(f, xs, ys[..|ys| - 1]);
    } else {
      assert xs + ys == xs;
    }
  }

  predicate IsDigit(c: char)
  {
    '0' <= c <= '9'
  }

  predicate AllDigits(s: string)
  {
    forall k :: 0 <= k < |s| ==> IsDigit(s[k])
  }

  /** The range of a Java `int`. */
  predicate InInt32(v: int)
  {
    -0x8000_0000 <= v < 0x8000_0000
  }

  /** A Java `int`. */
  type Int32 = i: int | InInt32(i)

  function DigitChar(d: nat): char
    requires d < 10
  {
    "0123456789"[d]
  }

  function DigitValue(c: char): nat
    requires IsDigit(c)
  {
    c as int - '0' as int
  }

  /** Decimal digits of `n`, most significant first, without leading zeros. */
  function NatToString(n: nat): string
  {
    if n < 10 then [DigitChar(n)] else NatToString(n / 10) + [DigitChar(n % 10)]
  }

  /** Java's decimal rendering of an integer. */
  function IntToString(i: int): string
  {
    if i < 0 then "-" + NatToString(-i) else NatToString(i)
  }

  /** The value of a string of decimal digits, read left to right. */
  function DigitsValue(s: string): nat
    requires AllDigits(s)
  {
    if s == [] then 0 else DigitsValue(s[..|s| - 1]) * 10 + DigitValue(s[|s| - 1])
  }

  /** `Integer.parseInt`: an optional sign, at least one digit, and a value
      that fits in an `int`; anything else raises NumberFormatException (None). */
  function ParseInt(s: string): (r: Option<Int32>)
    ensures r.Some? ==> |s| > 0
  {
    if |s| == 0 then None
    else if s[0] == '-' || s[0] == '+' then
      if |s| == 1 || !AllDigits(s[1..]) then None
      else
        var d: int := DigitsValue(s[1..]);
        var v := if s[0] == '-' then -d else d;
        if InInt32(v) then Some(v) else None
    else if AllDigits(s) then
      var v := DigitsValue(s);
      if InInt32(v) then Some(v) else None
    else None
  }

  /** The rendering of a natural number is a non-empty digit string that reads back as that number. */
  lemma {:induction false} NatToStringDigits(n: nat)
    ensures |NatToString(n)| > 0 && AllDigits(NatToString(n))
    ensures DigitsValue(NatToString(n)) == n
  {
    var s := NatToString(n);
    if n < 10 {
      assert s == [DigitChar(n)];
      assert s[..0] == [];
    } else {
      NatToStringDigits(n / 10);
      assert s == NatToString(n / 10) + [DigitChar(n % 10)];
      assert s[..|s| - 1] == NatToString(n / 10);
    }
  }

  /** A minus sign followed by digits parses as the negated digit value. */
  lemma ParseIntNegative(t: string)
    requires |t| > 0 && AllDigits(t) && InInt32(-(DigitsValue(t) as int))
    ensures ParseInt("-" + t) == Some(-(DigitsValue(t) as int))
  {
    var s := "-" + t;
    assert s[0] == '-' && |s| > 1;
    assert s[1..] == t;
  }

  /** Digits without a sign parse as their value. */
  lemma ParseIntUnsigned(s: string)
    requires |s| > 0 && AllDigits(s) && InInt32(DigitsValue(s))
    ensures ParseInt(s) == Some(DigitsValue(s))
  {
    assert IsDigit(s[0]);
  }

  /** `Integer.parseInt(Integer.toString(i)) == i` for every Java int. */
  lemma ParseIntOfIntToString(i: int)
    requires InInt32(i)
    ensures ParseInt(IntToString(i)) == Some(i)
  {
    if i < 0 {
      var n: nat := -i;
      var t := NatToString(n);
      NatToStringDigits(n);
      assert IntToString(i) == "-" + t;
      ParseIntNegative(t);
    } else {
      var n: nat := i;
      var t := NatToString(n);
      NatToStringDigits(n);
      assert IntToString(i) == t;
      ParseIntUnsigned(t);
    }
  }
}
