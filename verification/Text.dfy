/** Strings as the normalizer and the printers use them: Python's `replace`, `rfind`, `rstrip` and digit runs. */
module Text {
  import opened Common

  /** No character of s is among these. */
  predicate Free(s: string, chars: set<char>)
  {
    forall c :: c in s ==> c !in chars
  }

  lemma Regroup(a: string, b: string, c: string, d: string)
    ensures a + (b + c + d) == a + b + c + d
  {
  }

  /** `replace` of single characters by nothing. */
  function Drop(s: string, gone: set<char>): (t: string)
    ensures Free(t, gone)
    ensures forall c :: c in t ==> c in s
  {
    if s == "" then "" else (if s[0] in gone then "" else [s[0]]) + Drop(s[1..], gone)
  }

  lemma {:induction false} DropOne(c: char, s: string, gone: set<char>)
    ensures Drop([c] + s, gone) == (if c in gone then "" else [c]) + Drop(s, gone)
  {
    assert ([c] + s)[1..] == s;
  }

  lemma Reassociate(a: string, b: string, c: string)
    ensures a + (b + c) == a + b + c
  {
  }

  lemma {:induction false} DropConcat(a: string, b: string, gone: set<char>)
    ensures Drop(a + b, gone) == Drop(a, gone) + Drop(b, gone)
  {
    assert Drop("", gone) == "";
    hide Drop;
    if a == "" {
      assert a + b == b && "" + Drop(b, gone) == Drop(b, gone);
    } else {
      var c, rest := a[0], a[1..];
      assert a == [c] + rest;
      Reassociate([c], rest, b);
      DropOne(c, rest + b, gone);
      DropOne(c, rest, gone);
      DropConcat(rest, b, gone);
      Reassociate(if c in gone then "" else [c], Drop(rest, gone), Drop(b, gone));
    }
  }

  lemma {:induction false} DropFree(s: string, gone: set<char>)
    requires Free(s, gone)
    ensures Drop(s, gone) == s
  {
    if s == "" {
    } else {
      DropFree(s[1..], gone);
    }
  }

  lemma {:induction false} DropMark(a: string, mark: char, b: string, gone: set<char>)
    requires mark in gone && Free(b, gone)
    ensures Drop(a + [mark] + b, gone) == Drop(a, gone) + b
  {
    assert Drop([mark], gone) == Drop("", gone) == "";
    hide Drop, Free;
    DropConcat(a + [mark], b, gone);
    DropConcat(a, [mark], gone);
    DropFree(b, gone);
    assert Drop(a, gone) + "" == Drop(a, gone);
  }

  /** `replace` of one character by another. */
  function Replace(s: string, from: char, to: char): (t: string)
    ensures |t| == |s| && forall i :: 0 <= i < |s| ==> t[i] == if s[i] == from then to else s[i]
  {
    if s == "" then "" else [if s[0] == from then to else s[0]] + Replace(s[1..], from, to)
  }

  /** `replace` of a token by nothing, left to right. */
  function RemoveToken(s: string, token: string): string
    requires token != ""
  {
    if |s| < |token| then s
    else if s[..|token|] == token then RemoveToken(s[|token|..], token)
    else [s[0]] + RemoveToken(s[1..], token)
  }

  lemma {:induction false} TokenAbsent(s: string, token: string, c: char)
    requires c in token && c !in s
    ensures RemoveToken(s, token) == s
  {
    if |s| >= |token| {
      assert s[..|token|] != token by {
        var i :| 0 <= i < |token| && token[i] == c;
        assert s[i] != c;
      }
      TokenAbsent(s[1..], token, c);
    }
  }

  /** `rfind`. */
  function LastIndex(s: string, c: char): (i: int)
    ensures -1 <= i < |s|
    ensures i >= 0 ==> s[i] == c
    ensures forall j :: i < j < |s| ==> s[j] != c
  {
    if s == "" then -1
    else if s[|s| - 1] == c then |s| - 1
    else LastIndex(s[..|s| - 1], c)
  }

  /** The part before the first mark, and the part after it if there is one. */
  function Cut(s: string, marks: set<char>): (parts: (string, Option<string>))
    ensures Free(parts.0, marks)
    ensures parts.1.None? ==> s == parts.0
    ensures parts.1.Some? ==> |parts.0| < |s| && s[|parts.0|] in marks && s == parts.0 + [s[|parts.0|]] + parts.1.value
  {
    if s == "" then ("", None)
    else if s[0] in marks then ("", Some(s[1..]))
    else
      var (before, after) := Cut(s[1..], marks);
      ([s[0]] + before, after)
  }

  lemma {:induction false} CutAt(a: string, mark: char, b: string, marks: set<char>)
    requires Free(a, marks) && mark in marks
    ensures Cut(a + [mark] + b, marks) == (a, Some(b))
  {
    var s := a + [mark] + b;
    if a == "" {
      assert s[1..] == b;
    } else {
      assert s[1..] == a[1..] + [mark] + b;
      assert s[0] == a[0] && a[0] in a;
      CutAt(a[1..], mark, b, marks);
      assert [a[0]] + a[1..] == a;
    }
  }

  lemma {:induction false} CutFree(s: string, marks: set<char>)
    requires Free(s, marks)
    ensures Cut(s, marks) == (s, None)
  {
    if s == "" {
    } else {
      assert s[0] in s;
      CutFree(s[1..], marks);
      assert [s[0]] + s[1..] == s;
    }
  }

  /** `rstrip` of one character. */
  function RStrip(s: string, c: char): string
  {
    if s != "" && s[|s| - 1] == c then RStrip(s[..|s| - 1], c) else s
  }

  // --- digits ------------------------------------------------------------------

  predicate IsDigit(c: char)
  {
    '0' <= c <= '9'
  }

  function Digit(d: nat): (c: char)
    requires d < 10
    ensures IsDigit(c) && DigitValue(c) == d
  {
    ('0' as int + d) as char
  }

  function DigitValue(c: char): (d: nat)
    requires IsDigit(c)
    ensures d < 10
  {
    c as int - '0' as int
  }

  predicate AllDigits(s: string)
  {
    forall c :: c in s ==> IsDigit(c)
  }

  function NatOf(s: string): nat
    requires AllDigits(s)
  {
    if s == "" then 0 else NatOf(s[..|s| - 1]) * 10 + DigitValue(s[|s| - 1])
  }

  function Digits(n: nat): (s: string)
    ensures AllDigits(s) && s != "" && NatOf(s) == n
  {
    if n < 10 then [Digit(n)]
    else
      var front := Digits(n / 10);
      assert (front + [Digit(n % 10)])[..|front|] == front;
      front + [Digit(n % 10)]
  }

  /** The last `width` digits of n. */
  function Pad(n: nat, width: nat): (s: string)
    ensures |s| == width && AllDigits(s)
  {
    if width == 0 then "" else Pad(n / 10, width - 1) + [Digit(n % 10)]
  }

  lemma {:induction false} NatOfLast(s: string, d: nat)
    requires AllDigits(s) && d < 10
    ensures AllDigits(s + [Digit(d)]) && NatOf(s + [Digit(d)]) == NatOf(s) * 10 + d
  {
    assert (s + [Digit(d)])[..|s|] == s;
  }

  lemma {:induction false} NatOfPad2(s: string, n: nat)
    requires AllDigits(s) && n < 100
    ensures AllDigits(s + Pad(n, 2)) && NatOf(s + Pad(n, 2)) == NatOf(s) * 100 + n
  {
    NatOfLast(s, n / 10);
    NatOfLast(s + [Digit(n / 10)], n % 10);
    assert Pad(n / 10 / 10, 0) + [Digit(n / 10)] == [Digit(n / 10)];
    assert s + Pad(n, 2) == s + [Digit(n / 10)] + [Digit(n % 10)];
  }

  lemma {:induction false} NatOfPad3(s: string, n: nat)
    requires AllDigits(s) && n < 1000
    ensures AllDigits(s + Pad(n, 3)) && NatOf(s + Pad(n, 3)) == NatOf(s) * 1000 + n
  {
    NatOfPad2(s, n / 10);
    NatOfLast(s + Pad(n / 10, 2), n % 10);
    assert s + Pad(n, 3) == s + Pad(n / 10, 2) + [Digit(n % 10)];
  }

  lemma DigitsLast(n: nat, d: nat)
    requires n > 0 && d < 10
    ensures Digits(n * 10 + d) == Digits(n) + [Digit(d)]
  {
    assert (n * 10 + d) / 10 == n && (n * 10 + d) % 10 == d;
  }

  lemma {:induction false} Pad3Digits(x: nat, y: nat, z: nat)
    requires x < 10 && y < 10 && z < 10
    ensures Pad(x * 100 + y * 10 + z, 3) == [Digit(x), Digit(y), Digit(z)]
  {
    var r := x * 100 + y * 10 + z;
    assert r / 10 == x * 10 + y && r / 10 / 10 == x && r % 10 == z && r / 10 % 10 == y;
    assert Pad(x, 1) == [Digit(x)];
    assert Pad(r / 10, 2) == Pad(x, 1) + [Digit(y)];
  }

  lemma ThreeDigits(r: nat) returns (x: nat, y: nat, z: nat)
    requires r < 1000
    ensures x < 10 && y < 10 && z < 10 && r == x * 100 + y * 10 + z
  {
    x, y, z := r / 100, r / 10 % 10, r % 10;
  }

  lemma DigitsTail3(n: nat, r: nat)
    requires n > 0 && r < 1000
    ensures Digits(n * 1000 + r) == Digits(n) + Pad(r, 3)
  {
    hide *;
    var x, y, z := ThreeDigits(r);
    Pad3Digits(x, y, z);
    var n1, n2 := n * 10 + x, n * 100 + x * 10 + y;
    DigitsLast(n, x);
    assert n2 == n1 * 10 + y;
    DigitsLast(n1, y);
    assert n * 1000 + r == n2 * 10 + z;
    DigitsLast(n2, z);
    assert [Digit(x), Digit(y), Digit(z)] == [Digit(x)] + [Digit(y)] + [Digit(z)];
    Regroup(Digits(n), [Digit(x)], [Digit(y)], [Digit(z)]);
  }

  lemma DigitsConcat(a: string, b: string)
    requires AllDigits(a) && AllDigits(b)
    ensures AllDigits(a + b)
  {
    forall c | c in a + b ensures IsDigit(c) {
      assert c in a || c in b;
    }
  }

  function Zeros(k: nat): (s: string)
    ensures |s| == k && AllDigits(s) && NatOf(s) == 0
  {
    if k == 0 then ""
    else
      assert (Zeros(k - 1) + "0")[..k - 1] == Zeros(k - 1);
      Zeros(k - 1) + "0"
  }

  lemma {:induction false} LeadingZeros(k: nat, s: string)
    requires AllDigits(s)
    ensures AllDigits(Zeros(k) + s) && NatOf(Zeros(k) + s) == NatOf(s)
  {
    DigitsConcat(Zeros(k), s);
    var whole := Zeros(k) + s;
    if s == "" {
      assert whole == Zeros(k);
    } else {
      LeadingZeros(k, s[..|s| - 1]);
      assert whole[..|whole| - 1] == Zeros(k) + s[..|s| - 1];
    }
  }
}
