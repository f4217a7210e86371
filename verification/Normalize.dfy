/**
  Canonical forms (packages/core/docfactory_core/normalize.py) and the printers
  of the synthetic corpus (data/synth/generate.py) they have to undo.
 */
module Normalize {
  import opened Common
  import opened Text
  import opened Decimals

  /** What Python calls whitespace. */
  function Whitespace(): set<char>
  {
    {'\U{9}', '\U{A}', '\U{B}', '\U{C}', '\U{D}', '\U{1C}', '\U{1D}', '\U{1E}', '\U{1F}', ' ', '\U{85}', '\U{A0}',
     '\U{1680}', '\U{2000}', '\U{2001}', '\U{2002}', '\U{2003}', '\U{2004}', '\U{2005}', '\U{2006}', '\U{2007}',
     '\U{2008}', '\U{2009}', '\U{200A}', '\U{2028}', '\U{2029}', '\U{202F}', '\U{205F}', '\U{3000}'}
  }

  const EURO := '\U{20AC}'
  const POUND := '\U{A3}'

  // --- amounts -----------------------------------------------------------------------

  function WithoutCurrency(text: string): string
  {
    var words := RemoveToken(RemoveToken(RemoveToken(text, "USD"), "EUR"), "GBP");
    RemoveToken(RemoveToken(RemoveToken(words, "$"), [EURO]), [POUND])
  }

  function Clean(text: string): string
  {
    Drop(WithoutCurrency(text), Whitespace())
  }

  /** ddd(,ddd)* after the first comma. */
  predicate GroupsOfThree(s: string)
  {
    && |s| >= 3 && AllDigits(s[..3])
    && (|s| == 3 || (s[3] == ',' && GroupsOfThree(s[4..])))
  }

  /** An optional sign, one to three digits, then groups of three. */
  predicate UsGrouped(s: string)
  {
    var (head, tail) := Cut(TakeSign(s).1, {','});
    1 <= |head| <= 3 && AllDigits(head) && tail.Some? && GroupsOfThree(tail.value)
  }

  /** Which of comma and dot is the decimal point, by the last one when both occur. */
  function ReadSeparators(s: string): string
  {
    if ',' in s && '.' in s then
      if LastIndex(s, ',') > LastIndex(s, '.') then Replace(Drop(s, {'.'}), ',', '.') else Drop(s, {','})
    else if ',' in s then
      if UsGrouped(s) then Drop(s, {','}) else Replace(s, ',', '.')
    else s
  }

  /** None where the source raises ValueError. */
  function NormalizeAmount(text: string): Option<Dec>
  {
    var s := Clean(text);
    if s == "" then None else ReadDecimal(ReadSeparators(s))
  }

  predicate AboveOne(d: Dec)
  {
    Value(d) > 1.0
  }

  function NormalizeRate(text: string): Option<Dec>
  {
    if '%' in text then
      var percent := NormalizeAmount(Drop(text, {'%'}));
      if percent.None? then None else Some(Hundredth(percent.value))
    else
      var rate := NormalizeAmount(text);
      if rate.Some? && AboveOne(rate.value) then Some(Hundredth(rate.value)) else rate
  }

  // --- the printers ------------------------------------------------------------------

  /** Thousands separated by commas. */
  function Group(n: nat): string
  {
    if n < 1000 then Digits(n) else Group(n / 1000) + [','] + Pad(n % 1000, 3)
  }

  /** `f"{value:,.2f}"` of a whole number of cents. */
  function Fixed2(neg: bool, cents: nat): string
  {
    Sign(neg) + Group(cents / 100) + ['.'] + Pad(cents % 100, 2)
  }

  function Usd(neg: bool, cents: nat): string
  {
    "$" + Fixed2(neg, cents)
  }

  /** `translate` of comma and dot into each other. */
  function Swap(s: string): (t: string)
    ensures |t| == |s| && forall i :: 0 <= i < |s| ==> t[i] == if s[i] == ',' then '.' else if s[i] == '.' then ',' else s[i]
  {
    if s == "" then "" else [if s[0] == ',' then '.' else if s[0] == '.' then ',' else s[0]] + Swap(s[1..])
  }

  function Eur(neg: bool, cents: nat): string
  {
    Swap(Fixed2(neg, cents)) + [' ', EURO]
  }

  /** Of the rate m / 100000. */
  function Pct(neg: bool, m: nat): string
  {
    RStrip(RStrip(Sign(neg) + Digits(m / 1000) + ['.'] + Pad(m % 1000, 3), '0'), '.') + ['%']
  }

  // --- what cleaning leaves alone ------------------------------------------------------

  predicate PlainChar(c: char)
  {
    IsDigit(c) || c in {'+', '-', '.', ',', 'E'}
  }

  predicate Plain(s: string)
  {
    forall c :: c in s ==> PlainChar(c)
  }

  lemma PlainConcat(a: string, b: string)
    requires Plain(a) && Plain(b)
    ensures Plain(a + b)
  {
    forall c | c in a + b ensures PlainChar(c) {
      assert c in a || c in b;
    }
  }

  lemma PlainIsNotSpace(s: string)
    requires Plain(s)
    ensures Free(s, Whitespace())
  {
    forall c | c in s ensures c !in Whitespace() {
      assert PlainChar(c);
    }
  }

  lemma {:induction false} NoWords(text: string)
    requires 'U' !in text && 'R' !in text && 'G' !in text
    ensures WithoutCurrency(text) == RemoveToken(RemoveToken(RemoveToken(text, "$"), [EURO]), [POUND])
  {
    TokenAbsent(text, "USD", 'U');
    TokenAbsent(text, "EUR", 'R');
    TokenAbsent(text, "GBP", 'G');
  }

  lemma CleanPlain(s: string)
    requires Plain(s)
    ensures Clean(s) == s
  {
    NoWords(s);
    TokenAbsent(s, "$", '$');
    TokenAbsent(s, [EURO], EURO);
    TokenAbsent(s, [POUND], POUND);
    PlainIsNotSpace(s);
    DropFree(s, Whitespace());
  }

  lemma CleanDollar(s: string)
    requires Plain(s)
    ensures Clean("$" + s) == s
  {
    var text := "$" + s;
    assert Free(text, {'U', 'R', 'G'}) && Free(s, {'$', EURO, POUND}) by {
      forall c | c in text ensures c !in {'U', 'R', 'G'} {
        assert PlainChar(c) || c == '$';
      }
      forall c | c in s ensures c !in {'$', EURO, POUND} {
        assert PlainChar(c);
      }
    }
    assert RemoveToken(text, "$") == RemoveToken(s, "$") by {
      assert text[1..] == s && text[..1] == "$";
    }
    hide WithoutCurrency, Whitespace, RemoveToken, Plain;
    NoWords(text);
    TokenAbsent(s, "$", '$');
    TokenAbsent(s, [EURO], EURO);
    TokenAbsent(s, [POUND], POUND);
    PlainIsNotSpace(s);
    DropFree(s, Whitespace());
  }

  lemma {:induction false} TrailingToken(s: string, c: char)
    requires c !in s
    ensures RemoveToken(s + [c], [c]) == s
  {
    if s == "" {
      assert s + [c] == [c];
      assert RemoveToken([c], [c]) == RemoveToken("", [c]);
    } else {
      assert (s + [c])[0] == s[0] && (s + [c])[1..] == s[1..] + [c];
      assert (s + [c])[..1] == [s[0]];
      TrailingToken(s[1..], c);
      assert [s[0]] + s[1..] == s;
    }
  }

  lemma EuroSign(s: string)
    requires Plain(s)
    ensures WithoutCurrency(s + [' ', EURO]) == s + [' ']
  {
    var text, spaced := s + [' ', EURO], s + [' '];
    assert Free(text, {'U', 'R', 'G', '$'}) && Free(spaced, {EURO, POUND}) by {
      forall c | c in text ensures c !in {'U', 'R', 'G', '$'} {
        assert PlainChar(c) || c == ' ' || c == EURO;
      }
      forall c | c in spaced ensures c !in {EURO, POUND} {
        assert PlainChar(c) || c == ' ';
      }
    }
    hide WithoutCurrency, RemoveToken, Plain;
    NoWords(text);
    TokenAbsent(text, "$", '$');
    assert text == spaced + [EURO];
    TrailingToken(spaced, EURO);
    TokenAbsent(spaced, [POUND], POUND);
  }

  lemma CleanEuro(s: string)
    requires Plain(s)
    ensures Clean(s + [' ', EURO]) == s
  {
    assert ' ' in Whitespace();
    hide WithoutCurrency, Whitespace, Plain;
    EuroSign(s);
    PlainIsNotSpace(s);
    DropFree(s, Whitespace());
    assert s + [' '] == s + [' '] + "";
    DropMark(s, ' ', "", Whitespace());
  }

  // --- currency, anywhere around the number ----------------------------------------------

  const CURRENCY: set<string> := {"USD", "EUR", "GBP", "$", [EURO], [POUND]}

  /** A number's characters and spaces. */
  predicate Sparse(s: string)
  {
    forall c :: c in s ==> PlainChar(c) || c == ' '
  }

  lemma {:induction false} LeadingToken(token: string, s: string)
    requires token != ""
    ensures RemoveToken(token + s, token) == RemoveToken(s, token)
  {
    assert (token + s)[..|token|] == token && (token + s)[|token|..] == s;
  }

  lemma {:induction false} TrailingWord(s: string, token: string)
    requires |token| == 3 && token[1] !in s && token[1] != token[0]
    ensures RemoveToken(s + token, token) == s
  {
    if s == "" {
      assert s + token == token && token[..3] == token && token[3..] == "";
    } else {
      assert (s + token)[0] == s[0] && (s + token)[1..] == s[1..] + token;
      assert (s + token)[..3][1] == if |s| > 1 then s[1] else token[0];
      assert (s + token)[..3] != token;
      TrailingWord(s[1..], token);
      assert [s[0]] + s[1..] == s;
    }
  }

  /** Nothing in a sparse text is a currency. */
  lemma SparseHasNone(s: string)
    requires Sparse(s)
    ensures Free(s, {'U', 'S', 'R', 'G', 'B', '$', EURO, POUND})
    ensures WithoutCurrency(s) == s
  {
    forall c | c in s ensures c !in {'U', 'S', 'R', 'G', 'B', '$', EURO, POUND} {
      assert PlainChar(c) || c == ' ';
    }
    hide RemoveToken;
    TokenAbsent(s, "USD", 'U');
    TokenAbsent(s, "EUR", 'R');
    TokenAbsent(s, "GBP", 'G');
    TokenAbsent(s, "$", '$');
    TokenAbsent(s, [EURO], EURO);
    TokenAbsent(s, [POUND], POUND);
  }

  /** The six removals, one after another, of which only that of the token itself finds anything. */
  lemma {:induction false} WordAlone(text: string, token: string, s: string)
    requires token in {"USD", "EUR", "GBP"} && Sparse(s) && RemoveToken(text, token) == s
    requires token == "USD" || 'S' !in text
    requires token == "USD" || token == "EUR" || 'R' !in text
    ensures WithoutCurrency(text) == s
  {
    SparseHasNone(s);
    hide RemoveToken, Sparse;
    TokenAbsent(s, "EUR", 'R');
    TokenAbsent(s, "GBP", 'G');
    TokenAbsent(s, "$", '$');
    TokenAbsent(s, [EURO], EURO);
    TokenAbsent(s, [POUND], POUND);
    if token != "USD" {
      TokenAbsent(text, "USD", 'S');
    }
    if token == "GBP" {
      TokenAbsent(text, "EUR", 'R');
    }
  }

  lemma {:induction false} SignAlone(text: string, token: string, s: string)
    requires token in {"$", [EURO], [POUND]} && Sparse(s) && RemoveToken(text, token) == s
    requires Free(text, {'U', 'R', 'G'})
    requires (token == "$" || '$' !in text) && (token == "$" || token == [EURO] || EURO !in text)
    ensures WithoutCurrency(text) == s
  {
    SparseHasNone(s);
    hide RemoveToken, Sparse;
    TokenAbsent(s, [EURO], EURO);
    TokenAbsent(s, [POUND], POUND);
    TokenAbsent(text, "USD", 'U');
    TokenAbsent(text, "EUR", 'R');
    TokenAbsent(text, "GBP", 'G');
    if token != "$" {
      TokenAbsent(text, "$", '$');
    }
    if token == [POUND] {
      TokenAbsent(text, [EURO], EURO);
    }
  }

  lemma {:induction false} TokenAlone(text: string, token: string, s: string)
    requires token in CURRENCY && Sparse(s) && RemoveToken(text, token) == s
    requires forall c :: c in text ==> c in token || c in s
    ensures WithoutCurrency(text) == s
  {
    SparseHasNone(s);
    hide RemoveToken, Sparse, WithoutCurrency;
    if token == "USD" {
      WordAlone(text, "USD", s);
    } else if token == "EUR" {
      assert 'S' !in "EUR";
      WordAlone(text, "EUR", s);
    } else if token == "GBP" {
      assert 'S' !in "GBP" && 'R' !in "GBP";
      WordAlone(text, "GBP", s);
    } else {
      assert forall c :: c in token ==> c == token[0];
      SignAlone(text, token, s);
    }
  }

  /** Whatever currency stands before or after a number, spaced or not, the number is read without it. */
  lemma {:induction false} CurrencyIsIgnored(token: string, s: string)
    requires token in CURRENCY && Sparse(s)
    ensures NormalizeAmount(token + s) == NormalizeAmount(s + token) == NormalizeAmount(s)
  {
    SparseHasNone(s);
    LeadingToken(token, s);
    assert RemoveToken(s, token) == s by {
      if token == "USD" { TokenAbsent(s, token, 'U'); }
      else if token == "EUR" { TokenAbsent(s, token, 'R'); }
      else if token == "GBP" { TokenAbsent(s, token, 'G'); }
      else { TokenAbsent(s, token, token[0]); }
    }
    assert RemoveToken(s + token, token) == s by {
      if |token| == 3 {
        assert token[1] in {'S', 'U', 'B'};
        TrailingWord(s, token);
      } else {
        TrailingToken(s, token[0]);
      }
    }
    hide RemoveToken, WithoutCurrency, Sparse, ReadSeparators, ReadDecimal;
    TokenAlone(token + s, token, s);
    TokenAlone(s + token, token, s);
  }

  // --- grouped digits ------------------------------------------------------------------

  predicate GroupedChars(s: string)
  {
    forall c :: c in s ==> IsDigit(c) || c == ','
  }

  lemma {:induction false} GroupChars(n: nat)
    ensures GroupedChars(Group(n)) && Group(n) != "" && IsDigit(Group(n)[0])
  {
    if n < 1000 {
      assert Group(n)[0] in Group(n);
    } else {
      GroupChars(n / 1000);
      forall c | c in Group(n) ensures IsDigit(c) || c == ',' {
        assert c in Group(n / 1000) || c == ',' || c in Pad(n % 1000, 3);
      }
    }
  }

  lemma {:induction false} Ungroup(n: nat)
    ensures Drop(Group(n), {','}) == Digits(n)
  {
    if n < 1000 {
      DropFree(Digits(n), {','});
    } else {
      var tail := Pad(n % 1000, 3);
      assert Group(n) == Group(n / 1000) + [','] + tail;
      assert Free(tail, {','});
      Ungroup(n / 1000);
      hide Drop, Digits, Pad, Group, AllDigits;
      DropMark(Group(n / 1000), ',', tail, {','});
      DigitsTail3(n / 1000, n % 1000);
    }
  }

  lemma {:induction false} GroupsAppend(s: string, more: string)
    requires GroupsOfThree(s) && |more| == 3 && AllDigits(more)
    ensures GroupsOfThree(s + [','] + more)
  {
    var whole := s + [','] + more;
    assert whole[..3] == s[..3];
    if |s| == 3 {
      assert whole[4..] == more && more[..3] == more;
    } else {
      GroupsAppend(s[4..], more);
      assert whole[4..] == s[4..] + [','] + more;
    }
  }

  lemma {:induction false} ShortDigits(n: nat)
    requires n < 1000
    ensures 1 <= |Digits(n)| <= 3
  {
    assert n >= 10 ==> |Digits(n)| == |Digits(n / 10)| + 1;
    assert n >= 100 ==> |Digits(n / 10)| == |Digits(n / 10 / 10)| + 1;
  }

  /** A grouped number of a thousand or more is what the US pattern matches. */
  lemma GroupShape(n: nat) returns (head: string, tail: string)
    requires n >= 1000
    ensures Group(n) == head + [','] + tail
    ensures 1 <= |head| <= 3 && AllDigits(head) && GroupsOfThree(tail)
    ensures n >= 1000000 <==> ',' in tail
    ensures n < 1000000 ==> head == Digits(n / 1000) && tail == Pad(n % 1000, 3)
  {
    var last := Pad(n % 1000, 3);
    if n / 1000 < 1000 {
      head, tail := Digits(n / 1000), last;
      ShortDigits(n / 1000);
      assert last[..3] == last;
    } else {
      var before: string;
      head, before := GroupShape(n / 1000);
      assert Group(n) == Group(n / 1000) + [','] + last;
      hide Group, Digits, Pad, GroupsOfThree, AllDigits;
      GroupsAppend(before, last);
      tail := before + [','] + last;
      Regroup(head + [','], before, [','], last);
    }
  }

  // --- amounts round trip ----------------------------------------------------------------

  /** The printed amount without its grouping. */
  function Ungrouped2(neg: bool, cents: nat): string
  {
    Sign(neg) + Digits(cents / 100) + ['.'] + Pad(cents % 100, 2)
  }

  lemma Fixed2Shape(neg: bool, cents: nat)
    ensures var s := Fixed2(neg, cents);
      && Plain(s) && |s| >= 3 && s[|s| - 3] == '.' && IsDigit(s[|s| - 2]) && IsDigit(s[|s| - 1])
  {
    var group, pad := Group(cents / 100), Pad(cents % 100, 2);
    GroupChars(cents / 100);
    assert Plain(Sign(neg)) && Plain(group) && Plain(pad) && Plain(['.']);
    assert pad[0] in pad && pad[1] in pad;
    hide Group, Pad, AllDigits, Plain;
    PlainConcat(Sign(neg), group);
    PlainConcat(Sign(neg) + group, ['.']);
    PlainConcat(Sign(neg) + group + ['.'], pad);
  }

  lemma DropFixed2(neg: bool, cents: nat)
    ensures Drop(Fixed2(neg, cents), {','}) == Ungrouped2(neg, cents)
  {
    var sign, group, pad := Sign(neg), Group(cents / 100), Pad(cents % 100, 2);
    var tail := ['.'] + pad;
    assert Free(sign, {','}) && Free(tail, {','}) by {
      assert forall c :: c in tail ==> c == '.' || c in pad;
    }
    assert Fixed2(neg, cents) == sign + group + tail;
    assert Ungrouped2(neg, cents) == sign + Digits(cents / 100) + tail;
    hide *;
    DropConcat(sign + group, tail, {','});
    DropConcat(sign, group, {','});
    DropFree(sign, {','});
    DropFree(tail, {','});
    Ungroup(cents / 100);
  }

  lemma ReadUngrouped2(neg: bool, cents: nat)
    ensures ReadDecimal(Ungrouped2(neg, cents)) == Some(Dec(neg, cents, -2))
  {
    var whole, frac := Digits(cents / 100), Pad(cents % 100, 2);
    assert Ungrouped2(neg, cents) == Sign(neg) + whole + ['.'] + frac;
    NatOfPad2(whole, cents % 100);
    hide *;
    ReadPoint(neg, whole, frac);
  }

  /** The last comma or dot of a printed dollar amount is its dot. */
  lemma UsSeparators(neg: bool, cents: nat)
    ensures ReadSeparators(Fixed2(neg, cents)) == Drop(Fixed2(neg, cents), {','})
  {
    var s := Fixed2(neg, cents);
    Fixed2Shape(neg, cents);
    hide Fixed2, Drop, UsGrouped, LastIndex;
    if ',' in s {
      assert LastIndex(s, ',') < |s| - 3 <= LastIndex(s, '.');
    } else {
      DropFree(s, {','});
    }
  }

  lemma {:induction false} SwapUndo(s: string)
    ensures Replace(Drop(Swap(s), {'.'}), ',', '.') == Drop(s, {','})
  {
    if s == "" {
    } else {
      SwapUndo(s[1..]);
      assert Swap(s)[1..] == Swap(s[1..]);
    }
  }

  lemma {:induction false} SwapConcat(a: string, b: string)
    ensures Swap(a + b) == Swap(a) + Swap(b)
  {
    hide Swap;
  }

  lemma {:induction false} SwapFree(s: string)
    requires Free(s, {',', '.'})
    ensures Swap(s) == s
  {
    hide Swap;
    assert forall i :: 0 <= i < |s| ==> s[i] in s;
  }

  lemma {:induction false} SwapParts(a: string, b: string, c: string)
    requires Free(a, {',', '.'}) && Free(b, {',', '.'}) && Free(c, {',', '.'})
    ensures Swap(a + b + ['.'] + c) == a + b + [','] + c
  {
    assert Swap(['.']) == [','];
    hide *;
    SwapConcat(a + b + ['.'], c);
    SwapConcat(a + b, ['.']);
    SwapConcat(a, b);
    SwapFree(a);
    SwapFree(b);
    SwapFree(c);
  }

  /** Below a thousand euros the comma is alone, and two digits after it are no thousands group. */
  lemma CentsAreNoGroup(neg: bool, cents: nat)
    requires ',' !in Fixed2(neg, cents)
    ensures !UsGrouped(Swap(Fixed2(neg, cents)))
  {
    var sign, group, pad := Sign(neg), Group(cents / 100), Pad(cents % 100, 2);
    GroupChars(cents / 100);
    assert Fixed2(neg, cents) == sign + group + ['.'] + pad;
    assert forall c :: c in group ==> c in sign + group + ['.'] + pad;
    assert Free(sign, {',', '.'}) && Free(group, {',', '.'}) && Free(pad, {',', '.'});
    SwapParts(sign, group, pad);
    var body := group + [','] + pad;
    assert body != "" && body[0] !in {'+', '-'};
    hide Fixed2, Swap, Group, Sign, Pad, Digits, TakeSign, Cut, AllDigits;
    Regroup(sign, group, [','], pad);
    TakeSignOf(neg, body);
    CutAt(group, ',', pad, {','});
  }

  lemma {:induction false} SwapMarks(s: string)
    ensures ',' in s <==> '.' in Swap(s)
    ensures ',' !in s ==> Replace(Swap(s), ',', '.') == s
  {
    hide Swap, Replace;
    if ',' in s {
      var i :| 0 <= i < |s| && s[i] == ',';
      assert Swap(s)[i] == '.';
    } else {
      assert forall i :: 0 <= i < |s| ==> s[i] in s;
    }
  }

  lemma EuSeparators(neg: bool, cents: nat)
    ensures ReadSeparators(Swap(Fixed2(neg, cents))) == Drop(Fixed2(neg, cents), {','})
  {
    var s := Fixed2(neg, cents);
    var t := Swap(s);
    Fixed2Shape(neg, cents);
    SwapMarks(s);
    hide Fixed2, Drop, UsGrouped, LastIndex, Replace, Swap, Plain;
    assert t[|t| - 3] == ',' && ',' in t;
    if ',' in s {
      assert LastIndex(t, '.') < |t| - 3 <= LastIndex(t, ',');
      SwapUndo(s);
    } else {
      CentsAreNoGroup(neg, cents);
      DropFree(s, {','});
    }
  }

  /** Every amount printed in dollars is read back, to the digit and the sign of zero. */
  lemma UsdRoundTrip(neg: bool, cents: nat)
    ensures NormalizeAmount(Usd(neg, cents)) == Some(Dec(neg, cents, -2))
  {
    hide Clean, ReadSeparators, ReadDecimal, Fixed2, Drop, Ungrouped2, Plain;
    Fixed2Shape(neg, cents);
    CleanDollar(Fixed2(neg, cents));
    UsSeparators(neg, cents);
    DropFixed2(neg, cents);
    ReadUngrouped2(neg, cents);
  }

  lemma {:induction false} SwapPlain(s: string)
    requires Plain(s)
    ensures Plain(Swap(s))
  {
    forall c | c in Swap(s) ensures PlainChar(c) {
      var i :| 0 <= i < |s| && Swap(s)[i] == c;
      assert s[i] in s;
    }
  }

  /** And in euros, through the exchange of the separators. */
  lemma EurRoundTrip(neg: bool, cents: nat)
    ensures NormalizeAmount(Eur(neg, cents)) == Some(Dec(neg, cents, -2))
  {
    hide Clean, ReadSeparators, ReadDecimal, Fixed2, Drop, Ungrouped2, Plain, Swap;
    Fixed2Shape(neg, cents);
    SwapPlain(Fixed2(neg, cents));
    CleanEuro(Swap(Fixed2(neg, cents)));
    EuSeparators(neg, cents);
    DropFixed2(neg, cents);
    ReadUngrouped2(neg, cents);
  }

  // --- amounts without cents -------------------------------------------------------------

  lemma {:induction false} SignedGroup(neg: bool, n: nat)
    ensures Plain(Sign(neg) + Group(n)) && '.' !in Sign(neg) + Group(n)
    ensures TakeSign(Sign(neg) + Group(n)) == (neg, Group(n))
    ensures Drop(Sign(neg) + Group(n), {','}) == Sign(neg) + Digits(n)
  {
    GroupChars(n);
    TakeSignOf(neg, Group(n));
    PlainConcat(Sign(neg), Group(n));
    DropConcat(Sign(neg), Group(n), {','});
    DropFree(Sign(neg), {','});
    Ungroup(n);
  }

  lemma {:induction false} GroupedIsUs(s: string, head: string, tail: string)
    requires TakeSign(s).1 == head + [','] + tail
    requires 1 <= |head| <= 3 && AllDigits(head) && GroupsOfThree(tail)
    ensures UsGrouped(s)
  {
    assert Free(head, {','});
    hide TakeSign, GroupsOfThree, AllDigits, Cut;
    CutAt(head, ',', tail, {','});
  }

  lemma {:induction false} GroupIsUs(neg: bool, n: nat)
    requires n >= 1000
    ensures UsGrouped(Sign(neg) + Group(n)) && ',' in Sign(neg) + Group(n)
  {
    hide *;
    var s := Sign(neg) + Group(n);
    var head, tail := GroupShape(n);
    SignedGroup(neg, n);
    GroupedIsUs(s, head, tail);
    assert s[|Sign(neg)| + |head|] == ',';
  }

  lemma {:induction false} WholeSeparators(neg: bool, n: nat)
    ensures ReadSeparators(Sign(neg) + Group(n)) == Sign(neg) + Digits(n)
  {
    assert n < 1000 ==> Group(n) == Digits(n) && ',' !in Sign(neg) + Digits(n);
    hide UsGrouped, Group, Drop, Digits, Sign, TakeSign, Plain, LastIndex, Replace, AllDigits;
    SignedGroup(neg, n);
    if n >= 1000 {
      GroupIsUs(neg, n);
    }
  }

  /** Whole dollars, however many groups of three. */
  lemma {:induction false} WholeDollars(neg: bool, n: nat)
    ensures NormalizeAmount("$" + (Sign(neg) + Group(n))) == Some(Dec(neg, n, 0))
  {
    var s := Sign(neg) + Group(n);
    SignedGroup(neg, n);
    WholeSeparators(neg, n);
    assert Group(n) != "";
    hide Clean, ReadSeparators, ReadDecimal, Plain, Group, Digits, Sign, Drop, AllDigits;
    CleanDollar(s);
    ReadWhole(neg, Digits(n));
  }

  lemma TwoDotsFail(head: string, tail: string)
    requires head != "" && AllDigits(head) && Plain(tail) && 'E' !in tail && '.' in tail
    ensures ReadDecimal(head + ['.'] + tail).None?
  {
    var s := head + ['.'] + tail;
    assert Free(s, {'_'}) && Free(s, {'e', 'E'}) && s[0] == head[0] && head[0] in head && '.' in head + tail by {
      forall c | c in s ensures c !in {'_', 'e', 'E'} {
        assert c in head || c == '.' || c in tail;
      }
      var i :| 0 <= i < |tail| && tail[i] == '.';
      assert (head + tail)[|head| + i] == '.';
    }
    assert !AllDigits(head + tail);
    assert Free(head, {'.'});
    assert TakeSign(s) == (false, s);
    hide Drop, Cut, TakeSign, Plain, AllDigits, Free;
    DropFree(s, {'_'});
    CutFree(s, {'e', 'E'});
    CutAt(head, '.', tail, {'.'});
  }

  lemma {:induction false} SwappedTail(tail: string)
    requires GroupedChars(tail)
    ensures Plain(Swap(tail)) && 'E' !in Swap(tail) && ',' !in Swap(tail) && ('.' in Swap(tail) <==> ',' in tail)
  {
    hide Swap;
    SwapMarks(tail);
    forall c | c in Swap(tail) ensures IsDigit(c) || c == '.' {
      var i :| 0 <= i < |tail| && Swap(tail)[i] == c;
      assert tail[i] in tail;
    }
  }

  lemma SwappedGroup(n: nat) returns (head: string, tail: string)
    requires n >= 1000
    ensures Swap(Group(n)) == head + ['.'] + tail && head != "" && AllDigits(head)
    ensures Plain(tail) && 'E' !in tail && ('.' in tail <==> n >= 1000000)
    ensures n < 1000000 ==> head == Digits(n / 1000) && tail == Pad(n % 1000, 3)
  {
    var commas: string;
    head, commas := GroupShape(n);
    tail := Swap(commas);
    assert Free(head, {',', '.'}) && Swap([',']) == ['.'];
    assert n < 1000000 ==> Free(commas, {',', '.'});
    assert GroupedChars(commas) by {
      GroupChars(n);
      assert forall c :: c in commas ==> c in head + [','] + commas;
    }
    hide *;
    SwappedTail(commas);
    SwapConcat(head + [','], commas);
    SwapConcat(head, [',']);
    SwapFree(head);
    if n < 1000000 {
      SwapFree(commas);
    }
  }

  function EurosAsRead(n: nat): Option<Dec>
  {
    if n < 1000 then Some(Dec(false, n, 0)) else if n < 1000000 then Some(Dec(false, n, -3)) else None
  }

  lemma {:induction false} ReadUnsignedWhole(n: nat)
    ensures ReadDecimal(Digits(n)) == Some(Dec(false, n, 0))
  {
    assert Sign(false) + Digits(n) == Digits(n);
    hide *;
    ReadWhole(false, Digits(n));
  }

  lemma {:induction false} ReadPositivePoint(whole: string, frac: string)
    requires whole != "" && AllDigits(whole) && AllDigits(frac)
    ensures AllDigits(whole + frac)
    ensures ReadDecimal(whole + ['.'] + frac) == Some(Dec(false, NatOf(whole + frac), -|frac|))
  {
    assert Sign(false) + whole == whole;
    hide *;
    ReadPoint(false, whole, frac);
  }

  lemma {:induction false} ReadThousandths(u: nat, r: nat)
    requires r < 1000
    ensures ReadDecimal(Digits(u) + ['.'] + Pad(r, 3)) == Some(Dec(false, u * 1000 + r, -3))
  {
    NatOfPad3(Digits(u), r);
    ReadPositivePoint(Digits(u), Pad(r, 3));
  }

  lemma {:induction false} EurosRead(n: nat)
    ensures ReadDecimal(Swap(Group(n))) == EurosAsRead(n)
  {
    if n < 1000 {
      assert Free(Digits(n), {',', '.'}) && Group(n) == Digits(n);
      hide ReadDecimal, Swap, Group, Digits;
      SwapFree(Digits(n));
      ReadUnsignedWhole(n);
    } else {
      hide ReadDecimal, Swap, Group, Digits, Pad, Plain, AllDigits;
      var head, tail := SwappedGroup(n);
      if n < 1000000 {
        ReadThousandths(n / 1000, n % 1000);
      } else {
        TwoDotsFail(head, tail);
      }
    }
  }

  /**
    A euro amount printed without cents has dots only, and a dot alone is read
    as a decimal point: right below a thousand, a thousandfold too small below
    a million, refused from there on.
   */
  lemma {:induction false} WholeEuros(n: nat)
    ensures NormalizeAmount(Swap(Group(n)) + [' ', EURO]) ==
      if n < 1000 then Some(Dec(false, n, 0)) else if n < 1000000 then Some(Dec(false, n, -3)) else None
  {
    GroupChars(n);
    SwappedTail(Group(n));
    hide Clean, ReadDecimal, Swap, Group, Plain;
    EurosRead(n);
    CleanEuro(Swap(Group(n)));
  }

  // --- rates -------------------------------------------------------------------------------

  lemma PlainAmount(s: string)
    requires Plain(s) && ',' !in s && s != ""
    ensures NormalizeAmount(s) == ReadDecimal(s)
  {
    hide Clean, ReadDecimal;
    CleanPlain(s);
  }

  /** What is left of three decimals when trailing zeros are stripped. */
  function StrippedDecimals(x: nat, y: nat, z: nat): string
    requires x < 10 && y < 10 && z < 10
  {
    if z != 0 then [Digit(x), Digit(y), Digit(z)]
    else if y != 0 then [Digit(x), Digit(y)]
    else if x != 0 then [Digit(x)]
    else ""
  }

  lemma {:induction false} RStripLast(s: string, c: char)
    ensures RStrip(s + [c], c) == RStrip(s, c)
  {
    assert (s + [c])[..|s|] == s;
  }

  lemma {:induction false} StripZeros(base: string, x: nat, y: nat, z: nat)
    requires base != "" && base[|base| - 1] != '0' && x < 10 && y < 10 && z < 10
    ensures RStrip(base + [Digit(x), Digit(y), Digit(z)], '0') == base + StrippedDecimals(x, y, z)
  {
    assert base + [Digit(x), Digit(y), Digit(z)] == base + [Digit(x), Digit(y)] + [Digit(z)];
    assert base + [Digit(x), Digit(y)] == base + [Digit(x)] + [Digit(y)];
    assert base + "" == base;
    if z == 0 {
      RStripLast(base + [Digit(x), Digit(y)], '0');
      if y == 0 {
        RStripLast(base + [Digit(x)], '0');
        if x == 0 {
          RStripLast(base, '0');
        }
      }
    }
  }

  /** The printed percentage without its sign character. */
  function PctBody(neg: bool, u: nat, frac: string): string
  {
    if frac == "" then Sign(neg) + Digits(u) else Sign(neg) + Digits(u) + ['.'] + frac
  }

  lemma EndsInDigit(whole: string, frac: string)
    requires AllDigits(frac)
    ensures frac != "" ==> IsDigit((whole + frac)[|whole + frac| - 1])
  {
    if frac != "" {
      assert frac[|frac| - 1] in frac;
    }
  }

  lemma {:induction false} StripPoint(whole: string, x: nat, y: nat, z: nat)
    requires whole != "" && whole[|whole| - 1] != '.' && x < 10 && y < 10 && z < 10
    ensures var frac := StrippedDecimals(x, y, z);
      RStrip(RStrip(whole + ['.'] + [Digit(x), Digit(y), Digit(z)], '0'), '.')
        == if frac == "" then whole else whole + ['.'] + frac
  {
    var frac := StrippedDecimals(x, y, z);
    DigitsAlone(x, y, z);
    EndsInDigit(whole + ['.'], frac);
    hide AllDigits, StrippedDecimals;
    StripZeros(whole + ['.'], x, y, z);
    if frac == "" {
      assert whole + ['.'] + "" == whole + ['.'];
      RStripLast(whole, '.');
    }
  }

  lemma {:induction false} PctText(neg: bool, u: nat, r: nat)
    requires r < 1000
    ensures Pct(neg, u * 1000 + r) == RStrip(RStrip(Sign(neg) + Digits(u) + ['.'] + Pad(r, 3), '0'), '.') + ['%']
  {
    assert (u * 1000 + r) / 1000 == u && (u * 1000 + r) % 1000 == r;
    hide RStrip, Digits, Pad, Sign;
  }

  lemma {:induction false} WholeEndsInDigit(neg: bool, u: nat)
    ensures var whole := Sign(neg) + Digits(u); whole != "" && whole[|whole| - 1] != '.'
  {
    hide Sign;
    EndsInDigit(Sign(neg), Digits(u));
  }

  lemma PctShape(neg: bool, u: nat, x: nat, y: nat, z: nat)
    requires x < 10 && y < 10 && z < 10
    ensures Pct(neg, u * 1000 + x * 100 + y * 10 + z) == PctBody(neg, u, StrippedDecimals(x, y, z)) + ['%']
  {
    var whole, frac := Sign(neg) + Digits(u), StrippedDecimals(x, y, z);
    WholeEndsInDigit(neg, u);
    assert PctBody(neg, u, frac) == if frac == "" then whole else whole + ['.'] + frac;
    hide *;
    assert u * 1000 + x * 100 + y * 10 + z == u * 1000 + (x * 100 + y * 10 + z);
    PctText(neg, u, x * 100 + y * 10 + z);
    Pad3Digits(x, y, z);
    StripPoint(whole, x, y, z);
  }

  lemma TensMove(neg: bool, k: nat, exp: int)
    ensures Value(Dec(neg, k * 10, exp)) == Value(Dec(neg, k, exp + 1))
  {
    hide Scaled;
    ScaledNext(Signed(Dec(neg, k, exp)), exp);
  }

  /** The digits of u followed by the stripped decimals spell x, y and z to the right of u. */
  lemma {:induction false} StrippedNat(u: nat, x: nat, y: nat, z: nat)
    requires x < 10 && y < 10 && z < 10
    ensures AllDigits(StrippedDecimals(x, y, z)) && AllDigits(Digits(u) + StrippedDecimals(x, y, z))
    ensures var frac := StrippedDecimals(x, y, z);
      && |frac| <= 3 && (|frac| < 3 ==> z == 0) && (|frac| < 2 ==> y == 0) && (|frac| < 1 ==> x == 0)
    ensures var frac := StrippedDecimals(x, y, z);
      NatOf(Digits(u) + frac) ==
        if |frac| == 3 then u * 1000 + x * 100 + y * 10 + z
        else if |frac| == 2 then u * 100 + x * 10 + y
        else if |frac| == 1 then u * 10 + x
        else u
  {
    var d, frac := Digits(u), StrippedDecimals(x, y, z);
    NatOfLast(d, x);
    NatOfLast(d + [Digit(x)], y);
    NatOfLast(d + [Digit(x)] + [Digit(y)], z);
    hide Digits, NatOf, AllDigits;
    if z != 0 {
      assert d + frac == d + [Digit(x)] + [Digit(y)] + [Digit(z)];
    } else if y != 0 {
      assert d + frac == d + [Digit(x)] + [Digit(y)];
    } else if x != 0 {
      assert d + frac == d + [Digit(x)];
    } else {
      assert d + frac == d;
    }
    DigitsAlone(x, y, z);
  }

  lemma DigitsAlone(x: nat, y: nat, z: nat)
    requires x < 10 && y < 10 && z < 10
    ensures AllDigits(StrippedDecimals(x, y, z))
  {
  }

  lemma {:induction false} StrippedValue(neg: bool, u: nat, x: nat, y: nat, z: nat)
    requires x < 10 && y < 10 && z < 10
    ensures var frac := StrippedDecimals(x, y, z);
      && AllDigits(frac) && AllDigits(Digits(u) + frac)
      && Value(Dec(neg, NatOf(Digits(u) + frac), -|frac|)) == Value(Dec(neg, u * 1000 + x * 100 + y * 10 + z, -3))
  {
    hide *;
    StrippedNat(u, x, y, z);
    TensMove(neg, u, -1);
    TensMove(neg, u * 10 + x, -2);
    TensMove(neg, u * 100 + x * 10 + y, -3);
  }

  lemma PctBodyPlain(neg: bool, u: nat, frac: string)
    requires AllDigits(frac)
    ensures var s := PctBody(neg, u, frac);
      Plain(s) && ',' !in s && s != "" && '%' !in s
  {
    var s := PctBody(neg, u, frac);
    forall c | c in s ensures PlainChar(c) && c != ',' && c != '%' {
      assert c in Sign(neg) || c in Digits(u) || c == '.' || c in frac;
    }
  }

  lemma {:induction false} PctBodyReads(neg: bool, u: nat, frac: string)
    requires AllDigits(frac)
    ensures AllDigits(Digits(u) + frac)
    ensures NormalizeAmount(PctBody(neg, u, frac)) == Some(Dec(neg, NatOf(Digits(u) + frac), -|frac|))
    ensures '%' !in PctBody(neg, u, frac)
  {
    PctBodyPlain(neg, u, frac);
    assert frac == "" ==> PctBody(neg, u, frac) == Sign(neg) + Digits(u) && Digits(u) + frac == Digits(u);
    assert frac != "" ==> PctBody(neg, u, frac) == Sign(neg) + Digits(u) + ['.'] + frac;
    hide *;
    PlainAmount(PctBody(neg, u, frac));
    if frac == "" {
      ReadWhole(neg, Digits(u));
    } else {
      ReadPoint(neg, Digits(u), frac);
    }
  }

  lemma PercentReads(body: string, d: Dec)
    requires '%' !in body && NormalizeAmount(body) == Some(d)
    ensures NormalizeRate(body + ['%']) == Some(Hundredth(d))
  {
    hide NormalizeAmount, Drop, Hundredth;
    assert (body + ['%'])[|body|] == '%';
    assert body + ['%'] == body + ['%'] + "" && body + "" == body;
    DropMark(body, '%', "", {'%'});
    DropFree(body, {'%'});
  }

  lemma HundredthShifts(d: Dec, neg: bool, m: nat)
    requires Value(d) == Value(Dec(neg, m, -3))
    ensures Value(Hundredth(d)) == Value(Dec(neg, m, -5))
  {
    var k := Signed(Dec(neg, m, -5));
    hide Hundredth, Scaled;
    HundredthValue(d);
    ScaledNext(k, -4);
    ScaledNext(k, -5);
  }

  lemma PctDigitsRoundTrip(neg: bool, u: nat, x: nat, y: nat, z: nat)
    requires x < 10 && y < 10 && z < 10
    ensures var m := u * 1000 + x * 100 + y * 10 + z;
      NormalizeRate(Pct(neg, m)).Some? && Value(NormalizeRate(Pct(neg, m)).value) == Value(Dec(neg, m, -5))
  {
    hide *;
    var frac := StrippedDecimals(x, y, z);
    PctShape(neg, u, x, y, z);
    StrippedValue(neg, u, x, y, z);
    PctBodyReads(neg, u, frac);
    var percent := Dec(neg, NatOf(Digits(u) + frac), -|frac|);
    PercentReads(PctBody(neg, u, frac), percent);
    HundredthShifts(percent, neg, u * 1000 + x * 100 + y * 10 + z);
  }

  /** Every rate of at most five decimals, printed as a percentage, is read back as the same number. */
  lemma PctRoundTrip(neg: bool, m: nat)
    ensures NormalizeRate(Pct(neg, m)).Some?
    ensures Value(NormalizeRate(Pct(neg, m)).value) == Value(Dec(neg, m, -5))
  {
    hide *;
    var x, y, z := ThreeDigits(m % 1000);
    assert m == m / 1000 * 1000 + x * 100 + y * 10 + z;
    PctDigitsRoundTrip(neg, m / 1000, x, y, z);
  }

  /**
    A normalized rate is above one exactly when the number read from the text is
    above a hundred, percent sign or not.
   */
  lemma {:induction false} RateAboveOne(text: string)
    ensures NormalizeRate(text).Some? <==> NormalizeAmount(Drop(text, {'%'})).Some?
    ensures NormalizeRate(text).Some? ==>
      (AboveOne(NormalizeRate(text).value) <==> Value(NormalizeAmount(Drop(text, {'%'})).value) > 100.0)
  {
    if '%' !in text {
      DropFree(text, {'%'});
    }
    hide NormalizeAmount, Drop, Hundredth, Value;
    var read := NormalizeAmount(Drop(text, {'%'}));
    if read.Some? {
      HundredthValue(read.value);
    }
  }

  // --- free text -----------------------------------------------------------------------------

  /** Every run of whitespace becomes one space. */
  function Collapse(s: string): string
  {
    if s == "" then ""
    else
      var rest := Collapse(s[1..]);
      if s[0] !in Whitespace() then [s[0]] + rest
      else if rest != "" && rest[0] == ' ' then rest
      else " " + rest
  }

  function TrimFront(s: string): string
  {
    if s != "" && s[0] in Whitespace() then TrimFront(s[1..]) else s
  }

  function TrimBack(s: string): string
  {
    if s != "" && s[|s| - 1] in Whitespace() then TrimBack(s[..|s| - 1]) else s
  }

  function NormalizeText(s: string): string
  {
    TrimBack(TrimFront(Collapse(s)))
  }

  /** Whitespace comes as single spaces. */
  ghost predicate SingleSpaced(s: string)
  {
    forall i :: 0 <= i < |s| && s[i] in Whitespace() ==> s[i] == ' ' && (i + 1 < |s| ==> s[i + 1] !in Whitespace())
  }

  ghost predicate Tidy(s: string)
  {
    SingleSpaced(s) && (s != "" ==> s[0] !in Whitespace() && s[|s| - 1] !in Whitespace())
  }

  lemma {:induction false} CollapseSpaces(s: string)
    ensures SingleSpaced(Collapse(s))
  {
    if s == "" {
    } else {
      CollapseSpaces(s[1..]);
      assert ' ' in Whitespace();
      hide Whitespace;
    }
  }

  lemma {:induction false} CollapseTidy(s: string)
    requires SingleSpaced(s)
    ensures Collapse(s) == s
  {
    hide Whitespace;
    if s == "" {
    } else {
      var tail := s[1..];
      assert forall i :: 0 <= i < |tail| ==> tail[i] == s[i + 1];
      CollapseTidy(tail);
      assert tail != "" && s[0] in Whitespace() ==> tail[0] != ' ' by {
        assert tail != "" ==> s[0 + 1] == tail[0];
        SpaceIsWhite();
      }
      assert [s[0]] + tail == s;
    }
  }

  lemma SpaceIsWhite()
    ensures ' ' in Whitespace()
  {
  }

  /** The runs of other characters between whitespace, in order. */
  function WordList(s: string): (words: seq<string>)
    ensures s != "" && s[0] !in Whitespace() ==> words != []
  {
    if s == "" then []
    else if s[0] in Whitespace() then WordList(s[1..])
    else
      var rest := WordList(s[1..]);
      if |s| > 1 && s[1] !in Whitespace() then [[s[0]] + rest[0]] + rest[1..] else [[s[0]]] + rest
  }

  lemma {:induction false} CollapseWords(s: string)
    ensures WordList(Collapse(s)) == WordList(s)
    ensures Collapse(s) == "" <==> s == ""
    ensures s != "" ==> (Collapse(s)[0] in Whitespace() <==> s[0] in Whitespace())
  {
    SpaceIsWhite();
    hide Whitespace;
    if s == "" {
    } else {
      var rest := Collapse(s[1..]);
      CollapseWords(s[1..]);
      if s[0] !in Whitespace() {
        assert Collapse(s) == [s[0]] + rest && ([s[0]] + rest)[1..] == rest;
      } else if rest != "" && rest[0] == ' ' {
        assert Collapse(s) == rest;
      } else {
        assert Collapse(s) == " " + rest && (" " + rest)[1..] == rest;
      }
    }
  }

  lemma {:induction false} WordsBeforeSpace(s: string, c: char)
    requires c in Whitespace()
    ensures WordList(s + [c]) == WordList(s)
  {
    hide Whitespace;
    if s == "" {
      assert (s + [c])[1..] == "";
    } else {
      assert (s + [c])[1..] == s[1..] + [c];
      WordsBeforeSpace(s[1..], c);
    }
  }

  lemma {:induction false} TrimFrontKeeps(s: string)
    requires SingleSpaced(s)
    ensures var t := TrimFront(s);
      SingleSpaced(t) && (t != "" ==> t[0] !in Whitespace()) && WordList(t) == WordList(s)
  {
    hide Whitespace;
    if s != "" && s[0] in Whitespace() {
      TrimFrontKeeps(s[1..]);
    }
  }

  lemma {:induction false} TrimBackKeeps(s: string)
    requires SingleSpaced(s) && (s != "" ==> s[0] !in Whitespace())
    ensures Tidy(TrimBack(s)) && WordList(TrimBack(s)) == WordList(s)
  {
    hide Whitespace;
    if s != "" && s[|s| - 1] in Whitespace() {
      var front, last := s[..|s| - 1], s[|s| - 1];
      TrimBackKeeps(front);
      assert s == front + [last];
      WordsBeforeSpace(front, last);
    }
  }

  /** The result is tidy and has the same words; tidy text, and only that, is left alone. */
  lemma {:induction false} NormalizeTextIsTidy(s: string)
    ensures Tidy(NormalizeText(s))
    ensures WordList(NormalizeText(s)) == WordList(s)
    ensures NormalizeText(s) == s <==> Tidy(s)
  {
    hide Whitespace;
    CollapseSpaces(s);
    CollapseWords(s);
    if Tidy(s) {
      CollapseTidy(s);
    }
    TrimFrontKeeps(Collapse(s));
    TrimBackKeeps(TrimFront(Collapse(s)));
  }

  function Joined(words: seq<string>): string
  {
    if words == [] then "" else if |words| == 1 then words[0] else words[0] + " " + Joined(words[1..])
  }

  lemma {:induction false} JoinedPrefix(c: char, words: seq<string>)
    requires words != []
    ensures Joined([[c] + words[0]] + words[1..]) == [c] + Joined(words)
  {
    var longer := [[c] + words[0]] + words[1..];
    assert longer[1..] == words[1..];
    if |words| > 1 {
      assert [c] + words[0] + " " + Joined(words[1..]) == [c] + (words[0] + " " + Joined(words[1..]));
    }
  }

  lemma {:induction false} TidyIsJoined(s: string)
    requires Tidy(s)
    ensures Joined(WordList(s)) == s
  {
    hide Whitespace;
    SpaceIsWhite();
    if |s| <= 1 {
      assert s != "" ==> WordList(s) == [[s[0]]] + WordList("") && [s[0]] == s;
    } else if s[1] !in Whitespace() {
      var tail := s[1..];
      assert Tidy(tail) by {
        assert forall i :: 0 <= i < |tail| ==> tail[i] == s[i + 1];
      }
      TidyIsJoined(tail);
      JoinedPrefix(s[0], WordList(tail));
      assert [s[0]] + tail == s;
    } else {
      var tail := s[2..];
      assert s[1] == ' ' && |s| > 2 && s[2] !in Whitespace();
      assert Tidy(tail) by {
        assert forall i :: 0 <= i < |tail| ==> tail[i] == s[i + 2];
      }
      TidyIsJoined(tail);
      assert s[1..][1..] == tail;
      assert WordList(s) == [[s[0]]] + WordList(tail);
      assert ([[s[0]]] + WordList(tail))[1..] == WordList(tail);
      assert [s[0]] + " " + tail == s;
    }
  }

  /** Two texts normalize alike exactly when they have the same words. */
  lemma {:induction false} SameTextIffSameWords(a: string, b: string)
    ensures NormalizeText(a) == NormalizeText(b) <==> WordList(a) == WordList(b)
  {
    hide NormalizeText, Tidy, WordList, Joined;
    NormalizeTextIsTidy(a);
    NormalizeTextIsTidy(b);
    TidyIsJoined(NormalizeText(a));
    TidyIsJoined(NormalizeText(b));
  }
}
