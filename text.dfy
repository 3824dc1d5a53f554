/**
 * String logic of the channel handler: the title taken from the first line
 * of a post, the newline-to-`<br>` rewriting of the body, the decimal
 * rendering of a message id inside the Telegram deep link, and a
 * substring predicate used to state what rendered HTML contains.
 */
module Text {
  import opened Wrappers

  /** Hard cut applied to the first line when it becomes the article title. */
  const TitleLimit: nat := 100

  /** Python truthiness of an optional string: present and not empty. */
  predicate NonEmpty(s: Option<string>) {
    s.Some? && s.value != ""
  }

  /** `sub` occurs in `s` starting at index `k`. */
  predicate OccursAt(s: string, sub: string, k: nat) {
    k + |sub| <= |s| && s[k..k + |sub|] == sub
  }

  /** `sub` occurs somewhere inside `s`. */
  ghost predicate Contains(s: string, sub: string) {
    exists k: nat :: OccursAt(s, sub, k)
  }

  lemma ContainsAt(s: string, sub: string, k: nat)
    requires OccursAt(s, sub, k)
    ensures Contains(s, sub)
  {
  }

  /** A substring of the middle part is a substring of the whole. */
  lemma ContainsInside(a: string, b: string, c: string, sub: string)
    requires Contains(b, sub)
    ensures Contains(a + b + c, sub)
  {
    var k: nat :| OccursAt(b, sub, k);
    var s := a + b + c;
    assert s[|a|..|a| + |b|] == b;
    assert s[|a| + k..|a| + k + |sub|] == s[|a|..|a| + |b|][k..k + |sub|];
    ContainsAt(s, sub, |a| + k);
  }

  /** Both the second and the fourth part of a four-part concatenation occur in it. */
  lemma ContainsSecondAndLast(a: string, b: string, c: string, d: string)
    ensures Contains(a + b + c + d, b) && Contains(a + b + c + d, d)
  {
    assert OccursAt(a + b + c + d, b, |a|) by {
      assert (a + b + c + d)[|a|..|a| + |b|] == b;
    }
    assert OccursAt(a + b + c + d, d, |a + b + c|) by {
      assert (a + b + c + d)[|a + b + c|..|a + b + c| + |d|] == d;
    }
    ContainsAt(a + b + c + d, b, |a|);
    ContainsAt(a + b + c + d, d, |a + b + c|);
  }

  /** A string always contains itself. */
  lemma ContainsSelf(s: string)
    ensures Contains(s, s)
  {
    ContainsAt(s, s, 0);
  }

  // ---------------------------------------------------------------------
  // Title: `text.split('\n')[0][:100]`

  /** Index of the first `c` in `s`, or `|s|` when there is none. */
  function IndexOf(s: string, c: char): (k: nat)
    ensures k <= |s|
    ensures forall i :: 0 <= i < k ==> s[i] != c
    ensures k < |s| ==> s[k] == c
  {
    if s == [] then 0
    else if s[0] == c then 0
    else 1 + IndexOf(s[1..], c)
  }

  /** The first element of `s.split('\n')`. */
  function FirstLine(s: string): (line: string)
    ensures line <= s
    ensures '\n' !in line
    ensures line == s || s[|line|] == '\n'
  {
    s[..IndexOf(s, '\n')]
  }

  /** The article title: the first line, cut to at most `TitleLimit` characters. */
  function Title(text: string): (title: string)
    ensures title <= text
    ensures |title| <= TitleLimit
    ensures '\n' !in title
    ensures |FirstLine(text)| <= TitleLimit ==> title == FirstLine(text)
    ensures |FirstLine(text)| > TitleLimit ==> |title| == TitleLimit && title <= FirstLine(text)
  {
    var line := FirstLine(text);
    if |line| <= TitleLimit then line else line[..TitleLimit]
  }

  // ---------------------------------------------------------------------
  // Body text: `text.replace('\n', '<br>')`

  const Br: string := "<br>"

  /** Number of occurrences of `c` in `s`. */
  function Count(s: string, c: char): nat {
    if s == [] then 0 else (if s[0] == c then 1 else 0) + Count(s[1..], c)
  }

  /** `s` with every newline replaced by `<br>`. */
  function BrText(s: string): (r: string)
    ensures '\n' !in r
    ensures |r| == |s| + 3 * Count(s, '\n')
    ensures '\n' !in s ==> r == s
  {
    if s == [] then ""
    else if s[0] == '\n' then Br + BrText(s[1..])
    else [s[0]] + BrText(s[1..])
  }

  /** Replacing newlines line by line is the same as replacing them in the whole text. */
  lemma {:induction false} BrTextConcat(a: string, b: string)
    ensures BrText(a + b) == BrText(a) + BrText(b)
  {
    if a != [] {
      var ab := a + b;
      assert ab[0] == a[0] && ab[1..] == a[1..] + b;
      BrTextConcat(a[1..], b);
      BrTextUnfold(ab);
      BrTextUnfold(a);
    } else {
      assert a + b == b;
    }
  }

  /** One step of the rewriting: the first character's share, then the rest. */
  lemma BrTextUnfold(s: string)
    requires s != []
    ensures BrText(s) == (if s[0] == '\n' then Br else [s[0]]) + BrText(s[1..])
  {
  }

  /** Reads every `<br>` of `r` back as a newline. */
  function UnBr(r: string): string {
    if r == [] then ""
    else if |r| >= 4 && r[..4] == Br then "\n" + UnBr(r[4..])
    else [r[0]] + UnBr(r[1..])
  }

  /** On texts without `<`, the `<br>` rewriting loses nothing: it can be undone. */
  lemma {:induction false} BrTextRoundTrip(s: string)
    requires '<' !in s
    ensures UnBr(BrText(s)) == s
  {
    if s != [] {
      var rest := BrText(s[1..]);
      assert '<' !in s[1..] by {
        forall k | 0 <= k < |s[1..]| ensures s[1..][k] != '<' {
          assert s[1..][k] == s[k + 1];
        }
      }
      BrTextRoundTrip(s[1..]);
      if s[0] == '\n' {
        var r := Br + rest;
        assert BrText(s) == r;
        assert r[..4] == Br && r[4..] == rest;
        assert UnBr(r) == "\n" + UnBr(rest);
        assert s == [s[0]] + s[1..];
      } else {
        var r := [s[0]] + rest;
        assert BrText(s) == r;
        assert r[0] == s[0] && s[0] != '<';
        assert |r| >= 4 ==> r[..4][0] == r[0];
        assert r[1..] == rest;
        assert UnBr(r) == [s[0]] + UnBr(rest);
        assert s == [s[0]] + s[1..];
      }
    }
  }

  // ---------------------------------------------------------------------
  // Message ids: Python's `str(int)` inside the deep link

  predicate IsDigit(c: char) {
    '0' <= c <= '9'
  }

  function DigitChar(d: nat): (c: char)
    requires d < 10
    ensures IsDigit(c)
  {
    ('0' as int + d) as char
  }

  function DigitValue(c: char): nat
    requires IsDigit(c)
  {
    c as int - '0' as int
  }

  /** Decimal digits of `n`, most significant first, without leading zeros: only 0 starts with `0`. */
  function NatToString(n: nat): (s: string)
    ensures |s| >= 1
    ensures forall i :: 0 <= i < |s| ==> IsDigit(s[i])
    ensures s[0] == '0' ==> n == 0
  {
    if n < 10 then [DigitChar(n)] else NatToString(n / 10) + [DigitChar(n % 10)]
  }

  /** The number a string of decimal digits denotes. */
  function DigitsValue(s: string): nat
    requires forall i :: 0 <= i < |s| ==> IsDigit(s[i])
  {
    if s == [] then 0 else 10 * DigitsValue(s[..|s| - 1]) + DigitValue(s[|s| - 1])
  }

  lemma {:induction false} NatToStringRoundTrip(n: nat)
    ensures DigitsValue(NatToString(n)) == n
  {
    if n >= 10 {
      var s := NatToString(n);
      assert s[..|s| - 1] == NatToString(n / 10);
      NatToStringRoundTrip(n / 10);
    }
  }

  /** Python's `str(i)` for an integer. */
  function IntToString(i: int): (s: string)
    ensures |s| >= 1
    ensures '/' !in s
    ensures forall k :: 0 < k < |s| ==> IsDigit(s[k])
    ensures (s[0] == '-') <==> i < 0
    ensures s[0] == '-' || IsDigit(s[0])
    ensures i >= 0 && s[0] == '0' ==> s == "0"
    ensures i < 0 ==> |s| >= 2 && s[1] != '0'
  {
    if i < 0 then "-" + NatToString(-i) else NatToString(i)
  }

  /** Python's `int(s)` on what `IntToString` produces. */
  function ParseInt(s: string): int
    requires |s| >= 1 && forall k :: 0 < k < |s| ==> IsDigit(s[k])
    requires s[0] == '-' || IsDigit(s[0])
  {
    if s[0] == '-' then -(DigitsValue(s[1..]) as int) else DigitsValue(s)
  }

  /** The decimal rendering of a message id determines the id. */
  lemma IntToStringRoundTrip(i: int)
    ensures ParseInt(IntToString(i)) == i
  {
    var s := IntToString(i);
    if i < 0 {
      assert s[1..] == NatToString(-i);
      NatToStringRoundTrip(-i);
    } else {
      NatToStringRoundTrip(i);
    }
  }
}
