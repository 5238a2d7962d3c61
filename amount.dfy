/** The two amount patterns of the detection service, written as leftmost-first matchers:
    WeChat's `¥([0-9]+\.?[0-9]*)` and Alipay's `([0-9]+\.?[0-9]*)元`. Each returns capture
    group 1 of the first match, as `Matcher.find()` followed by `group(1)` does. */
module AmountPatterns {
  import opened Base

  /** The currency sign that precedes a WeChat amount (U+00A5). */
  const CurrencySign: char := '¥'
  /** The currency word that follows an Alipay amount. */
  const CurrencyWord: char := '元'

  /** Text that `[0-9]+\.?[0-9]*` matches: a digit first, then only digits and at most
      one '.'. */
  predicate AmountShape(g: string) {
    && |g| > 0 && IsDigit(g[0])
    && (forall i :: 0 <= i < |g| ==> IsDigit(g[i]) || g[i] == '.')
    && (forall i, j :: 0 <= i < j < |g| && g[i] == '.' ==> g[j] != '.')
  }

  /** The `n` characters from `j` are the longest amount-shaped text that starts at `j`:
      what the greedy quantifiers of `[0-9]+\.?[0-9]*` capture there. */
  predicate LongestAmountAt(s: string, j: int, n: int) {
    && 0 <= j && 0 <= n && j + n <= |s|
    && AmountShape(s[j..j + n])
    && (j + n == |s| || !AmountShape(s[j..j + n + 1]))
  }

  /** Every non-empty prefix of an amount is an amount. */
  lemma AmountShapePrefix(g: string, n: nat)
    ensures AmountShape(g) && 0 < n <= |g| ==> AmountShape(g[..n])
  {
    if 0 < n <= |g| {
      assert forall i :: 0 <= i < n ==> g[..n][i] == g[i];
    }
  }

  /** Every non-empty text from `j` that ends inside an amount is an amount. */
  lemma ShorterAmounts(s: string, j: int, n: int)
    requires 0 <= j && 0 <= n && j + n <= |s| && AmountShape(s[j..j + n])
    ensures forall e :: j < e <= j + n ==> AmountShape(s[j..e])
  {
    forall e | j < e <= j + n
      ensures AmountShape(s[j..e])
    {
      assert s[j..e] == s[j..j + n][..e - j];
      AmountShapePrefix(s[j..j + n], e - j);
    }
  }

  /** At a given start there is only one longest amount. */
  lemma LongestAmountUnique(s: string, j: int, n1: int, n2: int)
    ensures LongestAmountAt(s, j, n1) && LongestAmountAt(s, j, n2) ==> n1 == n2
  {
    if LongestAmountAt(s, j, n1) && LongestAmountAt(s, j, n2) {
      ShorterAmounts(s, j, n1);
      ShorterAmounts(s, j, n2);
    }
  }

  /** The number of digits in a row from `j`. */
  function DigitRun(s: string, j: nat): (n: nat)
    requires j <= |s|
    ensures j + n <= |s|
    ensures forall k :: j <= k < j + n ==> IsDigit(s[k])
    ensures j + n == |s| || !IsDigit(s[j + n])
    decreases |s| - j
  {
    if j < |s| && IsDigit(s[j]) then 1 + DigitRun(s, j + 1) else 0
  }

  /** Greedy matching of `[0-9]+\.?[0-9]*` from a digit at `j`: every digit, then a '.'
      if one follows, then every digit after it. Its length is the longest amount. */
  function GreedyAmount(s: string, j: nat): (n: nat)
    requires j < |s| && IsDigit(s[j])
    ensures LongestAmountAt(s, j, n)
  {
    var e := j + DigitRun(s, j);
    if e < |s| && s[e] == '.' then
      var f := e + 1 + DigitRun(s, e + 1);
      var g := s[j..f];
      assert forall i :: 0 <= i < |g| && i != e - j ==> IsDigit(g[i]);
      assert AmountShape(g);
      assert f < |s| ==> s[j..f + 1][e - j] == '.' && s[j..f + 1][f - j] == s[f];
      f - j
    else
      assert e < |s| ==> s[j..e + 1][e - j] == s[e];
      e - j
  }

  // ---------------------------------------------------------------------------------
  // WeChat: ¥([0-9]+\.?[0-9]*)

  /** A match of the WeChat pattern at `p` whose group is the `n` characters after '¥'. */
  predicate WechatMatchAt(s: string, p: int, n: int) {
    0 <= p < |s| && s[p] == CurrencySign && LongestAmountAt(s, p + 1, n)
  }

  /** The match `find()` reports: the one with the leftmost start. */
  ghost predicate WechatFirstMatch(s: string, p: int, n: int) {
    WechatMatchAt(s, p, n) && forall q, m :: 0 <= q < p ==> !WechatMatchAt(s, q, m)
  }

  /** No amount-shaped text starts at `j` unless a digit stands there. */
  lemma NoAmountWithoutDigit(s: string, j: int, n: int)
    requires 0 <= j <= |s| && (j == |s| || !IsDigit(s[j]))
    ensures !LongestAmountAt(s, j, n)
  {
  }

  /** The first WeChat match at or after `p`, as (start, group length). */
  function FindWechat(s: string, p: nat): (r: Option<(nat, nat)>)
    requires p <= |s|
    ensures r.Some? ==> p <= r.value.0 && WechatMatchAt(s, r.value.0, r.value.1)
    ensures r.Some? ==> forall q, m :: p <= q < r.value.0 ==> !WechatMatchAt(s, q, m)
    ensures r.None? ==> forall q, m :: p <= q ==> !WechatMatchAt(s, q, m)
    decreases |s| - p
  {
    if p == |s| then None
    else if s[p] == CurrencySign && p + 1 < |s| && IsDigit(s[p + 1]) then
      Some((p, GreedyAmount(s, p + 1)))
    else
      assert forall m :: !WechatMatchAt(s, p, m) by {
        forall m ensures !WechatMatchAt(s, p, m) {
          if s[p] == CurrencySign { NoAmountWithoutDigit(s, p + 1, m); }
        }
      }
      FindWechat(s, p + 1)
  }

  /** Group 1 of the first match of `¥([0-9]+\.?[0-9]*)` in `s`, if there is a match. */
  function MatchWechat(s: string): (r: Option<string>)
    ensures r.None? <==> forall p, n :: !WechatMatchAt(s, p, n)
    ensures r.Some? ==> exists p, n :: WechatFirstMatch(s, p, n) && r.value == s[p + 1..p + 1 + n]
    ensures r.Some? ==> AmountShape(r.value)
  {
    match FindWechat(s, 0)
    case None => None
    case Some((p, n)) =>
      assert WechatFirstMatch(s, p, n);
      Some(s[p + 1..p + 1 + n])
  }

  /** The first match determines the result: whatever match has the leftmost start,
      its group is what `MatchWechat` returns. */
  lemma WechatMatchDeterministic(s: string, p: int, n: int)
    requires WechatFirstMatch(s, p, n)
    ensures MatchWechat(s) == Some(s[p + 1..p + 1 + n])
  {
    var f := FindWechat(s, 0);
    assert f.Some? by {
      assert WechatMatchAt(s, p, n);
    }
    var (p', n') := f.value;
    assert p' == p by {
      assert !WechatMatchAt(s, p', n') || p <= p';
      assert !WechatMatchAt(s, p, n) || p' <= p;
    }
    LongestAmountUnique(s, p + 1, n, n');
  }

  /** "¥88.00" yields "88.00". */
  lemma WechatExample()
    ensures MatchWechat("支付成功¥88.00") == Some("88.00")
  {
    var s := "支付成功¥88.00";
    assert s[5..10] == "88.00";
    assert AmountShape(s[5..10]);
    assert LongestAmountAt(s, 5, 5);
    assert WechatMatchAt(s, 4, 5);
    assert forall q :: 0 <= q < 4 ==> s[q] != CurrencySign;
    assert WechatFirstMatch(s, 4, 5);
    WechatMatchDeterministic(s, 4, 5);
  }

  // ---------------------------------------------------------------------------------
  // Alipay: ([0-9]+\.?[0-9]*)元

  /** A match of the Alipay pattern at `p` whose group is the `n` characters before '元'. */
  predicate AlipayMatchAt(s: string, p: int, n: int) {
    0 <= p && 0 <= n && p + n < |s| && AmountShape(s[p..p + n]) && s[p + n] == CurrencyWord
  }

  ghost predicate AlipayFirstMatch(s: string, p: int, n: int) {
    AlipayMatchAt(s, p, n) && forall q, m :: 0 <= q < p ==> !AlipayMatchAt(s, q, m)
  }

  /** Since '元' is neither a digit nor '.', an Alipay group is the longest amount at its start. */
  lemma AlipayGroupIsLongest(s: string, p: int, n: int)
    ensures AlipayMatchAt(s, p, n) ==> LongestAmountAt(s, p, n)
  {
    if AlipayMatchAt(s, p, n) {
      assert s[p..p + n + 1][n] == CurrencyWord;
    }
  }

  /** At a start where greedy matching does not end right before '元' there is no match. */
  lemma NoAlipayMatchAt(s: string, p: nat, m: int)
    requires p < |s|
    requires !IsDigit(s[p]) || !AlipayMatchAt(s, p, GreedyAmount(s, p))
    ensures !AlipayMatchAt(s, p, m)
  {
    if IsDigit(s[p]) {
      AlipayGroupIsLongest(s, p, m);
      LongestAmountUnique(s, p, m, GreedyAmount(s, p));
    }
  }

  /** The first Alipay match at or after `p`, as (start, group length). */
  function FindAlipay(s: string, p: nat): (r: Option<(nat, nat)>)
    requires p <= |s|
    ensures r.Some? ==> p <= r.value.0 && AlipayMatchAt(s, r.value.0, r.value.1)
    ensures r.Some? ==> forall q, m :: p <= q < r.value.0 ==> !AlipayMatchAt(s, q, m)
    ensures r.None? ==> forall q, m :: p <= q ==> !AlipayMatchAt(s, q, m)
    decreases |s| - p
  {
    if p == |s| then None
    else if IsDigit(s[p]) && AlipayMatchAt(s, p, GreedyAmount(s, p)) then
      Some((p, GreedyAmount(s, p)))
    else
      assert forall m :: !AlipayMatchAt(s, p, m) by {
        forall m ensures !AlipayMatchAt(s, p, m) { NoAlipayMatchAt(s, p, m); }
      }
      FindAlipay(s, p + 1)
  }

  /** Group 1 of the first match of `([0-9]+\.?[0-9]*)元` in `s`, if there is a match. */
  function MatchAlipay(s: string): (r: Option<string>)
    ensures r.None? <==> forall p, n :: !AlipayMatchAt(s, p, n)
    ensures r.Some? ==> exists p, n :: AlipayFirstMatch(s, p, n) && r.value == s[p..p + n]
    ensures r.Some? ==> AmountShape(r.value)
  {
    match FindAlipay(s, 0)
    case None => None
    case Some((p, n)) =>
      assert AlipayFirstMatch(s, p, n);
      Some(s[p..p + n])
  }

  lemma AlipayMatchDeterministic(s: string, p: int, n: int)
    requires AlipayFirstMatch(s, p, n)
    ensures MatchAlipay(s) == Some(s[p..p + n])
  {
    var r := MatchAlipay(s);
    assert r.Some?;
    var p', n' :| AlipayFirstMatch(s, p', n') && r.value == s[p'..p' + n'];
    AlipayGroupIsLongest(s, p, n);
    AlipayGroupIsLongest(s, p, n');
    LongestAmountUnique(s, p, n, n');
  }

  /** "35.50元" yields "35.50". */
  lemma AlipayExample()
    ensures MatchAlipay("支付成功35.50元") == Some("35.50")
  {
    var s := "支付成功35.50元";
    assert s[4..9] == "35.50";
    assert AmountShape(s[4..9]);
    assert AlipayMatchAt(s, 4, 5);
    assert forall q :: 0 <= q < 4 ==> !IsDigit(s[q]);
    assert AlipayFirstMatch(s, 4, 5);
    AlipayMatchDeterministic(s, 4, 5);
  }

  /** A '.' too many moves the match: in "1.2.3元" the first start with a match is the
      '2', so the group is "2.3". */
  lemma AlipaySecondDotExample()
    ensures MatchAlipay("1.2.3元") == Some("2.3")
  {
    var s := "1.2.3元";
    assert s[2..5] == "2.3";
    assert AmountShape(s[2..5]);
    assert AlipayMatchAt(s, 2, 3);
    assert forall m :: !AlipayMatchAt(s, 1, m);
    assert forall k :: 0 <= k < 5 ==> s[k] != CurrencyWord;
    assert s[0..5][1] == '.' && s[0..5][3] == '.';
    assert forall m :: !AlipayMatchAt(s, 0, m);
    assert AlipayFirstMatch(s, 2, 3);
    AlipayMatchDeterministic(s, 2, 3);
  }
}
