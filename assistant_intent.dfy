/** The keyword intent classifier of the shopping assistant page
    (`detectUserIntent`) and the typing hint (`getInputHint`). Both look at the
    lower-cased text. The two regular expressions of the classifier are
    written out as the scans a backtracking engine performs for them. */
module AssistantIntent {
  import opened Common
  import opened Strings

  const RECOMMENDATION_WORDS: seq<string> := ["推荐", "买什么", "选择", "哪个好"]
  const PRICE_WORDS: seq<string> := ["价格", "多少钱", "对比", "便宜"]
  const CATEGORIES: seq<string> := ["手机", "电脑", "笔记本", "耳机", "音响", "相机", "平板", "手表", "家电", "数码"]
  const YUAN: char := '元'
  const KUAI: char := '块'
  const BUDGET_WORD: string := "预算"

  datatype Intent =
    | Recommendation(category: string, budget: string)
    | Price(productName: string)
    | General

  /** Some word of `words` occurs in `s`. */
  predicate AnyContained(s: string, words: seq<string>) {
    exists i :: 0 <= i < |words| && Contains(s, words[i])
  }

  /** `words.find(w => s.includes(w)) || ''`: the first word of the list, in
      list order and not in text order, that occurs in `s`. */
  function FirstContained(s: string, words: seq<string>): (r: string)
    requires forall i :: 0 <= i < |words| ==> words[i] != ""
    ensures r == "" <==> !AnyContained(s, words)
    ensures r != "" ==> exists i :: 0 <= i < |words| && words[i] == r && Contains(s, r)
                                    && forall k :: 0 <= k < i ==> !Contains(s, words[k])
  {
    if words == [] then ""
    else if Contains(s, words[0]) then words[0]
    else
      var r := FirstContained(s, words[1..]);
      assert forall i :: 1 <= i < |words| ==> words[i] == words[1..][i - 1];
      r
  }

  // ---------------------------------------------------------------------
  // The budget expression `/(\d+).*?元|(\d+).*?块|预算.*?(\d+)/`, first match.

  /** No line terminator (which `.` refuses) in `s[lo..hi]`. */
  predicate OnOneLine(s: string, lo: int, hi: int)
    requires 0 <= lo <= hi <= |s|
  {
    forall i :: lo <= i < hi ==> !IsLineTerminator(s[i])
  }

  /** The end of the run of digits starting at `p`: where greedy `\d+` stops. */
  function RunEnd(s: string, p: nat): (e: nat)
    requires p <= |s|
    ensures p <= e <= |s| && AllDigits(s[p..e])
    ensures e == |s| || !IsDigit(s[e])
    decreases |s| - p
  {
    if p < |s| && IsDigit(s[p]) then
      var e := RunEnd(s, p + 1);
      assert forall i :: 0 <= i < e - p ==> s[p..e][i] == s[p + i];
      e
    else p
  }

  /** `.*?c` from `from`: `c` is reached before any line terminator. */
  function ReachesOnLine(s: string, from: nat, c: char): (r: bool)
    requires from <= |s| && !IsLineTerminator(c)
    ensures r <==> exists q :: from <= q < |s| && s[q] == c && OnOneLine(s, from, q)
    decreases |s| - from
  {
    if from == |s| then false
    else if s[from] == c then
      assert OnOneLine(s, from, from);
      true
    else if IsLineTerminator(s[from]) then
      assert forall q :: from < q < |s| ==> !OnOneLine(s, from, q);
      false
    else
      var r := ReachesOnLine(s, from + 1, c);
      assert forall q :: from < q < |s| ==> (OnOneLine(s, from, q) <==> OnOneLine(s, from + 1, q));
      r
  }

  /** `.*?\d` from `from`: the first digit before any line terminator. */
  function FirstDigitOnLine(s: string, from: nat): (r: Option<nat>)
    requires from <= |s|
    ensures r.Some? ==> from <= r.value < |s| && IsDigit(s[r.value]) && OnOneLine(s, from, r.value)
                        && forall q :: from <= q < r.value ==> !IsDigit(s[q])
    ensures r.None? ==> forall q :: from <= q < |s| && OnOneLine(s, from, q) ==> !IsDigit(s[q])
    decreases |s| - from
  {
    if from == |s| then None
    else if IsDigit(s[from]) then
      assert OnOneLine(s, from, from);
      Some(from)
    else if IsLineTerminator(s[from]) then
      assert forall q :: from < q < |s| ==> !OnOneLine(s, from, q);
      None
    else
      var r := FirstDigitOnLine(s, from + 1);
      assert forall q :: from < q < |s| ==> (OnOneLine(s, from, q) <==> OnOneLine(s, from + 1, q));
      r
  }

  /** The captured digits when the expression matches starting exactly at
      `p`, its alternatives tried in order. In the first two, greedy `\d+`
      takes the whole run and giving digits back never helps, since `.*?`
      would have to cross the same digits; in the third, `.*?` stops at the
      first digit after the word and `\d+` takes its run. */
  function MatchAt(s: string, p: nat): (r: Option<string>)
    requires p <= |s|
    ensures r.Some? ==> |r.value| > 0 && AllDigits(r.value)
  {
    if p < |s| && IsDigit(s[p]) then
      var e := RunEnd(s, p);
      if ReachesOnLine(s, e, YUAN) || ReachesOnLine(s, e, KUAI) then Some(s[p..e]) else None
    else if OccursAt(s, BUDGET_WORD, p) then
      match FirstDigitOnLine(s, p + 2)
      case None => None
      case Some(q) => Some(s[q..RunEnd(s, q)])
    else None
  }

  /** `s.match(re)` from position `p` on: the leftmost starting position wins. */
  function FindBudget(s: string, p: nat): (r: Option<string>)
    requires p <= |s|
    ensures r.Some? ==> |r.value| > 0 && AllDigits(r.value)
    ensures r.None? <==> forall k :: p <= k <= |s| ==> MatchAt(s, k).None?
    decreases |s| - p
  {
    if MatchAt(s, p).Some? then MatchAt(s, p)
    else if p == |s| then None
    else FindBudget(s, p + 1)
  }

  /** What `FindBudget` finds is the match at the leftmost position that has
      one. */
  lemma {:induction false} FindBudgetIsLeftmost(s: string, p: nat)
    requires p <= |s|
    ensures FindBudget(s, p).Some? ==>
      exists q :: p <= q <= |s| && MatchAt(s, q) == FindBudget(s, p) && forall k :: p <= k < q ==> MatchAt(s, k).None?
    decreases |s| - p
  {
    if MatchAt(s, p).Some? {
      assert MatchAt(s, p) == FindBudget(s, p);
    } else if p < |s| {
      FindBudgetIsLeftmost(s, p + 1);
      if FindBudget(s, p + 1).Some? {
        var q :| p + 1 <= q <= |s| && MatchAt(s, q) == FindBudget(s, p + 1) && forall k :: p + 1 <= k < q ==> MatchAt(s, k).None?;
        assert forall k :: p <= k < q ==> MatchAt(s, k).None?;
      }
    }
  }

  /** `${group}元` for the first match, `''` when the text has none. */
  function Budget(content: string): (b: string)
    ensures b == "" <==> forall k :: 0 <= k <= |content| ==> MatchAt(content, k).None?
    ensures b != "" ==> |b| >= 2 && b[|b| - 1] == YUAN && AllDigits(b[..|b| - 1])
  {
    match FindBudget(content, 0)
    case None => ""
    case Some(g) =>
      var b := g + [YUAN];
      assert b[..|b| - 1] == g;
      b
  }

  /** A number at the very start, followed by `元` on the same line, is the
      budget. */
  lemma {:induction false} LeadingAmountIsBudget(digits: string, rest: string)
    requires |digits| > 0 && AllDigits(digits)
    requires |rest| > 0 && rest[0] == YUAN
    ensures Budget(digits + rest) == digits + [YUAN]
  {
    var s := digits + rest;
    assert s[|digits|] == YUAN;
    assert RunEnd(s, |digits|) == |digits|;
    RunEndOfDigits(s, 0, |digits|);
    assert s[0..|digits|] == digits;
    assert OnOneLine(s, |digits|, |digits|);
    assert ReachesOnLine(s, |digits|, YUAN);
    assert MatchAt(s, 0) == Some(digits);
  }

  /** `预算` followed directly by a number: that number is the budget. */
  lemma {:induction false} StatedBudget(digits: string, rest: string)
    requires |digits| > 0 && AllDigits(digits)
    requires rest == [] || !IsDigit(rest[0])
    ensures Budget(BUDGET_WORD + digits + rest) == digits + [YUAN]
  {
    var s := BUDGET_WORD + digits + rest;
    var e := 2 + |digits|;
    assert s[..2] == BUDGET_WORD;
    assert OccursAt(s, BUDGET_WORD, 0);
    assert IsDigit(s[2]);
    assert FirstDigitOnLine(s, 2) == Some(2);
    assert e == |s| || !IsDigit(s[e]);
    assert RunEnd(s, e) == e;
    RunEndOfDigits(s, 2, e);
    assert s[2..e] == digits;
    assert MatchAt(s, 0) == Some(digits);
  }

  /** The run ends at the first non-digit. */
  lemma {:induction false} RunEndOfDigits(s: string, p: nat, e: nat)
    requires p <= e <= |s| && (forall i :: p <= i < e ==> IsDigit(s[i])) && RunEnd(s, e) == e
    ensures RunEnd(s, p) == e
    decreases e - p
  {
    if p < e {
      RunEndOfDigits(s, p + 1, e);
    }
  }

  /** Text without a digit has no budget. */
  lemma {:induction false} NoDigitNoBudget(s: string)
    requires forall i :: 0 <= i < |s| ==> !IsDigit(s[i])
    ensures Budget(s) == ""
  {
    forall k | 0 <= k <= |s| ensures MatchAt(s, k).None? {
      if OccursAt(s, BUDGET_WORD, k) {
        assert FirstDigitOnLine(s, k + 2).None?;
      }
    }
  }

  // ---------------------------------------------------------------------
  // The product expression `/(.+?)(?:价格|多少钱|对比|便宜)/`, first match.

  /** A price word starts at `j`. */
  predicate PriceWordAt(s: string, j: int) {
    OccursAt(s, "价格", j) || OccursAt(s, "多少钱", j) || OccursAt(s, "对比", j) || OccursAt(s, "便宜", j)
  }

  /** Lazy `.+?` from `p`, already stretched to `j`: the least end `>= j` with
      a price word there and no line terminator before it. */
  function ProductEnd(s: string, p: nat, j: nat): (r: Option<nat>)
    requires p < j <= |s| && OnOneLine(s, p, j)
    ensures r.Some? ==> j <= r.value <= |s| && OnOneLine(s, p, r.value) && PriceWordAt(s, r.value)
                        && forall k :: j <= k < r.value ==> !PriceWordAt(s, k)
    ensures r.None? ==> forall k :: j <= k <= |s| && OnOneLine(s, p, k) ==> !PriceWordAt(s, k)
    decreases |s| - j
  {
    if PriceWordAt(s, j) then Some(j)
    else if j < |s| && !IsLineTerminator(s[j]) then ProductEnd(s, p, j + 1)
    else
      assert forall k :: j < k <= |s| ==> !OnOneLine(s, p, k);
      None
  }

  /** The end of the captured product name when the expression matches
      starting exactly at `p`. */
  function ProductAt(s: string, p: nat): (r: Option<nat>)
    requires p <= |s|
    ensures r.Some? ==> p < r.value <= |s| && OnOneLine(s, p, r.value) && PriceWordAt(s, r.value)
                        && forall k :: p < k < r.value ==> !PriceWordAt(s, k)
    ensures r.None? ==> forall k :: p < k <= |s| && OnOneLine(s, p, k) ==> !PriceWordAt(s, k)
  {
    if p < |s| && !IsLineTerminator(s[p]) then ProductEnd(s, p, p + 1)
    else
      assert forall k :: p < k <= |s| ==> !OnOneLine(s, p, k);
      None
  }

  /** The leftmost match from `p` on: its start and the end of the group. */
  function FindProduct(s: string, p: nat): (r: Option<(nat, nat)>)
    requires p <= |s|
    ensures r.Some? ==> p <= r.value.0 <= |s| && ProductAt(s, r.value.0) == Some(r.value.1)
                        && forall k :: p <= k < r.value.0 ==> ProductAt(s, k).None?
    ensures r.None? ==> forall k :: p <= k <= |s| ==> ProductAt(s, k).None?
    decreases |s| - p
  {
    match ProductAt(s, p)
    case Some(j) => Some((p, j))
    case None => if p == |s| then None else FindProduct(s, p + 1)
  }

  /** `productMatch ? productMatch[1].trim() : ''` */
  function ProductName(content: string): (n: string)
    ensures n == [] || (!IsSpace(n[0]) && !IsSpace(n[|n| - 1]))
    ensures (forall p :: 0 <= p <= |content| ==> ProductAt(content, p).None?) ==> n == ""
  {
    match FindProduct(content, 0)
    case None => ""
    case Some((p, j)) => Trim(content[p..j])
  }

  /** On a single line with a price word somewhere after the first
      character, the product name is the trimmed shortest prefix that a price
      word follows. */
  lemma {:induction false} ProductNameIsShortestPrefix(s: string, j: nat)
    requires 0 < j <= |s| && OnOneLine(s, 0, |s|) && PriceWordAt(s, j)
    requires forall k :: 0 < k < j ==> !PriceWordAt(s, k)
    ensures ProductName(s) == Trim(s[..j])
  {
    assert OnOneLine(s, 0, j);
    var r := ProductAt(s, 0);
    assert r.Some?;
    assert r.value == j;
    assert FindProduct(s, 0) == Some((0, j));
  }

  /** Without a price word after the first character of a line, there is no
      product name. */
  lemma {:induction false} NoPriceWordNoName(s: string)
    requires forall k :: 0 < k <= |s| ==> !PriceWordAt(s, k)
    ensures ProductName(s) == ""
  {
    assert FindProduct(s, 0).None?;
  }

  // ---------------------------------------------------------------------
  // detectUserIntent

  /** `detectUserIntent(text)` */
  function DetectUserIntent(text: string): (r: Intent)
    ensures var content := ToLower(text);
      && (r.Recommendation? <==> AnyContained(content, RECOMMENDATION_WORDS))
      && (r.Price? <==> !AnyContained(content, RECOMMENDATION_WORDS) && AnyContained(content, PRICE_WORDS))
      && (r.General? <==> !AnyContained(content, RECOMMENDATION_WORDS) && !AnyContained(content, PRICE_WORDS))
  {
    var content := ToLower(text);
    if AnyContained(content, RECOMMENDATION_WORDS) then
      Recommendation(FirstContained(content, CATEGORIES), Budget(content))
    else if AnyContained(content, PRICE_WORDS) then
      Price(ProductName(content))
    else
      General
  }

  /** A price question carries the product name read from the lower-cased
      text: trimmed, and empty when no price word follows text on its line. */
  lemma PriceFields(text: string)
    requires DetectUserIntent(text).Price?
    ensures var n := DetectUserIntent(text).productName;
      && n == ProductName(ToLower(text))
      && (n == [] || (!IsSpace(n[0]) && !IsSpace(n[|n| - 1])))
  {
  }

  /** A recommendation carries the first category of the fixed list that the
      text mentions, or `''`, and the budget of the leftmost budget match. */
  lemma RecommendationFields(text: string)
    requires DetectUserIntent(text).Recommendation?
    ensures var content := ToLower(text);
      var r := DetectUserIntent(text);
      && (r.category == "" <==> !AnyContained(content, CATEGORIES))
      && (r.category != "" ==> exists i :: 0 <= i < |CATEGORIES| && CATEGORIES[i] == r.category
                                 && Contains(content, r.category) && forall k :: 0 <= k < i ==> !Contains(content, CATEGORIES[k]))
      && r.budget == Budget(content)
  {
  }

  /** Recommendation words are tested first: a text that asks for both a
      recommendation and a price is a recommendation. */
  lemma RecommendationBeatsPrice(text: string)
    requires Contains(text, "推荐") && Contains(text, "价格")
    ensures DetectUserIntent(text).Recommendation?
  {
    ContainsLowered(text, "推荐");
    assert Contains(ToLower(text), RECOMMENDATION_WORDS[0]);
  }

  // ---------------------------------------------------------------------
  // getInputHint

  const HINT_ADD_YEAR: string := "💡 提示：加上\"2024年最新\"获得最新产品推荐，如\"推荐2024年最新手机，预算3000元\""
  const HINT_LATEST_PRICE: string := "💡 提示：加上\"最新价格\"获得实时价格信息，如\"iPhone 15最新价格对比\""
  const HINT_BUY: string := "💡 提示：询问2024年最新购买建议，如\"2024年买什么手机好\""
  const HINT_BUDGET: string := "💡 提示：加上预算和年份获得精准推荐，如\"推荐2024年手机，预算3000元\""

  /** `getInputHint(text)`: the first rule that applies, in order. */
  function GetInputHint(text: string): (h: string)
    ensures text == "" ==> h == ""
    ensures h in {"", HINT_ADD_YEAR, HINT_LATEST_PRICE, HINT_BUY, HINT_BUDGET}
  {
    if text == "" then ""
    else
      var t := ToLower(text);
      if Contains(t, "推荐") && !Contains(t, "2024") && !Contains(t, "最新") then HINT_ADD_YEAR
      else if Contains(t, "价格") && !Contains(t, "最新") && !Contains(t, "实时") then HINT_LATEST_PRICE
      else if Contains(t, "买") && !Contains(t, "2024") then HINT_BUY
      else if Contains(t, "推荐") && !Contains(t, "预算") then HINT_BUDGET
      else ""
  }

  /** The four rules, tried in order: each hint is shown exactly when its own
      rule holds and no earlier rule does, and no hint is shown when none
      holds. */
  lemma HintRules(text: string)
    ensures var t := ToLower(text);
      var yearRule := Contains(t, "推荐") && !Contains(t, "2024") && !Contains(t, "最新");
      var priceRule := Contains(t, "价格") && !Contains(t, "最新") && !Contains(t, "实时");
      var buyRule := Contains(t, "买") && !Contains(t, "2024");
      var budgetRule := Contains(t, "推荐") && !Contains(t, "预算");
      && (GetInputHint(text) == HINT_ADD_YEAR <==> yearRule)
      && (GetInputHint(text) == HINT_LATEST_PRICE <==> !yearRule && priceRule)
      && (GetInputHint(text) == HINT_BUY <==> !yearRule && !priceRule && buyRule)
      && (GetInputHint(text) == HINT_BUDGET <==> !yearRule && !priceRule && !buyRule && budgetRule)
      && (GetInputHint(text) == "" <==> !yearRule && !priceRule && !buyRule && !budgetRule)
  {
    var t := ToLower(text);
    if text == "" {
      assert !Contains(t, "推荐") && !Contains(t, "价格") && !Contains(t, "买");
    }
  }

  /** A hint is only ever given to text that mentions recommending, a price or
      buying. */
  lemma HintNeedsKeyword(text: string)
    requires GetInputHint(text) != ""
    ensures var t := ToLower(text); Contains(t, "推荐") || Contains(t, "价格") || Contains(t, "买")
  {
  }

  /** The budget hint appears only when the year hint did not, so only for a
      recommendation that already names the year or "latest" but no budget. */
  lemma BudgetHintIsLastResort(text: string)
    requires GetInputHint(text) == HINT_BUDGET
    ensures var t := ToLower(text);
      Contains(t, "推荐") && !Contains(t, "预算") && (Contains(t, "2024") || Contains(t, "最新"))
  {
  }

  /** Text that names the year, "latest" and a budget, as the quick prompts do,
      gets no hint. */
  lemma {:induction false} CompletePromptGetsNoHint(text: string)
    requires Contains(text, "2024") && Contains(text, "最新") && Contains(text, "预算")
    ensures GetInputHint(text) == ""
  {
    ContainsLowered(text, "2024");
    ContainsLowered(text, "最新");
    ContainsLowered(text, "预算");
  }
}
