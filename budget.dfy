/**
  Budget extraction in the chat handler (main.py): commas are removed from the
  query, then the regular expression `\$(\d{2,5})` is searched for. The first
  `$` that is followed by at least two digits starts the match, and up to five
  digits are taken greedily; `float` of those digits is the budget. A budget of
  zero is falsy in Python, so only a non-zero budget is ever acted on.
*/
module Budget {
  import opened Wrappers
  import opened Sequences

  predicate IsDigit(c: char) {
    '0' <= c <= '9'
  }

  function DigitValue(c: char): (n: nat)
    requires IsDigit(c)
    ensures n < 10
  {
    c as int - '0' as int
  }

  function DigitChar(n: nat): (c: char)
    requires n < 10
    ensures IsDigit(c) && DigitValue(c) == n
  {
    ('0' as int + n) as char
  }

  function Pow10(k: nat): nat {
    if k == 0 then 1 else 10 * Pow10(k - 1)
  }

  /** `query.replace(",", "")`. */
  function StripCommas(s: string): (r: string)
    ensures ',' !in r
    ensures Subseq(r, s)
    ensures forall c :: c != ',' ==> multiset(r)[c] == multiset(s)[c]
  {
    if s == [] then []
    else
      var rest := StripCommas(s[1..]);
      assert s == [s[0]] + s[1..];
      if s[0] == ',' then rest
      else
        assert ([s[0]] + rest)[1..] == rest;
        [s[0]] + rest
  }

  /** The decimal value of a string of digits, most significant first. */
  function DigitsValue(ds: string): (n: nat)
    requires forall i :: 0 <= i < |ds| ==> IsDigit(ds[i])
    ensures n < Pow10(|ds|)
  {
    if ds == [] then 0 else DigitsValue(ds[..|ds| - 1]) * 10 + DigitValue(ds[|ds| - 1])
  }

  /** The regular expression `\$\d{2}` matches at position i (the least the full pattern needs). */
  predicate MatchAt(s: string, i: nat) {
    i + 2 < |s| && s[i] == '$' && IsDigit(s[i + 1]) && IsDigit(s[i + 2])
  }

  /** The leftmost position, from i on, where the pattern matches; this is where `re.search` succeeds. */
  function FirstMatch(s: string, i: nat): (r: Option<nat>)
    requires i <= |s|
    ensures r.None? <==> forall j :: i <= j < |s| ==> !MatchAt(s, j)
    ensures r.Some? ==> i <= r.value < |s| && MatchAt(s, r.value)
    ensures r.Some? ==> forall j :: i <= j < r.value ==> !MatchAt(s, j)
    decreases |s| - i
  {
    if i + 2 >= |s| then None
    else if MatchAt(s, i) then Some(i)
    else FirstMatch(s, i + 1)
  }

  /** How many digits the greedy `\d{..cap}` consumes at position i. */
  function DigitRun(s: string, i: nat, cap: nat): (n: nat)
    requires i <= |s|
    ensures n <= cap && i + n <= |s|
    ensures forall k :: i <= k < i + n ==> IsDigit(s[k])
    ensures n < cap && i + n < |s| ==> !IsDigit(s[i + n])
    decreases cap
  {
    if cap == 0 || i == |s| || !IsDigit(s[i]) then 0 else 1 + DigitRun(s, i + 1, cap - 1)
  }

  /**
    The match of the whole pattern in s starts at j and its digits have value v:
    j is the leftmost match and the greedy group takes at most five digits.
  */
  ghost predicate BudgetAt(s: string, j: nat, v: nat) {
    && MatchAt(s, j)
    && (forall i :: 0 <= i < j ==> !MatchAt(s, i))
    && var n := DigitRun(s, j + 1, 5); 2 <= n && v == DigitsValue(s[j + 1..j + 1 + n])
  }

  /** The pattern matches nowhere in s. */
  predicate NoMatch(s: string) {
    forall j :: 0 <= j < |s| ==> !MatchAt(s, j)
  }

  /** The budget the handler parses from a query; None when the pattern does not occur. */
  function ParseBudget(query: string): (r: Option<nat>)
    ensures r.None? <==> NoMatch(StripCommas(query))
    ensures r.Some? ==> r.value < 100000
    ensures r.Some? ==> exists j :: BudgetAt(StripCommas(query), j, r.value)
  {
    SearchBudget(StripCommas(query))
  }

  /** `re.search(r"\$(\d{2,5})", s)` followed by `float` of the group, on comma-free text s. */
  function SearchBudget(s: string): (r: Option<nat>)
    ensures r.None? <==> NoMatch(s)
    ensures r.Some? ==> r.value < 100000
    ensures r.Some? ==> exists j :: BudgetAt(s, j, r.value)
  {
    var m := FirstMatch(s, 0);
    if m.None? then None
    else
      var j := m.value;
      var v := MatchValue(s, j);
      assert BudgetAt(s, j, v);
      Some(v)
  }

  /** The value of the digits the pattern captures when it matches at j. */
  function MatchValue(s: string, j: nat): (v: nat)
    requires MatchAt(s, j)
    ensures v < 100000
    ensures var n := DigitRun(s, j + 1, 5); 2 <= n && v == DigitsValue(s[j + 1..j + 1 + n])
  {
    var n := DigitRun(s, j + 1, 5);
    assert 2 <= n by { assert DigitRun(s, j + 2, 4) >= 1; }
    assert Pow10(n) <= Pow10(5) == 100000 by { Pow10Monotone(n, 5); }
    DigitsValue(s[j + 1..j + 1 + n])
  }

  lemma {:induction false} Pow10Monotone(a: nat, b: nat)
    requires a <= b
    ensures Pow10(a) <= Pow10(b)
  {
    if a < b { Pow10Monotone(a, b - 1); }
  }

  /** `if budget:` — a parsed budget counts only when it is present and non-zero. */
  predicate IsActive(budget: Option<nat>) {
    budget.Some? && budget.value != 0
  }

  /** Text without commas is left as it is by StripCommas. */
  lemma {:induction false} StripCommasNoComma(s: string)
    requires ',' !in s
    ensures StripCommas(s) == s
  {
    if s != [] {
      assert s == [s[0]] + s[1..];
      StripCommasNoComma(s[1..]);
    }
  }

  /** The leftmost match decides the budget: whatever BudgetAt pins down is what ParseBudget returns. */
  lemma ParseBudgetAt(query: string, j: nat, v: nat)
    requires BudgetAt(StripCommas(query), j, v)
    ensures ParseBudget(query) == Some(v)
  {
    SearchBudgetAt(StripCommas(query), j, v);
  }

  lemma SearchBudgetAt(s: string, j: nat, v: nat)
    requires BudgetAt(s, j, v)
    ensures SearchBudget(s) == Some(v)
  {
  }

  // Concrete queries. Each match fact is proved in a lemma of its own so that
  // the solver unfolds the functions on one literal at a time.

  lemma MatchWholeQuery()
    ensures BudgetAt("$200", 0, 200)
  {
  }

  lemma ExampleWholeQuery()
    ensures ParseBudget("$200") == Some(200)
  {
    StripCommasNoComma("$200");
    MatchWholeQuery();
    ParseBudgetAt("$200", 0, 200);
  }

  lemma MatchInSentence()
    ensures BudgetAt("headphones under $200", 17, 200)
  {
    assert DigitsValue("200") == 200 by { assert "200"[..2] == "20"; assert "20"[..1] == "2"; }
    assert "headphones under $200"[18..21] == "200";
  }

  lemma SentenceHasNoComma()
    ensures StripCommas("headphones under $200") == "headphones under $200"
  {
    StripCommasNoComma("headphones under $200");
  }

  lemma ExampleInSentence()
    ensures ParseBudget("headphones under $200") == Some(200)
  {
    SentenceHasNoComma();
    MatchInSentence();
    ParseBudgetAt("headphones under $200", 17, 200);
  }

  lemma MatchThousands()
    ensures BudgetAt("$1299", 0, 1299)
  {
    assert DigitsValue("1299") == 1299 by {
      assert "1299"[..3] == "129"; assert "129"[..2] == "12"; assert "12"[..1] == "1";
    }
    assert "$1299"[1..5] == "1299";
  }

  lemma ExampleThousands()
    ensures ParseBudget("$1,299") == Some(1299)
  {
    assert StripCommas("$1,299") == "$1299";
    MatchThousands();
    ParseBudgetAt("$1,299", 0, 1299);
  }

  lemma MatchFiveDigitCap()
    ensures BudgetAt("$123456", 0, 12345)
  {
    assert DigitRun("$123456", 1, 5) == 5;
    assert DigitsValue("12345") == 12345 by {
      assert "12345"[..4] == "1234"; assert "1234"[..3] == "123";
      assert "123"[..2] == "12"; assert "12"[..1] == "1";
    }
    assert "$123456"[1..6] == "12345";
  }

  lemma ExampleFiveDigitCap()
    ensures ParseBudget("$123456") == Some(12345)
  {
    StripCommasNoComma("$123456");
    MatchFiveDigitCap();
    ParseBudgetAt("$123456", 0, 12345);
  }

  lemma ExampleOneDigit()
    ensures ParseBudget("$5") == None
  {
  }

  lemma MatchAfterOneDigit()
    ensures BudgetAt("$5 or $80", 6, 80)
  {
  }

  lemma ExampleAfterOneDigit()
    ensures ParseBudget("$5 or $80") == Some(80)
  {
    StripCommasNoComma("$5 or $80");
    MatchAfterOneDigit();
    ParseBudgetAt("$5 or $80", 6, 80);
  }

  lemma MatchZero()
    ensures BudgetAt("$00", 0, 0)
  {
    assert DigitsValue("00") == 0 by { assert "00"[..1] == "0"; }
    assert "$00"[1..3] == "00";
  }

  lemma ExampleZero()
    ensures ParseBudget("$00") == Some(0) && !IsActive(ParseBudget("$00"))
  {
    StripCommasNoComma("$00");
    MatchZero();
    ParseBudgetAt("$00", 0, 0);
  }
}
