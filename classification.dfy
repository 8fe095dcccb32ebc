/** The row classifier: the third column of a row is lower-cased and searched
    for keyword substrings in a fixed priority order (revenue, then cost of
    revenue, then expense); a type mentioning none of them is unknown. */
module Classification {

  datatype Category = Revenue | CostOfRevenue | Expense | Unknown

  const RevenueKeywords: seq<string> := ["rev", "gelir"]
  const CostKeywords: seq<string> := ["cog", "cost", "maliyet"]
  const ExpenseKeywords: seq<string> := ["exp", "gider", "tax", "vergi"]

  predicate IsUpper(c: char) {
    'A' <= c <= 'Z'
  }

  /** `str.lower()` on one character, restricted to ASCII. */
  function LowerChar(c: char): (r: char)
    ensures !IsUpper(r)
    ensures !IsUpper(c) ==> r == c
    ensures IsUpper(c) ==> 'a' <= r <= 'z' && r as int - c as int == 'a' as int - 'A' as int
  {
    if IsUpper(c) then (c as int - 'A' as int + 'a' as int) as char else c
  }

  /** `str.lower()`: every character lower-cased, position by position. */
  function Lower(s: string): (r: string)
    ensures |r| == |s|
    ensures forall i :: 0 <= i < |s| ==> r[i] == LowerChar(s[i])
  {
    if s == [] then [] else [LowerChar(s[0])] + Lower(s[1..])
  }

  /** The keyword `k` starts at position `i` of `s`. */
  ghost predicate OccursAt(s: string, k: string, i: int) {
    0 <= i && i + |k| <= |s| && s[i..i + |k|] == k
  }

  /** Python's `k in s` on strings: substring search. */
  function Contains(s: string, k: string): (r: bool)
    ensures r <==> exists i :: OccursAt(s, k, i)
    decreases |s|
  {
    if |s| < |k| then false
    else if s[..|k|] == k then
      assert OccursAt(s, k, 0);
      true
    else
      ContainsShift(s, k);
      Contains(s[1..], k)
  }

  /** Occurrences in `s` past its first position are the occurrences in `s[1..]`. */
  lemma ContainsShift(s: string, k: string)
    requires |s| >= |k| && s[..|k|] != k
    ensures (exists i :: OccursAt(s, k, i)) <==> (exists i :: OccursAt(s[1..], k, i))
  {
    if i :| OccursAt(s, k, i) {
      assert i != 0;
      assert s[1..][i - 1..i - 1 + |k|] == s[i..i + |k|];
      assert OccursAt(s[1..], k, i - 1);
    }
    if i :| OccursAt(s[1..], k, i) {
      assert s[1..][i..i + |k|] == s[i + 1..i + 1 + |k|];
      assert OccursAt(s, k, i + 1);
    }
  }

  /** Some keyword of `ks` occurs in `s`. */
  ghost predicate Mentions(s: string, ks: seq<string>) {
    exists j, i :: 0 <= j < |ks| && OccursAt(s, ks[j], i)
  }

  /** The `or`-chain of substring tests on one keyword list. */
  function ContainsAny(s: string, ks: seq<string>): (r: bool)
    ensures r <==> Mentions(s, ks)
  {
    if ks == [] then false
    else if Contains(s, ks[0]) then true
    else
      var r := ContainsAny(s, ks[1..]);
      assert Mentions(s, ks[1..]) ==> Mentions(s, ks) by {
        if Mentions(s, ks[1..]) {
          var j, i :| 0 <= j < |ks[1..]| && OccursAt(s, ks[1..][j], i);
          assert OccursAt(s, ks[j + 1], i);
        }
      }
      assert Mentions(s, ks) ==> Mentions(s, ks[1..]) by {
        if Mentions(s, ks) {
          var j, i :| 0 <= j < |ks| && OccursAt(s, ks[j], i);
          assert j != 0;
          assert OccursAt(s, ks[1..][j - 1], i);
        }
      }
      r
  }

  /** The category of a row from its type column: the first keyword list,
      in priority order, that the lower-cased type mentions. */
  function Classify(rowType: string): (c: Category)
    ensures c == Revenue <==> Mentions(Lower(rowType), RevenueKeywords)
    ensures c == CostOfRevenue <==>
      !Mentions(Lower(rowType), RevenueKeywords) && Mentions(Lower(rowType), CostKeywords)
    ensures c == Expense <==>
      !Mentions(Lower(rowType), RevenueKeywords) && !Mentions(Lower(rowType), CostKeywords)
      && Mentions(Lower(rowType), ExpenseKeywords)
    ensures c == Unknown <==>
      !Mentions(Lower(rowType), RevenueKeywords) && !Mentions(Lower(rowType), CostKeywords)
      && !Mentions(Lower(rowType), ExpenseKeywords)
  {
    var t := Lower(rowType);
    if ContainsAny(t, RevenueKeywords) then Revenue
    else if ContainsAny(t, CostKeywords) then CostOfRevenue
    else if ContainsAny(t, ExpenseKeywords) then Expense
    else Unknown
  }

  /** Lower-casing twice is lower-casing once. */
  lemma LowerIdempotent(s: string)
    ensures Lower(Lower(s)) == Lower(s)
  {
    forall i | 0 <= i < |s|
      ensures Lower(Lower(s))[i] == Lower(s)[i]
    {
    }
  }

  /** Classification ignores letter case: only the lower-cased type is inspected. */
  lemma ClassifyIgnoresCase(s: string)
    ensures Classify(Lower(s)) == Classify(s)
  {
    LowerIdempotent(s);
  }

  /** Two types that differ only in letter case land in the same category. */
  lemma ClassifySameLower(s: string, t: string)
    requires Lower(s) == Lower(t)
    ensures Classify(s) == Classify(t)
  {
  }

  /** A revenue keyword wins whatever cost or expense keywords also occur. */
  lemma RevenueKeywordWins(s: string, i: int)
    requires OccursAt(Lower(s), "rev", i) || OccursAt(Lower(s), "gelir", i)
    ensures Classify(s) == Revenue
  {
    if OccursAt(Lower(s), "rev", i) {
      assert OccursAt(Lower(s), RevenueKeywords[0], i);
    } else {
      assert OccursAt(Lower(s), RevenueKeywords[1], i);
    }
  }

  /** With no revenue keyword present, a cost keyword beats any expense keyword. */
  lemma CostKeywordBeatsExpense(s: string, k: nat, i: int)
    requires !Mentions(Lower(s), RevenueKeywords)
    requires k < |CostKeywords| && OccursAt(Lower(s), CostKeywords[k], i)
    ensures Classify(s) == CostOfRevenue
  {
  }

  /** No keyword of `ks` can occur in `s` when each is longer than `s` or
      starts with a character `s` lacks. */
  lemma NotMentioned(s: string, ks: seq<string>)
    requires forall j :: 0 <= j < |ks| ==> |ks[j]| > |s| || (|ks[j]| > 0 && ks[j][0] !in s)
    ensures !Mentions(s, ks)
  {
  }

  /** The revenue type name of the bundled template. */
  lemma TemplateRevenue()
    ensures Classify("Revenue") == Revenue
  {
    var r := Lower("Revenue");
    assert r[0] == 'r' && r[1] == 'e' && r[2] == 'v';
    assert OccursAt(r, RevenueKeywords[0], 0);
  }

  /** The cost type name of the bundled template. */
  lemma TemplateCogs()
    ensures Classify("COGS") == CostOfRevenue
  {
    var c := Lower("COGS");
    assert c == "cogs";
    NotMentioned(c, RevenueKeywords);
    assert OccursAt(c, CostKeywords[0], 0);
  }

  /** The expense type name of the bundled template. */
  lemma TemplateExpense()
    ensures Classify("Expense") == Expense
  {
    assert Lower("Expense") == "expense";
    ExpenseMentionsOnlyExpense();
  }

  lemma ExpenseMentionsOnlyExpense()
    ensures !Mentions("expense", RevenueKeywords) && !Mentions("expense", CostKeywords)
    ensures Mentions("expense", ExpenseKeywords)
  {
    NotMentioned("expense", RevenueKeywords);
    NotMentioned("expense", CostKeywords);
    assert OccursAt("expense", ExpenseKeywords[0], 0);
  }

  /** A type whose characters at `i`, `i + 1` and `i + 2` lower-case to
      `rev` is revenue. */
  lemma RevAt(s: string, i: nat)
    requires i + 3 <= |s|
    requires LowerChar(s[i]) == 'r' && LowerChar(s[i + 1]) == 'e' && LowerChar(s[i + 2]) == 'v'
    ensures Classify(s) == Revenue
  {
    assert Lower(s)[i..i + 3] == "rev";
    RevenueKeywordWins(s, i);
  }

  /** The application's own cost-of-revenue caption, used as a type, is
      classified as revenue: "Revenue" holds the revenue keyword `rev`, and
      the revenue keywords come first. */
  lemma CostOfRevenueCaptionIsRevenue()
    ensures Classify("Cost of Revenue (COGS)") == Revenue
  {
    RevAt("Cost of Revenue (COGS)", 8);
  }

  /** An empty type mentions no keyword, so its row is dropped. */
  lemma EmptyTypeIsUnknown()
    ensures Classify("") == Unknown
  {
  }
}
