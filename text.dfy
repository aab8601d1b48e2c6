/** ASCII case folding and substring search: the lowercasing and
    `includes` test that the sidebar filter applies to each list entry. */
module TextSearch {

  /** Lower-cases one ASCII letter and leaves every other character alone. */
  function LowerChar(c: char): char
  {
    if 'A' <= c <= 'Z' then (c as int + 32) as char else c
  }

  /** The ASCII lower-case form of a string, character by character. */
  function Lower(s: string): (r: string)
    ensures |r| == |s|
    ensures forall i :: 0 <= i < |s| ==> r[i] == LowerChar(s[i])
  {
    seq(|s|, i requires 0 <= i < |s| => LowerChar(s[i]))
  }

  /** Lowering twice is lowering once. */
  lemma LowerIdempotent(s: string)
    ensures Lower(Lower(s)) == Lower(s)
  {
    assert forall i :: 0 <= i < |s| ==> Lower(Lower(s))[i] == Lower(s)[i];
  }

  /** A lowered string holds no upper-case ASCII letter. */
  lemma LowerHasNoCapitals(s: string)
    ensures forall i :: 0 <= i < |s| ==> !('A' <= Lower(s)[i] <= 'Z')
  {
  }

  /** Lowering distributes over concatenation. */
  lemma LowerAppend(a: string, b: string)
    ensures Lower(a + b) == Lower(a) + Lower(b)
  {
  }

  /** `query` occurs in `text` starting at position `k`. */
  ghost predicate OccursAt(text: string, query: string, k: int)
  {
    0 <= k && k + |query| <= |text| && text[k..k + |query|] == query
  }

  /** Reference meaning of a substring test: some position holds the query. */
  ghost predicate Contains(text: string, query: string)
  {
    exists k :: OccursAt(text, query, k)
  }

  /** A query found in `a` is found in any text that starts with `a`. */
  lemma ContainsInPrefix(a: string, b: string, query: string)
    requires Contains(a, query)
    ensures Contains(a + b, query)
  {
    var k :| OccursAt(a, query, k);
    assert (a + b)[k..k + |query|] == a[k..k + |query|];
    assert OccursAt(a + b, query, k);
  }

  /** A query found in `b` is found in any text that ends with `b`. */
  lemma ContainsInSuffix(a: string, b: string, query: string)
    requires Contains(b, query)
    ensures Contains(a + b, query)
  {
    var k :| OccursAt(b, query, k);
    assert (a + b)[|a| + k..|a| + k + |query|] == b[k..k + |query|];
    assert OccursAt(a + b, query, |a| + k);
  }

  /** When the query is not at the front of `text`, it occurs in `text`
      exactly when it occurs in `text` without its first character. */
  lemma ContainsShift(text: string, query: string)
    requires |query| <= |text| && text[..|query|] != query
    ensures Contains(text, query) <==> Contains(text[1..], query)
  {
    if Contains(text, query) {
      var k :| OccursAt(text, query, k);
      assert k != 0;
      assert text[1..][k - 1..k - 1 + |query|] == text[k..k + |query|];
      assert OccursAt(text[1..], query, k - 1);
    }
    if Contains(text[1..], query) {
      var k :| OccursAt(text[1..], query, k);
      assert text[1..][k..k + |query|] == text[k + 1..k + 1 + |query|];
      assert OccursAt(text, query, k + 1);
    }
  }

  /** The substring test (String.prototype.includes): true exactly when
      the query occurs somewhere in the text. */
  function Includes(text: string, query: string): (r: bool)
    ensures r <==> Contains(text, query)
    decreases |text|
  {
    if |text| < |query| then false
    else if text[..|query|] == query then assert OccursAt(text, query, 0); true
    else ContainsShift(text, query); Includes(text[1..], query)
  }

  /** The empty query occurs in every text. */
  lemma IncludesEmpty(text: string)
    ensures Includes(text, "")
  {
    assert OccursAt(text, "", 0);
  }
}
