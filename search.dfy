/** The catalog search (`filterContent`): normalise the term, then keep, in
    catalog order, the categories whose name, description or some tool
    contains it, all compared lower-cased. */
module Search {
  import opened Text
  import opened Catalog

  /** `searchTerm.toLowerCase().trim()`. */
  function Normalize(term: String): String {
    Trim(LowerStr(term))
  }

  /** `tools.some(tool => tool.toLowerCase().includes(t))`. */
  predicate SomeToolIncludes(tools: seq<String>, t: String) {
    tools != [] && (Includes(LowerStr(tools[0]), t) || SomeToolIncludes(tools[1..], t))
  }

  /** The filter callback of `filterContent`: a matching tool, a matching
      category name or a matching description. */
  predicate Matches(c: AutomationCategory, t: String) {
    SomeToolIncludes(c.tools, t)
    || Includes(LowerStr(c.category), t)
    || Includes(LowerStr(c.description), t)
  }

  /** `data.filter(...)` with the callback above: the matching categories,
      in their original order. */
  function FilterMatching(data: seq<AutomationCategory>, t: String): (r: seq<AutomationCategory>)
    ensures |r| <= |data|
    ensures forall c :: c in r <==> c in data && Matches(c, t)
  {
    if data == [] then []
    else (if Matches(data[0], t) then [data[0]] else []) + FilterMatching(data[1..], t)
  }

  /** What `filterContent` hands to the renderer for `searchTerm`: the whole
      catalog when the normalised term is empty, else the matching categories. */
  function FilterContent(catalog: seq<AutomationCategory>, searchTerm: String): (r: seq<AutomationCategory>)
    ensures forall c :: c in r <==> c in catalog && Selects(searchTerm, c)
  {
    var t := Normalize(searchTerm);
    if t == [] then catalog else FilterMatching(catalog, t)
  }

  /** Whether `c` is shown for `searchTerm`. */
  predicate Selects(searchTerm: String, c: AutomationCategory) {
    var t := Normalize(searchTerm);
    t == [] || Matches(c, t)
  }

  // ----- properties -----

  /** `some` holds exactly when one of the tools contains the term. */
  lemma {:induction false} SomeToolIncludesIff(tools: seq<String>, t: String)
    ensures SomeToolIncludes(tools, t) <==> exists k :: 0 <= k < |tools| && Includes(LowerStr(tools[k]), t)
  {
    if tools != [] {
      SomeToolIncludesIff(tools[1..], t);
      assert forall k :: 1 <= k < |tools| ==> tools[k] == tools[1..][k - 1];
    }
  }

  /** A category is kept iff the term occurs in its lower-cased name, its
      lower-cased description or one of its lower-cased tools. */
  lemma MatchesIff(c: AutomationCategory, t: String)
    ensures Matches(c, t) <==>
      (exists i :: OccursAt(LowerStr(c.category), t, i))
      || (exists i :: OccursAt(LowerStr(c.description), t, i))
      || ToolOccurs(c.tools, t)
  {
    IncludesIff(LowerStr(c.category), t);
    IncludesIff(LowerStr(c.description), t);
    SomeToolIncludesIff(c.tools, t);
    if SomeToolIncludes(c.tools, t) {
      var k :| 0 <= k < |c.tools| && Includes(LowerStr(c.tools[k]), t);
      IncludesIff(LowerStr(c.tools[k]), t);
      var i :| OccursAt(LowerStr(c.tools[k]), t, i);
      assert ToolOccurs(c.tools, t);
    }
    if ToolOccurs(c.tools, t) {
      var k, i :| 0 <= k < |c.tools| && OccursAt(LowerStr(c.tools[k]), t, i);
      IncludesIff(LowerStr(c.tools[k]), t);
      assert Includes(LowerStr(c.tools[k]), t);
    }
    assert SomeToolIncludes(c.tools, t) <==> ToolOccurs(c.tools, t);
    assert Includes(LowerStr(c.category), t) <==> exists i :: OccursAt(LowerStr(c.category), t, i);
    assert Includes(LowerStr(c.description), t) <==> exists i :: OccursAt(LowerStr(c.description), t, i);
  }

  /** The term occurs in one of the lower-cased tools. */
  ghost predicate ToolOccurs(tools: seq<String>, t: String) {
    exists k, i :: 0 <= k < |tools| && OccursAt(LowerStr(tools[k]), t, i)
  }

  /** The normalised term is empty exactly when the raw term is all
      whitespace (the empty term included). */
  lemma BlankTermIff(term: String)
    ensures Normalize(term) == [] <==> AllWhitespace(term)
  {
    var l := LowerStr(term);
    TrimSpec(l);
    forall i | 0 <= i < |term| ensures IsWhitespace(l[i]) <==> IsWhitespace(term[i]) {
      LowerKeepsWhitespace(term[i]);
    }
  }

  /** An empty or whitespace-only term shows the whole catalog, unchanged
      and in its original order. */
  lemma BlankTermShowsAll(catalog: seq<AutomationCategory>, term: String)
    requires AllWhitespace(term)
    ensures FilterContent(catalog, term) == catalog
  {
    BlankTermIff(term);
  }

  /** `r` is `s` with some elements left out, the rest in the same order. */
  predicate IsSubsequence<T(==)>(r: seq<T>, s: seq<T>)
    decreases |s|
  {
    if r == [] then true
    else if s == [] then false
    else (r[0] == s[0] && IsSubsequence(r[1..], s[1..])) || IsSubsequence(r, s[1..])
  }

  lemma {:induction false} FilterMatchingIsSubsequence(data: seq<AutomationCategory>, t: String)
    ensures IsSubsequence(FilterMatching(data, t), data)
  {
    if data != [] {
      var r := FilterMatching(data, t);
      FilterMatchingIsSubsequence(data[1..], t);
      if Matches(data[0], t) {
        assert r[0] == data[0] && r[1..] == FilterMatching(data[1..], t);
      } else {
        assert r == FilterMatching(data[1..], t);
        if r != [] {
          assert IsSubsequence(r, data[1..]);
        }
      }
    }
  }

  /** Every matching category keeps its multiplicity and no other category
      appears: nothing is added or duplicated. */
  lemma {:induction false} FilterMatchingCounts(data: seq<AutomationCategory>, t: String, c: AutomationCategory)
    ensures multiset(FilterMatching(data, t))[c] == if Matches(c, t) then multiset(data)[c] else 0
  {
    if data != [] {
      FilterMatchingCounts(data[1..], t, c);
      assert data == [data[0]] + data[1..];
    }
  }

  /** The result of the search is an order-preserving subsequence of the
      catalog in which each category occurs as often as in the catalog if it
      is selected, and not at all otherwise. */
  lemma FilterContentIsSubsequence(catalog: seq<AutomationCategory>, searchTerm: String, c: AutomationCategory)
    ensures IsSubsequence(FilterContent(catalog, searchTerm), catalog)
    ensures multiset(FilterContent(catalog, searchTerm))[c]
      == if Selects(searchTerm, c) then multiset(catalog)[c] else 0
  {
    var t := Normalize(searchTerm);
    if t == [] {
      SubsequenceRefl(catalog);
    } else {
      FilterMatchingIsSubsequence(catalog, t);
      FilterMatchingCounts(catalog, t, c);
    }
  }

  lemma {:induction false} SubsequenceRefl<T>(s: seq<T>)
    ensures IsSubsequence(s, s)
  {
    if s != [] {
      SubsequenceRefl(s[1..]);
    }
  }

  /** A list whose every element matches passes through the filter unchanged. */
  lemma {:induction false} FilterMatchingKeepsMatching(data: seq<AutomationCategory>, t: String)
    requires forall k :: 0 <= k < |data| ==> Matches(data[k], t)
    ensures FilterMatching(data, t) == data
  {
    if data != [] {
      FilterMatchingKeepsMatching(data[1..], t);
      assert data == [data[0]] + data[1..];
    }
  }

  lemma FilterMatchingIdempotent(data: seq<AutomationCategory>, t: String)
    ensures FilterMatching(FilterMatching(data, t), t) == FilterMatching(data, t)
  {
    var r := FilterMatching(data, t);
    assert forall k :: 0 <= k < |r| ==> r[k] in r;
    FilterMatchingKeepsMatching(r, t);
  }

  /** Searching the result again with the same term changes nothing. */
  lemma FilterContentIdempotent(catalog: seq<AutomationCategory>, searchTerm: String)
    ensures FilterContent(FilterContent(catalog, searchTerm), searchTerm) == FilterContent(catalog, searchTerm)
  {
    var t := Normalize(searchTerm);
    if t != [] {
      FilterMatchingIdempotent(catalog, t);
    }
  }

  /** Terms with the same normal form give the same result. */
  lemma SameNormalFormSameResult(catalog: seq<AutomationCategory>, a: String, b: String)
    requires Normalize(a) == Normalize(b)
    ensures FilterContent(catalog, a) == FilterContent(catalog, b)
  {
  }

  /** The case of the term does not matter: two terms that agree once each
      character is lower-cased give the same result. */
  lemma CaseInsensitive(catalog: seq<AutomationCategory>, a: String, b: String)
    requires |a| == |b| && forall i :: 0 <= i < |a| ==> Lower(a[i]) == Lower(b[i])
    ensures FilterContent(catalog, a) == FilterContent(catalog, b)
  {
    assert LowerStr(a) == LowerStr(b);
  }

  /** Whitespace typed around the term does not matter. */
  lemma PaddingInsensitive(catalog: seq<AutomationCategory>, w1: String, term: String, w2: String)
    requires AllWhitespace(w1) && AllWhitespace(w2)
    ensures FilterContent(catalog, w1 + term + w2) == FilterContent(catalog, term)
  {
    LowerStrConcat(w1 + term, w2);
    LowerStrConcat(w1, term);
    forall i | 0 <= i < |w1| ensures IsWhitespace(LowerStr(w1)[i]) {
      LowerKeepsWhitespace(w1[i]);
    }
    forall i | 0 <= i < |w2| ensures IsWhitespace(LowerStr(w2)[i]) {
      LowerKeepsWhitespace(w2[i]);
    }
    TrimPadded(LowerStr(w1), LowerStr(term), LowerStr(w2));
  }
}
