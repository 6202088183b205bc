/** The blog listing page's category filter.

    The page keeps one selector string, starting at "All", which a click on
    one of the selector buttons replaces. The posts shown are the whole
    store under "All", and otherwise the stable filter of the store to the
    posts whose category is the selector or whose tags contain it, compared
    as exact, case-sensitive strings. */
module BlogListing {
  import opened BlogData

  /** The reserved selector that shows every post. */
  const AllSelector: string := "All"

  /** The selector buttons, in the order the page shows them. */
  const Categories: seq<string> := ["All", "Design", "Coding", "AI", "Opinion", "UX", "Life"]

  /** The selector the page starts with. */
  const InitialCategory: string := "All"

  /** A post is shown under a selector when its category is the selector or
      one of its tags is. */
  predicate Matches(p: BlogPost, selector: string)
  {
    p.category == selector || selector in p.tags
  }

  /** The posts of `ps` that match `selector`, in their order in `ps`. */
  function FilterPosts(ps: seq<BlogPost>, selector: string): (r: seq<BlogPost>)
    ensures |r| <= |ps|
    ensures forall p :: p in r ==> p in ps && Matches(p, selector)
  {
    if ps == [] then []
    else if Matches(ps[0], selector) then [ps[0]] + FilterPosts(ps[1..], selector)
    else FilterPosts(ps[1..], selector)
  }

  /** The posts the listing shows for the active selector. */
  function VisiblePosts(all: seq<BlogPost>, activeCategory: string): (r: seq<BlogPost>)
    ensures activeCategory == AllSelector ==> r == all
    ensures activeCategory != AllSelector ==>
      forall p :: p in r <==> p in all && Matches(p, activeCategory)
  {
    if activeCategory == AllSelector then all
    else
      FilterKeepsExactlyMatches(all, activeCategory);
      FilterPosts(all, activeCategory)
  }

  /** A post survives the filter exactly when it is in the input and matches. */
  lemma {:induction false} FilterKeepsExactlyMatches(ps: seq<BlogPost>, selector: string)
    ensures forall p :: p in FilterPosts(ps, selector) <==> p in ps && Matches(p, selector)
  {
    if ps != [] {
      FilterKeepsExactlyMatches(ps[1..], selector);
      assert forall p :: p in ps <==> p == ps[0] || p in ps[1..];
    }
  }

  /** `a` is `b` with some entries left out and the rest in their order. */
  predicate IsSubsequence<T(==)>(a: seq<T>, b: seq<T>)
    decreases |b|
  {
    if a == [] then true
    else if b == [] then false
    else (a[0] == b[0] && IsSubsequence(a[1..], b[1..])) || IsSubsequence(a, b[1..])
  }

  /** The filter never reorders, repeats or invents posts. */
  lemma {:induction false} FilterIsSubsequence(ps: seq<BlogPost>, selector: string)
    ensures IsSubsequence(FilterPosts(ps, selector), ps)
  {
    if ps != [] {
      FilterIsSubsequence(ps[1..], selector);
      var rest := FilterPosts(ps[1..], selector);
      if Matches(ps[0], selector) {
        assert ([ps[0]] + rest)[1..] == rest;
      } else if rest != [] {
        assert IsSubsequence(rest, ps[1..]);
      }
    }
  }

  /** Filtering a concatenation filters each part; with the one-post cases
      this pins the filter down as the order-preserving selection. */
  lemma {:induction false} FilterAppend(a: seq<BlogPost>, b: seq<BlogPost>, selector: string)
    ensures FilterPosts(a + b, selector) == FilterPosts(a, selector) + FilterPosts(b, selector)
  {
    if a == [] {
      assert a + b == b;
    } else {
      var ab := a + b;
      assert ab[0] == a[0] && ab[1..] == a[1..] + b;
      FilterAppend(a[1..], b, selector);
      var rest := FilterPosts(a[1..], selector);
      if Matches(a[0], selector) {
        assert FilterPosts(ab, selector) == [a[0]] + (rest + FilterPosts(b, selector));
        assert FilterPosts(a, selector) == [a[0]] + rest;
      } else {
        assert FilterPosts(ab, selector) == rest + FilterPosts(b, selector);
        assert FilterPosts(a, selector) == rest;
      }
    }
  }

  lemma FilterSingle(p: BlogPost, selector: string)
    ensures FilterPosts([p], selector) == if Matches(p, selector) then [p] else []
  {
    assert [p][1..] == [];
  }

  /** Filtering again with the same selector changes nothing. */
  lemma {:induction false} FilterIdempotent(ps: seq<BlogPost>, selector: string)
    ensures FilterPosts(FilterPosts(ps, selector), selector) == FilterPosts(ps, selector)
  {
    if ps != [] {
      FilterIdempotent(ps[1..], selector);
      var rest := FilterPosts(ps[1..], selector);
      if Matches(ps[0], selector) {
        assert ([ps[0]] + rest)[1..] == rest;
      }
    }
  }

  /** Applying the listing's selector to what it already shows shows the same. */
  lemma VisibleIdempotent(all: seq<BlogPost>, activeCategory: string)
    ensures VisiblePosts(VisiblePosts(all, activeCategory), activeCategory) == VisiblePosts(all, activeCategory)
  {
    if activeCategory != AllSelector {
      FilterIdempotent(all, activeCategory);
    }
  }

  /** When the ids of the store are unique, so are the ids of what is shown. */
  lemma {:induction false} FilterKeepsIdsDistinct(ps: seq<BlogPost>, selector: string)
    requires Distinct(Ids(ps))
    ensures Distinct(Ids(FilterPosts(ps, selector)))
  {
    if ps != [] {
      var tail := ps[1..];
      assert Ids(tail) == Ids(ps)[1..];
      FilterKeepsIdsDistinct(tail, selector);
      var rest := FilterPosts(tail, selector);
      if Matches(ps[0], selector) {
        var r := [ps[0]] + rest;
        forall j | 0 < j < |r|
          ensures r[0].id != r[j].id
        {
          assert r[j] in rest;
          var k :| 0 <= k < |tail| && tail[k] == r[j];
          assert Ids(ps)[k + 1] == r[j].id;
        }
        forall i, j | 0 <= i < j < |r|
          ensures Ids(r)[i] != Ids(r)[j]
        {
          if i > 0 {
            assert Ids(rest)[i - 1] != Ids(rest)[j - 1];
          }
        }
      }
    }
  }

  /** What one post adds to the filter's result. */
  function Kept(p: BlogPost, selector: string): seq<BlogPost>
  {
    if Matches(p, selector) then [p] else []
  }

  /** Filtering a list with a post in front. */
  lemma FilterCons(p: BlogPost, t: seq<BlogPost>, selector: string)
    ensures FilterPosts([p] + t, selector) == Kept(p, selector) + FilterPosts(t, selector)
  {
    assert ([p] + t)[1..] == t;
  }

  /** The filter over the seed store, as the concatenation of each article's
      contribution. */
  lemma SeedFilterUnrolled(selector: string)
    ensures FilterPosts(Blogs, selector) ==
      Kept(Article1, selector) +
      (Kept(Article2, selector) +
      (Kept(Article3, selector) +
      (Kept(Article4, selector) +
      (Kept(Article5, selector) +
      (Kept(Article6, selector) +
      (Kept(Article7, selector) +
      Kept(Article8, selector)))))))
  {
    var t8 := [Article8];
    var t7 := [Article7] + t8;
    var t6 := [Article6] + t7;
    var t5 := [Article5] + t6;
    var t4 := [Article4] + t5;
    var t3 := [Article3] + t4;
    var t2 := [Article2] + t3;
    var t1 := [Article1] + t2;
    assert Blogs == t1;
    FilterCons(Article8, [], selector);
    assert t8 == [Article8] + [];
    FilterCons(Article7, t8, selector);
    FilterCons(Article6, t7, selector);
    FilterCons(Article5, t6, selector);
    FilterCons(Article4, t5, selector);
    FilterCons(Article3, t4, selector);
    FilterCons(Article2, t3, selector);
    FilterCons(Article1, t2, selector);
  }

  /** Which seed articles each selector button other than "All" keeps. */
  lemma SeedKeepsDesign()
    ensures Kept(Article1, "Design") == [Article1]
    ensures Kept(Article2, "Design") == []
    ensures Kept(Article3, "Design") == []
    ensures Kept(Article4, "Design") == []
    ensures Kept(Article5, "Design") == []
    ensures Kept(Article6, "Design") == []
    ensures Kept(Article7, "Design") == []
    ensures Kept(Article8, "Design") == []
  {
  }

  lemma SeedKeepsCoding()
    ensures Kept(Article1, "Coding") == []
    ensures Kept(Article2, "Coding") == []
    ensures Kept(Article3, "Coding") == []
    ensures Kept(Article4, "Coding") == []
    ensures Kept(Article5, "Coding") == []
    ensures Kept(Article6, "Coding") == []
    ensures Kept(Article7, "Coding") == []
    ensures Kept(Article8, "Coding") == []
  {
  }

  lemma SeedKeepsAI()
    ensures Kept(Article1, "AI") == []
    ensures Kept(Article2, "AI") == []
    ensures Kept(Article3, "AI") == []
    ensures Kept(Article4, "AI") == [Article4]
    ensures Kept(Article5, "AI") == []
    ensures Kept(Article6, "AI") == []
    ensures Kept(Article7, "AI") == [Article7]
    ensures Kept(Article8, "AI") == []
  {
  }

  lemma SeedKeepsOpinion()
    ensures Kept(Article1, "Opinion") == []
    ensures Kept(Article2, "Opinion") == []
    ensures Kept(Article3, "Opinion") == []
    ensures Kept(Article4, "Opinion") == []
    ensures Kept(Article5, "Opinion") == [Article5]
    ensures Kept(Article6, "Opinion") == []
    ensures Kept(Article7, "Opinion") == []
    ensures Kept(Article8, "Opinion") == []
  {
  }

  lemma SeedKeepsUX()
    ensures Kept(Article1, "UX") == []
    ensures Kept(Article2, "UX") == []
    ensures Kept(Article3, "UX") == []
    ensures Kept(Article4, "UX") == []
    ensures Kept(Article5, "UX") == []
    ensures Kept(Article6, "UX") == []
    ensures Kept(Article7, "UX") == []
    ensures Kept(Article8, "UX") == [Article8]
  {
  }

  lemma SeedKeepsLife()
    ensures Kept(Article1, "Life") == []
    ensures Kept(Article2, "Life") == []
    ensures Kept(Article3, "Life") == []
    ensures Kept(Article4, "Life") == []
    ensures Kept(Article5, "Life") == [Article5]
    ensures Kept(Article6, "Life") == []
    ensures Kept(Article7, "Life") == []
    ensures Kept(Article8, "Life") == []
  {
  }

  /** What each selector button shows over the seed store. */
  lemma SeedSelectsDesign()
    ensures VisiblePosts(Blogs, "Design") == [Article1]
  {
    SeedKeepsDesign();
    SeedFilterUnrolled("Design");
  }

  /** "Coding" is a selector button, yet no seed article has it as its
      category or among its tags: the listing is empty, which is not an error. */
  lemma SeedSelectsCoding()
    ensures "Coding" in Categories
    ensures VisiblePosts(Blogs, "Coding") == []
  {
    SeedKeepsCoding();
    SeedFilterUnrolled("Coding");
  }

  /** Matching is exact: article 4, whose category is "AI Tools", is shown
      under "AI" only through its tag, and article 7 through its category. */
  lemma SeedSelectsAI()
    ensures VisiblePosts(Blogs, "AI") == [Article4, Article7]
  {
    SeedKeepsAI();
    SeedFilterUnrolled("AI");
  }

  /** Under "AI" the listing shows the articles with ids "4" then "7". */
  lemma SeedSelectsAIIds()
    ensures Ids(VisiblePosts(Blogs, "AI")) == ["4", "7"]
  {
    SeedSelectsAI();
    var r := Ids([Article4, Article7]);
    assert r == [r[0], r[1]];
  }

  lemma SeedSelectsOpinion()
    ensures VisiblePosts(Blogs, "Opinion") == [Article5]
  {
    SeedKeepsOpinion();
    SeedFilterUnrolled("Opinion");
  }

  lemma SeedSelectsUX()
    ensures VisiblePosts(Blogs, "UX") == [Article8]
  {
    SeedKeepsUX();
    SeedFilterUnrolled("UX");
  }

  /** Article 5, whose category is "Opinion", is shown under "Life" through
      its tag alone. */
  lemma SeedSelectsLife()
    ensures VisiblePosts(Blogs, "Life") == [Article5]
  {
    SeedKeepsLife();
    SeedFilterUnrolled("Life");
  }

  /** No seed article has "Coding" as its category or among its tags. */
  lemma SeedNothingIsCoding()
    ensures forall i :: 0 <= i < |Blogs| ==> !Matches(Blogs[i], "Coding")
  {
    SeedSelectsCoding();
    FilterKeepsExactlyMatches(Blogs, "Coding");
  }

  /** The articles that the "AI" and "Life" selectors reach through a tag
      rather than through their category. */
  lemma SeedTagOnlyMatches()
    ensures Article4.category == "AI Tools" && "AI" in Article4.tags
    ensures Article5.category == "Opinion" && "Life" in Article5.tags
    ensures Article7.category == "AI"
  {
  }

  /** The page opens on "All", the first selector button. */
  lemma InitialSelectorIsAll()
    ensures InitialCategory == Categories[0] == AllSelector
    ensures VisiblePosts(Blogs, InitialCategory) == Blogs
  {
  }
}
