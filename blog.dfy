/**
  The blog post page: the fixed list of three posts and the lookup of the
  post whose id equals `parseInt` of the route parameter, with "Post Not
  Found" when there is none. The bodies, excerpts and images of the posts are
  only rendered and are not part of this model.
*/
module Blog {
  import opened Wrappers
  import Js

  datatype Post = Post(id: int, title: string, author: string, date: string,
                       category: string, readTime: string)

  const BlogPosts: seq<Post> := [
    Post(1, "The Complete Guide to Campus Recycling", "Dr. Sarah Green", "2024-01-15", "Recycling", "5 min"),
    Post(2, "Reducing Waste: Simple Steps for Students", "Mike Chen", "2024-01-10", "Sustainability", "4 min"),
    Post(3, "Understanding Hazardous Waste Disposal", "Prof. Elena Rodriguez", "2024-01-05", "Safety", "6 min")
  ]

  /**
    `posts.find(p => p.id === n)`: the first post whose id is the number `n`.
    `NaN` is equal to nothing, so it finds nothing.
  */
  function FindPost(posts: seq<Post>, n: Js.Number): (r: Option<Post>)
    ensures r.Some? ==> r.value in posts && n == Js.Int(r.value.id)
    ensures r.None? <==> forall i :: 0 <= i < |posts| ==> Js.Int(posts[i].id) != n
    decreases |posts|
  {
    if posts == [] then None
    else if Js.Int(posts[0].id) == n then Some(posts[0])
    else FindPost(posts[1..], n)
  }

  /** The route parameter may be absent; `id || ''` makes it the empty string. */
  function LookupPost(id: Option<string>): (r: Option<Post>)
    ensures r.Some? ==> r.value in BlogPosts && Js.ParseInt(id.GetOr("")) == Js.Int(r.value.id)
  {
    FindPost(BlogPosts, Js.ParseInt(id.GetOr("")))
  }

  /** The page shows "Post Not Found" when the lookup comes back empty. */
  function ShowsNotFound(id: Option<string>): (b: bool)
    ensures b <==> Js.ParseInt(id.GetOr("")) !in [Js.Int(1), Js.Int(2), Js.Int(3)]
  {
    FoundIffCatalogueId(id);
    LookupPost(id).None?
  }

  /** The lookup returns the first match in list order. */
  lemma {:induction false} FindPostFirst(posts: seq<Post>, n: Js.Number, i: nat)
    requires i < |posts| && Js.Int(posts[i].id) == n
    requires forall j :: 0 <= j < i ==> Js.Int(posts[j].id) != n
    ensures FindPost(posts, n) == Some(posts[i])
    decreases i
  {
    if i > 0 {
      assert posts[1..][i - 1] == posts[i];
      assert forall j :: 0 <= j < i - 1 ==> posts[1..][j] == posts[j + 1];
      FindPostFirst(posts[1..], n, i - 1);
    }
  }

  /** The three ids are distinct, so at most one post matches any number. */
  lemma AtMostOneMatch(n: Js.Number, i: nat, j: nat)
    requires i < |BlogPosts| && j < |BlogPosts|
    requires Js.Int(BlogPosts[i].id) == n && Js.Int(BlogPosts[j].id) == n
    ensures i == j
  {
  }

  /** A post is found exactly when the parameter parses to 1, 2 or 3. */
  lemma FoundIffCatalogueId(id: Option<string>)
    ensures LookupPost(id).Some? <==> Js.ParseInt(id.GetOr("")) in [Js.Int(1), Js.Int(2), Js.Int(3)]
  {
    LookupIsFind(id);
    FindIffCatalogueNumber(Js.ParseInt(id.GetOr("")));
  }

  lemma FindIffCatalogueNumber(n: Js.Number)
    ensures FindPost(BlogPosts, n).Some? <==> n in [Js.Int(1), Js.Int(2), Js.Int(3)]
  {
    if n in [Js.Int(1), Js.Int(2), Js.Int(3)] {
      assert Js.Int(BlogPosts[n.value - 1].id) == n;
    }
  }

  /** A missing or empty parameter parses to `NaN`: "Post Not Found". */
  lemma MissingIdNotFound()
    ensures ShowsNotFound(None) && ShowsNotFound(Some(""))
  {
  }

  /** A parameter that does not start with a digit or a sign (after white space) is `NaN`. */
  lemma NonNumericNotFound(id: string)
    requires var t := Js.TrimStart(id); t == [] || (!Js.IsDigit(t[0], 10) && t[0] != '+' && t[0] != '-')
    ensures ShowsNotFound(Some(id))
  {
  }

  /** A number outside the three ids: "Post Not Found". */
  lemma OtherNumberNotFound(id: Option<string>, n: int)
    requires Js.ParseInt(id.GetOr("")) == Js.Int(n) && n != 1 && n != 2 && n != 3
    ensures ShowsNotFound(id)
  {
  }

  /**
    `parseInt` reads the leading digits only: the decimal form of 1, 2 or 3
    followed by anything that does not start with a digit selects that post.
  */
  lemma LeadingDigitsSelect(n: nat, rest: string)
    requires 1 <= n <= 3
    requires rest == [] || !Js.IsDigit(rest[0], 10)
    ensures LookupPost(Some(Js.Decimal(n) + rest)) == Some(BlogPosts[n - 1])
  {
    Js.ParseIntDecimalPrefix(n, rest);
    ParsedIdSelects(Some(Js.Decimal(n) + rest), n);
  }

  /** A parameter that parses to 1, 2 or 3 selects that post. */
  lemma ParsedIdSelects(id: Option<string>, n: int)
    requires 1 <= n <= 3 && Js.ParseInt(id.GetOr("")) == Js.Int(n)
    ensures LookupPost(id) == Some(BlogPosts[n - 1])
  {
    LookupIsFind(id);
    FindCatalogueNumber(n);
  }

  lemma FindCatalogueNumber(n: int)
    requires 1 <= n <= 3
    ensures FindPost(BlogPosts, Js.Int(n)) == Some(BlogPosts[n - 1])
  {
    assert BlogPosts[1..][1..] == [BlogPosts[2]];
  }

  lemma LookupIsFind(id: Option<string>)
    ensures LookupPost(id) == FindPost(BlogPosts, Js.ParseInt(id.GetOr("")))
  {
  }

  /** For instance `"2abc"` opens the second post. */
  lemma TrailingLettersIgnored()
    ensures LookupPost(Some("2abc")) == Some(BlogPosts[1])
  {
    TwoThenLetters();
    LeadingDigitsSelect(2, "abc");
  }

  lemma TwoThenLetters()
    ensures Js.Decimal(2) + "abc" == "2abc"
  {
    assert Js.Decimal(2) == "2";
  }
}
