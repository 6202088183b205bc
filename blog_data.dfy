/** The article schema of the blog and its fixed seed store.

    An article embeds its author and an ordered body of content blocks. A
    block is the loose record the store is written in: a five-way `type`
    tag plus one optional field per kind of block. `WellFormed` says which
    field each tag needs, and `ToTagged` turns a well-formed loose block
    into a proper tagged value. `Blogs` is the seed store itself: ids,
    titles, categories, tags, dates, block kinds and which block fields
    are present are as authored; long prose and URLs are replaced by short
    opaque labels, one label per distinct authored string, so two fields
    share a label exactly when the authored text repeats. */
module BlogData {

  datatype Option<+T> = None | Some(value: T)

  /** The five values of a block's `type` field. */
  datatype BlockType = P | H2 | Quote | Img | Code

  /** The string a block type is written as in the store. */
  function TypeTag(t: BlockType): string
  {
    match t
    case P => "p"
    case H2 => "h2"
    case Quote => "quote"
    case Img => "img"
    case Code => "code"
  }

  /** Reads a `type` string; anything other than the five tags is rejected. */
  function ParseTag(s: string): (r: Option<BlockType>)
    ensures r.Some? ==> TypeTag(r.value) == s
  {
    if s == "p" then Some(P)
    else if s == "h2" then Some(H2)
    else if s == "quote" then Some(Quote)
    else if s == "img" then Some(Img)
    else if s == "code" then Some(Code)
    else None
  }

  /** The five tags are exactly the strings `ParseTag` accepts, and writing a
      type then reading it back gives that type. */
  lemma TagRoundTrip(t: BlockType, s: string)
    ensures ParseTag(TypeTag(t)) == Some(t)
    ensures ParseTag(s).Some? <==> s in ["p", "h2", "quote", "img", "code"]
  {
  }

  /** One entry of an article's `content` array, as the store writes it. */
  datatype ContentBlock = ContentBlock(
    kind: BlockType,
    text: Option<string>,
    src: Option<string>,
    caption: Option<string>,
    code: Option<string>)

  /** A block carries the field its type needs: text for paragraphs,
      headings and quotes, a source for images, the listing for code. */
  predicate WellFormed(b: ContentBlock)
  {
    match b.kind
    case P | H2 | Quote => b.text.Some?
    case Img => b.src.Some?
    case Code => b.code.Some?
  }

  /** The same blocks as a tagged union: each variant holds exactly the
      fields its kind uses, so a value of this type cannot be malformed. */
  datatype Block =
    | Paragraph(text: string)
    | Heading(text: string)
    | PullQuote(text: string)
    | Figure(src: string, caption: Option<string>)
    | Listing(code: string)

  /** The loose block that a tagged block is written as. */
  function FromTagged(t: Block): ContentBlock
  {
    match t
    case Paragraph(s) => ContentBlock(P, Some(s), None, None, None)
    case Heading(s) => ContentBlock(H2, Some(s), None, None, None)
    case PullQuote(s) => ContentBlock(Quote, Some(s), None, None, None)
    case Figure(u, c) => ContentBlock(Img, None, Some(u), c, None)
    case Listing(c) => ContentBlock(Code, None, None, None, Some(c))
  }

  /** Reads a loose block as a tagged one, keeping the fields its type uses;
      a block missing its required field is rejected. */
  function ToTagged(b: ContentBlock): (r: Option<Block>)
    ensures r.Some? <==> WellFormed(b)
    ensures r.Some? ==> FromTagged(r.value).kind == b.kind
    ensures r.Some? && b.kind in {P, H2, Quote} ==> r.value.text == b.text.value
    ensures r.Some? && b.kind == Img ==> r.value.src == b.src.value && r.value.caption == b.caption
    ensures r.Some? && b.kind == Code ==> r.value.code == b.code.value
  {
    match b.kind
    case P => if b.text.Some? then Some(Paragraph(b.text.value)) else None
    case H2 => if b.text.Some? then Some(Heading(b.text.value)) else None
    case Quote => if b.text.Some? then Some(PullQuote(b.text.value)) else None
    case Img => if b.src.Some? then Some(Figure(b.src.value, b.caption)) else None
    case Code => if b.code.Some? then Some(Listing(b.code.value)) else None
  }

  /** Every tagged block is written as a well-formed loose block that reads
      back to itself. */
  lemma TaggedRoundTrip(t: Block)
    ensures WellFormed(FromTagged(t))
    ensures ToTagged(FromTagged(t)) == Some(t)
  {
  }

  /** A loose block with no field beyond the ones its type uses is exactly
      what its tagged reading writes back. */
  lemma LooseRoundTrip(b: ContentBlock)
    requires WellFormed(b)
    requires b.kind in {P, H2, Quote} ==> b.src == b.caption == b.code == None
    requires b.kind == Img ==> b.text == b.code == None
    requires b.kind == Code ==> b.text == b.src == b.caption == None
    ensures FromTagged(ToTagged(b).value) == b
  {
  }

  datatype Author = Author(name: string, role: string, image: string, bio: string)

  datatype BlogPost = BlogPost(
    id: string,
    title: string,
    subtitle: Option<string>,
    excerpt: string,
    image: string,
    category: string,
    date: string,
    readTime: string,
    trend: string,
    tags: seq<string>,
    author: Author,
    content: seq<ContentBlock>)

  /** The ids of a list of articles, in order. */
  function Ids(ps: seq<BlogPost>): (r: seq<string>)
    ensures |r| == |ps|
    ensures forall i :: 0 <= i < |ps| ==> r[i] == ps[i].id
  {
    if ps == [] then [] else [ps[0].id] + Ids(ps[1..])
  }

  /** No two entries of `s` are equal. */
  predicate Distinct<T(==)>(s: seq<T>)
  {
    forall i, j :: 0 <= i < j < |s| ==> s[i] != s[j]
  }

  /** The invariants the store relies on: ids are unique (so an id names
      one article) and every block carries the field its type needs. */
  predicate StoreValid(ps: seq<BlogPost>)
  {
    && Distinct(Ids(ps))
    && forall i, j :: 0 <= i < |ps| && 0 <= j < |ps[i].content| ==> WellFormed(ps[i].content[j])
  }

  // ---------------------------------------------------------------------
  // The seed store
  // ---------------------------------------------------------------------

  function Para(s: string): ContentBlock { ContentBlock(P, Some(s), None, None, None) }
  function Head(s: string): ContentBlock { ContentBlock(H2, Some(s), None, None, None) }
  function Pull(s: string): ContentBlock { ContentBlock(Quote, Some(s), None, None, None) }
  function Image(url: string, caption: string): ContentBlock { ContentBlock(Img, None, Some(url), Some(caption), None) }
  function Snippet(listing: string): ContentBlock { ContentBlock(Code, None, None, None, Some(listing)) }

  const Article1: BlogPost :=
    BlogPost("1", "The Death of Flat Design: Why Layouts Need Chaos", Some("subtitle-1"), "excerpt-1",
      "url-hero-1", "Design", "Jan 12, 2026", "8 min", "+85%", ["Design", "Trend"],
      Author("Sarah Vollo", "Lead Designer", "url-author-sarah", "Obsessed with brutalism, typography, and breaking things."),
      [Para("text-1-1"), Head("The Homogenization of the Web"), Para("text-1-3"), Pull("text-1-4"),
       Image("url-1-5", "caption-1-5"), Head("Why Neo-Brutalism Works"), Para("text-1-7")])

  const Article2: BlogPost :=
    BlogPost("2", "Scaling Node.js to 1 Million Users", Some("blurb-2"), "blurb-2",
      "url-hero-2", "DevOps", "Jan 10, 2026", "15 min", "Viral", ["Backend", "Scale"],
      Author("Mike Ross", "CTO", "url-author-mike", "Building systems that don't sleep."),
      [Para("text-2-1"), Head("The Database Bottleneck"), Para("text-2-3"), Image("url-2-4", "caption-2-4"),
       Snippet("const pool = new Pool({\n  max: 20,\n  idleTimeoutMillis: 30000,\n  connectionTimeoutMillis: 2000,\n});")])

  const Article3: BlogPost :=
    BlogPost("3", "How to Fire Your Boss and Start Creating", Some("blurb-3"), "blurb-3",
      "url-hero-3", "Career", "Oct 20, 2025", "10 min", "Hot", ["Freedom", "Money"],
      Author("Lisa Wong", "Indie Hacker", "url-author-lisa", "Leaving the 9-5 to build the 24/7 dream."),
      [Para("text-3-1"), Image("url-3-2", "caption-3-2"), Para("text-3-3")])

  const Article4: BlogPost :=
    BlogPost("4", "Generative Art: Beyond Midjourney", Some("blurb-4"), "blurb-4",
      "url-hero-4", "AI Tools", "Oct 18, 2025", "7 min", "New", ["AI", "Art"],
      Author("Alex Chen", "AI Researcher", "url-author-alex", "Teaching robots to paint."),
      [Image("url-4-1", "caption-4-1"), Para("text-4-2"), Para("text-4-3")])

  const Article5: BlogPost :=
    BlogPost("5", "Productivity is a Trap", Some("subtitle-5"), "excerpt-5",
      "url-hero-5", "Opinion", "Jan 08, 2026", "5 min", "Bold", ["Life", "Work"],
      Author("Mike Ross", "Founder", "url-author-mike", "Writing opinions that no one asked for."),
      [Para("text-5-1"), Para("text-5-2")])

  const Article6: BlogPost :=
    BlogPost("6", "CSS Styles that feel illegal", Some("subtitle-6"), "excerpt-6",
      "url-hero-6", "CSS", "Jan 05, 2026", "6 min", "Tech", ["Code", "Frontend"],
      Author("Lisa Wong", "Frontend Lead", "url-author-lisa", "Making the web beautiful, one div at a time."),
      [Para("text-6-1"), Para("text-6-2")])

  const Article7: BlogPost :=
    BlogPost("7", "The AI Tools We Actually Use", Some("subtitle-7"), "excerpt-7",
      "url-hero-7", "AI", "Dec 30, 2025", "9 min", "Guide", ["AI", "Tools"],
      Author("Alex Chen", "AI Lead", "url-author-alex", "Automating myself out of a job."),
      [Para("text-7-1"), Image("url-7-2", "caption-7-2"), Para("text-7-3")])

  const Article8: BlogPost :=
    BlogPost("8", "Dark Patterns in Modern UX", Some("blurb-8"), "blurb-8",
      "url-hero-8", "UX", "Dec 25, 2025", "7 min", "Dark", ["UX", "Ethics"],
      Author("Sarah Vollo", "Design Ethics", "url-author-sarah", "Fighting for the user."),
      [Para("text-8-1"), Para("text-8-2")])

  /** The store, in the order the articles are authored. */
  const Blogs: seq<BlogPost> :=
    [Article1, Article2, Article3, Article4, Article5, Article6, Article7, Article8]
}

module BlogSeedFacts {
  import opened BlogData

  function Kinds(blocks: seq<ContentBlock>): (r: seq<BlockType>)
    ensures |r| == |blocks|
    ensures forall j :: 0 <= j < |blocks| ==> r[j] == blocks[j].kind
  {
    if blocks == [] then [] else [blocks[0].kind] + Kinds(blocks[1..])
  }

  lemma KindsAre(blocks: seq<ContentBlock>, expected: seq<BlockType>)
    requires |blocks| == |expected|
    requires forall j :: 0 <= j < |blocks| ==> blocks[j].kind == expected[j]
    ensures Kinds(blocks) == expected
  {
  }

  /** The seed store's ids, in order. */
  lemma SeedIdList()
    ensures Ids(Blogs) == ["1", "2", "3", "4", "5", "6", "7", "8"]
  {
    var ids := Ids(Blogs);
    assert |ids| == 8;
    assert ids[0] == "1" && ids[1] == "2" && ids[2] == "3" && ids[3] == "4";
    assert ids[4] == "5" && ids[5] == "6" && ids[6] == "7" && ids[7] == "8";
  }

  /** The eight one-digit ids are pairwise different. */
  lemma DigitIdsDistinct()
    ensures Distinct(["1", "2", "3", "4", "5", "6", "7", "8"])
  {
    var ids: seq<string> := ["1", "2", "3", "4", "5", "6", "7", "8"];
    assert forall i :: 0 <= i < 8 ==> |ids[i]| == 1 && ids[i][0] == ('1' as int + i) as char;
  }

  /** No two seed articles share an id. */
  lemma SeedIdsDistinct()
    ensures Distinct(Ids(Blogs))
  {
    SeedIdList();
    DigitIdsDistinct();
  }

  /** Every block of every seed article carries the field its type needs. */
  lemma SeedBlocksWellFormed()
    ensures forall i, j :: 0 <= i < |Blogs| && 0 <= j < |Blogs[i].content| ==> WellFormed(Blogs[i].content[j])
  {
  }

  /** The seed store meets the store's invariant. */
  lemma SeedStoreValid()
    ensures StoreValid(Blogs)
  {
    SeedIdsDistinct();
    SeedBlocksWellFormed();
  }

  lemma SeedSubtitles()
    ensures forall i :: 0 <= i < |Blogs| ==> Blogs[i].subtitle.Some?
  {
  }

  lemma SeedTagsDistinct()
    ensures forall i :: 0 <= i < |Blogs| ==> Distinct(Blogs[i].tags)
  {
  }

  /** Where the authored store repeats a string: four articles use their
      subtitle as their excerpt, and each author's portrait is shared by
      that author's two articles. */
  lemma SeedSharedStrings()
    ensures forall i :: i in {1, 2, 3, 7} ==> Blogs[i].subtitle == Some(Blogs[i].excerpt)
    ensures forall i :: i in {0, 4, 5, 6} ==> Blogs[i].subtitle != Some(Blogs[i].excerpt)
    ensures Article1.author.image == Article8.author.image
    ensures Article2.author.image == Article5.author.image
    ensures Article3.author.image == Article6.author.image
    ensures Article4.author.image == Article7.author.image
  {
  }

  /** The block types of each seed article's body, in order. */
  const AuthoredKinds: seq<seq<BlockType>> := [
    [P, H2, P, Quote, Img, H2, P],
    [P, H2, P, Img, Code],
    [P, Img, P],
    [Img, P, P],
    [P, P],
    [P, P],
    [P, Img, P],
    [P, P]
  ]

  lemma SeedKinds(i: nat)
    requires i < |Blogs|
    ensures Kinds(Blogs[i].content) == AuthoredKinds[i]
  {
    if i == 0 {
      KindsAre(Article1.content, AuthoredKinds[0]);
    } else if i == 1 {
      KindsAre(Article2.content, AuthoredKinds[1]);
    } else if i == 2 {
      KindsAre(Article3.content, AuthoredKinds[2]);
    } else if i == 3 {
      KindsAre(Article4.content, AuthoredKinds[3]);
    } else if i == 4 {
      KindsAre(Article5.content, AuthoredKinds[4]);
    } else if i == 5 {
      KindsAre(Article6.content, AuthoredKinds[5]);
    } else if i == 6 {
      KindsAre(Article7.content, AuthoredKinds[6]);
    } else {
      KindsAre(Article8.content, AuthoredKinds[7]);
    }
  }

  lemma SeedImagesCaptioned()
    ensures forall i, j :: 0 <= i < |Blogs| && 0 <= j < |Blogs[i].content| && Blogs[i].content[j].kind == Img ==>
      Blogs[i].content[j].src.Some? && Blogs[i].content[j].caption.Some?
  {
  }

  lemma SeedSingleCode()
    ensures forall i, j :: 0 <= i < |Blogs| && 0 <= j < |Blogs[i].content| && Blogs[i].content[j].kind == Code ==>
      i == 1 && j == 4
    ensures Blogs[1].content[4].kind == Code
    ensures Blogs[1].content[4].code.Some? && Blogs[1].content[4].text.None?
  {
  }
}
