# Blog: article store, category filter and comment widget

A Dafny model of the three pieces of logic in a small Next.js blog site.

- **BlogData** (`blog_data.dfy`). The `BlogPost` record with its embedded author, and a content block as the site declares it. A block is a loose record: a five-way `type` tag plus optional `text`, `src`, `caption` and `code` fields. `WellFormed` says which field each tag needs. The same file converts loose blocks to and from a tagged `Block` datatype.
- **BlogSeedFacts** (`blog_data.dfy`). The eight seed articles, with their ids, titles, categories, dates, tags, block order and which fields each block carries. Lemmas about them live here too.
- **BlogListing** (`blog_listing.dfy`). The listing page's selector list and its category filter. Selector `"All"` shows the store unchanged. Any other selector keeps, in order, the posts whose category is the selector or whose tags contain it.
- **Comments** (`comments.dfy`). The comment widget, as a class with two fields: `comments` (newest first) and `draft` (the text box).
  - `PostComment` does nothing when the draft trims to the empty string.
  - Otherwise it puts a guest comment in front of the list and clears the draft.
  - The post button is disabled under exactly the same condition.
  - The two clock readings that make a comment's id and avatar seed are parameters of `PostComment`.

In the seed data, long prose and URLs are short, non-empty labels, one per distinct authored string. Two fields share a label exactly when the authored text repeats. For example, articles 2, 3, 4 and 8 use their subtitle as their excerpt (`"blurb-2"`), and an author's two articles share one portrait URL (`"url-author-mike"`). Other examples: `"text-1-1"` is the first paragraph of article 1, and `"url-hero-1"` is its hero image. Ids, titles, categories, dates, read times, trends, tags, author names and roles, `h2` headings and the one code listing are kept verbatim.

## Model

| member | source | states |
|---|---|---|
| BlogData.ParseTag | app/lib/blogData.ts:19 | a string parses to a block type only when it is that type's tag |
| BlogData.TagRoundTrip | app/lib/blogData.ts:19 | every block type's tag parses back to it, and exactly the five strings p, h2, quote, img, code parse at all |
| BlogData.ToTagged | app/lib/blogData.ts:18-24 | a loose block converts to a tagged block exactly when it is well formed (`WellFormed`: p/h2/quote carry text, img carries src, code carries code); the tagged block keeps the type and carries the block's text (p/h2/quote), src and caption (img) or code (code) |
| BlogData.TaggedRoundTrip | app/lib/blogData.ts:18-24 | every tagged block, written as a loose block, is well formed and converts back to itself |
| BlogData.LooseRoundTrip | app/lib/blogData.ts:18-24 | a well-formed loose block with no fields beyond those its type uses survives the round trip through the tagged form unchanged |
| BlogData.Ids | app/lib/blogData.ts:1-2 | the id list has one entry per post, in the posts' order |
| BlogSeedFacts.SeedIdList | app/lib/blogData.ts:27-321 | `Blogs`, the seed store, has the ids "1" through "8", in that order |
| BlogSeedFacts.SeedIdsDistinct | app/lib/blogData.ts:27-321 | no two seed articles share an id |
| BlogSeedFacts.SeedBlocksWellFormed | app/lib/blogData.ts:49-319 | every seed block carries the field its type needs: text for p/h2/quote, src for img, code for code |
| BlogSeedFacts.SeedStoreValid | app/lib/blogData.ts:27-321 | the seed store has unique ids and only well-formed blocks |
| BlogSeedFacts.SeedSubtitles | app/lib/blogData.ts:27-321 | subtitle is optional in the record, yet every seed article has one |
| BlogSeedFacts.SeedTagsDistinct | app/lib/blogData.ts:27-321 | no seed article lists the same tag twice |
| BlogSeedFacts.SeedSharedStrings | app/lib/blogData.ts:27-321 | articles 2, 3, 4 and 8, and only they, use their subtitle as their excerpt; articles 1/8, 2/5, 3/6 and 4/7 share their author's portrait URL |
| BlogSeedFacts.SeedKinds | app/lib/blogData.ts:49-319 | each seed article's blocks have the authored types in the authored order (article 4 starts with an image) |
| BlogSeedFacts.SeedImagesCaptioned | app/lib/blogData.ts:49-319 | every seed image block has both a src and a caption |
| BlogSeedFacts.SeedSingleCode | app/lib/blogData.ts:111-114 | the fifth block of article 2 is a code block, it is the only one in the store, and it has code and no text |
| BlogListing.FilterPosts | app/blog/page.tsx:128-131 | the filter never lengthens the list and keeps only posts of the input that match (`Matches`: the category equals the selector or the tags contain it, as in the arrow predicate) |
| BlogListing.VisiblePosts | app/blog/page.tsx:125-131 | under "All" the listing is the store itself; under any other selector a post is shown if and only if it is in the store and its category is the selector or its tags contain it |
| BlogListing.FilterKeepsExactlyMatches | app/blog/page.tsx:128-131 | a post is in the filter's result if and only if it is in the input and matches |
| BlogListing.FilterIsSubsequence | app/blog/page.tsx:128 | the result is an order-preserving subsequence of the input |
| BlogListing.FilterAppend | app/blog/page.tsx:128-131 | filtering a concatenation is concatenating the filtered parts |
| BlogListing.FilterSingle | app/blog/page.tsx:128-131 | a single post is kept exactly when it matches |
| BlogListing.FilterCons | app/blog/page.tsx:128-131 | filtering a list with a post in front is that post's contribution followed by the filtered rest |
| BlogListing.FilterIdempotent | app/blog/page.tsx:128-131 | filtering twice with the same selector is filtering once |
| BlogListing.VisibleIdempotent | app/blog/page.tsx:125-131 | applying the listing's selector to what it already shows changes nothing |
| BlogListing.FilterKeepsIdsDistinct | app/blog/page.tsx:128-131 | a store with unique ids yields a listing with unique ids, so no post is repeated |
| BlogListing.SeedFilterUnrolled | app/blog/page.tsx:128-131 | the filter over the seed store is each article's contribution, in store order |
| BlogListing.SeedKeepsDesign | app/lib/blogData.ts:37-41 | under "Design" only article 1 is kept |
| BlogListing.SeedKeepsCoding | app/lib/blogData.ts:229-233 | under "Coding" no seed article is kept |
| BlogListing.SeedKeepsAI | app/lib/blogData.ts:161-165 | under "AI" only articles 4 and 7 are kept |
| BlogListing.SeedKeepsOpinion | app/lib/blogData.ts:198-202 | under "Opinion" only article 5 is kept |
| BlogListing.SeedKeepsUX | app/lib/blogData.ts:298-302 | under "UX" only article 8 is kept |
| BlogListing.SeedKeepsLife | app/lib/blogData.ts:198-202 | under "Life" only article 5 is kept |
| BlogListing.SeedSelectsDesign | app/blog/page.tsx:128-131 | the "Design" button shows article 1 alone |
| BlogListing.SeedSelectsCoding | app/blog/page.tsx:119-131 | "Coding" is a selector button, yet it shows the empty list |
| BlogListing.SeedNothingIsCoding | app/lib/blogData.ts:229-233 | no seed article has "Coding" as its category or among its tags |
| BlogListing.SeedSelectsAI | app/blog/page.tsx:130 | the "AI" button shows article 4 and then article 7 |
| BlogListing.SeedSelectsAIIds | app/blog/page.tsx:128-131 | the "AI" listing's ids are "4" then "7" |
| BlogListing.SeedTagOnlyMatches | app/lib/blogData.ts:161-165 | article 4 has category "AI Tools" and reaches "AI" through its tag; article 5 has category "Opinion" and reaches "Life" through its tag; article 7 has category "AI" |
| BlogListing.SeedSelectsOpinion | app/blog/page.tsx:128-131 | the "Opinion" button shows article 5 alone |
| BlogListing.SeedSelectsUX | app/blog/page.tsx:128-131 | the "UX" button shows article 8 alone |
| BlogListing.SeedSelectsLife | app/blog/page.tsx:130 | the "Life" button shows article 5 alone, which matches through its tag only |
| BlogListing.InitialSelectorIsAll | app/blog/page.tsx:119-122 | the page starts on "All", which is the first entry of the selector list `Categories`, and then shows the whole store |
| Comments.TrimStart | app/components/Comments.tsx:72 | trimming the front removes a whitespace-only prefix and leaves nothing or a non-whitespace first character |
| Comments.TrimEnd | app/components/Comments.tsx:72 | trimming the end removes a whitespace-only suffix and leaves nothing or a non-whitespace last character |
| Comments.Trim | app/components/Comments.tsx:72 | `.trim()`: the result is empty if and only if the string is blank (`IsBlank`: every character is ECMAScript whitespace), and otherwise starts and ends with a non-whitespace character |
| Comments.DecimalString | app/components/Comments.tsx:77 | a clock reading renders as a non-empty string of decimal digits with no leading zero |
| Comments.DecimalRoundTrip | app/components/Comments.tsx:77 | the digits rendered for a number read back as that number |
| Comments.AvatarUrl | app/components/Comments.tsx:77 | the avatar URL is the fixed service address followed by decimal digits that read back as the clock reading |
| Comments.AvatarUrlInjective | app/components/Comments.tsx:77 | different clock readings give different avatar URLs |
| Comments.DiscussionHeading | app/components/Comments.tsx:93 | the heading is "Discussion (", then digits with no leading zero that read back as the comment count, then ")" |
| Comments.CommentsSection.constructor | app/components/Comments.tsx:41-69 | the widget starts with the three initial comments and an empty draft |
| Comments.CommentsSection.SetDraft | app/components/Comments.tsx:100 | typing replaces the draft and leaves the comments alone |
| Comments.CommentsSection.PostDisabled | app/components/Comments.tsx:107 | the post button is disabled if and only if the draft is all whitespace |
| Comments.CommentsSection.PostComment | app/components/Comments.tsx:71-85 | a blank draft changes nothing; otherwise the list grows by one, the guest comment built from the untrimmed draft comes first, the old comments follow in order, and the draft is cleared |
| Comments.GuestComment | app/components/Comments.tsx:74-81 | the record the handler builds has the first clock reading as id, the avatar URL seeded with the second, user "Guest User", date "Just now", no likes, and the draft as typed |
| Comments.InitialState | app/components/Comments.tsx:42-67 | `InitialComments` holds three comments, ids 1, 2 and 3, by Dev_Pro_99, Sarah Jenkins and AlexM with 12, 8 and 5 likes, under the heading "Discussion (3)" |
| Comments.GuestSession | app/components/Comments.tsx:71-85 | posting a whitespace-only draft changes nothing; posting "  Nice read " then makes four comments, with that draft, untrimmed, first, and an empty draft |

## Left out

- The home page (`app/page.tsx`) is not part of this model. It renders hard-coded display arrays and computes nothing.
- The article detail page (`app/blog/[id]/page.tsx`) is not part of this model. That covers the lookup by id with its fallback, the subtitle-or-excerpt and role-or-"Author" defaults, and the related-posts selection.
- Markup, styling, animations, per-item transition delays and hover rotations are not modelled. Neither are link routing, the mobile menu toggle, or the Like and Reply buttons, which have no handlers.
- `Date.now()` is a clock read. Its two readings in the post handler are parameters of `PostComment`. The model does not claim comment ids are unique, because two posts in the same millisecond would collide.
- A JavaScript number is modelled as an unbounded `int`. The two clock readings are `nat`s, since a clock reading is never negative. The decimal rendering matches JavaScript's only below 10^21; beyond that JavaScript switches to exponent notation.
- The widget's `postId` property is stored but, as in the widget, nothing reads it.
- The widget's state cells are updated through closures over the rendered values. Two posts batched into one render would both prepend to the same old list. The model treats each handler call as running on the latest state.
- Seed prose and URLs are opaque labels, not the text the site ships. Facts about their contents beyond presence, and beyond which fields share a string, are out of scope.
- The character set of `String.prototype.trim` is modelled as the ECMAScript WhiteSpace and LineTerminator code points. A `char` is a Unicode scalar value, whereas JavaScript strings are UTF-16 code units. Every character `trim` removes lies in the Basic Multilingual Plane and is not a surrogate, so the result of trimming is the same either way.
