/** The comment widget under an article.

    Its state is the list of comments shown (newest first) and the draft in
    the text box. Typing replaces the draft; posting does nothing when the
    draft trims to the empty string, and otherwise puts a new guest comment
    in front of the list and clears the draft. The clock the widget reads
    for a new comment's id and avatar seed is passed in as parameters. */
module Comments {

  datatype Comment = Comment(id: int, user: string, avatar: string, date: string, text: string, likes: int)

  // ---------------------------------------------------------------------
  // Trimming
  // ---------------------------------------------------------------------

  /** The characters `String.prototype.trim` removes: the ECMAScript
      WhiteSpace and LineTerminator code points. */
  predicate IsWhitespace(c: char)
  {
    var n := c as int;
    || 0x09 <= n <= 0x0D
    || n == 0x20 || n == 0xA0 || n == 0x1680
    || 0x2000 <= n <= 0x200A
    || n == 0x2028 || n == 0x2029 || n == 0x202F || n == 0x205F
    || n == 0x3000 || n == 0xFEFF
  }

  /** Every character of `s` is whitespace (the empty string included). */
  predicate IsBlank(s: string)
  {
    forall i :: 0 <= i < |s| ==> IsWhitespace(s[i])
  }

  /** `s` without its leading whitespace. */
  function TrimStart(s: string): (r: string)
    ensures |r| <= |s| && r == s[|s| - |r|..]
    ensures IsBlank(s[..|s| - |r|])
    ensures r == [] || !IsWhitespace(r[0])
  {
    if s != [] && IsWhitespace(s[0]) then TrimStart(s[1..]) else s
  }

  /** `s` without its trailing whitespace. */
  function TrimEnd(s: string): (r: string)
    ensures |r| <= |s| && r == s[..|r|]
    ensures IsBlank(s[|r|..])
    ensures r == [] || !IsWhitespace(r[|r| - 1])
  {
    if s != [] && IsWhitespace(s[|s| - 1]) then TrimEnd(s[..|s| - 1]) else s
  }

  /** `s` without leading and trailing whitespace. It is empty exactly when
      `s` is all whitespace: the guard of the post handler and of the post
      button. */
  function Trim(s: string): (r: string)
    ensures r == [] <==> IsBlank(s)
    ensures r == [] || (!IsWhitespace(r[0]) && !IsWhitespace(r[|r| - 1]))
  {
    var t := TrimStart(s);
    var r := TrimEnd(t);
    if r == [] then
      // what trimming the start left is itself blank, and the rest was
      // whitespace already
      assert t[0..] == t;
      assert s[..|s| - |t|] == s;
      r
    else
      r
  }

  // ---------------------------------------------------------------------
  // Rendering a clock reading into the avatar URL
  // ---------------------------------------------------------------------

  predicate IsDigit(c: char)
  {
    '0' <= c <= '9'
  }

  /** The decimal numeral JavaScript writes for a non-negative integer (no
      sign, no leading zero). */
  function DecimalString(n: nat): (r: string)
    ensures |r| >= 1
    ensures forall i :: 0 <= i < |r| ==> IsDigit(r[i])
    ensures r[0] == '0' ==> n == 0
  {
    var last := ['0' + (n % 10) as char];
    if n < 10 then last else DecimalString(n / 10) + last
  }

  /** The number a string of decimal digits denotes. */
  function DecimalValue(s: string): nat
    requires forall i :: 0 <= i < |s| ==> IsDigit(s[i])
  {
    if s == [] then 0
    else
      assert IsDigit(s[|s| - 1]);
      DecimalValue(s[..|s| - 1]) * 10 + (s[|s| - 1] as int - '0' as int)
  }

  /** Reading the numeral back gives the number: the rendering loses nothing. */
  lemma {:induction false} DecimalRoundTrip(n: nat)
    ensures DecimalValue(DecimalString(n)) == n
  {
    var r := DecimalString(n);
    if n >= 10 {
      DecimalRoundTrip(n / 10);
      assert r[..|r| - 1] == DecimalString(n / 10);
    }
  }

  const AvatarBase: string := "https://api.dicebear.com/7.x/avataaars/svg?seed="

  /** The avatar URL seeded with a clock reading: the fixed service address
      followed by the reading's decimal digits, which read back as it. */
  function AvatarUrl(now: nat): (url: string)
    ensures |url| > |AvatarBase| && url[..|AvatarBase|] == AvatarBase
    ensures forall i :: |AvatarBase| <= i < |url| ==> IsDigit(url[i])
    ensures DecimalValue(url[|AvatarBase|..]) == now
  {
    var url := AvatarBase + DecimalString(now);
    assert url[|AvatarBase|..] == DecimalString(now);
    DecimalRoundTrip(now);
    url
  }

  /** Different clock readings give different avatar URLs. */
  lemma AvatarUrlInjective(a: nat, b: nat)
    ensures AvatarUrl(a) == AvatarUrl(b) ==> a == b
  {
    if AvatarUrl(a) == AvatarUrl(b) {
      assert DecimalString(a) == AvatarUrl(a)[|AvatarBase|..];
      assert DecimalString(b) == AvatarUrl(b)[|AvatarBase|..];
      DecimalRoundTrip(a);
      DecimalRoundTrip(b);
    }
  }

  // ---------------------------------------------------------------------
  // The widget
  // ---------------------------------------------------------------------

  /** The three comments every widget starts with. */
  const InitialComments: seq<Comment> := [
    Comment(1, "Dev_Pro_99", "https://api.dicebear.com/7.x/avataaars/svg?seed=Felix", "2 hours ago",
      "This article completely changed how I think about system architecture. The point about database bottlenecks is spot on!", 12),
    Comment(2, "Sarah Jenkins", "https://api.dicebear.com/7.x/avataaars/svg?seed=Aneka", "5 hours ago",
      "I disagree with the second point. In my experience, microservices add too much complexity for small teams.", 8),
    Comment(3, "AlexM", "https://api.dicebear.com/7.x/avataaars/svg?seed=Alex", "1 day ago",
      "Great read! Would love to see a follow-up on the implementation details.", 5)
  ]

  /** The comment a guest posts: `idNow` and `avatarNow` are the two clock
      readings the handler takes, one for the id and one for the avatar seed. */
  function GuestComment(draft: string, idNow: nat, avatarNow: nat): (c: Comment)
    ensures c.id == idNow && c.avatar == AvatarUrl(avatarNow)
    ensures c.user == "Guest User" && c.date == "Just now" && c.likes == 0
    ensures c.text == draft
  {
    Comment(idNow, "Guest User", AvatarUrl(avatarNow), "Just now", draft, 0)
  }

  /** The heading above the list, showing how many comments there are. */
  function DiscussionHeading(comments: seq<Comment>): (h: string)
    ensures |h| > 13 && h[..12] == "Discussion (" && h[|h| - 1] == ')'
    ensures forall i :: 12 <= i < |h| - 1 ==> IsDigit(h[i])
    ensures DecimalValue(h[12..|h| - 1]) == |comments|
    ensures h[12] == '0' ==> |comments| == 0
  {
    var digits := DecimalString(|comments|);
    var h := "Discussion (" + digits + ")";
    assert h[12..|h| - 1] == digits;
    DecimalRoundTrip(|comments|);
    h
  }

  class CommentsSection {
    const postId: string
    var comments: seq<Comment>
    var draft: string

    constructor (postId: string)
      ensures this.postId == postId
      ensures comments == InitialComments && draft == ""
    {
      this.postId := postId;
      comments := InitialComments;
      draft := "";
    }

    /** The text box's change handler: the draft becomes what was typed. */
    method SetDraft(value: string)
      modifies this
      ensures draft == value && comments == old(comments)
    {
      draft := value;
    }

    /** The post button is disabled exactly when the draft is all whitespace,
        the same condition under which the handler does nothing. */
    function PostDisabled(): (disabled: bool)
      reads this
      ensures disabled <==> IsBlank(draft)
    {
      Trim(draft) == []
    }

    /** The post handler. */
    method PostComment(idNow: nat, avatarNow: nat)
      modifies this
      ensures IsBlank(old(draft)) ==> comments == old(comments) && draft == old(draft)
      ensures !IsBlank(old(draft)) ==>
        && |comments| == |old(comments)| + 1
        && comments[0] == GuestComment(old(draft), idNow, avatarNow)
        && comments[1..] == old(comments)
        && draft == ""
    {
      if Trim(draft) == [] {
        return;
      }
      var comment := GuestComment(draft, idNow, avatarNow);
      comments := [comment] + comments;
      draft := "";
    }
  }

  /** The widget starts with three comments, ids 1, 2 and 3, and its heading
      reads "Discussion (3)". */
  lemma InitialState()
    ensures |InitialComments| == 3
    ensures InitialComments[0].id == 1 && InitialComments[1].id == 2 && InitialComments[2].id == 3
    ensures InitialComments[0].user == "Dev_Pro_99" && InitialComments[1].user == "Sarah Jenkins" && InitialComments[2].user == "AlexM"
    ensures InitialComments[0].likes == 12 && InitialComments[1].likes == 8 && InitialComments[2].likes == 5
    ensures DiscussionHeading(InitialComments) == "Discussion (3)"
  {
  }

  /** A session: typing only spaces and posting changes nothing; typing a
      comment with surrounding spaces and posting shows it first, untrimmed,
      and the count goes from 3 to 4. */
  method GuestSession(idNow: nat, avatarNow: nat) returns (count: nat, first: Comment, draftAfter: string)
    ensures count == 4
    ensures first == GuestComment("  Nice read ", idNow, avatarNow)
    ensures draftAfter == ""
  {
    var section := new CommentsSection("2");
    section.SetDraft("  \n");
    assert IsBlank("  \n");
    section.PostComment(idNow, avatarNow);
    assert section.comments == InitialComments;
    section.SetDraft("  Nice read ");
    assert !IsWhitespace("  Nice read "[2]);
    section.PostComment(idNow, avatarNow);
    count := |section.comments|;
    first := section.comments[0];
    draftAfter := section.draft;
  }
}
