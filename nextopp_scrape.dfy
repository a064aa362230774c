/**
 * nextopp.py's scraper: collecting post records while scrolling
 * (`login_and_scrape_group`) and serialising them into the text the chatbot
 * indexes (`format_posts_for_analysis`).
 *
 * A post record is the dictionary `extract_post_data` returns. Every key may be
 * absent (the `{"error": ...}` record has none of them), so each field is an
 * Option and rendering uses `dict.get`'s default.
 */
module NextoppScrape {
  import opened Wrappers
  import opened Text
  import opened Pages

  datatype Comment = Comment(author: Option<string>, time: Option<string>, text: Option<string>)

  datatype Post = Post(
    author: Option<string>,
    time: Option<string>,
    reactions: Option<string>,
    commentsCount: Option<string>,
    shares: Option<string>,
    text: Option<string>,
    comments: Option<seq<Comment>>)

  /** The record `extract_post_data` returns when extraction raised. */
  const ErrorRecord: Post := Post(None, None, None, None, None, None, None)

  // ------------------------------------------------------------ the layout

  function Header(i: nat): string {
    "=== POST " + NatToString(i) + " ===\n"
  }

  /** The closing line of every block: fifty '=' and a blank line. */
  const Separator: string := Repeat('=', 50) + "\n\n"

  /** `f"{name}: {value}\n"`: one line of the post's metadata. */
  function FieldLine(name: string, value: string): string {
    name + ": " + value + "\n"
  }

  function ContentLine(value: string): string {
    "Content:\n" + value + "\n\n"
  }

  function CommentLine(j: nat, c: Comment): string {
    "  " + NatToString(j) + ". " + c.author.GetOr("Unknown") + " (" + c.time.GetOr("") + "): "
    + c.text.GetOr("") + "\n"
  }

  function CommentsHeading(n: nat): string {
    "Comments (" + NatToString(n) + "):\n"
  }

  /** The comments part of a block: absent for no comments, else a heading, one numbered line each, a blank line. */
  function CommentsSection(comments: seq<Comment>): (r: string)
    ensures r == "" <==> comments == []
  {
    if comments == [] then ""
    else CommentsHeading(|comments|) + Numbered(comments, 1, CommentLine) + "\n"
  }

  /** The block of post number `i`: header, metadata, content, comments, separator. */
  function Block(i: nat, p: Post): string {
    Header(i)
    + FieldLine("Author", p.author.GetOr("Unknown"))
    + FieldLine("Time", p.time.GetOr("Unknown"))
    + FieldLine("Reactions", p.reactions.GetOr("0"))
    + FieldLine("Comments", p.commentsCount.GetOr("0"))
    + FieldLine("Shares", p.shares.GetOr("0"))
    + ContentLine(p.text.GetOr("No content"))
    + CommentsSection(p.comments.GetOr([]))
    + Separator
  }

  /** The whole text: the blocks of all posts, numbered from 1, in input order. */
  function Format(posts: seq<Post>): string {
    Numbered(posts, 1, Block)
  }

  // ------------------------------------------------------- properties of it

  lemma FormatAppend(posts: seq<Post>, p: Post)
    ensures Format(posts + [p]) == Format(posts) + Block(|posts| + 1, p)
  {
    NumberedAppend(posts, 1, Block, p);
  }

  /** The text is blank (so ingestion stops) exactly when there is no post. */
  lemma FormatBlankIff(posts: seq<Post>)
    ensures IsBlank(Format(posts)) <==> posts == []
  {
    if posts != [] {
      var b := Block(1, posts[0]);
      assert Format(posts) == b + Numbered(posts[1..], 2, Block);
      assert b[0] == Header(1)[0] == '=';
      assert Format(posts)[0] == '=';
    }
  }

  /** Every block starts with its numbered header and ends with the separator. */
  lemma BlockShape(i: nat, p: Post)
    ensures IsPrefix(Header(i), Block(i, p))
    ensures |Separator| <= |Block(i, p)| && Block(i, p)[|Block(i, p)| - |Separator|..] == Separator
  {
  }

  /** Comment lines are numbered from 1 in list order: one more comment adds its own line at the end. */
  lemma CommentLinesAppend(comments: seq<Comment>, c: Comment)
    ensures Numbered(comments + [c], 1, CommentLine) == Numbered(comments, 1, CommentLine) + CommentLine(|comments| + 1, c)
  {
    NumberedAppend(comments, 1, CommentLine, c);
  }

  /** A comment without fields renders with author `Unknown` and empty time and text. */
  lemma CommentDefaults(j: nat)
    ensures CommentLine(j, Comment(None, None, None)) == "  " + NatToString(j) + ". Unknown (): \n"
  {
  }

  /** A non-empty comments section starts with the heading giving the count and ends with a blank line. */
  lemma CommentsSectionShape(comments: seq<Comment>)
    requires comments != []
    ensures IsPrefix(CommentsHeading(|comments|), CommentsSection(comments))
    ensures var r := CommentsSection(comments); |r| >= 2 && r[|r| - 2..] == "\n\n"
  {
    var front, last := comments[..|comments| - 1], comments[|comments| - 1];
    assert comments == front + [last];
    CommentLinesAppend(front, last);
    var lines := Numbered(comments, 1, CommentLine);
    var line := CommentLine(|front| + 1, last);
    assert line[|line| - 1] == '\n';
    assert lines[|lines| - 1] == '\n';
    var r := CommentsSection(comments);
    assert r == CommentsHeading(|comments|) + (lines + "\n");
  }

  /** The separator is exactly fifty '=' followed by a blank line. */
  lemma SeparatorShape()
    ensures |Separator| == 52
    ensures forall k :: 0 <= k < 50 ==> Separator[k] == '='
    ensures Separator[50] == '\n' && Separator[51] == '\n'
  {
  }

  /** A record with no keys at all renders every default and no comments section. */
  lemma ErrorRecordRendersDefaults(i: nat)
    ensures Block(i, ErrorRecord)
            == Header(i) + "Author: Unknown\n" + "Time: Unknown\n" + "Reactions: 0\n" + "Comments: 0\n"
               + "Shares: 0\n" + "Content:\nNo content\n\n" + Separator
  {
    assert FieldLine("Author", "Unknown") == "Author: Unknown\n";
    assert FieldLine("Time", "Unknown") == "Time: Unknown\n";
    assert FieldLine("Reactions", "0") == "Reactions: 0\n";
    assert FieldLine("Comments", "0") == "Comments: 0\n";
    assert FieldLine("Shares", "0") == "Shares: 0\n";
    assert ContentLine("No content") == "Content:\nNo content\n\n";
    assert CommentsSection([]) == "";
  }

  /** Two blocks with different numbers have different headers. */
  lemma HeadersDistinct(i: nat, j: nat)
    ensures Header(i) == Header(j) <==> i == j
  {
    assert Header(i)[9..|Header(i)| - 5] == NatToString(i);
    assert Header(j)[9..|Header(j)| - 5] == NatToString(j);
    NatToStringInjective(i, j);
  }

  // ----------------------------------------------------- the serialiser as code

  /** `format_posts_for_analysis`: builds the text with `+=`, block by block. */
  method FormatPostsForAnalysis(posts: seq<Post>) returns (text: string)
    ensures text == Format(posts)
  {
    text := "";
    var i := 0;
    while i < |posts|
      invariant 0 <= i <= |posts|
      invariant text == Format(posts[..i])
    {
      text := AppendBlock(text, i + 1, posts[i]);
      FormatAppend(posts[..i], posts[i]);
      TakeNext(posts, i);
      i := i + 1;
    }
    assert posts[..|posts|] == posts;
  }

  /** The body of the loop over the posts: the `+=` steps that write post number `n`. */
  method AppendBlock(text0: string, n: nat, post: Post) returns (text: string)
    ensures text == text0 + Block(n, post)
  {
    text := text0 + Header(n);
    text := text + FieldLine("Author", post.author.GetOr("Unknown"));
    text := text + FieldLine("Time", post.time.GetOr("Unknown"));
    text := text + FieldLine("Reactions", post.reactions.GetOr("0"));
    text := text + FieldLine("Comments", post.commentsCount.GetOr("0"));
    text := text + FieldLine("Shares", post.shares.GetOr("0"));
    text := text + ContentLine(post.text.GetOr("No content"));
    var comments := post.comments.GetOr([]);
    ghost var fields := text;
    if comments != [] {
      text := AppendComments(text, comments);
    }
    assert text == fields + CommentsSection(comments);
    text := text + Separator;
    BlockWrittenPieceByPiece(text0, n, post);
  }

  /** Writing a block's pieces one after the other appends the block. */
  lemma BlockWrittenPieceByPiece(text0: string, n: nat, p: Post)
    ensures text0 + Header(n)
            + FieldLine("Author", p.author.GetOr("Unknown"))
            + FieldLine("Time", p.time.GetOr("Unknown"))
            + FieldLine("Reactions", p.reactions.GetOr("0"))
            + FieldLine("Comments", p.commentsCount.GetOr("0"))
            + FieldLine("Shares", p.shares.GetOr("0"))
            + ContentLine(p.text.GetOr("No content"))
            + CommentsSection(p.comments.GetOr([]))
            + Separator
            == text0 + Block(n, p)
  {
    AppendAssoc9(text0, Header(n),
      FieldLine("Author", p.author.GetOr("Unknown")),
      FieldLine("Time", p.time.GetOr("Unknown")),
      FieldLine("Reactions", p.reactions.GetOr("0")),
      FieldLine("Comments", p.commentsCount.GetOr("0")),
      FieldLine("Shares", p.shares.GetOr("0")),
      ContentLine(p.text.GetOr("No content")),
      CommentsSection(p.comments.GetOr([])),
      Separator);
  }

  lemma AppendAssoc9(t: string, a: string, b: string, c: string, d: string, e: string, f: string,
                     g: string, h: string, i: string)
    ensures t + a + b + c + d + e + f + g + h + i == t + (a + b + c + d + e + f + g + h + i)
  {
    AppendAssoc(t, a, b);
    AppendAssoc(t, a + b, c);
    AppendAssoc(t, a + b + c, d);
    AppendAssoc(t, a + b + c + d, e);
    AppendAssoc(t, a + b + c + d + e, f);
    AppendAssoc(t, a + b + c + d + e + f, g);
    AppendAssoc(t, a + b + c + d + e + f + g, h);
    AppendAssoc(t, a + b + c + d + e + f + g + h, i);
  }

  /** The `if comments:` part of a block: heading, the inner loop over the comments, blank line. */
  method AppendComments(text0: string, comments: seq<Comment>) returns (text: string)
    requires comments != []
    ensures text == text0 + CommentsSection(comments)
  {
    text := text0 + CommentsHeading(|comments|);
    ghost var heading := text;
    var j := 0;
    while j < |comments|
      invariant 0 <= j <= |comments|
      invariant text == heading + Numbered(comments[..j], 1, CommentLine)
    {
      var c := comments[j];
      text := text + CommentLine(j + 1, c);
      AppendAssoc(heading, Numbered(comments[..j], 1, CommentLine), CommentLine(j + 1, c));
      NumberedAppend(comments[..j], 1, CommentLine, c);
      TakeNext(comments, j);
      j := j + 1;
    }
    assert comments[..|comments|] == comments;
    text := text + "\n";
    AppendAssoc(text0, CommentsHeading(|comments|), Numbered(comments, 1, CommentLine));
  }

  // ------------------------------------------------------- the collection loop

  /**
   * What one scroll shows: every post element currently on the page, as
   * extracted, and the page height measured afterwards.
   */
  datatype Round = Round(found: seq<Post>, newHeight: int)

  /** `post_data and "text" in post_data and post_data["text"]`. */
  predicate Admitted(p: Post) {
    p.text.Some? && p.text.value != ""
  }

  /** The inner loop: the admitted posts of one scroll, while fewer than `room` were taken. */
  function RoundTake(found: seq<Post>, room: int): (r: seq<Post>)
    ensures |r| <= if room < 0 then 0 else room
    ensures forall k :: 0 <= k < |r| ==> Admitted(r[k])
  {
    if found == [] || room <= 0 then []
    else if Admitted(found[0]) then [found[0]] + RoundTake(found[1..], room - 1)
    else RoundTake(found[1..], room)
  }

  /** RoundTake is the first `room` admitted posts of the scroll. */
  lemma {:induction false} RoundTakeIsPrefixOfFilter(found: seq<Post>, room: int)
    ensures var all := Filter(found, Admitted);
            RoundTake(found, room) == all[..if room < 0 then 0 else if room < |all| then room else |all|]
  {
    if found != [] && room > 0 {
      RoundTakeIsPrefixOfFilter(found[1..], if Admitted(found[0]) then room - 1 else room);
    }
  }

  /**
   * The outer loop: scroll after scroll until `max_posts` were collected, the
   * scrolls run out, or the page height stopped changing.
   */
  function Collect(rounds: seq<Round>, lastHeight: int, maxPosts: int, acc: seq<Post>): (r: seq<Post>)
    ensures acc <= r
    ensures |acc| >= maxPosts ==> r == acc
    ensures |acc| < maxPosts ==> |r| <= maxPosts
    ensures forall k :: |acc| <= k < |r| ==> Admitted(r[k])
    decreases |rounds|
  {
    if rounds == [] || |acc| >= maxPosts then acc
    else
      var taken := acc + RoundTake(rounds[0].found, maxPosts - |acc|);
      if rounds[0].newHeight == lastHeight then taken
      else Collect(rounds[1..], rounds[0].newHeight, maxPosts, taken)
  }

  /** All post elements of the scrolls, in page order. */
  function AllFound(rounds: seq<Round>): seq<Post> {
    if rounds == [] then [] else rounds[0].found + AllFound(rounds[1..])
  }

  /** The scrolls the loop performs: all of them, up to and including the first that leaves the height unchanged. */
  function Scrolled(rounds: seq<Round>, lastHeight: int): (r: seq<Round>)
    ensures r <= rounds
    decreases |rounds|
  {
    if rounds == [] then []
    else if rounds[0].newHeight == lastHeight then [rounds[0]]
    else [rounds[0]] + Scrolled(rounds[1..], rounds[0].newHeight)
  }

  /** Every scroll changes the page height: each new height differs from the one before it. */
  predicate HeightsChange(rounds: seq<Round>, lastHeight: int)
    decreases |rounds|
  {
    rounds == [] || (rounds[0].newHeight != lastHeight && HeightsChange(rounds[1..], rounds[0].newHeight))
  }

  /** When every scroll changes the height, all of them are performed. */
  lemma {:induction false} ScrolledAll(rounds: seq<Round>, lastHeight: int)
    requires HeightsChange(rounds, lastHeight)
    ensures Scrolled(rounds, lastHeight) == rounds
    decreases |rounds|
  {
    if rounds != [] {
      ScrolledAll(rounds[1..], rounds[0].newHeight);
      assert rounds == [rounds[0]] + rounds[1..];
    }
  }

  function Min(a: int, b: int): int { if a < b then a else b }

  /** The posts with text of the scrolls performed, up to `room` of them. */
  function FirstAdmitted(rounds: seq<Round>, lastHeight: int, room: int): seq<Post> {
    var all := Filter(AllFound(Scrolled(rounds, lastHeight)), Admitted);
    all[..Min(if room < 0 then 0 else room, |all|)]
  }

  /**
   * The collection is exact: what was already collected, followed by the
   * first posts with text of the scrolls performed, as many as there are up
   * to the room left under `max_posts`.
   */
  lemma {:induction false} CollectTakesFirstAdmitted(rounds: seq<Round>, lastHeight: int, maxPosts: int, acc: seq<Post>)
    ensures Collect(rounds, lastHeight, maxPosts, acc) == acc + FirstAdmitted(rounds, lastHeight, maxPosts - |acc|)
    decreases |rounds|
  {
    if rounds == [] || |acc| >= maxPosts {
      assert FirstAdmitted(rounds, lastHeight, maxPosts - |acc|) == [];
    } else {
      var room := maxPosts - |acc|;
      var first := rounds[0];
      var here := Filter(first.found, Admitted);
      var rest := if first.newHeight == lastHeight then [] else Filter(AllFound(Scrolled(rounds[1..], first.newHeight)), Admitted);
      ScrolledPosts(rounds, lastHeight);
      RoundTakeIsPrefixOfFilter(first.found, room);
      var taken := acc + here[..Min(room, |here|)];
      if first.newHeight == lastHeight {
        assert Collect(rounds, lastHeight, maxPosts, acc) == taken;
        TakeFromConcat(acc, here, [], maxPosts);
      } else {
        assert Collect(rounds, lastHeight, maxPosts, acc) == Collect(rounds[1..], first.newHeight, maxPosts, taken);
        CollectTakesFirstAdmitted(rounds[1..], first.newHeight, maxPosts, taken);
        TakeFromConcat(acc, here, rest, maxPosts);
      }
    }
  }

  /** When every scroll changes the height, the collection is the first `max_posts` posts with text over all scrolls. */
  lemma CollectAllScrolls(rounds: seq<Round>, lastHeight: int, maxPosts: int)
    requires HeightsChange(rounds, lastHeight)
    ensures var all := Filter(AllFound(rounds), Admitted);
            Collect(rounds, lastHeight, maxPosts, []) == all[..Min(if maxPosts < 0 then 0 else maxPosts, |all|)]
  {
    CollectTakesFirstAdmitted(rounds, lastHeight, maxPosts, []);
    ScrolledAll(rounds, lastHeight);
  }

  /** The posts with text of the scrolls performed: those of the first scroll, then those of the scrolls after it if it changed the height. */
  lemma ScrolledPosts(rounds: seq<Round>, lastHeight: int)
    requires rounds != []
    ensures Filter(AllFound(Scrolled(rounds, lastHeight)), Admitted) ==
              Filter(rounds[0].found, Admitted)
              + if rounds[0].newHeight == lastHeight then []
                else Filter(AllFound(Scrolled(rounds[1..], rounds[0].newHeight)), Admitted)
  {
    var first := rounds[0];
    var later := if first.newHeight == lastHeight then [] else Scrolled(rounds[1..], first.newHeight);
    assert Scrolled(rounds, lastHeight) == [first] + later;
    assert ([first] + later)[1..] == later;
    FilterConcat(first.found, AllFound(later), Admitted);
  }

  /** Taking up to `room` from `here` and then from `rest` is taking up to `room` from `here + rest`. */
  lemma TakeFromConcat<T>(acc: seq<T>, here: seq<T>, rest: seq<T>, maxPosts: int)
    requires |acc| < maxPosts
    ensures var room := maxPosts - |acc|;
            var taken := acc + here[..Min(room, |here|)];
            var room2 := if maxPosts - |taken| < 0 then 0 else maxPosts - |taken|;
            taken + rest[..Min(room2, |rest|)] == acc + (here + rest)[..Min(room, |here + rest|)]
  {
    var room := maxPosts - |acc|;
    if room <= |here| {
      assert (here + rest)[..room] == here[..room];
    } else {
      var n := Min(room, |here + rest|);
      assert (here + rest)[..n] == here + rest[..n - |here|];
    }
  }

  /** Once a scroll leaves the page height unchanged, later scrolls have no effect. */
  lemma CollectStopsOnUnchangedHeight(first: Round, later: seq<Round>, lastHeight: int, maxPosts: int, acc: seq<Post>)
    requires first.newHeight == lastHeight
    ensures Collect([first] + later, lastHeight, maxPosts, acc) == Collect([first], lastHeight, maxPosts, acc)
  {
    assert ([first] + later)[0] == first;
  }

  /** The post-collection loop of `login_and_scrape_group`, one element of `rounds` per scroll. */
  method CollectPosts(rounds: seq<Round>, lastHeight: int, maxPosts: int) returns (posts: seq<Post>)
    ensures posts == Collect(rounds, lastHeight, maxPosts, [])
    ensures posts == FirstAdmitted(rounds, lastHeight, maxPosts)
    ensures |posts| <= if maxPosts < 0 then 0 else maxPosts
    ensures forall k :: 0 <= k < |posts| ==> Admitted(posts[k])
  {
    posts := [];
    var collected := 0;
    var height := lastHeight;
    var i := 0;
    while i < |rounds|
      invariant 0 <= i <= |rounds|
      invariant collected == |posts|
      invariant Collect(rounds, lastHeight, maxPosts, []) == Collect(rounds[i..], height, maxPosts, posts)
    {
      if collected >= maxPosts {
        break;
      }
      posts, collected := TakeFromScroll(posts, collected, rounds[i].found, maxPosts);
      var newHeight := rounds[i].newHeight;
      if newHeight == height {
        break;
      }
      assert rounds[i..][1..] == rounds[i + 1..];
      height := newHeight;
      i := i + 1;
    }
    CollectTakesFirstAdmitted(rounds, lastHeight, maxPosts, []);
    assert [] + FirstAdmitted(rounds, lastHeight, maxPosts) == FirstAdmitted(rounds, lastHeight, maxPosts);
  }

  /** The inner loop over one scroll's post elements, appending those with text while fewer than `max_posts` were taken. */
  method TakeFromScroll(posts0: seq<Post>, collected0: int, found: seq<Post>, maxPosts: int)
    returns (posts: seq<Post>, collected: int)
    requires collected0 == |posts0|
    ensures posts == posts0 + RoundTake(found, maxPosts - |posts0|)
    ensures collected == |posts|
  {
    posts, collected := posts0, collected0;
    var j := 0;
    while j < |found|
      invariant 0 <= j <= |found|
      invariant collected == |posts|
      invariant posts0 + RoundTake(found, maxPosts - |posts0|) == posts + RoundTake(found[j..], maxPosts - |posts|)
    {
      if collected >= maxPosts {
        break;
      }
      var post := found[j];
      assert found[j..][1..] == found[j + 1..];
      if post.text.Some? && post.text.value != "" {
        posts := posts + [post];
        collected := collected + 1;
      }
      j := j + 1;
    }
  }

  /**
   * `login_and_scrape_group` from the login check on: nothing when Facebook
   * asks for verification, otherwise the formatted collected posts.
   */
  method ScrapeGroup(urlAfterLogin: string, initialHeight: int, rounds: seq<Round>, maxPosts: int)
    returns (text: string)
    ensures LoginBlocked(urlAfterLogin) ==> text == ""
    ensures !LoginBlocked(urlAfterLogin) ==> text == Format(Collect(rounds, initialHeight, maxPosts, []))
    ensures IsBlank(text) <==> LoginBlocked(urlAfterLogin) || Collect(rounds, initialHeight, maxPosts, []) == []
  {
    if LoginBlocked(urlAfterLogin) {
      return "";
    }
    var posts := CollectPosts(rounds, initialHeight, maxPosts);
    text := FormatPostsForAnalysis(posts);
    FormatBlankIff(posts);
  }
}
