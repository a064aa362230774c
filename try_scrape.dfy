/**
 * try.py's scraper after the page has loaded: choosing the post containers
 * (three selector strategies, the first that finds anything wins) and
 * assembling one `POST i: ...` paragraph per container from its texts.
 *
 * A container is abstracted to the texts BeautifulSoup's `get_text(strip=True)`
 * returns for its `<p>` elements, for its `<div>`s and for its `<span>`s that
 * have a string child, each in document order.
 */
module TryScrape {
  import opened Text
  import opened Pages

  datatype Container = Container(paragraphs: seq<string>, divs: seq<string>, spans: seq<string>)

  /** A paragraph text is kept when it is not empty. */
  predicate KeepParagraph(t: string) { t != "" }

  /** A div or span text is kept when it is not empty and longer than 20 characters. */
  predicate KeepLong(t: string) { t != "" && |t| > 20 }

  /** `text_elements` after the three `extend` calls: kept paragraphs, then kept divs, then kept spans. */
  function TextElements(c: Container): seq<string> {
    Filter(c.paragraphs, KeepParagraph) + Filter(c.divs, KeepLong) + Filter(c.spans, KeepLong)
  }

  /** What container number `i` (counting from 1 over all containers) contributes to the text. */
  function Entry(i: nat, c: Container): string {
    var elements := TextElements(c);
    if elements == [] then "" else PostLabel(i) + Join(" ", Dedup(elements)) + ParagraphEnd
  }

  /** `POST i: `, the label in front of a post's text. */
  function PostLabel(i: nat): string {
    "POST " + NatToString(i) + ": "
  }

  const ParagraphEnd := "\n\n"

  /** `all_text` after the loop over the containers. */
  function AllText(containers: seq<Container>): string {
    Numbered(containers, 1, Entry)
  }

  // --------------------------------------------------------------- properties

  /** Which texts are kept: exactly the non-empty paragraph texts and the long div and span texts. */
  lemma TextElementsKept(c: Container, t: string)
    ensures t in TextElements(c) <==>
              (t in c.paragraphs && t != "") || ((t in c.divs || t in c.spans) && |t| > 20)
  {
  }

  /** A container contributes nothing exactly when it has no kept text, else a `POST i: ` paragraph. */
  lemma EntryShape(i: nat, c: Container)
    ensures Entry(i, c) == "" <==> TextElements(c) == []
    ensures TextElements(c) != [] ==> IsPrefix(PostLabel(i), Entry(i, c)) && Entry(i, c)[0] == 'P'
  {
  }

  /**
   * One more container adds its own entry at the end, numbered by its position
   * among all containers, so skipped containers leave gaps in the numbering.
   */
  lemma AllTextAppend(containers: seq<Container>, c: Container)
    ensures AllText(containers + [c]) == AllText(containers) + Entry(|containers| + 1, c)
  {
    NumberedAppend(containers, 1, Entry, c);
  }

  /** The text is empty exactly when no container has a kept text. */
  lemma AllTextEmptyIff(containers: seq<Container>)
    ensures AllText(containers) == "" <==>
              forall i :: 0 <= i < |containers| ==> TextElements(containers[i]) == []
  {
    NumberedEmptyIff(containers, 1, Entry);
    forall i | 0 <= i < |containers| ensures Entry(1 + i, containers[i]) == "" <==> TextElements(containers[i]) == [] {
      EntryShape(1 + i, containers[i]);
    }
  }

  /** A non-empty text always starts with `P`, so it is never whitespace only. */
  lemma AllTextBlankIff(containers: seq<Container>)
    ensures IsBlank(AllText(containers)) <==> AllText(containers) == ""
  {
    EntriesBlankIff(containers, 1);
  }

  lemma {:induction false} EntriesBlankIff(containers: seq<Container>, k: nat)
    ensures IsBlank(Numbered(containers, k, Entry)) <==> Numbered(containers, k, Entry) == ""
    decreases |containers|
  {
    if containers != [] {
      var e := Entry(k, containers[0]);
      var rest := Numbered(containers[1..], k + 1, Entry);
      assert Numbered(containers, k, Entry) == e + rest;
      EntryBlankIff(k, containers[0]);
      BlankConcat(e, rest);
      EntriesBlankIff(containers[1..], k + 1);
    }
  }

  /** One entry is either empty or starts with `P`. */
  lemma EntryBlankIff(i: nat, c: Container)
    ensures IsBlank(Entry(i, c)) <==> Entry(i, c) == ""
  {
    if Entry(i, c) != "" {
      EntryShape(i, c);
      assert !IsWhitespace(Entry(i, c)[0]);
    }
  }

  /** A container without kept text is skipped, and the next one is still numbered by its position. */
  lemma NumberingHasGaps()
    ensures AllText([Container([], [], []), Container(["hello"], [], [])]) == "POST 2: hello\n\n"
  {
  }

  // ----------------------------------------------------------- choosing posts

  /** The first strategy that found anything; nothing if none did. */
  function FirstNonEmpty<T(==)>(strategies: seq<seq<T>>): (r: seq<T>)
    ensures r == [] <==> forall k :: 0 <= k < |strategies| ==> strategies[k] == []
    ensures r != [] ==> exists k :: 0 <= k < |strategies| && strategies[k] == r &&
                                     forall j :: 0 <= j < k ==> strategies[j] == []
  {
    if strategies == [] then []
    else if strategies[0] != [] then strategies[0]
    else
      var r := FirstNonEmpty(strategies[1..]);
      assert forall k :: 1 <= k < |strategies| ==> strategies[k] == strategies[1..][k - 1];
      if r != [] then
        var k :| 0 <= k < |strategies[1..]| && strategies[1..][k] == r &&
                 forall j :: 0 <= j < k ==> strategies[1..][j] == [];
        assert strategies[k + 1] == r;
        r
      else r
  }

  /** With three strategies: the first, else the second, else the third (possibly empty). */
  lemma FirstOfThree<T>(a: seq<T>, b: seq<T>, c: seq<T>)
    ensures FirstNonEmpty([a, b, c]) == if a != [] then a else if b != [] then b else c
  {
    var s := [a, b, c];
    assert s[0] == a;
    if a == [] {
      assert s[1..] == [b, c];
      assert FirstNonEmpty(s) == FirstNonEmpty([b, c]);
      if b == [] {
        assert [b, c][1..] == [c];
        assert FirstNonEmpty([b, c]) == FirstNonEmpty([c]);
        assert [c][1..] == [];
        assert FirstNonEmpty([c]) == c;
      }
    }
  }

  // ------------------------------------------------------------ the code

  /** The loop over the containers, growing `all_text` with `+=`. */
  method AssemblePosts(containers: seq<Container>) returns (allText: string)
    ensures allText == AllText(containers)
  {
    allText := "";
    var i := 0;
    while i < |containers|
      invariant 0 <= i <= |containers|
      invariant allText == AllText(containers[..i])
    {
      allText := AppendEntry(allText, i + 1, containers[i]);
      AllTextAppend(containers[..i], containers[i]);
      TakeNext(containers, i);
      i := i + 1;
    }
    assert containers[..|containers|] == containers;
  }

  /** One iteration: `text_elements` built with three `extend` calls, then appended once de-duplicated and joined. */
  method AppendEntry(text0: string, n: nat, post: Container) returns (text: string)
    ensures text == text0 + Entry(n, post)
  {
    var textElements: seq<string> := [];
    textElements := textElements + Filter(post.paragraphs, KeepParagraph);
    textElements := textElements + Filter(post.divs, KeepLong);
    textElements := textElements + Filter(post.spans, KeepLong);
    assert textElements == TextElements(post);
    text := text0;
    if textElements != [] {
      var postText := Join(" ", Dedup(textElements));
      text := text + PostLabel(n) + postText + ParagraphEnd;
    }
  }

  /**
   * `login_and_scrape_group` of try.py from the login check on: nothing when
   * Facebook asks for verification or the group page is not shown, otherwise
   * the text of the containers the first successful strategy found.
   */
  method ScrapeGroup(urlAfterLogin: string, urlAfterGroup: string,
                     byRole: seq<Container>, byClass: seq<Container>, byTestId: seq<Container>)
    returns (allText: string)
    ensures LoginBlocked(urlAfterLogin) || !InGroup(urlAfterGroup) ==> allText == ""
    ensures !LoginBlocked(urlAfterLogin) && InGroup(urlAfterGroup) ==>
              allText == AllText(FirstNonEmpty([byRole, byClass, byTestId]))
    ensures IsBlank(allText) <==> allText == ""
  {
    if LoginBlocked(urlAfterLogin) {
      return "";
    }
    if !InGroup(urlAfterGroup) {
      return "";
    }
    var postDivs := byRole;
    if postDivs == [] {
      postDivs := byClass;
    }
    if postDivs == [] {
      postDivs := byTestId;
    }
    FirstOfThree(byRole, byClass, byTestId);
    allText := AssemblePosts(postDivs);
    AllTextBlankIff(postDivs);
  }
}
