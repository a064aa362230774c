/**
 * fb.py's text assembly after the page has loaded: every `div[role=article]`
 * contributes the single-space join of its paragraph texts, followed by a
 * blank line, unless that join is empty.
 *
 * An article is abstracted to the texts `get_text(strip=True)` returns for
 * its `<p>` elements, in document order.
 */
module FbScrape {
  import opened Text

  type Article = seq<string>

  /** What one article adds to `all_text`. */
  function Contribution(paragraphs: Article): string {
    var postText := Join(" ", paragraphs);
    if postText != "" then postText + "\n\n" else ""
  }

  /** `all_text` after the loop over the articles. */
  function FbText(articles: seq<Article>): string
    decreases |articles|
  {
    if articles == [] then ""
    else FbText(articles[..|articles| - 1]) + Contribution(articles[|articles| - 1])
  }

  // --------------------------------------------------------------- properties

  /**
   * An article is skipped exactly when the join is empty: when it has no
   * paragraph, or one empty paragraph. Otherwise it adds the join and a blank line.
   */
  lemma ContributionIff(paragraphs: Article)
    ensures Contribution(paragraphs) == "" <==> paragraphs == [] || paragraphs == [""]
    ensures Contribution(paragraphs) != "" ==> Contribution(paragraphs) == Join(" ", paragraphs) + "\n\n"
  {
  }

  /** Two empty paragraphs join to a single space, which counts as text. */
  lemma TwoEmptyParagraphsContribute()
    ensures Contribution(["", ""]) == " \n\n"
    ensures IsBlank(Contribution(["", ""]))
  {
  }

  /** The text of a concatenation of articles is the concatenation of their texts: document order is kept. */
  lemma {:induction false} FbTextSplit(a: seq<Article>, b: seq<Article>)
    ensures FbText(a + b) == FbText(a) + FbText(b)
    decreases |b|
  {
    if b == [] {
      assert a + b == a;
    } else {
      var last := b[|b| - 1];
      var front := b[..|b| - 1];
      assert (a + b)[..|a + b| - 1] == a + front;
      assert (a + b)[|a + b| - 1] == last;
      FbTextSplit(a, front);
      AppendAssoc(FbText(a), FbText(front), Contribution(last));
    }
  }

  /** Appending one article adds exactly its contribution at the end. */
  lemma FbTextAppend(articles: seq<Article>, paragraphs: Article)
    ensures FbText(articles + [paragraphs]) == FbText(articles) + Contribution(paragraphs)
  {
    assert (articles + [paragraphs])[..|articles|] == articles;
  }

  /** Nothing is scraped exactly when no article contributes. */
  lemma {:induction false} FbTextEmptyIff(articles: seq<Article>)
    ensures FbText(articles) == "" <==>
              forall i :: 0 <= i < |articles| ==> Contribution(articles[i]) == ""
    decreases |articles|
  {
    if articles != [] {
      var front := articles[..|articles| - 1];
      FbTextEmptyIff(front);
      assert forall i :: 0 <= i < |front| ==> front[i] == articles[i];
    }
  }

  // ------------------------------------------------------------ the code

  /** The loop over the articles, growing `all_text` with `+=`. */
  method AssembleText(articles: seq<Article>) returns (allText: string)
    ensures allText == FbText(articles)
  {
    allText := "";
    var i := 0;
    while i < |articles|
      invariant 0 <= i <= |articles|
      invariant allText == FbText(articles[..i])
    {
      var postText := Join(" ", articles[i]);
      if postText != "" {
        allText := allText + postText + "\n\n";
        AppendAssoc(FbText(articles[..i]), postText, "\n\n");
      }
      FbTextAppend(articles[..i], articles[i]);
      TakeNext(articles, i);
      i := i + 1;
    }
    assert articles[..|articles|] == articles;
  }
}
