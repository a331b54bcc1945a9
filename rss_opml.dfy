/** rss/opml.go: the OPML document and outline tree that subscription lists
    are imported from and exported to. Outlines are shared by reference and
    grown in place by `Add`, so both are classes. */
module RssOpml {

  /** An `<outline>`; a folder when it has no feed URL. */
  class Outline {
    var text: string
    var title: string
    var outlineType: string
    var feedURL: string
    var webURL: string
    var outlines: seq<Outline>

    /** `NewFolder`. */
    constructor Folder(title: string)
      ensures this.text == title && this.title == title && outlineType == "" && feedURL == "" && webURL == ""
      ensures outlines == []
      ensures IsFolder()
    {
      this.text, this.title := title, title;
      outlineType, feedURL, webURL := "", "", "";
      outlines := [];
    }

    /** `NewSubscription`. */
    constructor Subscription(title: string, feedURL: string, webURL: string)
      ensures this.text == title && this.title == title && outlineType == ""
      ensures this.feedURL == feedURL && this.webURL == webURL && outlines == []
      ensures feedURL != "" ==> IsSubscription()
    {
      this.text, this.title := title, title;
      outlineType := "";
      this.feedURL, this.webURL := feedURL, webURL;
      outlines := [];
    }

    predicate IsFolder()
      reads this
    {
      feedURL == ""
    }

    predicate IsSubscription()
      reads this
    {
      feedURL != ""
    }

    /** `Outline.Add`: the child goes after the existing children. */
    method Add(child: Outline)
      modifies this
      ensures outlines == old(outlines) + [child]
      ensures text == old(text) && title == old(title) && outlineType == old(outlineType)
      ensures feedURL == old(feedURL) && webURL == old(webURL)
    {
      outlines := outlines + [child];
    }
  }

  /** Every outline is exactly one of a folder and a subscription. */
  lemma FolderIffNotSubscription(outline: Outline)
    ensures outline.IsFolder() <==> !outline.IsSubscription()
  {
  }

  /** The `<opml>` document; `head` is its title. */
  class Opml {
    var version: string
    var head: string
    var outlines: seq<Outline>

    /** `NewOPML`. */
    constructor ()
      ensures version == "1.0" && head == "" && outlines == []
    {
      version, head, outlines := "1.0", "", [];
    }

    function Title(): string
      reads this
    {
      head
    }

    method SetTitle(title: string)
      modifies this
      ensures Title() == title
      ensures version == old(version) && outlines == old(outlines)
    {
      head := title;
    }

    function Outlines(): seq<Outline>
      reads this
    {
      outlines
    }

    /** `OPML.Add`: the outline goes after the existing top-level outlines. */
    method Add(outline: Outline)
      modifies this
      ensures Outlines() == old(Outlines()) + [outline]
      ensures version == old(version) && Title() == old(Title())
    {
      outlines := outlines + [outline];
    }
  }
}
