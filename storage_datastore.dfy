/** The decisions of storage/datastore.go that do not depend on the
    datastore itself: the unread delta and clamped counter update of
    `SetProperty`, and the page and continue rule of `NewArticlePage`.
    Datastore reads and writes are inputs (the query's results) or are
    not modelled. */
module StorageDatastore {
  import opened Wrappers
  import opened StorageKeys
  import StorageObjects

  const ArticlePageSize := 40

  /** The change in the unread count when `unread` goes from `wasUnread`
      to `isUnread`. */
  function UnreadDelta(wasUnread: bool, isUnread: bool): (d: int)
    ensures d == -1 <==> wasUnread && !isUnread
    ensures d == 1 <==> !wasUnread && isUnread
    ensures d == 0 <==> wasUnread == isUnread
  {
    if wasUnread != isUnread then (if wasUnread then -1 else 1) else 0
  }

  /** Which requests change the unread count once `Article.SetProperty`
      has kept `read` and `unread` exclusive: unread goes away when
      `unread` is cleared or `read` is set, and appears when `unread` is
      set or a present `read` is cleared. */
  lemma UnreadTransitions(props: set<string>, name: string, value: bool)
    requires value != (name in props)
    ensures var after := StorageObjects.Updated(props, name, value);
            UnreadDelta("unread" in props, "unread" in after) ==
              if "unread" in props && ((name == "unread" && !value) || (name == "read" && value)) then -1
              else if "unread" !in props && ((name == "unread" && value) || (name == "read" && !value)) then 1
              else 0
  {
  }

  /** The counter update: the delta is applied only if the result stays at
      or above zero. */
  function ClampedCount(unreadCount: int, unreadDelta: int): (r: int)
    ensures unreadCount + unreadDelta >= 0 ==> r == unreadCount + unreadDelta
    ensures unreadCount + unreadDelta < 0 ==> r == unreadCount
    ensures unreadCount >= 0 ==> r >= 0
  {
    if unreadCount + unreadDelta >= 0 then unreadCount + unreadDelta else unreadCount
  }

  /** `SetProperty` once the article is loaded: nothing is written when
      the article already has the requested state; otherwise the article
      changes as `Article.SetProperty` says and the subscription's counter
      moves by the unread delta, clamped at zero. `unreadCount` is the
      counter as read from the subscription. */
  method SetProperty(article: StorageObjects.Article, propertyName: string, propertyValue: bool, unreadCount: int)
    returns (properties: seq<string>, written: bool, unreadDelta: int, newUnreadCount: int)
    modifies article
    ensures written <==> propertyValue != (propertyName in old(article.Properties))
    ensures !written ==> article.Properties == old(article.Properties) && unreadDelta == 0
    ensures written ==> StorageObjects.SetOf(article.Properties) ==
                        StorageObjects.Updated(StorageObjects.SetOf(old(article.Properties)), propertyName, propertyValue)
    ensures unreadDelta == UnreadDelta("unread" in old(article.Properties), "unread" in article.Properties)
    ensures newUnreadCount == if unreadDelta != 0 then ClampedCount(unreadCount, unreadDelta) else unreadCount
    ensures properties == article.Properties
  {
    written, unreadDelta, newUnreadCount := false, 0, unreadCount;
    if propertyValue != article.HasProperty(propertyName) {
      var wasUnread := article.IsUnread();
      article.SetProperty(propertyName, propertyValue);

      if wasUnread != article.IsUnread() {
        if wasUnread {
          unreadDelta := -1;
        } else {
          unreadDelta := 1;
        }
      }
      written := true;

      if unreadDelta != 0 {
        if unreadCount + unreadDelta >= 0 {
          newUnreadCount := unreadCount + unreadDelta;
        }
      }
    }
    properties := article.Properties;
  }

  /** An article row as `NewArticlePage` fills it. `tags` is `None` for a
      nil slice. */
  datatype PageArticle = PageArticle(entry: Key, id: string, source: string, tags: Option<seq<string>>)

  /** The outcome of one `Next` on the query: an article, an article with
      a field mismatch (which is kept), or an error. The end of the
      sequence is `datastore.Done`. */
  datatype Fetch = Loaded(article: PageArticle) | Mismatched(article: PageArticle) | Failed(message: string)

  datatype ArticlePage = ArticlePage(articles: seq<PageArticle>, continueFrom: string)

  /** `Key.StringID()`. */
  function StringID(key: Key): string {
    if key.id.StringId? then key.id.name else ""
  }

  /** How many results the page loop reads: stop at `Done` or after a
      full page. */
  function PageLength(results: seq<Fetch>): (n: nat)
    ensures n <= ArticlePageSize && n <= |results|
    ensures n < ArticlePageSize ==> n == |results|
  {
    if |results| < ArticlePageSize then |results| else ArticlePageSize
  }

  /** The article as the page holds it: ids from its entry key, and an
      empty tag list in place of a nil one. */
  function Normalized(a: PageArticle): (r: PageArticle)
    ensures r.entry == a.entry && r.tags.Some?
    ensures a.tags.Some? ==> r.tags == a.tags
    ensures a.tags.None? ==> r.tags == Some([])
  {
    var source := if a.entry.parent.Some? then StringID(a.entry.parent.value) else "";
    PageArticle(a.entry, StringID(a.entry), source, Some(if a.tags.Some? then a.tags.value else []))
  }

  /** `NewArticlePage` after the query is set up. `scopeKey` is the
      filter's key (or its error), `startError` the error of decoding the
      start cursor if there was one, `results` the query's results and
      `cursor` the outcome of asking for the cursor after a full page. */
  method NewArticlePage(scopeKey: Result<Key>, startError: Option<string>, results: seq<Fetch>, cursor: Option<string>)
    returns (r: Result<ArticlePage>)
    ensures scopeKey.Err? ==> r == Err(scopeKey.message)
    ensures scopeKey.Ok? && startError.Some? ==> r == Err(startError.value)
    ensures scopeKey.Ok? && startError.None? ==>
              (r.Err? <==> exists k :: 0 <= k < PageLength(results) && results[k].Failed?)
    ensures r.Ok? ==> |r.value.articles| == PageLength(results) <= ArticlePageSize
    ensures r.Ok? ==> forall k :: 0 <= k < |r.value.articles| ==>
                        r.value.articles[k] == Normalized(results[k].article) && r.value.articles[k].tags.Some?
    ensures r.Ok? ==> r.value.continueFrom ==
                        if |r.value.articles| >= ArticlePageSize && cursor.Some? then cursor.value else ""
  {
    if scopeKey.Err? {
      return Err(scopeKey.message);
    }
    if startError.Some? {
      return Err(startError.value);
    }

    var articles := new PageArticle[ArticlePageSize];
    var readCount := 0;
    while readCount < ArticlePageSize
      invariant 0 <= readCount <= ArticlePageSize && readCount <= |results|
      invariant forall k :: 0 <= k < readCount ==> !results[k].Failed?
      invariant forall k :: 0 <= k < readCount ==>
                  articles[k].entry == results[k].article.entry && articles[k].tags == results[k].article.tags &&
                  articles[k] == Normalized(results[k].article).(tags := results[k].article.tags)
    {
      if readCount >= |results| {
        break;
      }
      match results[readCount] {
        case Failed(message) =>
          return Err(message);
        case Loaded(article) =>
          articles[readCount] := SetIds(article);
        case Mismatched(article) =>
          // A field mismatch is ignored: the article is kept
          articles[readCount] := SetIds(article);
      }
      readCount := readCount + 1;
    }
    assert readCount == PageLength(results);

    var continueFrom := "";
    if readCount >= ArticlePageSize {
      if cursor.Some? {
        continueFrom := cursor.value;
      }
    }

    var i := 0;
    while i < readCount
      invariant 0 <= i <= readCount
      invariant forall k :: 0 <= k < i ==> articles[k] == Normalized(results[k].article)
      invariant forall k :: i <= k < readCount ==>
                  articles[k] == Normalized(results[k].article).(tags := results[k].article.tags)
    {
      if articles[i].tags.None? {
        articles[i] := articles[i].(tags := Some([]));
      }
      i := i + 1;
    }

    r := Ok(ArticlePage(articles[..readCount], continueFrom));
  }

  /** `article.ID` and `article.Source` from the entry key and its
      parent. */
  function SetIds(a: PageArticle): (r: PageArticle)
    ensures r == Normalized(a).(tags := a.tags)
  {
    var source := if a.entry.parent.Some? then StringID(a.entry.parent.value) else "";
    a.(id := StringID(a.entry), source := source)
  }
}
