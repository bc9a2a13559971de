/** The community feed: a list of articles per tab, with likes. The feed's
    state is a value; each handler gives the next state. */
module Community {

  /** An article, reduced to what the handlers read or change: its id, its
      author's name and its counters. */
  datatype Article = Article(id: nat, author: string, likes: nat, comments: nat, shares: nat)

  /** The feed page's state. */
  datatype Feed = Feed(activeTab: string, articles: seq<Article>, loading: bool, page: nat)

  const TABS: seq<string> := ["recommend", "following", "nearby", "hot"]

  /** The five articles every tab loads. */
  const MOCK_ARTICLES: seq<Article> := [
    Article(1, "科技达人小王", 128, 23, 15),
    Article(2, "美妆博主Lisa", 89, 34, 12),
    Article(3, "健身教练Mike", 156, 18, 8),
    Article(4, "旅行摄影师Joy", 245, 67, 34),
    Article(5, "料理爱好者小陈", 93, 28, 19)
  ]

  /** The page as first shown. */
  function Initial(): (f: Feed)
    ensures f.activeTab == TABS[0] && f.articles == [] && !f.loading && f.page == 1
  {
    Feed("recommend", [], false, 1)
  }

  /** `loadArticles()` once its delay has passed: the mock list whatever the
      tab, and loading over. */
  function LoadArticles(f: Feed): (g: Feed)
    ensures g.articles == MOCK_ARTICLES && !g.loading
    ensures g.activeTab == f.activeTab && g.page == f.page
  {
    f.(articles := MOCK_ARTICLES, loading := false)
  }

  /** Loading gives the same articles on every tab. */
  lemma LoadIgnoresTab(f: Feed, tab: string)
    ensures LoadArticles(f.(activeTab := tab)).articles == LoadArticles(f).articles
  {
  }

  /** `handleTabChange(key)`: the tab is selected and paging starts over. */
  function HandleTabChange(f: Feed, key: string): (g: Feed)
    ensures g.activeTab == key && g.page == 1
    ensures g.articles == f.articles && g.loading == f.loading
  {
    f.(activeTab := key, page := 1)
  }

  /** A tab change as the page lives it: the handler, then the reload that
      `loadArticles` (rebuilt for the new tab) triggers, taken as complete. */
  function SwitchTab(f: Feed, key: string): (g: Feed)
    ensures g.activeTab == key && g.page == 1
    ensures g.articles == MOCK_ARTICLES && !g.loading
  {
    LoadArticles(HandleTabChange(f, key))
  }

  /** The articles after a like on `articleId`: that article's count goes
      up by one, every other article is kept, in the same order. */
  function Like(articles: seq<Article>, articleId: nat): (r: seq<Article>)
    ensures |r| == |articles|
    ensures forall i :: 0 <= i < |r| ==> r[i].id == articles[i].id && r[i].author == articles[i].author
    ensures forall i :: 0 <= i < |r| && articles[i].id != articleId ==> r[i] == articles[i]
    ensures forall i :: 0 <= i < |r| && articles[i].id == articleId ==> r[i].likes == articles[i].likes + 1
  {
    seq(|articles|, i requires 0 <= i < |articles| =>
      if articles[i].id == articleId then articles[i].(likes := articles[i].likes + 1) else articles[i])
  }

  /** `handleLike(articleId)`: only the article list changes, and the feed
      gains one like per article carrying that id. */
  function HandleLike(f: Feed, articleId: nat): (g: Feed)
    ensures g.activeTab == f.activeTab && g.loading == f.loading && g.page == f.page
    ensures |g.articles| == |f.articles|
    ensures TotalLikes(g.articles) == TotalLikes(f.articles) + CountId(f.articles, articleId)
  {
    LikeTotal(f.articles, articleId);
    f.(articles := Like(f.articles, articleId))
  }

  /** Switching tabs reloads the mock list, so every like given before the
      switch is lost. */
  lemma TabSwitchDropsLikes(f: Feed, articleId: nat, key: string)
    ensures SwitchTab(HandleLike(f, articleId), key).articles == SwitchTab(f, key).articles
    ensures forall i :: 0 <= i < |MOCK_ARTICLES| ==>
      SwitchTab(HandleLike(f, articleId), key).articles[i].likes == MOCK_ARTICLES[i].likes
  {
  }

  function TotalLikes(articles: seq<Article>): nat {
    if articles == [] then 0 else TotalLikes(articles[..|articles| - 1]) + articles[|articles| - 1].likes
  }

  /** How many articles carry the id. */
  function CountId(articles: seq<Article>, articleId: nat): nat {
    if articles == [] then 0
    else CountId(articles[..|articles| - 1], articleId) + (if articles[|articles| - 1].id == articleId then 1 else 0)
  }

  /** A like adds exactly one like per article with that id to the total. */
  lemma {:induction false} LikeTotal(articles: seq<Article>, articleId: nat)
    ensures TotalLikes(Like(articles, articleId)) == TotalLikes(articles) + CountId(articles, articleId)
  {
    if articles != [] {
      var n := |articles| - 1;
      LikeTotal(articles[..n], articleId);
      assert Like(articles, articleId)[..n] == Like(articles[..n], articleId);
    }
  }

  /** Liking an id no article has leaves the list as it was. */
  lemma UnknownIdChangesNothing(articles: seq<Article>, articleId: nat)
    requires forall i :: 0 <= i < |articles| ==> articles[i].id != articleId
    ensures Like(articles, articleId) == articles
  {
  }

  /** When ids are distinct, as in the mock list, a like on a listed
      article raises the total by exactly one. */
  lemma {:induction false} LikeOnDistinctIds(articles: seq<Article>, articleId: nat)
    requires forall i, j :: 0 <= i < j < |articles| ==> articles[i].id != articles[j].id
    requires exists i :: 0 <= i < |articles| && articles[i].id == articleId
    ensures TotalLikes(Like(articles, articleId)) == TotalLikes(articles) + 1
  {
    LikeTotal(articles, articleId);
    CountDistinct(articles, articleId);
  }

  lemma {:induction false} CountDistinct(articles: seq<Article>, articleId: nat)
    requires forall i, j :: 0 <= i < j < |articles| ==> articles[i].id != articles[j].id
    ensures (exists i :: 0 <= i < |articles| && articles[i].id == articleId) ==> CountId(articles, articleId) == 1
    ensures (forall i :: 0 <= i < |articles| ==> articles[i].id != articleId) ==> CountId(articles, articleId) == 0
  {
    if articles != [] {
      var n := |articles| - 1;
      CountDistinct(articles[..n], articleId);
      if articles[n].id == articleId {
        assert forall i :: 0 <= i < n ==> articles[..n][i].id != articleId;
      } else if exists i :: 0 <= i < |articles| && articles[i].id == articleId {
        var i :| 0 <= i < |articles| && articles[i].id == articleId;
        assert articles[..n][i].id == articleId;
      } else {
        assert forall i :: 0 <= i < n ==> articles[..n][i].id != articleId;
      }
    }
  }
}
