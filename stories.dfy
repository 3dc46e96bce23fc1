/**
 * The story feed and the pure decisions the app makes over it: which
 * stories the shelf shows for a filter, which story a story page shows
 * for an id, and the strings built from a story (its page URL and the
 * document title).
 */
module Stories {
  import opened Wrappers

  /** The character drawn on a story's card. */
  datatype Teddy = Teddy(name: string, idleImage: string, hoverImage: string)

  datatype Story = Story(
    id: string,
    title: string,
    preview: string,
    content: string,
    virtue: string,
    teddy: Teddy)

  /** The whole content feed: the declared virtues and the stories in feed order. */
  datatype Feed = Feed(virtues: seq<string>, stories: seq<Story>)

  /** The filter value that selects every story. */
  const AllFilter: string := "all"

  /** The library page, where a failed story lookup sends the reader. */
  const LibraryUrl: string := "index.html"

  const StoryUrlPrefix: string := "story.html?id="

  const TitleSuffix: string := " - Teddy Virtue Mythos"

  /** The one-story feed used when the feed cannot be fetched. */
  function Fallback(): (f: Feed)
    ensures |f.stories| == 1
    ensures forall s :: s in f.stories ==> s.virtue in f.virtues && s.id != ""
  {
    Feed(
      ["courage", "kindness", "patience", "honesty", "perseverance"],
      [Story(
        "the-brave-little-bear",
        "The Brave Little Bear",
        "A story about finding courage in unexpected places...",
        "Once upon a time, in a cozy corner of a child's room, there lived a small brown bear named Theodore...",
        "courage",
        Teddy("Theodore", "/assets/teddies/theodore-idle.png", "/assets/teddies/theodore-hover.png"))])
  }

  // ----- Filtering the shelf -----

  /** The stories whose virtue is `virtue`, in feed order (`Array.prototype.filter`). */
  function WithVirtue(stories: seq<Story>, virtue: string): (r: seq<Story>)
    ensures |r| <= |stories|
    ensures forall s :: s in r <==> s in stories && s.virtue == virtue
  {
    if stories == [] then []
    else if stories[0].virtue == virtue then [stories[0]] + WithVirtue(stories[1..], virtue)
    else WithVirtue(stories[1..], virtue)
  }

  /** Filtering a concatenation filters each part and keeps them in order. */
  lemma {:induction false} WithVirtueAppend(a: seq<Story>, b: seq<Story>, virtue: string)
    ensures WithVirtue(a + b, virtue) == WithVirtue(a, virtue) + WithVirtue(b, virtue)
  {
    if a == [] {
      assert a + b == b;
    } else {
      assert (a + b)[1..] == a[1..] + b;
      WithVirtueAppend(a[1..], b, virtue);
    }
  }

  /** Filtering keeps every copy of a story with the virtue and drops every other story. */
  lemma {:induction false} WithVirtueCounts(stories: seq<Story>, virtue: string, s: Story)
    ensures multiset(WithVirtue(stories, virtue))[s] ==
              if s.virtue == virtue then multiset(stories)[s] else 0
  {
    if stories != [] {
      WithVirtueCounts(stories[1..], virtue, s);
      assert stories == [stories[0]] + stories[1..];
    }
  }

  /** The stories the shelf shows for a filter: all of them for "all". */
  function Select(stories: seq<Story>, filter: string): (r: seq<Story>)
    ensures filter == AllFilter ==> r == stories
    ensures filter != AllFilter ==> forall s :: s in r <==> s in stories && s.virtue == filter
  {
    if filter == AllFilter then stories else WithVirtue(stories, filter)
  }

  /**
   * For a virtue filter the shelf is the feed with exactly the other
   * virtues taken out: each story of that virtue keeps its multiplicity,
   * and the selection of a split feed is the selections side by side.
   */
  lemma SelectIsOrderedSubsequence(a: seq<Story>, b: seq<Story>, filter: string, s: Story)
    requires filter != AllFilter
    ensures Select(a + b, filter) == Select(a, filter) + Select(b, filter)
    ensures multiset(Select(a + b, filter))[s] ==
              if s.virtue == filter then multiset(a + b)[s] else 0
  {
    WithVirtueAppend(a, b, filter);
    WithVirtueCounts(a + b, filter, s);
  }

  // ----- Looking a story up by id -----

  /** The first story whose id is `id` (`Array.prototype.find`), or None. */
  function Find(stories: seq<Story>, id: string): (r: Option<Story>)
    ensures r.None? <==> forall k :: 0 <= k < |stories| ==> stories[k].id != id
    ensures r.Some? ==> r.value.id == id && r.value in stories
  {
    if stories == [] then None
    else if stories[0].id == id then Some(stories[0])
    else Find(stories[1..], id)
  }

  /** The story Find returns comes before every other story with that id. */
  lemma {:induction false} FindIsFirst(stories: seq<Story>, id: string, k: nat)
    requires k < |stories| && stories[k].id == id
    ensures Find(stories, id).Some?
    ensures exists i :: 0 <= i <= k && stories[i] == Find(stories, id).value &&
              forall j :: 0 <= j < i ==> stories[j].id != id
  {
    if stories[0].id == id {
      assert stories[0] == Find(stories, id).value;
    } else {
      FindIsFirst(stories[1..], id, k - 1);
      var i :| 0 <= i <= k - 1 && stories[1..][i] == Find(stories[1..], id).value &&
                forall j :: 0 <= j < i ==> stories[1..][j].id != id;
      assert stories[i + 1] == Find(stories, id).value;
      assert forall j :: 0 <= j < i + 1 ==> stories[j].id != id by {
        forall j | 0 <= j < i + 1 ensures stories[j].id != id {
          if j > 0 { assert stories[j] == stories[1..][j - 1]; }
        }
      }
    }
  }

  /** When ids are unique, looking up a story's id yields that story. */
  lemma UniqueIdFindsStory(stories: seq<Story>, k: nat)
    requires k < |stories|
    requires forall i, j :: 0 <= i < j < |stories| ==> stories[i].id != stories[j].id
    ensures Find(stories, stories[k].id) == Some(stories[k])
  {
    FindIsFirst(stories, stories[k].id, k);
    var i :| 0 <= i <= k && stories[i] == Find(stories, stories[k].id).value &&
              forall j :: 0 <= j < i ==> stories[j].id != stories[k].id;
    assert stories[i].id == stories[k].id;
  }

  // ----- Strings built from a story -----

  /** The story page's URL for a story id (the id is not URL-encoded). */
  function StoryUrl(id: string): (url: string)
    ensures |url| == |StoryUrlPrefix| + |id|
    ensures url[..|StoryUrlPrefix|] == StoryUrlPrefix && url[|StoryUrlPrefix|..] == id
  {
    StoryUrlPrefix + id
  }

  /** Distinct stories ids lead to distinct URLs. */
  lemma StoryUrlInjective(a: string, b: string)
    requires StoryUrl(a) == StoryUrl(b)
    ensures a == b
  {
    assert a == StoryUrl(a)[|StoryUrlPrefix|..];
  }

  /** The document title of a story page. */
  function DocumentTitle(title: string): (t: string)
    ensures |t| == |title| + |TitleSuffix|
    ensures t[..|title|] == title && t[|title|..] == TitleSuffix
  {
    title + TitleSuffix
  }

  /** Different story titles give different document titles. */
  lemma DocumentTitleInjective(a: string, b: string)
    requires DocumentTitle(a) == DocumentTitle(b)
    ensures a == b
  {
    assert |a| == |b|;
    assert a == DocumentTitle(a)[..|a|];
  }

  // ----- The story page -----

  /** What the story page does: leave for the library, or fill in a story. */
  datatype StoryView =
    | Redirect(url: string)
    | Populate(title: string, virtue: string, text: string, documentTitle: string)

  /**
   * `storyId` is the value of the page's `id` query parameter (None when
   * absent) and `feed` the loaded feed (None when there is none).
   */
  function StoryPage(storyId: Option<string>, feed: Option<Feed>): (r: StoryView)
    ensures r.Redirect? <==>
              storyId.None? || storyId.value == "" || feed.None? ||
              forall s :: s in feed.value.stories ==> s.id != storyId.value
    ensures r.Redirect? ==> r.url == LibraryUrl
    ensures r.Populate? ==>
              exists s :: s in feed.value.stories && s.id == storyId.value &&
                r == Populate(s.title, s.virtue, s.content, DocumentTitle(s.title))
  {
    if storyId.None? || storyId.value == "" || feed.None? then Redirect(LibraryUrl)
    else match Find(feed.value.stories, storyId.value)
      case None => Redirect(LibraryUrl)
      case Some(s) => Populate(s.title, s.virtue, s.content, DocumentTitle(s.title))
  }

  /** When some story has the requested id, the page shows the first such story. */
  lemma StoryPageShowsFirstMatch(storyId: string, feed: Feed, m: nat)
    requires storyId != "" && m < |feed.stories| && feed.stories[m].id == storyId
    ensures exists k :: 0 <= k < |feed.stories| && feed.stories[k].id == storyId &&
              (forall j :: 0 <= j < k ==> feed.stories[j].id != storyId) &&
              var s := feed.stories[k];
              StoryPage(Some(storyId), Some(feed)) == Populate(s.title, s.virtue, s.content, DocumentTitle(s.title))
  {
    FindIsFirst(feed.stories, storyId, m);
  }

  /**
   * Opening a card's story page shows that card's story, provided the feed's
   * ids are unique and non-empty.
   */
  lemma StoryPageShowsOpenedStory(feed: Feed, k: nat)
    requires k < |feed.stories|
    requires feed.stories[k].id != ""
    requires forall i, j :: 0 <= i < j < |feed.stories| ==> feed.stories[i].id != feed.stories[j].id
    ensures StoryPage(Some(feed.stories[k].id), Some(feed)) ==
              var s := feed.stories[k]; Populate(s.title, s.virtue, s.content, DocumentTitle(s.title))
  {
    UniqueIdFindsStory(feed.stories, k);
  }
}
