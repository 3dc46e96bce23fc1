/**
 * The library page: a shelf of cards, one per selected story, and a row
 * of filter buttons of which one is marked active.
 */
module Library {
  import opened Stories
  import Navigation

  /** A rendered card element; it carries its story's id, title and preview. */
  class Card {
    const storyId: string
    const title: string
    const preview: string

    constructor (story: Story)
      ensures storyId == story.id && title == story.title && preview == story.preview
    {
      storyId := story.id;
      title := story.title;
      preview := story.preview;
    }
  }

  /** The cards stand for `stories`, one each and in the same order. */
  predicate CardsShow(cards: seq<Card>, stories: seq<Story>) {
    |cards| == |stories| &&
    forall k :: 0 <= k < |cards| ==>
      cards[k].storyId == stories[k].id && cards[k].title == stories[k].title &&
      cards[k].preview == stories[k].preview
  }

  /** No card appears twice. */
  predicate Distinct(cards: seq<Card>) {
    forall i, j :: 0 <= i < j < |cards| ==> cards[i] != cards[j]
  }

  /** A click on a card opens its story (`handleTeddyClick`). */
  method HandleCardClick(card: Card, browser: Navigation.Browser)
    requires browser.Valid()
    modifies browser
    ensures browser.Valid()
    ensures browser.log == old(browser.log) + Navigation.TransitionEffects(StoryUrl(card.storyId), browser.env)
    ensures Navigation.LocationChanges(browser.log) ==
              Navigation.LocationChanges(old(browser.log)) + [StoryUrl(card.storyId)]
    ensures browser.pageExit == (old(browser.pageExit) || (!browser.env.viewTransitions && browser.env.hasContainer))
  {
    browser.NavigateWithTransition(StoryUrl(card.storyId));
  }

  /** The library page's state: the feed, the filter buttons and the grid's cards. */
  class Shelf {
    const feed: Feed
    /** Whether the page has a `teddy-grid` element to render into. */
    const hasGrid: bool
    /** The `data-virtue` of each filter button. */
    const buttons: seq<string>
    /** Which filter buttons carry the `active` class. */
    const active: array<bool>
    var currentFilter: string
    var cards: seq<Card>

    ghost predicate Valid() reads this {
      active.Length == |buttons|
    }

    /** `initLibraryPage`: render every story and start with `initiallyActive` buttons marked. */
    constructor (feed: Feed, hasGrid: bool, buttons: seq<string>, initiallyActive: seq<bool>)
      requires |initiallyActive| == |buttons|
      ensures Valid() && fresh(active)
      ensures this.feed == feed && this.hasGrid == hasGrid && this.buttons == buttons
      ensures active[..] == initiallyActive && currentFilter == AllFilter
      ensures hasGrid ==> CardsShow(cards, feed.stories) && Distinct(cards)
      ensures hasGrid ==> forall k :: 0 <= k < |cards| ==> fresh(cards[k])
      ensures !hasGrid ==> cards == []
    {
      this.feed := feed;
      this.hasGrid := hasGrid;
      this.buttons := buttons;
      active := new bool[|initiallyActive|](i requires 0 <= i < |initiallyActive| => initiallyActive[i]);
      currentFilter := AllFilter;
      cards := [];
      new;
      RenderTeddies(AllFilter);
    }

    /**
     * `renderTeddies`: throw away the grid's cards and build one new card
     * per selected story, in order. Without a grid nothing happens.
     */
    method RenderTeddies(filter: string)
      modifies this`cards
      ensures hasGrid ==> CardsShow(cards, Select(feed.stories, filter)) && Distinct(cards)
      ensures hasGrid ==> forall k :: 0 <= k < |cards| ==> fresh(cards[k])
      ensures !hasGrid ==> cards == old(cards)
    {
      if !hasGrid {
        return;
      }
      cards := [];
      var selected := Select(feed.stories, filter);
      for k := 0 to |selected|
        invariant |cards| == k
        invariant forall i :: 0 <= i < k ==>
                    cards[i].storyId == selected[i].id && cards[i].title == selected[i].title &&
                    cards[i].preview == selected[i].preview
        invariant Distinct(cards)
        invariant forall i :: 0 <= i < k ==> fresh(cards[i])
      {
        var card := new Card(selected[k]);
        assert forall i :: 0 <= i < k ==> cards[i] != card;
        cards := cards + [card];
      }
    }

    /**
     * A click on filter button `i`: exactly that button becomes active, the
     * filter becomes its virtue and the grid is rendered for it.
     */
    method ClickFilter(i: nat)
      requires Valid() && i < |buttons|
      modifies active, this`currentFilter, this`cards
      ensures Valid()
      ensures forall j :: 0 <= j < active.Length ==> active[j] == (j == i)
      ensures currentFilter == buttons[i]
      ensures hasGrid ==> CardsShow(cards, Select(feed.stories, buttons[i])) && Distinct(cards)
      ensures hasGrid ==> forall k :: 0 <= k < |cards| ==> fresh(cards[k])
      ensures !hasGrid ==> cards == old(cards)
    {
      for j := 0 to active.Length
        modifies active
        invariant forall k :: 0 <= k < j ==> !active[k]
      {
        active[j] := false;
      }
      active[i] := true;
      currentFilter := buttons[i];
      RenderTeddies(currentFilter);
    }
  }
}
