/**
 * The preview bubble: a hover shows it after a 300 ms delay, leaving a
 * card hides it, a first tap on a card shows it at once and a second tap
 * on the same card opens the story.
 *
 * The behaviour is given as a step function over events (`Step`, folded
 * over a trace by `Run`); the `PreviewBubble` class holds the handlers'
 * state in fields and its methods are specified by `Step`.
 */
module Preview {
  import opened Wrappers
  import opened Placement
  import opened Stories
  import opened Library
  import Navigation

  /** The handlers' state and the bubble's visible properties. */
  datatype Bubble = Bubble(
    pending: Option<Card>,   // the card a scheduled hover show is for (`hoverTimeout`)
    tapped: Option<Card>,    // the card tapped once (`tappedTeddy`)
    visible: bool,           // the bubble carries the `visible` class
    title: string,
    preview: string,
    at: Position)

  /** The state at page start: nothing scheduled, nothing tapped, bubble hidden. */
  const Initial: Bubble := Bubble(None, None, false, "", "", Position(0, 0))

  datatype Event =
    | Enter(card: Card)                          // `mouseover` inside a card
    | TimerFires(rect: Rect, viewportWidth: int) // the scheduled show runs; `rect` is its card's rectangle then
    | Leave(card: Card)                          // `mouseout` inside a card
    | Tap(target: Option<Card>, rect: Rect)      // `touchstart`, on a card or elsewhere; `rect` is the card's

  /** The state after an event, and the story URL it navigates to, if any. */
  datatype Outcome = Outcome(next: Bubble, navigate: Option<string>)

  /** The bubble shows `card`'s title and preview. */
  predicate Shows(b: Bubble, card: Card) {
    b.title == card.title && b.preview == card.preview
  }

  function Step(s: Bubble, e: Event): (o: Outcome)
    // hover events leave the tap memory alone and never navigate
    ensures !e.Tap? ==> o.next.tapped == s.tapped && o.navigate == None
    // taps leave the pending hover show alone
    ensures e.Tap? ==> o.next.pending == s.pending
    // Enter replaces whatever show was pending by one for its card, and changes nothing else
    ensures e.Enter? ==> o.next == s.(pending := Some(e.card))
    // Leave cancels the pending show and hides the bubble, whichever card it was for
    ensures e.Leave? ==> o.next == s.(pending := None, visible := false)
    // a firing show makes the bubble visible with its card's text, placed on screen
    ensures e.TimerFires? && s.pending.Some? ==>
              o.next.visible && o.next.pending == None && Shows(o.next, s.pending.value) &&
              o.next.at == HoverPlacement(e.rect, e.viewportWidth)
    ensures e.TimerFires? && s.pending.None? ==> o.next == s
    // a tap elsewhere forgets the tapped card and hides the bubble
    ensures e.Tap? && e.target.None? ==> o.next == s.(tapped := None, visible := false) && o.navigate == None
    // a second tap on the remembered card navigates and forgets it; the bubble is untouched
    ensures e.Tap? && e.target.Some? && s.tapped == e.target ==>
              o.navigate == Some(StoryUrl(e.target.value.storyId)) && o.next == s.(tapped := None)
    // a tap on any other card remembers it and shows it at the unclamped anchor
    ensures e.Tap? && e.target.Some? && s.tapped != e.target ==>
              o.navigate == None && o.next.tapped == e.target && o.next.visible &&
              Shows(o.next, e.target.value) && o.next.at == Anchor(e.rect)
  {
    match e
    case Enter(card) => Outcome(s.(pending := Some(card)), None)
    case TimerFires(rect, width) =>
      (match s.pending
       case None => Outcome(s, None)
       case Some(card) =>
         Outcome(s.(pending := None, visible := true, title := card.title, preview := card.preview,
                    at := HoverPlacement(rect, width)), None))
    case Leave(_) => Outcome(s.(pending := None, visible := false), None)
    case Tap(None, _) => Outcome(s.(tapped := None, visible := false), None)
    case Tap(Some(card), rect) =>
      if s.tapped == Some(card) then Outcome(s.(tapped := None), Some(StoryUrl(card.storyId)))
      else Outcome(s.(tapped := Some(card), visible := true, title := card.title, preview := card.preview,
                      at := Anchor(rect)), None)
  }

  /** The state after a trace of events, and the story URLs it navigated to, in order. */
  datatype Trace = Trace(final: Bubble, navigations: seq<string>)

  function Run(s: Bubble, events: seq<Event>): Trace
    decreases |events|
  {
    if events == [] then Trace(s, [])
    else
      var o := Step(s, events[0]);
      var t := Run(o.next, events[1..]);
      Trace(t.final, (if o.navigate.Some? then [o.navigate.value] else []) + t.navigations)
  }

  /** Running two traces one after the other is running their concatenation. */
  lemma {:induction false} RunAppend(s: Bubble, a: seq<Event>, b: seq<Event>)
    ensures Run(s, a + b).final == Run(Run(s, a).final, b).final
    ensures Run(s, a + b).navigations == Run(s, a).navigations + Run(Run(s, a).final, b).navigations
    decreases |a|
  {
    if a != [] {
      assert (a + b)[0] == a[0] && (a + b)[1..] == a[1..] + b;
      RunAppend(Step(s, a[0]).next, a[1..], b);
    } else {
      assert a + b == b;
    }
  }

  /** Every event of the trace is a firing of the show timer. */
  predicate OnlyTimers(events: seq<Event>) {
    forall k :: 0 <= k < |events| ==> events[k].TimerFires?
  }

  /** With nothing pending, timer firings change nothing. */
  lemma {:induction false} TimersWithoutPendingAreInert(s: Bubble, timers: seq<Event>)
    requires s.pending.None? && OnlyTimers(timers)
    ensures Run(s, timers) == Trace(s, [])
    decreases |timers|
  {
    if timers != [] {
      TimersWithoutPendingAreInert(s, timers[1..]);
    }
  }

  /**
   * Enter followed by Leave before the show fires: the bubble ends hidden
   * and no later firing can show it.
   */
  lemma EnterThenLeaveNeverShows(s: Bubble, card: Card, left: Card, timers: seq<Event>)
    requires OnlyTimers(timers)
    ensures var t := Run(s, [Enter(card), Leave(left)] + timers);
      !t.final.visible && t.final.pending == None && t.final.tapped == s.tapped && t.navigations == []
  {
    var hidden := Step(Step(s, Enter(card)).next, Leave(left)).next;
    RunAppend(s, [Enter(card), Leave(left)], timers);
    TimersWithoutPendingAreInert(hidden, timers);
  }

  /**
   * Enter and no Leave until the show fires: the bubble becomes visible once,
   * with that card's text at the hover placement, and further firings change
   * nothing.
   */
  lemma DwellShowsCardOnce(s: Bubble, card: Card, rect: Rect, width: int, timers: seq<Event>)
    requires OnlyTimers(timers)
    ensures var t := Run(s, [Enter(card), TimerFires(rect, width)] + timers);
      t.final.visible && Shows(t.final, card) && t.final.at == HoverPlacement(rect, width) &&
      t.final.pending == None && t.final.tapped == s.tapped && t.navigations == []
  {
    var shown := Step(Step(s, Enter(card)).next, TimerFires(rect, width)).next;
    RunAppend(s, [Enter(card), TimerFires(rect, width)], timers);
    TimersWithoutPendingAreInert(shown, timers);
  }

  /**
   * Two taps on the same card (the first on a card not remembered): one
   * navigation, to that card's story; the bubble stays visible with the
   * card's text and the memory is cleared.
   */
  lemma TwoTapsOpenStory(s: Bubble, card: Card, first: Rect, second: Rect)
    requires s.tapped != Some(card)
    ensures var t := Run(s, [Tap(Some(card), first), Tap(Some(card), second)]);
      t.navigations == [StoryUrl(card.storyId)] && t.final.tapped == None &&
      t.final.visible && Shows(t.final, card) && t.final.at == Anchor(first) &&
      t.final.pending == s.pending
  {
    var events := [Tap(Some(card), first), Tap(Some(card), second)];
    var once := Step(s, events[0]).next;
    assert events[1..] == [events[1]];
    assert [events[1]][1..] == [];
    assert Run(once, [events[1]]) == Trace(once.(tapped := None), [StoryUrl(card.storyId)]);
  }

  /** Traces without taps never touch the tap memory and never navigate. */
  lemma {:induction false} HoverTraceKeepsTapMemory(s: Bubble, events: seq<Event>)
    requires forall k :: 0 <= k < |events| ==> !events[k].Tap?
    ensures Run(s, events).final.tapped == s.tapped && Run(s, events).navigations == []
    decreases |events|
  {
    if events != [] {
      HoverTraceKeepsTapMemory(Step(s, events[0]).next, events[1..]);
    }
  }

  /** Traces of taps only never touch the pending hover show. */
  lemma {:induction false} TapTraceKeepsPendingShow(s: Bubble, events: seq<Event>)
    requires forall k :: 0 <= k < |events| ==> events[k].Tap?
    ensures Run(s, events).final.pending == s.pending
    decreases |events|
  {
    if events != [] {
      TapTraceKeepsPendingShow(Step(s, events[0]).next, events[1..]);
    }
  }

  /** The cards an event refers to. */
  function Mentions(e: Event): set<Card> {
    match e
    case Enter(card) => {card}
    case Leave(card) => {card}
    case Tap(Some(card), _) => {card}
    case _ => {}
  }

  /**
   * The state refers only to cards of `cards`, and a visible bubble shows
   * the title and the preview of one of them (never a mix of two).
   */
  ghost predicate Coherent(s: Bubble, cards: set<Card>) {
    (s.pending.Some? ==> s.pending.value in cards) &&
    (s.tapped.Some? ==> s.tapped.value in cards) &&
    (s.visible ==> exists card :: card in cards && Shows(s, card))
  }

  lemma InitialIsCoherent(cards: set<Card>)
    ensures Coherent(Initial, cards)
  {
  }

  /**
   * Along any trace over `cards`, the state stays coherent and every
   * navigation goes to the story of one of the cards.
   */
  lemma {:induction false} RunKeepsCoherent(s: Bubble, events: seq<Event>, cards: set<Card>)
    requires Coherent(s, cards)
    requires forall k :: 0 <= k < |events| ==> Mentions(events[k]) <= cards
    ensures Coherent(Run(s, events).final, cards)
    ensures forall url :: url in Run(s, events).navigations ==>
              exists card :: card in cards && url == StoryUrl(card.storyId)
    decreases |events|
  {
    if events != [] {
      var e := events[0];
      var o := Step(s, e);
      if e.TimerFires? && s.pending.Some? {
        assert Shows(o.next, s.pending.value);
      } else if e.Tap? && e.target.Some? {
        assert e.target.value in Mentions(e);
        assert o.next.visible ==> Shows(o.next, e.target.value) || o.next == s.(tapped := None);
      }
      assert Coherent(o.next, cards);
      RunKeepsCoherent(o.next, events[1..], cards);
    }
  }

  /** The library page's preview bubble and the handlers' shared variables. */
  class PreviewBubble {
    var pending: Option<Card>
    var tapped: Option<Card>
    var visible: bool
    var title: string
    var preview: string
    var left: int
    var top: int

    function State(): Bubble reads this {
      Bubble(pending, tapped, visible, title, preview, Position(left, top))
    }

    constructor ()
      ensures State() == Initial
    {
      pending, tapped, visible := None, None, false;
      title, preview := "", "";
      left, top := 0, 0;
    }

    /** `mouseover` on a card: cancel any pending show and schedule one for this card. */
    method MouseOver(card: Card)
      modifies this
      ensures State() == Step(old(State()), Enter(card)).next
    {
      pending := Some(card);
    }

    /** The scheduled show runs: fill in the text, place the bubble, keep it on screen. */
    method ShowTimer(rect: Rect, viewportWidth: int)
      modifies this
      ensures State() == Step(old(State()), TimerFires(rect, viewportWidth)).next
    {
      if pending.None? {
        return;
      }
      var card := pending.value;
      pending := None;
      title := card.title;
      preview := card.preview;
      var anchor := Anchor(rect);
      left, top := anchor.left, anchor.top;
      // every test reads the rectangle measured here, before any correction
      var measuredLeft, measuredTop := left, top;
      if measuredLeft < EdgeMargin {
        left := EdgeMargin;
      }
      if measuredLeft + BubbleWidth > viewportWidth - EdgeMargin {
        left := viewportWidth - (BubbleWidth + EdgeMargin);
      }
      if measuredTop < EdgeMargin {
        top := rect.Bottom() + DropBelow;
      }
      visible := true;
    }

    /** `mouseout` from a card: cancel the pending show and hide the bubble. */
    method MouseOut(card: Card)
      modifies this
      ensures State() == Step(old(State()), Leave(card)).next
    {
      pending := None;
      visible := false;
    }

    /** `touchstart`: show on a first tap, open the story on a second, hide on a tap elsewhere. */
    method TouchStart(target: Option<Card>, rect: Rect, browser: Navigation.Browser)
      requires browser.Valid()
      modifies this, browser
      ensures browser.Valid()
      ensures State() == Step(old(State()), Tap(target, rect)).next
      ensures browser.log == old(browser.log) +
                match Step(old(State()), Tap(target, rect)).navigate
                case None => []
                case Some(url) => Navigation.TransitionEffects(url, browser.env)
      // only a second tap that takes the delayed path marks the page as exiting
      ensures browser.pageExit == (old(browser.pageExit) ||
                (Step(old(State()), Tap(target, rect)).navigate.Some? &&
                 !browser.env.viewTransitions && browser.env.hasContainer))
    {
      if target.None? {
        tapped := None;
        visible := false;
        return;
      }
      var card := target.value;
      if tapped == Some(card) {
        HandleCardClick(card, browser);
        tapped := None;
      } else {
        tapped := Some(card);
        title := card.title;
        preview := card.preview;
        var anchor := Anchor(rect);
        left, top := anchor.left, anchor.top;
        visible := true;
      }
    }
  }
}
