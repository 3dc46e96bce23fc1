/**
 * Leaving the page with a transition. The page's effects on the browser
 * (the `page-exit` class and every assignment to `window.location.href`)
 * are recorded in a log; what the browser then does with them is outside
 * the model.
 */
module Navigation {
  /** Milliseconds the fallback waits for the exit animation. */
  const ExitDelay: nat := 300

  /** When an assignment to the location takes effect. */
  datatype Timing =
    | InViewTransition      // inside the callback given to `document.startViewTransition`
    | AfterDelay(ms: nat)   // in a `setTimeout` callback
    | Immediately

  datatype Effect =
    | AddPageExit                          // the `page-exit` class added to the page container
    | SetLocation(url: string, timing: Timing)

  /** What the browser and the page offer. */
  datatype Capabilities = Capabilities(viewTransitions: bool, hasContainer: bool)

  /** The URLs a log assigns to the location, in order. */
  function LocationChanges(log: seq<Effect>): (urls: seq<string>)
    ensures forall url :: url in urls <==>
              exists k :: 0 <= k < |log| && log[k].SetLocation? && log[k].url == url
  {
    if log == [] then []
    else (if log[0].SetLocation? then [log[0].url] else []) + LocationChanges(log[1..])
  }

  lemma {:induction false} LocationChangesAppend(a: seq<Effect>, b: seq<Effect>)
    ensures LocationChanges(a + b) == LocationChanges(a) + LocationChanges(b)
  {
    if a == [] {
      assert a + b == b;
    } else {
      var head := if a[0].SetLocation? then [a[0].url] else [];
      assert (a + b)[0] == a[0] && (a + b)[1..] == a[1..] + b;
      LocationChangesAppend(a[1..], b);
      calc {
        LocationChanges(a + b);
        head + LocationChanges(a[1..] + b);
        head + (LocationChanges(a[1..]) + LocationChanges(b));
        (head + LocationChanges(a[1..])) + LocationChanges(b);
        LocationChanges(a) + LocationChanges(b);
      }
    }
  }

  /** The effects of one `navigateWithTransition(url)`. */
  function TransitionEffects(url: string, env: Capabilities): (r: seq<Effect>)
    ensures LocationChanges(r) == [url]
    ensures AddPageExit in r <==> !env.viewTransitions && env.hasContainer
    ensures r[|r| - 1] == SetLocation(url,
              if env.viewTransitions then InViewTransition
              else if env.hasContainer then AfterDelay(ExitDelay)
              else Immediately)
  {
    if env.viewTransitions then [SetLocation(url, InViewTransition)]
    else if env.hasContainer then
      var r := [AddPageExit, SetLocation(url, AfterDelay(ExitDelay))];
      assert r[1..] == [r[1]] && LocationChanges([r[1]]) == [url];
      r
    else [SetLocation(url, Immediately)]
  }

  /** Any number of navigations assign the location once each, in call order. */
  lemma {:induction false} EachNavigationChangesLocationOnce(urls: seq<string>, env: Capabilities)
    ensures LocationChanges(AllTransitionEffects(urls, env)) == urls
  {
    if urls != [] {
      EachNavigationChangesLocationOnce(urls[1..], env);
      LocationChangesAppend(TransitionEffects(urls[0], env), AllTransitionEffects(urls[1..], env));
      assert urls == [urls[0]] + urls[1..];
    }
  }

  /** The effects of navigating to each of `urls` in turn. */
  function AllTransitionEffects(urls: seq<string>, env: Capabilities): seq<Effect> {
    if urls == [] then [] else TransitionEffects(urls[0], env) + AllTransitionEffects(urls[1..], env)
  }

  /** The browser window as the page sees it. */
  class Browser {
    const env: Capabilities
    /** Everything the page has done to the window, oldest first. */
    var log: seq<Effect>
    /** Whether the page container carries the `page-exit` class. */
    var pageExit: bool

    /** The container carries `page-exit` exactly when the log has added it. */
    ghost predicate Valid() reads this {
      pageExit == (AddPageExit in log)
    }

    constructor (env: Capabilities)
      ensures Valid()
      ensures this.env == env && log == [] && !pageExit
    {
      this.env := env;
      log := [];
      pageExit := false;
    }

    /** `navigateWithTransition`: exactly one location change, along one of three paths. */
    method NavigateWithTransition(url: string)
      requires Valid()
      modifies this
      ensures Valid()
      ensures log == old(log) + TransitionEffects(url, env)
      ensures LocationChanges(log) == LocationChanges(old(log)) + [url]
      ensures pageExit == (old(pageExit) || (!env.viewTransitions && env.hasContainer))
    {
      if env.viewTransitions {
        log := log + [SetLocation(url, InViewTransition)];
      } else if env.hasContainer {
        pageExit := true;
        log := log + [AddPageExit];
        log := log + [SetLocation(url, AfterDelay(ExitDelay))];
      } else {
        log := log + [SetLocation(url, Immediately)];
      }
      LocationChangesAppend(old(log), TransitionEffects(url, env));
    }
  }
}
