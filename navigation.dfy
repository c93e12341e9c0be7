// Link routing inside the Telegram Mini-App: useTelegramNavigation, the
// click dispatch of Button.tsx and the one-shot lock of
// useTelegramBackButton.

module TelegramNavigation {
  import opened Wrappers
  import opened Text
  import Lists

  /** What following a link does. */
  datatype Action =
    | Route(path: string)       // navigate(path) inside the app
    | NewWindow(url: string)    // window.open(url, '_blank')
    | SameWindow(url: string)   // window.location.href = url
    | OpenLink(url: string)     // Telegram.WebApp.openLink(url)
    | NoAction

  /**
   * What the dispatch reads about its surroundings. `isMobile` and
   * `isTelegramApp` are the device hook's answers, `mobileUserAgent` the
   * user-agent test safeNavigate makes itself, `platform` the WebApp's
   * platform ("" without a WebApp).
   */
  datatype Env = Env(isMobile: bool, isTelegramApp: bool, hasWebApp: bool, mobileUserAgent: bool,
                     platform: string, hasOpenLink: bool)

  /** The branch both functions share for external links that are neither teletype.in nor t.me. */
  function OtherExternal(url: string, env: Env): (a: Action)
    ensures a.OpenLink? <==> env.isTelegramApp && !env.isMobile && env.hasWebApp
    ensures a.SameWindow? <==> env.isMobile
    ensures a.NewWindow? <==> !env.isMobile && !(env.isTelegramApp && env.hasWebApp)
    ensures !a.Route? && !a.NoAction?
  {
    if env.isTelegramApp && !env.isMobile && env.hasWebApp then OpenLink(url)
    else if env.isMobile then SameWindow(url)
    else NewWindow(url)
  }

  /** The url an action opens, if any. */
  function Target(a: Action): Option<string>
  {
    match a
    case Route(p) => Some(p)
    case NewWindow(u) => Some(u)
    case SameWindow(u) => Some(u)
    case OpenLink(u) => Some(u)
    case NoAction => None
  }

  function SafeNavigate(path: string, env: Env): (a: Action)
    ensures a.Route? <==> StartsWith(path, "/")
    ensures a.NoAction? <==> !StartsWith(path, "/") && !StartsWith(path, "http")
    ensures !a.NoAction? ==> Target(a) == Some(path)
    ensures !StartsWith(path, "/") && StartsWith(path, "http") && Contains(path, "teletype.in") ==> a == NewWindow(path)
    ensures !StartsWith(path, "/") && StartsWith(path, "http") && !Contains(path, "teletype.in") && Contains(path, "t.me") ==>
      a == (if env.mobileUserAgent then SameWindow(path) else NewWindow(path))
  {
    if StartsWith(path, "/") then Route(path)
    else if StartsWith(path, "http") then
      if Contains(path, "teletype.in") then NewWindow(path)
      else if Contains(path, "t.me") then
        if env.mobileUserAgent then SameWindow(path) else NewWindow(path)
      else OtherExternal(path, env)
    else NoAction
  }

  function OpenExternalLink(url: string, env: Env): (a: Action)
    ensures !a.Route? && !a.NoAction? && Target(a) == Some(url)
    ensures Contains(url, "teletype.in") ==> a == NewWindow(url)
    ensures !Contains(url, "teletype.in") && Contains(url, "t.me") ==>
      a == (if env.platform == "tdesktop" then NewWindow(url) else SameWindow(url))
  {
    if Contains(url, "teletype.in") then NewWindow(url)
    else if Contains(url, "t.me") then
      if env.platform == "tdesktop" then NewWindow(url) else SameWindow(url)
    else OtherExternal(url, env)
  }

  /** On http links other than t.me the two functions agree. */
  lemma AgreeOffTelegram(url: string, env: Env)
    requires StartsWith(url, "http") && !StartsWith(url, "/") && !Contains(url, "t.me")
    ensures SafeNavigate(url, env) == OpenExternalLink(url, env)
  {
  }

  const SampleTelegramLink: string := "https://t.me/x"

  lemma SampleIsTelegramLink()
    ensures StartsWith(SampleTelegramLink, "http") && !StartsWith(SampleTelegramLink, "/")
    ensures Contains(SampleTelegramLink, "t.me")
  {
    var u := SampleTelegramLink;
    assert u[..4] == "http";
    assert u[0] == 'h';
    assert u[8] == 't' && u[9] == '.' && u[10] == 'm' && u[11] == 'e';
    assert OccursAt(u, "t.me", 8);
    ContainsAt(u, "t.me");
  }

  lemma SampleIsNotTeletype()
    ensures !Contains(SampleTelegramLink, "teletype.in")
  {
    assert "teletype.in"[5] == 'y';
    assert 'y' !in SampleTelegramLink;
    if Contains(SampleTelegramLink, "teletype.in") {
      ContainsChar(SampleTelegramLink, "teletype.in", 'y');
    }
  }

  /** On t.me links they decide by different signals and can part ways. */
  lemma DisagreeOnTelegram()
    ensures var env := Env(false, true, true, true, "tdesktop", true);
      SafeNavigate(SampleTelegramLink, env) == SameWindow(SampleTelegramLink)
      && OpenExternalLink(SampleTelegramLink, env) == NewWindow(SampleTelegramLink)
  {
    SampleIsTelegramLink();
    SampleIsNotTeletype();
  }

  lemma ContainsUnfold(s: string, sub: string)
    ensures Contains(s, sub) <==> StartsWith(s, sub) || (|s| > 0 && Contains(s[1..], sub))
  {
  }

  /** Every character of a contained string occurs in the string. */
  lemma {:induction false} ContainsChar(s: string, sub: string, c: char)
    requires Contains(s, sub) && c in sub
    ensures c in s
  {
    ContainsUnfold(s, sub);
    if StartsWith(s, sub) {
      assert c in s[..|sub|];
    } else {
      ContainsChar(s[1..], sub, c);
    }
  }

  /** The back button's handler bookkeeping. `handlers` are the callbacks registered with the WebApp. */
  datatype BackState = BackState(shown: bool, handlers: seq<nat>, current: Option<nat>, nextId: nat)

  /** One run of the effect for a pathname, when the WebApp is present. */
  function AfterPath(s: BackState, pathname: string): (s': BackState)
    ensures pathname != "/" && pathname != "" ==> (
      && s'.shown && s'.handlers == s.handlers + [s.nextId]
      && s'.current == Some(s.nextId) && s'.nextId == s.nextId + 1)
    ensures (pathname == "/" || pathname == "") ==> !s'.shown && s'.current.None? && s'.nextId == s.nextId
    ensures (pathname == "/" || pathname == "") && s.current.Some? ==>
      forall i :: 0 <= i < |s'.handlers| ==> s'.handlers[i] != s.current.value && s'.handlers[i] in s.handlers
    ensures (pathname == "/" || pathname == "") && s.current.None? ==> s'.handlers == s.handlers
  {
    if pathname != "/" && pathname != "" then
      BackState(true, s.handlers + [s.nextId], Some(s.nextId), s.nextId + 1)
    else if s.current.Some? then
      BackState(false, Lists.Filter(s.handlers, (h: nat) => h != s.current.value), None, s.nextId)
    else BackState(false, s.handlers, None, s.nextId)
  }

  /**
   * Each inner route registers a fresh callback without removing the one
   * before, and returning to the root removes only the last: after visiting
   * two inner routes and returning home, the first callback is still
   * registered.
   */
  lemma EarlierCallbackStaysRegistered(s: BackState, a: string, b: string)
    requires a != "/" && a != "" && b != "/" && b != ""
    requires forall i :: 0 <= i < |s.handlers| ==> s.handlers[i] < s.nextId
    ensures s.nextId in AfterPath(AfterPath(AfterPath(s, a), b), "/").handlers
  {
    var s1 := AfterPath(s, a);
    var s2 := AfterPath(s1, b);
    assert s2.handlers == s.handlers + [s.nextId] + [s.nextId + 1];
    assert s2.handlers[|s.handlers|] == s.nextId;
  }

  /** The route-dependent effect of useTelegramNavigation. */
  class BackButtonEffect {
    var shown: bool
    var handlers: seq<nat>
    var current: Option<nat>
    var nextId: nat

    constructor()
      ensures !shown && handlers == [] && current.None? && nextId == 0
    {
      shown := false;
      handlers := [];
      current := None;
      nextId := 0;
    }

    function State(): BackState
      reads this
    {
      BackState(shown, handlers, current, nextId)
    }

    method Run(pathname: string, hasWebApp: bool)
      modifies this
      ensures !hasWebApp ==> State() == old(State())
      ensures hasWebApp ==> State() == AfterPath(old(State()), pathname)
    {
      if !hasWebApp {
        return;
      }
      if pathname != "/" && pathname != "" {
        shown := true;
        handlers := handlers + [nextId];
        current := Some(nextId);
        nextId := nextId + 1;
      } else {
        shown := false;
        if current.Some? {
          var id := current.value;
          handlers := Lists.Filter(handlers, (h: nat) => h != id);
          current := None;
        }
      }
    }
  }
}

module ButtonDispatch {
  import opened Wrappers
  import opened Text
  import opened TelegramNavigation

  /** The style prop: absent, a class name, or an inline style object. */
  datatype Style = NoStyle | ClassStyle(name: string) | InlineStyle(css: string)

  /** What a click does: the onClick prop, or an action for the href. */
  datatype Click = RunOnClick | Follow(action: Action) | Nothing

  /** The class attribute: a string style is appended to the base class. */
  function ClassName(base: string, style: Style): (c: string)
    ensures style.ClassStyle? ==> c == base + " " + style.name
    ensures !style.ClassStyle? ==> c == base
  {
    match style
    case ClassStyle(name) => base + " " + name
    case _ => base
  }

  /** The inline style: only an object style becomes one. */
  function Inline(style: Style): (css: string)
    ensures style.InlineStyle? ==> css == style.css
    ensures !style.InlineStyle? ==> css == ""
  {
    match style
    case InlineStyle(css) => css
    case _ => ""
  }

  /** A string style never reaches the inline style and an object style never the class. */
  lemma StyleGoesOneWay(base: string, style: Style)
    ensures ClassName(base, style) != base ==> Inline(style) == ""
    ensures Inline(style) != "" ==> ClassName(base, style) == base
  {
  }

  const ChannelLink: string := "https://t.me/vardozz"

  /** handleClick; `href` is "" when absent, as `if (href)` reads it. */
  function HandleClick(hasOnClick: bool, href: string, target: string, env: Env): (c: Click)
    ensures hasOnClick <==> c.RunOnClick?
    ensures !hasOnClick && href == "" ==> c.Nothing?
    ensures !hasOnClick && href == ChannelLink ==>
      c == Follow(if env.platform == "tdesktop" then (if env.hasOpenLink then OpenLink(href) else NewWindow(href))
                  else SameWindow(href))
    ensures !hasOnClick && href != "" && href != ChannelLink && Contains(href, "teletype.in") ==> c == Follow(NewWindow(href))
    ensures !hasOnClick && href != "" && href != ChannelLink && !Contains(href, "teletype.in") ==>
      c == Follow(if (target == "_blank" && !env.isMobile) || StartsWith(href, "http")
                  then OpenExternalLink(href, env) else SafeNavigate(href, env))
  {
    if hasOnClick then RunOnClick
    else if href != "" then
      if href == ChannelLink then
        if env.platform == "tdesktop" then
          if env.hasOpenLink then Follow(OpenLink(href)) else Follow(NewWindow(href))
        else Follow(SameWindow(href))
      else if Contains(href, "teletype.in") then Follow(NewWindow(href))
      else if target == "_blank" && !env.isMobile then Follow(OpenExternalLink(href, env))
      else if StartsWith(href, "http") then Follow(OpenExternalLink(href, env))
      else Follow(SafeNavigate(href, env))
    else Nothing
  }

  /** Whatever the button does with an href, it opens that href and nothing else. */
  lemma ClickOpensItsHref(href: string, target: string, env: Env)
    requires HandleClick(false, href, target, env).Follow?
    ensures HandleClick(false, href, target, env).action.NoAction? ||
            Target(HandleClick(false, href, target, env).action) == Some(href)
  {
  }
}

module BackButtonLock {
  /**
   * useTelegramBackButton(targetPath). `navigations` records the navigate
   * calls; the lock is released by the one-second timer, FireRelease.
   * `sinceRelease` counts the navigations since the last release.
   */
  class Lock {
    const targetPath: string
    var locked: bool
    var timerPending: bool
    var shown: bool
    var navigations: seq<string>
    ghost var sinceRelease: nat

    ghost predicate Valid()
      reads this
    {
      && locked == timerPending
      && sinceRelease <= 1
      && (locked <==> sinceRelease == 1)
    }

    /** The mount effect registers the handler and shows the button. */
    constructor(targetPath: string)
      ensures Valid() && this.targetPath == targetPath && !locked && shown && navigations == []
    {
      this.targetPath := targetPath;
      locked := false;
      timerPending := false;
      shown := true;
      navigations := [];
      sinceRelease := 0;
    }

    /** handleBackClick */
    method Click()
      requires Valid()
      modifies this
      ensures Valid()
      ensures old(locked) ==> navigations == old(navigations) && shown == old(shown) && locked
      ensures !old(locked) ==> navigations == old(navigations) + [targetPath] && !shown && locked && timerPending
    {
      if locked {
        return;
      }
      locked := true;
      navigations := navigations + [targetPath];
      shown := false;
      timerPending := true;
      sinceRelease := sinceRelease + 1;
    }

    /** The timer scheduled by a click fires. */
    method FireRelease()
      requires Valid() && timerPending
      modifies this
      ensures Valid() && !locked && !timerPending && sinceRelease == 0
      ensures navigations == old(navigations) && shown == old(shown)
    {
      locked := false;
      timerPending := false;
      sinceRelease := 0;
    }
  }
}
