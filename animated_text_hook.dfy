/**
 * The text-reveal hook: how the text is cut into animated items, and the
 * visibility flag that hover listeners and the intersection observer drive.
 */
module AnimatedTextHook {
  import opened Wrappers
  import opened JsSplit
  import opened AnimatedTypes

  /** Every word with the space the split removed written back after it. */
  function AppendSpace(words: seq<string>): (items: seq<string>)
  {
    seq(|words|, i requires 0 <= i < |words| => words[i] + " ")
  }

  /**
   * `textArray`: words, lines, characters, or the whole text as one item.
   * Written out, the items give the text back: with a space after the last
   * word in words mode, with line breaks between them in lines mode.
   */
  function TextArray(text: string, revealType: Option<RevealType>): (items: seq<string>)
    ensures revealType == Some(Words) ==> Concat(items) == text + " "
    ensures revealType == Some(Lines) ==> Join(items, "\n") == text
    ensures revealType == Some(Characters) || revealType == None ==> Concat(items) == text
  {
    match revealType
    case Some(Words) =>
      SplitCount(text, ' ');
      ConcatAppendSpace(Split(text, " "));
      JoinSplit(text, " ");
      AppendSpace(Split(text, " "))
    case Some(Lines) =>
      JoinSplit(text, "\n");
      Split(text, "\n")
    case Some(Characters) =>
      ConcatSplitChars(text);
      SplitChars(text)
    case None => [text]
  }

  lemma {:induction false} ConcatAppendSpace(words: seq<string>)
    requires |words| >= 1
    ensures Concat(AppendSpace(words)) == Join(words, " ") + " "
    decreases |words|
  {
    if |words| > 1 {
      ConcatAppendSpace(words[1..]);
      assert AppendSpace(words)[1..] == AppendSpace(words[1..]);
    }
  }

  /**
   * Words: every item ends with a space, the items written out are the text
   * followed by one space, and there is one item more than there are spaces
   * (so consecutive spaces give items that are a lone space).
   */
  lemma WordsMode(text: string)
    ensures var items := TextArray(text, Some(Words));
      && (forall k :: 0 <= k < |items| ==> EndsWithSpace(items[k]))
      && Concat(items) == text + " "
      && |items| == Occurrences(text, ' ') + 1
  {
    ConcatAppendSpace(Split(text, " "));
    JoinSplit(text, " ");
    SplitCount(text, ' ');
  }

  /** `s` ends with a space. */
  predicate EndsWithSpace(s: string)
  {
    |s| > 0 && s[|s| - 1] == ' '
  }

  /**
   * Lines: joining the items with line breaks gives the text back, no item
   * holds a line break, there is one item more than there are line breaks,
   * and the empty text is one empty line.
   */
  lemma LinesMode(text: string)
    ensures var items := TextArray(text, Some(Lines));
      && Join(items, "\n") == text
      && (forall k :: 0 <= k < |items| ==> '\n' !in items[k])
      && |items| == Occurrences(text, '\n') + 1
      && (text == "" ==> items == [""])
  {
    JoinSplit(text, "\n");
    SplitCount(text, '\n');
    SplitPartsFree(text, '\n');
  }

  /**
   * Characters: one single-character item per character, in order, so the
   * items written out are the text, and the empty text has no items.
   */
  lemma CharactersMode(text: string)
    ensures var items := TextArray(text, Some(Characters));
      && |items| == |text|
      && (forall k :: 0 <= k < |items| ==> items[k] == [text[k]])
      && Concat(items) == text
      && (text == "" ==> items == [])
  {
    ConcatSplitChars(text);
  }

  /** Without a reveal type the whole text is the only item. */
  lemma WholeTextMode(text: string)
    ensures TextArray(text, None) == [text]
    ensures Concat(TextArray(text, None)) == text
  {
  }

  // ---- Visibility ----

  /** A DOM event that reaches the rendered element. */
  datatype VisibilityEvent = MouseEnter | MouseLeave | Intersection(isIntersecting: bool)

  /**
   * What a mounted instance fixes: which trigger is configured, whether it
   * fires only once, and whether the effects found the element to listen on.
   */
  datatype VisibilityConfig = VisibilityConfig(startOn: Option<StartOn>, noRepeat: bool, hasElement: bool)

  /** The `isVisible` state and whether the observer is still connected. */
  datatype VisibilityState = VisibilityState(isVisible: bool, observing: bool)

  function ConfigOf(revealProps: Option<Reveal>, hasElement: bool): VisibilityConfig
  {
    VisibilityConfig(StartOnOf(revealProps), NoRepeatOf(revealProps), hasElement)
  }

  /** `reveal?.startOn === "mount" || !reveal?.startOn`. */
  function InitiallyVisible(startOn: Option<StartOn>): bool
  {
    startOn == Some(Mount) || startOn == None
  }

  /** The hover effect adds its listeners only in hover mode and only when the element exists. */
  predicate HoverListening(cfg: VisibilityConfig)
  {
    cfg.startOn == Some(Hover) && cfg.hasElement
  }

  /**
   * The state right after mount; in scroll mode the observer watches the
   * element if there is one. It satisfies the invariant of every state
   * reachable from mount.
   */
  function InitialState(cfg: VisibilityConfig): (s: VisibilityState)
    ensures Reachable(cfg, s)
  {
    VisibilityState(InitiallyVisible(cfg.startOn), cfg.startOn == Some(Scroll) && cfg.hasElement)
  }

  /**
   * One event: the installed handler's effect, or nothing when no handler is
   * installed. It keeps the reachability invariant, never reconnects a
   * disconnected observer, and under `noRepeat` never hides a shown text.
   */
  function Next(cfg: VisibilityConfig, s: VisibilityState, e: VisibilityEvent): (t: VisibilityState)
    ensures Reachable(cfg, s) ==> Reachable(cfg, t)
    ensures t.observing ==> s.observing
    ensures cfg.noRepeat && s.isVisible ==> t.isVisible
  {
    match e
    case MouseEnter =>
      if HoverListening(cfg) then s.(isVisible := true) else s
    case MouseLeave =>
      if HoverListening(cfg) && !cfg.noRepeat then s.(isVisible := false) else s
    case Intersection(isIntersecting) =>
      if !s.observing then s
      else if isIntersecting then VisibilityState(true, !cfg.noRepeat)
      else if !cfg.noRepeat then s.(isVisible := false)
      else s
  }

  /** The events in order. */
  function Run(cfg: VisibilityConfig, s: VisibilityState, events: seq<VisibilityEvent>): VisibilityState
    decreases |events|
  {
    if events == [] then s else Run(cfg, Next(cfg, s, events[0]), events[1..])
  }

  /** The text starts shown exactly when `startOn` is `mount` or absent. */
  lemma InitiallyVisibleIff(revealProps: Option<Reveal>, hasElement: bool)
    ensures InitialState(ConfigOf(revealProps, hasElement)).isVisible
      <==> StartOnOf(revealProps) == Some(Mount) || StartOnOf(revealProps) == None
  {
  }

  /** Hover mode: entering shows; leaving hides, unless `noRepeat`, which keeps the text shown. */
  lemma HoverTransitions(cfg: VisibilityConfig, s: VisibilityState)
    requires HoverListening(cfg)
    ensures Next(cfg, s, MouseEnter).isVisible
    ensures !cfg.noRepeat ==> !Next(cfg, s, MouseLeave).isVisible
    ensures cfg.noRepeat ==> Next(cfg, s, MouseLeave) == s
    ensures Next(cfg, Next(cfg, s, MouseEnter), MouseLeave).isVisible <==> cfg.noRepeat
  {
  }

  /**
   * Scroll mode, while observing: intersecting shows and disconnects when
   * `noRepeat`; leaving the viewport hides unless `noRepeat`.
   */
  lemma ScrollTransitions(cfg: VisibilityConfig, s: VisibilityState)
    requires s.observing
    ensures Next(cfg, s, Intersection(true)) == VisibilityState(true, !cfg.noRepeat)
    ensures !cfg.noRepeat ==> Next(cfg, s, Intersection(false)) == VisibilityState(false, true)
    ensures cfg.noRepeat ==> Next(cfg, s, Intersection(false)) == s
  {
  }

  /** With `mount` or no trigger no handler is installed, so nothing ever changes. */
  lemma {:induction false} MountIsStatic(cfg: VisibilityConfig, events: seq<VisibilityEvent>)
    requires cfg.startOn == Some(Mount) || cfg.startOn == None
    ensures Run(cfg, InitialState(cfg), events) == InitialState(cfg)
    decreases |events|
  {
    if events != [] {
      MountIsStatic(cfg, events[1..]);
    }
  }

  /** When the effects find no element, no listener and no observation is set up: nothing changes. */
  lemma {:induction false} NoElementIsStatic(cfg: VisibilityConfig, events: seq<VisibilityEvent>)
    requires !cfg.hasElement
    ensures Run(cfg, InitialState(cfg), events) == InitialState(cfg)
    decreases |events|
  {
    if events != [] {
      NoElementIsStatic(cfg, events[1..]);
    }
  }

  /** With `noRepeat`, once the text is shown it stays shown, whatever happens next. */
  lemma {:induction false} NoRepeatShownStaysShown(cfg: VisibilityConfig, s: VisibilityState, events: seq<VisibilityEvent>)
    requires cfg.noRepeat && s.isVisible
    ensures Run(cfg, s, events).isVisible
    decreases |events|
  {
    if events != [] {
      NoRepeatShownStaysShown(cfg, Next(cfg, s, events[0]), events[1..]);
    }
  }

  /**
   * What holds of every state reachable from mount: the observer runs only
   * in scroll mode with an element, and with `noRepeat` it has disconnected
   * once the text is shown.
   */
  predicate Reachable(cfg: VisibilityConfig, s: VisibilityState)
  {
    && (s.observing ==> cfg.startOn == Some(Scroll) && cfg.hasElement)
    && (cfg.startOn == Some(Scroll) && cfg.noRepeat && s.isVisible ==> !s.observing)
  }

  lemma {:induction false} ReachableInvariant(cfg: VisibilityConfig, s: VisibilityState, events: seq<VisibilityEvent>)
    requires Reachable(cfg, s)
    ensures Reachable(cfg, Run(cfg, s, events))
    decreases |events|
  {
    if events != [] {
      ReachableInvariant(cfg, Next(cfg, s, events[0]), events[1..]);
    }
  }


  /** The show/hide request an event makes in a mode, if it makes one. */
  function Signal(startOn: Option<StartOn>, e: VisibilityEvent): Option<bool>
  {
    match e
    case MouseEnter => if startOn == Some(Hover) then Some(true) else None
    case MouseLeave => if startOn == Some(Hover) then Some(false) else None
    case Intersection(b) => if startOn == Some(Scroll) then Some(b) else None
  }

  /** The last request among the events, or `current` when there is none. */
  function LastSignal(startOn: Option<StartOn>, current: bool, events: seq<VisibilityEvent>): bool
    decreases |events|
  {
    if events == [] then current
    else
      var s := Signal(startOn, events[0]);
      LastSignal(startOn, if s.Some? then s.value else current, events[1..])
  }

  /**
   * Without `noRepeat`, with the element present and the observer connected
   * in scroll mode, the text is shown exactly when the last hover or
   * intersection event asked for it.
   */
  lemma {:induction false} RepeatingFollowsLastSignal(cfg: VisibilityConfig, s: VisibilityState, events: seq<VisibilityEvent>)
    requires !cfg.noRepeat && cfg.hasElement
    requires s.observing <==> cfg.startOn == Some(Scroll)
    ensures Run(cfg, s, events).isVisible == LastSignal(cfg.startOn, s.isVisible, events)
    decreases |events|
  {
    if events != [] {
      RepeatingFollowsLastSignal(cfg, Next(cfg, s, events[0]), events[1..]);
    }
  }

  /** The mounted hook's visibility: fixed configuration, mutable flag and observer. */
  class Visibility {
    const config: VisibilityConfig
    var isVisible: bool
    var observing: bool

    function State(): VisibilityState
      reads this
    {
      VisibilityState(isVisible, observing)
    }

    /** `useState(...)` and the effects that run after mount. */
    constructor (revealProps: Option<Reveal>, hasElement: bool)
      ensures config == ConfigOf(revealProps, hasElement)
      ensures State() == InitialState(config)
      ensures isVisible <==> StartOnOf(revealProps) == Some(Mount) || StartOnOf(revealProps) == None
    {
      config := ConfigOf(revealProps, hasElement);
      isVisible := StartOnOf(revealProps) == Some(Mount) || StartOnOf(revealProps) == None;
      observing := StartOnOf(revealProps) == Some(Scroll) && hasElement;
    }

    /** `mouseenter` on the element. */
    method OnMouseEnter()
      modifies this
      ensures State() == Next(config, old(State()), MouseEnter)
      ensures HoverListening(config) ==> isVisible
      ensures !HoverListening(config) ==> isVisible == old(isVisible)
      ensures observing == old(observing)
    {
      if config.startOn == Some(Hover) && config.hasElement {
        isVisible := true;
      }
    }

    /** `mouseleave` on the element. */
    method OnMouseLeave()
      modifies this
      ensures State() == Next(config, old(State()), MouseLeave)
      ensures HoverListening(config) && !config.noRepeat ==> !isVisible
      ensures !HoverListening(config) || config.noRepeat ==> isVisible == old(isVisible)
      ensures observing == old(observing)
    {
      if config.startOn == Some(Hover) && config.hasElement && !config.noRepeat {
        isVisible := false;
      }
    }

    /** The observer callback with the first entry's `isIntersecting`, if still connected. */
    method OnIntersection(isIntersecting: bool)
      modifies this
      ensures State() == Next(config, old(State()), Intersection(isIntersecting))
      ensures old(observing) && isIntersecting ==> isVisible && observing == !config.noRepeat
      ensures !old(observing) ==> State() == old(State())
    {
      if observing {
        if isIntersecting {
          isVisible := true;
          if config.noRepeat {
            observing := false;
          }
        } else if !config.noRepeat {
          isVisible := false;
        }
      }
    }
  }
}
