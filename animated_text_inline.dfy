/**
 * The older, self-contained animated-text component, which inlines the
 * splitting, the visibility handling and the class helpers. Its pieces are
 * modelled as written and shown to agree with the split-out hook and helpers,
 * except for the element its effects listen on.
 */
module AnimatedTextInline {
  import opened Wrappers
  import opened JsSplit
  import opened AnimatedTypes
  import opened AnimatedTextUtils
  import Hook = AnimatedTextHook

  /** The inline `textArray`: the same items as the hook's, in every mode. */
  function TextArray(text: string, revealType: Option<RevealType>): (items: seq<string>)
    ensures items == Hook.TextArray(text, revealType)
  {
    match revealType
    case Some(Words) => seq(|Split(text, " ")|, i requires 0 <= i < |Split(text, " ")| => Split(text, " ")[i] + " ")
    case Some(Lines) => Split(text, "\n")
    case Some(Characters) => SplitChars(text)
    case None => [text]
  }

  /** The `direction` prop after its default `"up"`. */
  function DirectionProp(direction: Option<Direction>): Direction
  {
    direction.GetOr(Up)
  }

  /** The `size` prop after its default `"md"`. */
  function SizeProp(size: Option<Size>): Size
  {
    size.GetOr(Md)
  }

  /**
   * The inline `getAnimationClasses(index)`, over the component's props and
   * state. The delay and the `style` object it builds are never used. For a
   * given direction it gives the split-out helper's classes.
   */
  function ItemClasses(index: int, isVisible: bool, direction: Direction, revealProps: Option<Reveal>,
                       delay: real, duration: real, reverse: bool): (c: ClassName)
    ensures c == AnimationClasses(index, isVisible, Some(direction), revealProps, delay, duration, reverse)
  {
    if !isVisible then Plain(BaseClasses)
    else Cn([Str(BaseClasses), Str(DirectionClass(direction)), Obj([("opacity-100", isVisible)])])
  }

  /** With the direction prop defaulted, the inline classes are the helper's, for every input. */
  lemma ItemClassesAgree(index: int, isVisible: bool, direction: Option<Direction>, revealProps: Option<Reveal>,
                         delay: real, duration: real, reverse: bool)
    ensures ItemClasses(index, isVisible, DirectionProp(direction), revealProps, delay, duration, reverse)
         == AnimationClasses(index, isVisible, direction, revealProps, delay, duration, reverse)
  {
  }

  /** The conditional slide classes of the single span used when there is no reveal type. */
  function PlainSlideEntries(direction: Direction, isVisible: bool): seq<(string, bool)>
  {
    [("animate-text-slide-up-fade", direction == Up && isVisible),
     ("animate-text-slide-down-fade", direction == Down && isVisible),
     ("animate-text-slide-left-fade", direction == Left && isVisible),
     ("animate-text-slide-right-fade", direction == Right && isVisible)]
  }

  /** The class arguments of the single span used when there is no reveal type. */
  function PlainTextClassArgs(direction: Direction, isVisible: bool): seq<ClassArg>
  {
    [Str("inline-block"),
     Obj(PlainSlideEntries(direction, isVisible) + [("opacity-0", !isVisible), ("opacity-100", isVisible)])]
  }

  /** Exactly the slide class of the direction is enabled while visible, and none while hidden. */
  lemma PlainSlideEnabled(direction: Direction, isVisible: bool)
    ensures Enabled(PlainSlideEntries(direction, isVisible))
         == if isVisible then [DirectionClass(direction)] else []
  {
    var e := PlainSlideEntries(direction, isVisible);
    assert e == [e[0]] + [e[1]] + [e[2]] + [e[3]];
    EnabledAppend([e[0]] + [e[1]] + [e[2]], [e[3]]);
    EnabledAppend([e[0]] + [e[1]], [e[2]]);
    EnabledAppend([e[0]], [e[1]]);
    EnabledSingle(e[0]);
    EnabledSingle(e[1]);
    EnabledSingle(e[2]);
    EnabledSingle(e[3]);
  }

  /** The tokens of the plain span: `inline-block`, then the slide class if visible, then one opacity class. */
  lemma PlainTextTokens(direction: Direction, isVisible: bool)
    ensures Tokens(PlainTextClassArgs(direction, isVisible))
         == ["inline-block"]
            + (if isVisible then [DirectionClass(direction)] else [])
            + (if isVisible then ["opacity-100"] else ["opacity-0"])
  {
    var args := PlainTextClassArgs(direction, isVisible);
    assert args == [args[0]] + [args[1]];
    TokensAppend([args[0]], [args[1]]);
    TokensSingle(args[0]);
    TokensSingle(args[1]);
    var opacity := [("opacity-0", !isVisible), ("opacity-100", isVisible)];
    EnabledAppend(PlainSlideEntries(direction, isVisible), opacity);
    PlainSlideEnabled(direction, isVisible);
    assert opacity == [opacity[0]] + [opacity[1]];
    EnabledAppend([opacity[0]], [opacity[1]]);
    EnabledSingle(opacity[0]);
    EnabledSingle(opacity[1]);
  }

  /**
   * Without a reveal type, the span has one slide class (its direction's)
   * exactly when visible, and exactly one of `opacity-0` / `opacity-100`.
   */
  lemma PlainTextClasses(direction: Direction, isVisible: bool)
    ensures var t := Tokens(PlainTextClassArgs(direction, isVisible));
      && |t| >= 1 && t[0] == "inline-block"
      && CountIn(t, SlideClasses) == (if isVisible then 1 else 0)
      && (isVisible ==> DirectionClass(direction) in t)
      && CountIn(t, OpacityClasses) == 1
      && ("opacity-100" in t <==> isVisible)
      && ("opacity-0" in t <==> !isVisible)
  {
    PlainTextTokens(direction, isVisible);
    var slide := if isVisible then [DirectionClass(direction)] else [];
    var opacity := if isVisible then ["opacity-100"] else ["opacity-0"];
    var t := ["inline-block"] + slide + opacity;
    DirectionClassInjective(direction, Up);
    CountInAppend(["inline-block"] + slide, opacity, SlideClasses);
    CountInAppend(["inline-block"], slide, SlideClasses);
    CountInAppend(["inline-block"] + slide, opacity, OpacityClasses);
    CountInAppend(["inline-block"], slide, OpacityClasses);
    CountInSingle("inline-block", SlideClasses);
    CountInSingle("inline-block", OpacityClasses);
    CountInSingle(opacity[0], SlideClasses);
    CountInSingle(opacity[0], OpacityClasses);
    if isVisible {
      CountInSingle(DirectionClass(direction), SlideClasses);
      CountInSingle(DirectionClass(direction), OpacityClasses);
      assert t == ["inline-block", DirectionClass(direction), "opacity-100"];
    } else {
      assert t == ["inline-block", "opacity-0"];
    }
  }

  /** The two opacity classes. */
  const OpacityClasses: set<string> := {"opacity-0", "opacity-100"}

  lemma TokensSingle(a: ClassArg)
    ensures Tokens([a]) == match a
      case Str(c) => if c == "" then [] else [c]
      case Obj(entries) => Enabled(entries)
  {
    assert [a][1..] == [];
  }

  lemma EnabledSingle(e: (string, bool))
    ensures Enabled([e]) == if e.1 then [e.0] else []
  {
    assert [e][1..] == [];
  }

  lemma CountInSingle(x: string, names: set<string>)
    ensures CountIn([x], names) == if x in names then 1 else 0
  {
    assert [x][1..] == [];
  }

  lemma {:induction false} TokensAppend(a: seq<ClassArg>, b: seq<ClassArg>)
    ensures Tokens(a + b) == Tokens(a) + Tokens(b)
    decreases |a|
  {
    if a == [] {
      assert a + b == b;
    } else {
      assert (a + b)[1..] == a[1..] + b;
      TokensAppend(a[1..], b);
    }
  }

  lemma {:induction false} EnabledAppend(a: seq<(string, bool)>, b: seq<(string, bool)>)
    ensures Enabled(a + b) == Enabled(a) + Enabled(b)
    decreases |a|
  {
    if a == [] {
      assert a + b == b;
    } else {
      var head := if a[0].1 then [a[0].0] else [];
      assert (a + b)[0] == a[0];
      assert (a + b)[1..] == a[1..] + b;
      EnabledAppend(a[1..], b);
      assert Enabled(a + b) == head + (Enabled(a[1..]) + Enabled(b));
    }
  }

  lemma {:induction false} CountInAppend(a: seq<string>, b: seq<string>, names: set<string>)
    ensures CountIn(a + b, names) == CountIn(a, names) + CountIn(b, names)
    decreases |a|
  {
    if a == [] {
      assert a + b == b;
    } else {
      assert (a + b)[1..] == a[1..] + b;
      CountInAppend(a[1..], b, names);
    }
  }

  /** The class arguments of the outer span: `cn("inline-block", sizeClasses[size], className)`. */
  function WrapperClassArgs(size: Option<Size>, className: Option<string>): seq<ClassArg>
  {
    [Str("inline-block"), Str(SizeClass(SizeProp(size))), Str(className.GetOr(""))]
  }

  /** The outer span carries the size class (medium by default) and the caller's class, if any. */
  lemma WrapperClasses(size: Option<Size>, className: Option<string>)
    ensures Tokens(WrapperClassArgs(size, className))
      == ["inline-block", SizeClass(size.GetOr(Md))]
         + (if className.Some? && className.value != "" then [className.value] else [])
  {
    var args := WrapperClassArgs(size, className);
    assert args == [args[0]] + [args[1]] + [args[2]];
    TokensAppend([args[0]] + [args[1]], [args[2]]);
    TokensAppend([args[0]], [args[1]]);
    TokensSingle(args[0]);
    TokensSingle(args[1]);
    TokensSingle(args[2]);
    assert SizeClass(SizeProp(size)) != "";
  }

  // ---- The element the visibility effects listen on ----

  /**
   * As written: the span receives `ref || elementRef`, while the hover and
   * scroll effects read `elementRef.current`. When the parent forwards a ref,
   * `elementRef` is never attached and the effects find no element.
   */
  function ListenedElementFoundAsWritten(forwardedRef: bool): bool
  {
    !forwardedRef
  }

  /**
   * The inline component's visibility as written: the same `useState`
   * initialiser, hover listeners and observer callback as the hook, on the
   * element its effects find.
   */
  function InlineConfigAsWritten(revealProps: Option<Reveal>, forwardedRef: bool): Hook.VisibilityConfig
  {
    Hook.ConfigOf(revealProps, ListenedElementFoundAsWritten(forwardedRef))
  }

  /** The inline text starts shown exactly when `startOn` is `mount` or absent. */
  lemma InlineInitiallyVisibleIff(revealProps: Option<Reveal>, forwardedRef: bool)
    ensures Hook.InitialState(InlineConfigAsWritten(revealProps, forwardedRef)).isVisible
      <==> StartOnOf(revealProps) == Some(Mount) || StartOnOf(revealProps) == None
  {
    Hook.InitiallyVisibleIff(revealProps, ListenedElementFoundAsWritten(forwardedRef));
  }

  /**
   * Without a forwarded ref, hovering shows the text, and leaving hides it
   * unless `noRepeat`, which keeps it shown.
   */
  lemma InlineHoverTransitions(revealProps: Option<Reveal>, s: Hook.VisibilityState)
    requires StartOnOf(revealProps) == Some(Hover)
    ensures var cfg := InlineConfigAsWritten(revealProps, false);
      && Hook.Next(cfg, s, Hook.MouseEnter).isVisible
      && (!NoRepeatOf(revealProps) ==> !Hook.Next(cfg, s, Hook.MouseLeave).isVisible)
      && (NoRepeatOf(revealProps) ==> Hook.Next(cfg, s, Hook.MouseLeave) == s)
  {
    Hook.HoverTransitions(InlineConfigAsWritten(revealProps, false), s);
  }

  /**
   * Without a forwarded ref, the observer watches the element after mount;
   * intersecting shows the text and disconnects under `noRepeat`, leaving the
   * viewport hides it otherwise.
   */
  lemma InlineScrollTransitions(revealProps: Option<Reveal>)
    requires StartOnOf(revealProps) == Some(Scroll)
    ensures var cfg := InlineConfigAsWritten(revealProps, false);
      var s := Hook.InitialState(cfg);
      && s.observing
      && Hook.Next(cfg, s, Hook.Intersection(true)) == Hook.VisibilityState(true, !NoRepeatOf(revealProps))
      && (!NoRepeatOf(revealProps) ==> !Hook.Next(cfg, s, Hook.Intersection(false)).isVisible)
  {
    Hook.ScrollTransitions(InlineConfigAsWritten(revealProps, false), Hook.InitialState(InlineConfigAsWritten(revealProps, false)));
  }

  /**
   * With a forwarded ref, a hover- or scroll-triggered text is never shown,
   * whatever events reach the span.
   */
  lemma ForwardedRefNeverShows(revealProps: Option<Reveal>, events: seq<Hook.VisibilityEvent>)
    requires StartOnOf(revealProps) == Some(Hover) || StartOnOf(revealProps) == Some(Scroll)
    ensures var cfg := InlineConfigAsWritten(revealProps, true);
      !Hook.Run(cfg, Hook.InitialState(cfg), events).isVisible
  {
    Hook.NoElementIsStatic(InlineConfigAsWritten(revealProps, true), events);
  }

  /**
   * Corrected: the effects listen on the element the span is rendered with
   * (`ref || elementRef`), as the split-out component does by handing that
   * ref to the hook; once mounted it is always found, whether or not a ref
   * was forwarded.
   */
  function InlineConfig(revealProps: Option<Reveal>, forwardedRef: bool): Hook.VisibilityConfig
  {
    Hook.ConfigOf(revealProps, true)
  }

  /** Corrected: a forwarded ref no longer matters; hovering shows a hover-triggered text. */
  lemma ForwardedRefHoverShows(revealProps: Option<Reveal>, forwardedRef: bool)
    requires StartOnOf(revealProps) == Some(Hover)
    ensures var cfg := InlineConfig(revealProps, forwardedRef);
      Hook.Run(cfg, Hook.InitialState(cfg), [Hook.MouseEnter]).isVisible
  {
    var cfg := InlineConfig(revealProps, forwardedRef);
    assert [Hook.MouseEnter][1..] == [];
  }

  /** Corrected: a forwarded ref no longer matters; scrolling into view shows a scroll-triggered text. */
  lemma ForwardedRefScrollShows(revealProps: Option<Reveal>, forwardedRef: bool)
    requires StartOnOf(revealProps) == Some(Scroll)
    ensures var cfg := InlineConfig(revealProps, forwardedRef);
      Hook.Run(cfg, Hook.InitialState(cfg), [Hook.Intersection(true)]).isVisible
  {
    var cfg := InlineConfig(revealProps, forwardedRef);
    assert [Hook.Intersection(true)][1..] == [];
  }
}
