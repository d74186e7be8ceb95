/**
 * Class-name helpers of the animated text: the size classes and the classes
 * of one revealed item. A class list is modelled as the arguments handed to
 * `cn` (strings and `{ class: condition }` objects) and the tokens clsx keeps
 * from them; the merging that tailwind-merge applies afterwards is not.
 */
module AnimatedTextUtils {
  import opened Wrappers
  import opened AnimatedTypes

  /** One argument of `cn`: a class string, or an object of conditional classes. */
  datatype ClassArg = Str(classes: string) | Obj(entries: seq<(string, bool)>)

  /** A `className` value: a string returned directly, or the result of a `cn(...)` call. */
  datatype ClassName = Plain(value: string) | Cn(args: seq<ClassArg>)

  /** The classes clsx keeps: strings as given, object keys whose condition holds, in order. */
  function Tokens(args: seq<ClassArg>): seq<string>
    decreases |args|
  {
    if args == [] then []
    else
      var first := match args[0]
        case Str(c) => if c == "" then [] else [c]
        case Obj(entries) => Enabled(entries);
      first + Tokens(args[1..])
  }

  /** The keys of a clsx object whose condition holds. */
  function Enabled(entries: seq<(string, bool)>): seq<string>
    decreases |entries|
  {
    if entries == [] then []
    else (if entries[0].1 then [entries[0].0] else []) + Enabled(entries[1..])
  }

  /** How many tokens are in `names`. */
  function CountIn(tokens: seq<string>, names: set<string>): nat
    decreases |tokens|
  {
    if tokens == [] then 0
    else (if tokens[0] in names then 1 else 0) + CountIn(tokens[1..], names)
  }

  /** `sizeClasses`. */
  function SizeClass(size: Size): string
  {
    match size
    case Sm => "text-sm"
    case Md => "text-base"
    case Lg => "text-lg"
    case Xl => "text-xl"
    case Xl2 => "text-2xl"
    case Xl3 => "text-3xl"
    case Xl4 => "text-4xl"
    case Xl5 => "text-5xl"
  }

  /** Different sizes get different classes; `md` is the base text size. */
  lemma SizeClassInjective(a: Size, b: Size)
    ensures SizeClass(a) == SizeClass(b) <==> a == b
    ensures SizeClass(Md) == "text-base"
  {
  }

  /** The slide-and-fade animation of a direction. */
  function DirectionClass(d: Direction): string
  {
    match d
    case Up => "animate-text-slide-up-fade"
    case Down => "animate-text-slide-down-fade"
    case Left => "animate-text-slide-left-fade"
    case Right => "animate-text-slide-right-fade"
  }

  /** The four slide classes. */
  const SlideClasses: set<string> := {
    "animate-text-slide-up-fade", "animate-text-slide-down-fade",
    "animate-text-slide-left-fade", "animate-text-slide-right-fade" }

  /** Every direction has its own slide class. */
  lemma DirectionClassInjective(a: Direction, b: Direction)
    ensures DirectionClass(a) in SlideClasses
    ensures DirectionClass(a) == DirectionClass(b) <==> a == b
  {
  }

  /** The classes every item starts from, and the whole class list while hidden. */
  const BaseClasses: string := "opacity-0 inline-block"

  /**
   * `getAnimationClasses`. The total delay is computed from `index`, the
   * delays and the stagger and then not used, so those inputs do not reach
   * the result.
   */
  function AnimationClasses(index: int, isVisible: bool, direction: Option<Direction>,
                            revealProps: Option<Reveal>, delay: real, duration: real, reverse: bool): (c: ClassName)
    ensures !isVisible ==> c == Plain(BaseClasses)
    ensures isVisible ==>
      c.Cn? && Tokens(c.args) == [BaseClasses, DirectionClass(direction.GetOr(Up)), "opacity-100"]
  {
    if !isVisible then Plain(BaseClasses)
    else
      var animationClass := DirectionClass(direction.GetOr(Up));
      var args := [Str(BaseClasses), Str(animationClass), Obj([("opacity-100", isVisible)])];
      assert Tokens(args) == [BaseClasses, animationClass, "opacity-100"] by {
        var last := [("opacity-100", isVisible)];
        assert last[1..] == [];
        assert Enabled(last) == ["opacity-100"];
        assert args[1..][1..] == [Obj(last)];
        assert [Obj(last)][1..] == [];
        assert Tokens(args[1..][1..]) == ["opacity-100"];
        assert animationClass != "";
        assert Tokens(args[1..]) == [animationClass, "opacity-100"];
        assert BaseClasses != "";
      }
      Cn(args)
  }

  /** An absent direction animates like `up`. */
  lemma AbsentDirectionIsUp(index: int, isVisible: bool, revealProps: Option<Reveal>,
                            delay: real, duration: real, reverse: bool)
    ensures AnimationClasses(index, isVisible, None, revealProps, delay, duration, reverse)
         == AnimationClasses(index, isVisible, Some(Up), revealProps, delay, duration, reverse)
  {
  }

  /** The item's index, the reveal options and the timing never change the classes. */
  lemma AnimationClassesIgnoreTiming(i1: int, i2: int, isVisible: bool, direction: Option<Direction>,
                                     r1: Option<Reveal>, r2: Option<Reveal>,
                                     delay1: real, delay2: real, duration1: real, duration2: real,
                                     reverse1: bool, reverse2: bool)
    ensures AnimationClasses(i1, isVisible, direction, r1, delay1, duration1, reverse1)
         == AnimationClasses(i2, isVisible, direction, r2, delay2, duration2, reverse2)
  {
  }

  /** A visible item carries exactly one slide class, the one of its direction. */
  lemma VisibleItemHasOneSlideClass(index: int, direction: Option<Direction>, revealProps: Option<Reveal>,
                                    delay: real, duration: real, reverse: bool)
    ensures var c := AnimationClasses(index, true, direction, revealProps, delay, duration, reverse);
      CountIn(Tokens(c.args), SlideClasses) == 1
      && DirectionClass(direction.GetOr(Up)) in Tokens(c.args)
  {
    var d := direction.GetOr(Up);
    DirectionClassInjective(d, Up);
    var tokens := [BaseClasses, DirectionClass(d), "opacity-100"];
    assert tokens[1..][1..] == ["opacity-100"];
    assert CountIn(tokens[1..][1..], SlideClasses) == 0;
    assert CountIn(tokens[1..], SlideClasses) == 1;
    assert BaseClasses !in SlideClasses;
  }
}
