/** The option types of the animated-text component. */
module AnimatedTypes {
  import opened Wrappers

  datatype Direction = Left | Right | Up | Down

  datatype Size = Sm | Md | Lg | Xl | Xl2 | Xl3 | Xl4 | Xl5

  datatype RevealType = Characters | Words | Lines

  datatype StartOn = Hover | Mount | Scroll

  /**
   * The `reveal` options, every one of them optional. Delays, durations,
   * the threshold and the stagger are seconds or ratios, kept as reals.
   */
  datatype Reveal = Reveal(
    revealType: Option<RevealType>,
    delay: Option<real>,
    duration: Option<real>,
    threshold: Option<real>,
    noRepeat: Option<bool>,
    stagger: Option<real>,
    startOn: Option<StartOn>)

  /** `reveal?.type`. */
  function RevealTypeOf(revealProps: Option<Reveal>): Option<RevealType>
  {
    if revealProps.Some? then revealProps.value.revealType else None
  }

  /** `reveal?.startOn`. */
  function StartOnOf(revealProps: Option<Reveal>): Option<StartOn>
  {
    if revealProps.Some? then revealProps.value.startOn else None
  }

  /** `reveal?.noRepeat` read as a condition: only `true` is truthy. */
  function NoRepeatOf(revealProps: Option<Reveal>): bool
  {
    revealProps.Some? && revealProps.value.noRepeat == Some(true)
  }
}
