/**
 * The generator section together with the parameter chooser it renders.
 * The chooser keeps its own copy of the selection, which it changes on every
 * click and forwards to the generator; the generator's reset rebuilds only
 * the generator's copy. The page is modelled as written, where the two copies
 * drift apart after a reset, and with the chooser's selection reset as well,
 * where they always agree.
 */
module StoryPage {
  import opened Wrappers
  import opened ParameterSelector
  import opened StoryUtils
  import opened StoryGenerator

  /** The chooser's highlighted options and the generator's state. */
  datatype PageState = PageState(selected: map<string, string>, generator: GeneratorState)

  /** What a user can do on the page, and the settling of a pending generation. */
  datatype PageEvent =
    | OptionClicked(parameterId: string, optionId: string)
    | PromptTyped(text: string)
    | GeneratePressed
    | GenerationSettled(outcome: Result<Story, string>)
    | ResetPressed

  /** Both components just mounted. */
  function InitialPage(): PageState
  {
    PageState(FirstOptionMap(StoryParameters), InitialState())
  }

  /** The events that do not involve the reset button, which both versions handle alike. */
  function CommonStep(p: PageState, e: PageEvent): PageState
    requires !e.ResetPressed?
  {
    match e
    case OptionClicked(pid, oid) =>
      PageState(p.selected[pid := oid], ChangeParameter(p.generator, pid, oid))
    case PromptTyped(text) => p.(generator := ChangePrompt(p.generator, text))
    case GeneratePressed => p.(generator := ClickGenerate(p.generator))
    case GenerationSettled(outcome) => p.(generator := Complete(p.generator, outcome))
  }

  /** As written: the reset button resets the generator and leaves the chooser untouched. */
  function PageStepAsWritten(p: PageState, e: PageEvent): PageState
  {
    if e.ResetPressed? then p.(generator := ClickReset(p.generator)) else CommonStep(p, e)
  }

  /** Corrected: an enabled reset also puts the chooser back on the first options. */
  function PageStep(p: PageState, e: PageEvent): PageState
  {
    if e.ResetPressed? then
      if p.generator.isLoading then p
      else PageState(FirstOptionMap(StoryParameters), ClickReset(p.generator))
    else CommonStep(p, e)
  }

  function RunPageAsWritten(p: PageState, events: seq<PageEvent>): PageState
    decreases |events|
  {
    if events == [] then p else RunPageAsWritten(PageStepAsWritten(p, events[0]), events[1..])
  }

  function RunPage(p: PageState, events: seq<PageEvent>): PageState
    decreases |events|
  {
    if events == [] then p else RunPage(PageStep(p, events[0]), events[1..])
  }

  /** The highlighted options are the parameters the next story is generated from. */
  predicate InSync(p: PageState)
  {
    p.selected == p.generator.parameters
  }

  /**
   * As written: picking "horror" and then resetting leaves "horror"
   * highlighted while the generator is back on "fantasy", which the next
   * story is generated from.
   */
  lemma ResetLeavesStaleHighlight()
    ensures var p := RunPageAsWritten(InitialPage(), [OptionClicked("genre", "horror"), ResetPressed]);
      && IsHighlighted(p.selected, "genre", "horror")
      && !IsHighlighted(p.selected, "genre", "fantasy")
      && "genre" in p.generator.parameters && p.generator.parameters["genre"] == "fantasy"
      && !InSync(p)
  {
    DefaultParametersAre();
    var events := [OptionClicked("genre", "horror"), ResetPressed];
    assert events[1..] == [ResetPressed];
    assert events[1..][1..] == [];
  }

  /** Corrected: every single event keeps the chooser and the generator in agreement. */
  lemma StepKeepsSync(p: PageState, e: PageEvent)
    requires InSync(p)
    ensures InSync(PageStep(p, e))
  {
  }

  /** Corrected: from mount on, whatever happens, the highlight shows what will be generated. */
  lemma {:induction false} RunKeepsSync(p: PageState, events: seq<PageEvent>)
    requires InSync(p)
    ensures InSync(RunPage(p, events))
    decreases |events|
  {
    if events != [] {
      StepKeepsSync(p, events[0]);
      RunKeepsSync(PageStep(p, events[0]), events[1..]);
    }
  }

  /** Corrected: the highlighted genre is the genre the next story is built from. */
  lemma HighlightedGenreIsGenerated(events: seq<PageEvent>, genre: string)
    ensures var p := RunPage(InitialPage(), events);
      IsHighlighted(p.selected, "genre", genre)
      <==> ("genre" in p.generator.parameters && p.generator.parameters["genre"] == genre)
  {
    RunKeepsSync(InitialPage(), events);
  }

  /** The two versions differ only in what a reset does to the chooser. */
  lemma StepsAgreeOnGenerator(p: PageState, e: PageEvent)
    ensures PageStep(p, e).generator == PageStepAsWritten(p, e).generator
    ensures !e.ResetPressed? ==> PageStep(p, e) == PageStepAsWritten(p, e)
  {
  }

  /** The page with the two component instances, using the corrected reset. */
  class Page {
    const selector: Selector
    const generator: Generator

    /** Both components hold the same selection, and the chooser shows the story parameters. */
    predicate Valid()
      reads this, selector, generator
    {
      selector.parameters == StoryParameters
      && selector.selectedOptions == generator.parameters
    }

    /** The page state as a value. */
    function State(): PageState
      reads this, selector, generator
    {
      PageState(selector.selectedOptions, generator.State())
    }

    constructor ()
      ensures Valid()
      ensures State() == InitialPage()
      ensures fresh(selector) && fresh(generator)
    {
      selector := new Selector(StoryParameters);
      generator := new Generator();
    }

    /** A click on an option: the chooser records it and forwards it to the generator. */
    method ClickOption(parameterId: string, optionId: string)
      requires Valid()
      modifies selector, generator
      ensures Valid()
      ensures State() == PageStep(old(State()), OptionClicked(parameterId, optionId))
    {
      var forwarded := selector.HandleChange(parameterId, optionId);
      generator.HandleParameterChange(forwarded.0, forwarded.1);
    }

    /** Typing in the prompt box. */
    method TypePrompt(text: string)
      requires Valid()
      modifies generator
      ensures Valid()
      ensures State() == PageStep(old(State()), PromptTyped(text))
    {
      generator.HandlePromptChange(text);
    }

    /** Pressing "Generate Story"; returns the request when the button was enabled. */
    method PressGenerate() returns (request: Option<Request>)
      requires Valid()
      modifies generator
      ensures Valid()
      ensures State() == PageStep(old(State()), GeneratePressed)
      ensures request == if old(generator.isLoading) then None else Some(RequestOf(old(generator.State())))
    {
      request := generator.BeginGenerate();
    }

    /** The pending generation settles. */
    method Settle(outcome: Result<Story, string>)
      requires Valid()
      modifies generator
      ensures Valid()
      ensures State() == PageStep(old(State()), GenerationSettled(outcome))
    {
      generator.CompleteGenerate(outcome);
    }

    /** Pressing reset: when enabled, both the generator and the chooser go back to the first options. */
    method PressReset()
      requires Valid()
      modifies selector, generator
      ensures Valid()
      ensures State() == PageStep(old(State()), ResetPressed)
    {
      if !generator.isLoading {
        generator.HandleReset();
        var defaults := BuildFirstOptions(selector.parameters);
        selector.selectedOptions := defaults;
      }
    }
  }
}
