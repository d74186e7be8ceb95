/**
 * The story generator page section: the prompt text, the selected
 * parameters, the loading flag and the last story. The lazy initialiser and
 * the reset both rebuild the first-option map of the story parameters; the
 * generate and reset buttons are disabled while a story is being generated.
 *
 * The asynchronous `generateStory` call is split in two steps: the click,
 * which raises the loading flag and hands the current parameters and prompt
 * to the call, and its completion, which stores the story on success and
 * lowers the flag in every case.
 */
module StoryGenerator {
  import opened Wrappers
  import opened ParameterSelector
  import opened StoryUtils

  /** The component's state. */
  datatype GeneratorState = GeneratorState(
    prompt: string,
    parameters: map<string, string>,
    isLoading: bool,
    story: Option<Story>)

  /** What one `generateStory` call is started with. */
  datatype Request = Request(parameters: map<string, string>, prompt: string)

  /** The first option of every story parameter. */
  function DefaultParameters(): map<string, string>
  {
    FirstOptionMap(StoryParameters)
  }

  /** The defaults are fantasy, short, lighthearted and medieval. */
  lemma DefaultParametersAre()
    ensures DefaultParameters()
         == map["genre" := "fantasy", "length" := "short", "tone" := "lighthearted", "setting" := "medieval"]
  {
    StoryParametersWellFormed();
    FirstOptionMapKeys(StoryParameters);
    assert IdsWithOptions(StoryParameters) == {"genre", "length", "tone", "setting"} by {
      assert forall k :: 0 <= k < 4 ==> |StoryParameters[k].options| > 0;
    }
    FirstOptionMapValues(StoryParameters, 0);
    FirstOptionMapValues(StoryParameters, 1);
    FirstOptionMapValues(StoryParameters, 2);
    FirstOptionMapValues(StoryParameters, 3);
  }

  /** The state right after mounting. */
  function InitialState(): GeneratorState
  {
    GeneratorState("", DefaultParameters(), false, None)
  }

  /** `handleParameterChange(id, value)`. */
  function ChangeParameter(s: GeneratorState, id: string, value: string): GeneratorState
  {
    s.(parameters := s.parameters[id := value])
  }

  /** `handlePromptChange`: the textarea's new value. */
  function ChangePrompt(s: GeneratorState, text: string): GeneratorState
  {
    s.(prompt := text)
  }

  /** A click on "Generate Story": ignored while the button is disabled, otherwise starts loading. */
  function ClickGenerate(s: GeneratorState): GeneratorState
  {
    if s.isLoading then s else s.(isLoading := true)
  }

  /** What a click on an enabled "Generate Story" hands to `generateStory`. */
  function RequestOf(s: GeneratorState): Request
  {
    Request(s.parameters, s.prompt)
  }

  /** `generateStory` settles: a story is stored, a failure keeps the old one; loading ends either way. */
  function Complete(s: GeneratorState, outcome: Result<Story, string>): GeneratorState
  {
    match outcome
    case Success(story) => s.(story := Some(story), isLoading := false)
    case Failure(_) => s.(isLoading := false)
  }

  /** A click on the reset button: ignored while disabled, otherwise `handleReset`. */
  function ClickReset(s: GeneratorState): GeneratorState
  {
    if s.isLoading then s else GeneratorState("", DefaultParameters(), s.isLoading, None)
  }

  /** The placeholder shown where no story (or an empty one) is available. */
  const Placeholder: string := "Your story will appear here after generation..."

  /** `story?.content || placeholder`: the output area is never empty. */
  function DisplayedContent(s: GeneratorState): (content: string)
    ensures content != ""
    ensures content == Placeholder <==> s.story.None? || s.story.value.content in {"", Placeholder}
  {
    if s.story.Some? && s.story.value.content != "" then s.story.value.content else Placeholder
  }

  /** `story?.title`. */
  function DisplayedTitle(s: GeneratorState): Option<string>
  {
    if s.story.Some? then Some(s.story.value.title) else None
  }

  // ---- Properties of the transitions ----

  /** Resetting an idle generator brings back exactly the state it was mounted with. */
  lemma ResetRestoresMount(s: GeneratorState)
    requires !s.isLoading
    ensures ClickReset(s) == InitialState()
    ensures DisplayedContent(ClickReset(s)) == Placeholder
    ensures DisplayedTitle(ClickReset(s)) == None
  {
  }

  /** A second reset changes nothing, whether or not the first one was enabled. */
  lemma ResetIdempotent(s: GeneratorState)
    ensures ClickReset(ClickReset(s)) == ClickReset(s)
  {
  }

  /** While a story is being generated, neither button does anything. */
  lemma LoadingDisablesButtons(s: GeneratorState)
    requires s.isLoading
    ensures ClickGenerate(s) == s && ClickReset(s) == s
  {
  }

  /** A parameter change sets that parameter and leaves everything else as it was. */
  lemma ChangeTouchesOnlyItsKey(s: GeneratorState, id: string, value: string)
    ensures var t := ChangeParameter(s, id, value);
      && id in t.parameters && t.parameters[id] == value
      && (forall k :: k != id ==>
            (k in t.parameters <==> k in s.parameters)
            && (k in s.parameters ==> t.parameters[k] == s.parameters[k]))
      && t.prompt == s.prompt && t.isLoading == s.isLoading && t.story == s.story
  {
  }

  /** A failed generation keeps the story shown before and ends loading. */
  lemma FailureKeepsStory(s: GeneratorState, message: string)
    ensures Complete(s, Failure(message)).story == s.story
    ensures DisplayedContent(Complete(s, Failure(message))) == DisplayedContent(s)
    ensures !Complete(s, Failure(message)).isLoading
  {
  }

  /** The parameters hold exactly one entry per story parameter. */
  predicate HasAllParameters(s: GeneratorState)
  {
    s.parameters.Keys == {"genre", "length", "tone", "setting"}
  }

  /** The section's inputs: the selector's forwarded choices, the textarea, the buttons, settling. */
  datatype GeneratorEvent =
    | ParameterChanged(id: string, value: string)
    | PromptChanged(text: string)
    | GenerateClicked
    | Settled(outcome: Result<Story, string>)
    | ResetClicked

  /** The effect of one event. */
  function Step(s: GeneratorState, e: GeneratorEvent): GeneratorState
  {
    match e
    case ParameterChanged(id, value) => ChangeParameter(s, id, value)
    case PromptChanged(text) => ChangePrompt(s, text)
    case GenerateClicked => ClickGenerate(s)
    case Settled(outcome) => Complete(s, outcome)
    case ResetClicked => ClickReset(s)
  }

  /** The effect of a run of events, in order. */
  function Run(s: GeneratorState, events: seq<GeneratorEvent>): GeneratorState
    decreases |events|
  {
    if events == [] then s else Run(Step(s, events[0]), events[1..])
  }

  /** The selector only forwards ids of the story parameters. */
  predicate FromSelector(events: seq<GeneratorEvent>)
  {
    forall k :: 0 <= k < |events| && events[k].ParameterChanged? ==>
      events[k].id in {"genre", "length", "tone", "setting"}
  }

  /** Every parameter keeps a value through any run of inputs the page can produce. */
  lemma {:induction false} AllParametersKept(s: GeneratorState, events: seq<GeneratorEvent>)
    requires HasAllParameters(s) && FromSelector(events)
    ensures HasAllParameters(Run(s, events))
    decreases |events|
  {
    if events != [] {
      DefaultParametersAre();
      assert HasAllParameters(Step(s, events[0]));
      assert FromSelector(events[1..]) by {
        forall k | 0 <= k < |events[1..]| && events[1..][k].ParameterChanged?
          ensures events[1..][k].id in {"genre", "length", "tone", "setting"}
        {
          assert events[1..][k] == events[k + 1];
        }
      }
      AllParametersKept(Step(s, events[0]), events[1..]);
    }
  }

  /** The mounted generator has every parameter. */
  lemma InitialHasAllParameters()
    ensures HasAllParameters(InitialState())
  {
    DefaultParametersAre();
  }

  /**
   * A story produced from the request shows its own content, which is never
   * the empty string, and its title; loading is over.
   */
  lemma GeneratedStoryShown(s: GeneratorState, draws: seq<real>)
    requires !s.isLoading
    requires ValidDraws(RequestOf(s).parameters, draws)
    ensures var story := StoryOf(RequestOf(s).parameters, draws);
      var t := Complete(ClickGenerate(s), Success(story));
      && story.content != ""
      && DisplayedContent(t) == story.content
      && DisplayedTitle(t) == Some(story.title)
      && !t.isLoading
  {
    var story := StoryOf(RequestOf(s).parameters, draws);
    StoryParagraphs(RequestOf(s).parameters, draws);
  }

  /** The component, with the four pieces of state it keeps. */
  class Generator {
    var prompt: string
    var parameters: map<string, string>
    var isLoading: bool
    var story: Option<Story>

    /** The state as a value. */
    function State(): GeneratorState
      reads this
    {
      GeneratorState(prompt, parameters, isLoading, story)
    }

    /** Mounting runs the lazy parameter initialiser. */
    constructor ()
      ensures State() == InitialState()
    {
      prompt := "";
      var initial := BuildFirstOptions(StoryParameters);
      parameters := initial;
      isLoading := false;
      story := None;
    }

    /** `handleParameterChange`. */
    method HandleParameterChange(id: string, value: string)
      modifies this
      ensures State() == ChangeParameter(old(State()), id, value)
    {
      parameters := parameters[id := value];
    }

    /** `handlePromptChange`. */
    method HandlePromptChange(text: string)
      modifies this
      ensures State() == ChangePrompt(old(State()), text)
    {
      prompt := text;
    }

    /**
     * A click on "Generate Story". When the button is enabled, loading starts
     * and the request the call is started with is returned.
     */
    method BeginGenerate() returns (request: Option<Request>)
      modifies this
      ensures State() == ClickGenerate(old(State()))
      ensures request == if old(isLoading) then None else Some(RequestOf(old(State())))
    {
      if isLoading {
        request := None;
      } else {
        request := Some(Request(parameters, prompt));
        isLoading := true;
      }
    }

    /** The `try`/`catch`/`finally` after `generateStory` settles. */
    method CompleteGenerate(outcome: Result<Story, string>)
      modifies this
      ensures State() == Complete(old(State()), outcome)
    {
      match outcome {
        case Success(generated) =>
          story := Some(generated);
        case Failure(_) =>
      }
      isLoading := false;
    }

    /**
     * A whole generation with the draws `Math.random()` returns: the click,
     * the story built from the request, and the settling.
     */
    method Generate(draws: seq<real>)
      modifies this
      requires !isLoading
      requires ValidDraws(parameters, draws)
      ensures State() == Complete(ClickGenerate(old(State())),
                                  Success(StoryOf(old(parameters), draws)))
    {
      var request := BeginGenerate();
      var generated := GenerateStory(request.value.parameters, Some(request.value.prompt), draws);
      CompleteGenerate(Success(generated));
    }

    /** A click on the reset button. */
    method HandleReset()
      modifies this
      ensures State() == ClickReset(old(State()))
    {
      if !isLoading {
        prompt := "";
        var defaults := BuildFirstOptions(StoryParameters);
        parameters := defaults;
        story := None;
      }
    }
  }
}
