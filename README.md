# fablecraft-genius: the story generator and the animated text, in Dafny

This project models the logic of a small story-writing demo. The demo has three pieces.

- **The mock story assembler** (`StoryUtils`). It holds the four story parameters (genre, length, tone, setting) and the static tables of titles, beginnings, middles and endings. The paragraph texts, and the proof that none holds a line break, sit in `StoryTexts`. `generateTitle` and `generateStory` build on them. A genre without an entry in a table falls back to that table's fantasy entry, and each table decides this separately. The length gives 2, 4 or 7 middle paragraphs. The content is the beginning, the middles and the ending, with a blank line after each part except the last. Every `Math.random()` draw is an explicit real in [0, 1). The draws are used in the order the source calls for them: title, beginning, one per middle, ending. Each draw picks the entry `Floor(r * length)`.
- **The text-reveal component.**
  - The hook (`AnimatedTextHook`) cuts the text into words, lines or characters, with the semantics of JavaScript's `split` (`JsSplit`). It also keeps the `isVisible` flag, which hover listeners and an intersection observer drive. The flag is modelled as a transition function over DOM events and as a class with the same fields.
  - The class helpers (`AnimatedTextUtils`) give the size classes and the classes of one animated item. The classes are modelled as the argument list handed to `cn`.
  - The older inline copy of the component (`AnimatedTextInline`). Its `textArray` and its per-item classes are modelled as written and shown to agree with the hook's and the helper's. Its visibility handlers and its size map are textually the same as the hook's and the helper's, so the model reuses those definitions. The element its effects listen on differs from the split-out version (see Findings).
- **The story form** (`ParameterSelector`, `StoryGenerator`, `StoryPage`).
  - The chooser keeps its own map of selected options.
  - The generator keeps the prompt, the parameters, the loading flag and the last story.
  - Both are classes whose methods are proved against pure transition functions. Those functions are what the lemmas reason about.
  - `StoryPage` puts the two together.

## Model

| member | source | states |
|---|---|---|
| StoryUtils.StoryParametersWellFormed | src/utils/storyUtils.ts:3-46 | There are four parameters, with ids genre, length, tone and setting in that order. Every one has at least one option, and the ids are distinct. |
| StoryUtils.Lookup | src/utils/storyUtils.ts:136 | The genre's entry, or the fantasy entry when the genre has none, is always a non-empty list that is one of the table's entries. |
| StoryUtils.FallbackPerTable | src/utils/storyUtils.ts:49-132 | Fallback is decided per table. The six form genres have titles of their own. Besides fantasy, only scifi and mystery have their own beginnings. Every genre reads the fantasy middles and endings. |
| StoryUtils.Pick | src/utils/storyUtils.ts:137 | For a draw in [0, 1) and a non-empty list, `Math.floor(r * length)` is a valid index. |
| StoryUtils.GenerateTitle | src/utils/storyUtils.ts:135-137 | The title is an element of the genre's title list when the genre is a table key, and of the fantasy list otherwise. |
| StoryUtils.GenreOf | src/utils/storyUtils.ts:148 | The genre read from the parameters is never empty: a missing or empty genre reads as fantasy. What it selects is stated by StoryTitleFromGenre and StoryParagraphs. |
| StoryUtils.LengthOf | src/utils/storyUtils.ts:162 | The length read from the parameters is never empty: a missing or empty length reads as medium. ParagraphCountByLength states what each length leads to. |
| StoryUtils.ParagraphCount | src/utils/storyUtils.ts:164 | The number of middles is one of 2, 4 and 7. ParagraphCountByLength states which length gives which. |
| StoryUtils.ParagraphCountByLength | src/utils/storyUtils.ts:162-164 | "short" gives 2 middles. "medium", a missing length or an empty length gives 4. Any other length gives 7. |
| StoryUtils.StoryOf | src/utils/storyUtils.ts:141-175 | The reference definition of the resolved story: the genre's title, and the beginning, the middles and the ending picked by the draws in call order, joined by blank lines. It has no contract of its own. GenerateStory is proved equal to it. StoryParagraphs, StoryBoundaries, StoryTitleFromGenre and StoryIgnoresToneAndSetting state its properties. |
| StoryUtils.AppendMiddles | src/utils/storyUtils.ts:166-168 | The `for` loop appends, for each draw, the middle that draw picks followed by a blank line, in draw order. |
| StoryUtils.StoryLayout | src/utils/storyUtils.ts:155-172 | The content built as beginning, blank line, each middle with a blank line after it, then the ending, is exactly those paragraphs joined by blank lines. |
| StoryUtils.GenerateStory | src/utils/storyUtils.ts:141-175 | The accumulating code produces exactly the beginning, the middles and the ending joined by blank lines. The title comes from the genre. The prompt is never read. |
| StoryUtils.ParagraphTablesHaveNoLineBreaks | src/utils/storyUtils.ts:95-132 | No entry of the beginning, middle or ending tables that any genre can read contains a line break. |
| StoryUtils.StoryParagraphs | src/utils/storyUtils.ts:155-172 | Splitting the content at blank lines gives exactly N+2 paragraphs: a beginning, N middles and an ending, each from the genre's table after fallback. Joining them back gives the content. |
| StoryUtils.LayoutBoundaries | src/utils/storyUtils.ts:159-172 | Text laid out that way starts with its beginning and ends with its ending. When the ending is non-empty and has no line break, the text does not end with a blank line. |
| StoryUtils.StoryBoundaries | src/utils/storyUtils.ts:159-172 | The content starts with an entry of the beginnings table and ends with an entry of the endings table. It never ends with a blank line. |
| StoryUtils.StoryTitleFromGenre | src/utils/storyUtils.ts:148-149 | The story's title is one of the titles of the genre parameter, or of fantasy when it is missing or empty. |
| StoryUtils.StoryIgnoresToneAndSetting | src/utils/storyUtils.ts:141-175 | Changing tone and setting changes neither the draws needed nor the story. |
| JsSplit.Split | src/components/ui/animated-text/use-animated-text.tsx:10-12 | `s.split(sep)` for a non-empty separator always returns at least one part. |
| JsSplit.SplitChars | src/components/ui/animated-text/use-animated-text.tsx:14 | `s.split("")`, one single-character string per character. It has no contract of its own. ConcatSplitChars and CharactersMode state its properties. |
| JsSplit.JoinSplit | src/components/ui/animated-text/use-animated-text.tsx:10-12 | Joining the parts of a split with the same separator gives back the string. |
| JsSplit.SplitJoin | src/utils/storyUtils.ts:155-172 | Splitting a join gives back the parts when no part contains the separator's first character. |
| JsSplit.SplitCount | src/components/ui/animated-text/use-animated-text.tsx:10-12 | Splitting on one character gives one part more than the character's occurrences. |
| JsSplit.SplitPartsFree | src/components/ui/animated-text/use-animated-text.tsx:12 | No part of a split on one character contains that character. |
| JsSplit.ConcatSplitChars | src/components/ui/animated-text/use-animated-text.tsx:14 | Writing out `s.split("")` gives back `s`. |
| AnimatedTextHook.TextArray | src/components/ui/animated-text/use-animated-text.tsx:8-16 | Written out, the items give the text back. In words mode they give it with one space added. In lines mode, joining them with line breaks gives it. In characters mode and without a reveal type, concatenating them gives it. |
| AnimatedTextHook.WordsMode | src/components/ui/animated-text/use-animated-text.tsx:9-10 | Every word item ends with a space. The items written out are the text plus one space. There is one item more than there are spaces. |
| AnimatedTextHook.LinesMode | src/components/ui/animated-text/use-animated-text.tsx:11-12 | Joining the line items with line breaks gives the text. No item holds a line break. There is one item more than there are line breaks. The empty text gives `[""]`. |
| AnimatedTextHook.CharactersMode | src/components/ui/animated-text/use-animated-text.tsx:13-14 | There is one single-character item per character, in order, with as many items as characters. The items written out are the text. The empty text gives no items. |
| AnimatedTextHook.WholeTextMode | src/components/ui/animated-text/use-animated-text.tsx:15 | Without a reveal type, the only item is the whole text. |
| AnimatedTextHook.Next | src/components/ui/animated-text/use-animated-text.tsx:28-54 | Every event keeps the reachability invariant. A disconnected observer is never reconnected. Under `noRepeat`, a shown text stays shown. HoverTransitions and ScrollTransitions state what each event does. |
| AnimatedTextHook.InitiallyVisibleIff | src/components/ui/animated-text/use-animated-text.tsx:18-20 | The text starts shown exactly when `startOn` is mount or absent. |
| AnimatedTextHook.HoverTransitions | src/components/ui/animated-text/use-animated-text.tsx:24-32 | In hover mode, entering shows the text. Leaving hides it, except with `noRepeat`, where leaving changes nothing. |
| AnimatedTextHook.ScrollTransitions | src/components/ui/animated-text/use-animated-text.tsx:43-54 | While observing, intersecting shows the text and disconnects under `noRepeat`. Leaving the viewport hides the text unless `noRepeat`. |
| AnimatedTextHook.MountIsStatic | src/components/ui/animated-text/use-animated-text.tsx:24-43 | With mount or no trigger, no handler is installed, and no run of events changes the state. |
| AnimatedTextHook.NoElementIsStatic | src/components/ui/animated-text/use-animated-text.tsx:25-64 | When the effects find no element, no run of events changes the state. |
| AnimatedTextHook.NoRepeatShownStaysShown | src/components/ui/animated-text/use-animated-text.tsx:29-52 | With `noRepeat`, once shown the text stays shown whatever events follow. |
| AnimatedTextHook.ReachableInvariant | src/components/ui/animated-text/use-animated-text.tsx:43-64 | Every run keeps two facts. The observer is connected only in scroll mode with an element. Under `noRepeat`, it has disconnected once the text is shown. |
| AnimatedTextHook.InitialState | src/components/ui/animated-text/use-animated-text.tsx:18-64 | The state after mount satisfies the reachability invariant. InitiallyVisibleIff states its visibility. |
| AnimatedTextHook.RepeatingFollowsLastSignal | src/components/ui/animated-text/use-animated-text.tsx:28-54 | Without `noRepeat`, the text is shown exactly when the last hover or intersection event asked for it. |
| AnimatedTextHook.Visibility.constructor | src/components/ui/animated-text/use-animated-text.tsx:18-20 | The flag starts true exactly when `startOn` is mount or absent. In scroll mode the element is observed. |
| AnimatedTextHook.Visibility.OnMouseEnter | src/components/ui/animated-text/use-animated-text.tsx:28 | The new state is the transition function's result. A listening hover instance becomes visible. |
| AnimatedTextHook.Visibility.OnMouseLeave | src/components/ui/animated-text/use-animated-text.tsx:29 | The new state is the transition function's result. A listening hover instance without `noRepeat` becomes hidden. |
| AnimatedTextHook.Visibility.OnIntersection | src/components/ui/animated-text/use-animated-text.tsx:45-54 | The new state is the transition function's result. A disconnected observer changes nothing. |
| AnimatedTextUtils.SizeClass | src/components/ui/animated-text/utils.ts:5-14 | The `sizeClasses` map. It has no contract of its own. SizeClassInjective states its properties. |
| AnimatedTextUtils.DirectionClass | src/components/ui/animated-text/utils.ts:34-41 | The `directionClasses` map. It has no contract of its own. DirectionClassInjective and VisibleItemHasOneSlideClass state its properties. |
| AnimatedTextUtils.SizeClassInjective | src/components/ui/animated-text/utils.ts:5-14 | The eight sizes map to eight different classes, and md maps to `text-base`. |
| AnimatedTextUtils.DirectionClassInjective | src/components/ui/animated-text/utils.ts:34-39 | Each direction has its own slide class. |
| AnimatedTextUtils.AnimationClasses | src/components/ui/animated-text/utils.ts:30-43 | Hidden, the result is exactly `"opacity-0 inline-block"`. Visible, the tokens are the base classes, the direction's slide class (up when absent) and `opacity-100`. |
| AnimatedTextUtils.AbsentDirectionIsUp | src/components/ui/animated-text/utils.ts:41 | An absent direction gives the same classes as up. |
| AnimatedTextUtils.AnimationClassesIgnoreTiming | src/components/ui/animated-text/utils.ts:25-43 | The index, the reveal options, the delay, the duration and `reverse` never change the result. |
| AnimatedTextUtils.VisibleItemHasOneSlideClass | src/components/ui/animated-text/utils.ts:41-43 | A visible item has exactly one slide class, the one of its direction. |
| AnimatedTextInline.TextArray | src/components/ui/animated-text.tsx:43-51 | The inline split gives the same items as the hook in every mode. |
| AnimatedTextInline.ItemClasses | src/components/ui/animated-text.tsx:111-138 | For every input, the inline per-item classes equal the helper's classes for that direction. Hidden, that is exactly the base string. Visible, it is the base classes, the direction's slide class and `opacity-100`. |
| AnimatedTextInline.ItemClassesAgree | src/components/ui/animated-text.tsx:111-138 | With the direction defaulted to up, the inline per-item classes equal the helper's for every input. |
| AnimatedTextInline.PlainTextClassArgs | src/components/ui/animated-text.tsx:174-185 | The `cn` arguments of the span used without a reveal type. It has no contract of its own. PlainTextTokens and PlainTextClasses state its properties. |
| AnimatedTextInline.PlainTextTokens | src/components/ui/animated-text.tsx:174-185 | Without a reveal type, the span's tokens are `inline-block`, then the slide class when visible, then `opacity-100` or `opacity-0`. |
| AnimatedTextInline.PlainTextClasses | src/components/ui/animated-text.tsx:174-185 | Without a reveal type, one slide class (the direction's) is present exactly when visible. Exactly one opacity class is present, and which one is exactly the visibility. |
| AnimatedTextInline.WrapperClassArgs | src/components/ui/animated-text.tsx:154 | The `cn` arguments of the outer span. It has no contract of its own. WrapperClasses states its properties. |
| AnimatedTextInline.WrapperClasses | src/components/ui/animated-text.tsx:140-154 | The outer span carries `inline-block`, the size class (md by default) and the caller's class if it is non-empty. |
| AnimatedTextInline.InlineConfigAsWritten | src/components/ui/animated-text.tsx:56-109 | The inline visibility as written: the hook's initialiser and handlers, on the element the effects find, which is none once a ref is forwarded. It has no contract of its own. The four lemmas below state its properties. |
| AnimatedTextInline.InlineInitiallyVisibleIff | src/components/ui/animated-text.tsx:53-55 | The inline text starts shown exactly when `startOn` is mount or absent. |
| AnimatedTextInline.InlineHoverTransitions | src/components/ui/animated-text.tsx:61-66 | Without a forwarded ref, entering shows the text. Leaving hides it unless `noRepeat`, where leaving changes nothing. |
| AnimatedTextInline.InlineScrollTransitions | src/components/ui/animated-text.tsx:80-91 | Without a forwarded ref, the element is observed after mount. Intersecting shows the text and disconnects under `noRepeat`. Leaving the viewport hides it unless `noRepeat`. |
| AnimatedTextInline.ForwardedRefNeverShows | src/components/ui/animated-text.tsx:56-153 | As written, with a forwarded ref, a hover- or scroll-triggered text is never shown, whatever events arrive. |
| AnimatedTextInline.InlineConfig | src/components/ui/animated-text.tsx:56-57 | Corrected: the effects always find the rendered element, forwarded ref or not. It has no contract of its own. ForwardedRefHoverShows and ForwardedRefScrollShows state its properties. |
| AnimatedTextInline.ForwardedRefHoverShows | src/components/ui/animated-text.tsx:61-66 | Corrected, with or without a forwarded ref, hovering shows a hover-triggered text. |
| AnimatedTextInline.ForwardedRefScrollShows | src/components/ui/animated-text.tsx:80-91 | Corrected, with or without a forwarded ref, scrolling into view shows a scroll-triggered text. |
| ParameterSelector.FirstOptionMap | src/components/ParameterSelector.tsx:23-33 | The lazy initial selection. It has no contract of its own. FirstOptionMapKeys, FirstOptionMapValues and InitiallyFirstHighlighted state its properties, and BuildFirstOptions is proved equal to it. |
| ParameterSelector.FirstOptionMapKeys | src/components/ParameterSelector.tsx:25-31 | The initial map has a key exactly for each parameter with options. |
| ParameterSelector.FirstOptionMapValues | src/components/ParameterSelector.tsx:27-29 | With distinct ids, each such parameter is sent to its first option's id. |
| ParameterSelector.BuildFirstOptions | src/components/ParameterSelector.tsx:23-33 | The `forEach` loop builds exactly the first-option map. |
| ParameterSelector.IsHighlighted | src/components/ParameterSelector.tsx:64 | The highlight test `selectedOptions[param.id] === option.id`. It has no contract of its own. AtMostOneHighlighted and InitiallyFirstHighlighted state its properties. |
| ParameterSelector.AtMostOneHighlighted | src/components/ParameterSelector.tsx:64-66 | With distinct option ids, at most one option of a parameter is highlighted. |
| ParameterSelector.InitiallyFirstHighlighted | src/components/ParameterSelector.tsx:23-64 | Before any click, exactly the first option of each parameter is highlighted. |
| ParameterSelector.Selector.constructor | src/components/ParameterSelector.tsx:23-33 | The selection starts as the first-option map of the parameters. |
| ParameterSelector.Selector.HandleChange | src/components/ParameterSelector.tsx:35-41 | Only the clicked parameter's entry changes, and the clicked option becomes the highlighted one. The same pair is forwarded to `onChange`. |
| StoryGenerator.DefaultParametersAre | src/components/StoryGenerator.tsx:17-25 | The defaults are genre fantasy, length short, tone lighthearted and setting medieval. |
| StoryGenerator.ChangeParameter | src/components/StoryGenerator.tsx:29-34 | `handleParameterChange`. It has no contract of its own. ChangeTouchesOnlyItsKey states its properties. |
| StoryGenerator.ClickGenerate | src/components/StoryGenerator.tsx:40-41 | A click on generate, ignored while the button is disabled (line 100). It has no contract of its own. LoadingDisablesButtons and GeneratedStoryShown state its properties. |
| StoryGenerator.Complete | src/components/StoryGenerator.tsx:44-52 | The settling of `generateStory`. It has no contract of its own. FailureKeepsStory and GeneratedStoryShown state its properties. |
| StoryGenerator.ClickReset | src/components/StoryGenerator.tsx:55-66 | A click on reset, ignored while the button is disabled (line 118). It has no contract of its own. ResetRestoresMount, ResetIdempotent and LoadingDisablesButtons state its properties. |
| StoryGenerator.DisplayedContent | src/components/StoryGenerator.tsx:131 | The output area is never empty. It shows the placeholder exactly when there is no story or the story's content is empty or is the placeholder text itself. |
| StoryGenerator.ResetRestoresMount | src/components/StoryGenerator.tsx:55-66 | An enabled reset returns exactly to the mounted state: empty prompt, default parameters, no story, placeholder shown. |
| StoryGenerator.ResetIdempotent | src/components/StoryGenerator.tsx:55-66 | Resetting twice gives the same state as resetting once, whether or not the first reset was enabled. |
| StoryGenerator.LoadingDisablesButtons | src/components/StoryGenerator.tsx:100-118 | While loading, clicking generate or reset changes nothing. |
| StoryGenerator.ChangeTouchesOnlyItsKey | src/components/StoryGenerator.tsx:29-34 | A parameter change sets that key to the value and leaves every other key and every other field as it was. |
| StoryGenerator.FailureKeepsStory | src/components/StoryGenerator.tsx:47-52 | A failed generation keeps the previous story and its displayed content, and ends loading. |
| StoryGenerator.AllParametersKept | src/components/StoryGenerator.tsx:29-66 | Under any run of inputs whose parameter ids come from the chooser, every story parameter keeps a value. |
| StoryGenerator.InitialHasAllParameters | src/components/StoryGenerator.tsx:17-25 | The mounted generator has a value for every story parameter. |
| StoryGenerator.GeneratedStoryShown | src/components/StoryGenerator.tsx:40-53 | A generated story is never empty. After a successful generation its content and title are what is displayed, and loading is over. |
| StoryGenerator.Generator.constructor | src/components/StoryGenerator.tsx:16-27 | Mounting gives the initial state. |
| StoryGenerator.Generator.HandleParameterChange | src/components/StoryGenerator.tsx:29-34 | The new state is the parameter-change transition of the old one. |
| StoryGenerator.Generator.HandlePromptChange | src/components/StoryGenerator.tsx:36-38 | The new state is the old one with the new prompt. |
| StoryGenerator.Generator.BeginGenerate | src/components/StoryGenerator.tsx:40-44 | When enabled, loading starts and the click-time parameters and prompt are handed to the generation. When disabled, nothing happens. |
| StoryGenerator.Generator.CompleteGenerate | src/components/StoryGenerator.tsx:44-52 | A success replaces the story and a failure keeps it. Loading ends in both cases. |
| StoryGenerator.Generator.Generate | src/components/StoryGenerator.tsx:40-53 | A whole generation stores the story built from the click-time parameters and ends loading. |
| StoryGenerator.Generator.HandleReset | src/components/StoryGenerator.tsx:55-66 | The new state is the reset transition of the old one. |
| StoryPage.PageStepAsWritten | src/components/StoryGenerator.tsx:29-81 | The page as written: a click is recorded by the chooser and forwarded to the generator, and a reset changes only the generator. It has no contract of its own. ResetLeavesStaleHighlight and StepsAgreeOnGenerator state its properties. |
| StoryPage.PageStep | src/components/StoryGenerator.tsx:55-66 | The corrected page, where an enabled reset also resets the chooser. It has no contract of its own. StepKeepsSync, RunKeepsSync and HighlightedGenreIsGenerated state its properties. |
| StoryPage.ResetLeavesStaleHighlight | src/components/StoryGenerator.tsx:55-66 | As written, after choosing horror and resetting, horror stays highlighted while the generator's genre is fantasy. |
| StoryPage.StepKeepsSync | src/components/StoryGenerator.tsx:29-66 | Corrected, every event keeps the chooser's selection equal to the generator's parameters. |
| StoryPage.RunKeepsSync | src/components/ParameterSelector.tsx:35-41 | Corrected, every run of events keeps the two maps equal. |
| StoryPage.HighlightedGenreIsGenerated | src/components/ParameterSelector.tsx:64-66 | Corrected, after any run from mount, a genre is highlighted exactly when it is the generator's genre parameter. |
| StoryPage.StepsAgreeOnGenerator | src/components/StoryGenerator.tsx:55-66 | The correction changes only what a reset does to the chooser. |
| StoryPage.Page.constructor | src/components/StoryGenerator.tsx:16-25 | The mounted page is in sync. |
| StoryPage.Page.ClickOption | src/components/ParameterSelector.tsx:35-41 | The chooser records the click and forwards it to the generator. The page follows the transition and stays in sync. |
| StoryPage.Page.TypePrompt | src/components/StoryGenerator.tsx:36-38 | Typing changes only the prompt, and the page stays in sync. |
| StoryPage.Page.PressGenerate | src/components/StoryGenerator.tsx:40-44 | The page follows the transition and returns the request when the button is enabled. |
| StoryPage.Page.Settle | src/components/StoryGenerator.tsx:44-52 | Settling follows the transition and keeps the page in sync. |
| StoryPage.Page.PressReset | src/components/StoryGenerator.tsx:55-66 | The corrected reset resets the generator and the chooser together and keeps them in sync. |

## Left out

- The three-second `setTimeout` and the `async` wrapper of `generateStory`. Toasts and `console.error` are left out too. The call is modelled as a click step and a settling step given its outcome.
- Randomness. The draws of `Math.random()` are parameters of the model, reals in [0, 1) supplied by the caller.
- The `cn` merge step (tailwind-merge), which is not part of the source. The model states the tokens clsx keeps from the arguments handed to `cn`. The early `return baseClasses` is a plain string.
- Float-valued animation delays, durations and stagger, the computed `style` objects, and the default threshold of 0.1. They never reach the class lists. Where they are arguments they are inert `real`s.
- Effects re-running when `reveal` changes after mount. A mounted instance has a fixed configuration.
- Which element the effects find, other than the forwarded-ref case. It is a boolean of the configuration. A callback ref handed to the hook as a ref object is not modelled.
- UTF-16 code units. `text.split("")` is modelled per `char`, so surrogate pairs are not told apart.
- Inherited prototype keys such as `"constructor"` in the record lookups. Genres are plain data keys.
- The parameter `description` field, which `storyParameters` never sets. Labels, markup and styling are left out too.
- The aurora background, the glow effect, the copy and share buttons of the story output, the navigation bar, the loading indicator, the page layout and the keyframe data. They are drawing, browser APIs or static styling.
- The split-out `animated-text/index.tsx`. It only composes the hook and the helpers, and its plain-text class map is the inline one modelled in `AnimatedTextInline`.

## Findings

| source | as written | input that shows it | evidently intended | confidence | as-written member | corrected member |
|---|---|---|---|---|---|---|
| src/components/StoryGenerator.tsx:55-66 | `handleReset` rebuilds the generator's parameters, but the chooser's own `selectedOptions` is never reset. | Click "Horror", then reset. Horror stays highlighted, but the next story is generated as fantasy. | A reset puts the highlighted options back on the defaults too, so the highlight always shows the parameters in use. | not executed | StoryPage.ResetLeavesStaleHighlight | StoryPage.RunKeepsSync |
| src/components/ui/animated-text.tsx:56-153 | The span is given the forwarded ref when there is one, but both effects read `elementRef.current`, which stays empty once a ref is forwarded. | Render the inline component with a forwarded ref and `startOn: "hover"` or `"scroll"`. The text is never shown. | The effects listen on the element the span is rendered with, as the split-out component does by giving the hook that same ref. | not executed | AnimatedTextInline.ForwardedRefNeverShows | AnimatedTextInline.ForwardedRefHoverShows |
