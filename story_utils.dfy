/**
 * The mock story assembler: the parameter list offered to the user, the
 * static title and paragraph tables, and the two generators.
 *
 * Each `Math.random()` draw is an explicit real in [0, 1), consumed in the
 * order the source makes the calls: the title, the beginning, one per middle
 * paragraph, the ending. An entry is chosen as `Floor(r * length)`.
 */
module StoryUtils {
  import opened Wrappers
  import opened JsSplit
  import opened ParameterSelector
  import opened StoryTexts

  /** The parameters the form offers, with their options in display order. */
  const StoryParameters: seq<Parameter> := [
    Parameter("genre", "Genre", [
      ParameterOption("fantasy", "Fantasy"),
      ParameterOption("scifi", "Sci-Fi"),
      ParameterOption("mystery", "Mystery"),
      ParameterOption("romance", "Romance"),
      ParameterOption("horror", "Horror"),
      ParameterOption("adventure", "Adventure")]),
    Parameter("length", "Length", [
      ParameterOption("short", "Short"),
      ParameterOption("medium", "Medium"),
      ParameterOption("long", "Long")]),
    Parameter("tone", "Tone", [
      ParameterOption("lighthearted", "Lighthearted"),
      ParameterOption("serious", "Serious"),
      ParameterOption("dark", "Dark"),
      ParameterOption("humorous", "Humorous")]),
    Parameter("setting", "Setting", [
      ParameterOption("medieval", "Medieval"),
      ParameterOption("futuristic", "Futuristic"),
      ParameterOption("contemporary", "Contemporary"),
      ParameterOption("dystopian", "Dystopian"),
      ParameterOption("historical", "Historical")])
  ]

  /** The four parameters, in order, each with a non-empty option list. */
  lemma StoryParametersWellFormed()
    ensures |StoryParameters| == 4
    ensures StoryParameters[0].id == "genre" && StoryParameters[1].id == "length"
    ensures StoryParameters[2].id == "tone" && StoryParameters[3].id == "setting"
    ensures forall k :: 0 <= k < |StoryParameters| ==> |StoryParameters[k].options| > 0
    ensures DistinctIds(StoryParameters)
  {
  }

  const StoryTitles: map<string, seq<string>> := map[
    "fantasy" := ["The Crystal Shard", "Whispers of the Ancient Forest", "The Dragon's Promise",
                  "Echoes of a Forgotten Realm", "The Sorcerer's Apprentice"],
    "scifi" := ["Beyond the Event Horizon", "Neural Drift", "The Last Quantum",
                "Starship Endeavor", "Signals from the Void"],
    "mystery" := ["The Vanishing at Blackwood Manor", "Secrets in the Attic", "The Missing Heirloom",
                  "Whispers in the Dark", "The Detective's Last Case"],
    "romance" := ["Love Under the Parisian Sky", "When Stars Align", "The Letter from Yesterday",
                  "Autumn's Embrace", "Chance Encounters"],
    "horror" := ["The Shadows Within", "Whispers in the Walls", "The Abandoned Lighthouse",
                 "Midnight Visitors", "The Thing in the Basement"],
    "adventure" := ["The Lost City of Gold", "Journey to the Center", "The Mountain's Secret",
                    "Explorers of the Unknown", "The Hidden Treasure Map"]
  ]

  /** Only three genres have their own beginnings. */
  const StoryBeginnings: map<string, seq<string>> := map[
    "fantasy" := [FantasyBeginning0, FantasyBeginning1, FantasyBeginning2],
    "scifi" := [ScifiBeginning0, ScifiBeginning1, ScifiBeginning2],
    "mystery" := [MysteryBeginning0, MysteryBeginning1, MysteryBeginning2]
  ]

  /** Only fantasy has middles. */
  const StoryMiddles: map<string, seq<string>> := map[
    "fantasy" := [FantasyMiddle0, FantasyMiddle1, FantasyMiddle2]
  ]

  /** Only fantasy has endings. */
  const StoryEndings: map<string, seq<string>> := map[
    "fantasy" := [FantasyEnding0, FantasyEnding1, FantasyEnding2]
  ]

  /** A table the `table[genre] || table.fantasy` lookup can always read from. */
  predicate WellFormedTable(t: map<string, seq<string>>)
  {
    "fantasy" in t && forall g :: g in t ==> |t[g]| > 0
  }

  lemma TablesWellFormed()
    ensures WellFormedTable(StoryTitles) && WellFormedTable(StoryBeginnings)
    ensures WellFormedTable(StoryMiddles) && WellFormedTable(StoryEndings)
  {
  }

  /**
   * `table[genre] || table.fantasy`: a genre with its own entry reads it,
   * any other genre reads the fantasy entry.
   */
  function Lookup(t: map<string, seq<string>>, genre: string): (entries: seq<string>)
    requires WellFormedTable(t)
    ensures |entries| > 0
    ensures entries in t.Values
  {
    if genre in t then t[genre] else t["fantasy"]
  }

  /** A draw of `Math.random()`. */
  predicate IsDraw(r: real)
  {
    0.0 <= r < 1.0
  }

  /** `Math.floor(r * length)` for a draw `r`: always an index of a non-empty table. */
  function Pick(r: real, length: nat): (i: nat)
    requires IsDraw(r) && length > 0
    ensures i < length
  {
    var x := r * length as real;
    assert 0.0 <= x < length as real by {
      assert (1.0 - r) * length as real > 0.0;
    }
    x.Floor
  }

  /** `generateTitle`: a title of the genre's list, or of the fantasy list. */
  function GenerateTitle(genre: string, r: real): (title: string)
    requires IsDraw(r)
    ensures genre in StoryTitles ==> title in StoryTitles[genre]
    ensures genre !in StoryTitles ==> title in StoryTitles["fantasy"]
  {
    TablesWellFormed();
    var titles := Lookup(StoryTitles, genre);
    titles[Pick(r, |titles|)]
  }

  /** `parameters.genre || 'fantasy'`: never empty, so a genre is always looked up. */
  function GenreOf(parameters: map<string, string>): (genre: string)
    ensures genre != ""
  {
    if "genre" in parameters && parameters["genre"] != "" then parameters["genre"] else "fantasy"
  }

  /** `parameters.length || 'medium'`: never empty. */
  function LengthOf(parameters: map<string, string>): (length: string)
    ensures length != ""
  {
    if "length" in parameters && parameters["length"] != "" then parameters["length"] else "medium"
  }

  /** Number of middle paragraphs for a length: one of 2, 4 and 7. */
  function ParagraphCount(length: string): (n: nat)
    ensures n in {2, 4, 7}
  {
    if length == "short" then 2 else if length == "medium" then 4 else 7
  }

  /** Short gives 2, medium or no length gives 4, any other length gives 7. */
  lemma ParagraphCountByLength(parameters: map<string, string>)
    ensures var n := ParagraphCount(LengthOf(parameters));
      ("length" !in parameters || parameters["length"] in {"", "medium"} ==> n == 4)
      && ("length" in parameters && parameters["length"] == "short" ==> n == 2)
      && ("length" in parameters && parameters["length"] !in {"", "short", "medium"} ==> n == 7)
  {
  }

  /** The separator written after the beginning and after every middle. */
  const ParagraphBreak: string := "\n\n"

  /** The story `generateStory` resolves to. */
  datatype Story = Story(title: string, content: string)

  /** The draws one call consumes: title, beginning, one per middle, ending. */
  predicate ValidDraws(parameters: map<string, string>, draws: seq<real>)
  {
    && |draws| == ParagraphCount(LengthOf(parameters)) + 3
    && forall k :: 0 <= k < |draws| ==> IsDraw(draws[k])
  }

  /** The entries a run of draws picks from a table. */
  function PickAll(entries: seq<string>, draws: seq<real>): (picked: seq<string>)
    requires |entries| > 0
    requires forall k :: 0 <= k < |draws| ==> IsDraw(draws[k])
  {
    seq(|draws|, k requires 0 <= k < |draws| => entries[Pick(draws[k], |entries|)])
  }

  /**
   * The story as a whole: the title of the genre, and the beginning, the
   * middles and the ending joined by blank lines.
   */
  function StoryOf(parameters: map<string, string>, draws: seq<real>): Story
    requires ValidDraws(parameters, draws)
  {
    TablesWellFormed();
    var genre := GenreOf(parameters);
    var n := ParagraphCount(LengthOf(parameters));
    var beginnings := Lookup(StoryBeginnings, genre);
    var middles := Lookup(StoryMiddles, genre);
    var endings := Lookup(StoryEndings, genre);
    Story(GenerateTitle(genre, draws[0]),
          Join([beginnings[Pick(draws[1], |beginnings|)]]
               + PickAll(middles, draws[2..2 + n])
               + [endings[Pick(draws[2 + n], |endings|)]], ParagraphBreak))
  }

  /** Each paragraph followed by a blank line, one after the other. */
  function Paragraphs(ps: seq<string>): string
    decreases |ps|
  {
    if ps == [] then "" else ps[0] + ParagraphBreak + Paragraphs(ps[1..])
  }

  /** One more paragraph adds that paragraph and a blank line at the end. */
  lemma {:induction false} ParagraphsSnoc(ps: seq<string>, x: string)
    ensures Paragraphs(ps + [x]) == Paragraphs(ps) + x + ParagraphBreak
    decreases |ps|
  {
    if ps == [] {
      assert ps + [x] == [x];
    } else {
      assert (ps + [x])[1..] == ps[1..] + [x];
      ParagraphsSnoc(ps[1..], x);
    }
  }

  /** Paragraphs each followed by a blank line, then a last one, are those paragraphs joined by blank lines. */
  lemma {:induction false} JoinAfterParagraphs(ps: seq<string>, last: string)
    ensures Join(ps + [last], ParagraphBreak) == Paragraphs(ps) + last
    decreases |ps|
  {
    if ps == [] {
      assert ps + [last] == [last];
    } else {
      assert (ps + [last])[1..] == ps[1..] + [last];
      JoinAfterParagraphs(ps[1..], last);
    }
  }

  /**
   * The layout of the content: the beginning and a blank line, each middle
   * and a blank line, then the ending, is the join of those paragraphs.
   */
  lemma StoryLayout(beginning: string, middles: seq<string>, ending: string)
    ensures Join([beginning] + middles + [ending], ParagraphBreak)
         == beginning + ParagraphBreak + Paragraphs(middles) + ending
  {
    assert [beginning] + middles + [ending] == [beginning] + (middles + [ending]);
    JoinAfterParagraphs([beginning] + middles, ending);
    assert Paragraphs([beginning] + middles) == beginning + ParagraphBreak + Paragraphs(middles) by {
      assert ([beginning] + middles)[1..] == middles;
    }
  }

  /**
   * The `for` loop of `generateStory`: per draw, the middle it picks and a
   * blank line are appended to the content.
   */
  method AppendMiddles(content: string, middles: seq<string>, draws: seq<real>) returns (result: string)
    requires |middles| > 0
    requires forall k :: 0 <= k < |draws| ==> IsDraw(draws[k])
    ensures result == content + Paragraphs(PickAll(middles, draws))
  {
    ghost var picked := PickAll(middles, draws);
    result := content;
    var i := 0;
    while i < |draws|
      invariant 0 <= i <= |draws|
      invariant result == content + Paragraphs(picked[..i])
    {
      var middle := middles[Pick(draws[i], |middles|)];
      assert picked[..i + 1] == picked[..i] + [middle];
      ParagraphsSnoc(picked[..i], middle);
      result := result + middle + ParagraphBreak;
      i := i + 1;
    }
    assert picked[..|draws|] == picked;
  }

  /**
   * `generateStory` after its delay: appends the beginning and a blank line,
   * then one middle and a blank line per paragraph, then the ending. The
   * prompt is accepted and not read.
   */
  method GenerateStory(parameters: map<string, string>, prompt: Option<string>, draws: seq<real>)
    returns (story: Story)
    requires ValidDraws(parameters, draws)
    ensures story == StoryOf(parameters, draws)
  {
    var genre := GenreOf(parameters);
    var title := GenerateTitle(genre, draws[0]);
    var content := "";
    assert WellFormedTable(StoryBeginnings) by { TablesWellFormed(); }
    var beginnings := Lookup(StoryBeginnings, genre);
    var beginning := beginnings[Pick(draws[1], |beginnings|)];
    content := content + beginning + ParagraphBreak;
    assert content == beginning + ParagraphBreak;
    var length := LengthOf(parameters);
    assert WellFormedTable(StoryMiddles) by { TablesWellFormed(); }
    var middles := Lookup(StoryMiddles, genre);
    var paragraphCount := ParagraphCount(length);
    content := AppendMiddles(content, middles, draws[2..2 + paragraphCount]);
    assert WellFormedTable(StoryEndings) by { TablesWellFormed(); }
    var endings := Lookup(StoryEndings, genre);
    var ending := endings[Pick(draws[2 + paragraphCount], |endings|)];
    content := content + ending;
    ghost var picked := PickAll(middles, draws[2..2 + paragraphCount]);
    StoryLayout(beginning, picked, ending);
    assert StoryOf(parameters, draws).content == Join([beginning] + picked + [ending], ParagraphBreak);
    story := Story(title, content);
  }

  // ---- Properties of the assembled story ----

  /** `s` begins with `prefix`. */
  predicate StartsWith(s: string, prefix: string)
  {
    |prefix| <= |s| && s[..|prefix|] == prefix
  }

  /** `s` ends with `suffix`. */
  predicate EndsWith(s: string, suffix: string)
  {
    |suffix| <= |s| && s[|s| - |suffix|..] == suffix
  }

  /** No entry of the list contains a line break. */
  predicate NoLineBreaks(entries: seq<string>)
  {
    forall k :: 0 <= k < |entries| ==> '\n' !in entries[k]
  }

  lemma NoLineBreakInTables()
    ensures NoLineBreaks(StoryBeginnings["fantasy"]) && NoLineBreaks(StoryBeginnings["scifi"])
    ensures NoLineBreaks(StoryBeginnings["mystery"])
    ensures NoLineBreaks(StoryMiddles["fantasy"]) && NoLineBreaks(StoryEndings["fantasy"])
  {
    NoLineBreakInFantasyBeginning0();
    NoLineBreakInFantasyBeginning1();
    NoLineBreakInFantasyBeginning2();
    NoLineBreakInScifiBeginning0();
    NoLineBreakInScifiBeginning1();
    NoLineBreakInScifiBeginning2();
    NoLineBreakInMysteryBeginning0();
    NoLineBreakInMysteryBeginning1();
    NoLineBreakInMysteryBeginning2();
    NoLineBreakInFantasyMiddle0();
    NoLineBreakInFantasyMiddle1();
    NoLineBreakInFantasyMiddle2();
    NoLineBreakInFantasyEnding0();
    NoLineBreakInFantasyEnding1();
    NoLineBreakInFantasyEnding2();
  }

  /** Whatever the genre, no paragraph the assembler can pick contains a line break. */
  lemma ParagraphTablesHaveNoLineBreaks(genre: string)
    ensures NoLineBreaks(Lookup(StoryBeginnings, genre))
    ensures NoLineBreaks(Lookup(StoryMiddles, genre))
    ensures NoLineBreaks(Lookup(StoryEndings, genre))
  {
    TablesWellFormed();
    NoLineBreakInTables();
  }

  /**
   * The fallback is decided table by table: every genre other than fantasy,
   * scifi and mystery starts with a fantasy beginning, every genre continues
   * and ends with fantasy middles and endings, and only unknown genres get
   * fantasy titles.
   */
  lemma FallbackPerTable(genre: string)
    ensures Lookup(StoryTitles, genre)
      == if genre in {"fantasy", "scifi", "mystery", "romance", "horror", "adventure"}
         then StoryTitles[genre] else StoryTitles["fantasy"]
    ensures Lookup(StoryBeginnings, genre)
      == if genre in {"scifi", "mystery"} then StoryBeginnings[genre] else StoryBeginnings["fantasy"]
    ensures Lookup(StoryMiddles, genre) == StoryMiddles["fantasy"]
    ensures Lookup(StoryEndings, genre) == StoryEndings["fantasy"]
  {
    TablesWellFormed();
  }

  /** The paragraphs the content is joined from, each from the genre's table and free of line breaks. */
  lemma StoryParts(parameters: map<string, string>, draws: seq<real>) returns (parts: seq<string>)
    requires ValidDraws(parameters, draws)
    ensures var genre := GenreOf(parameters);
      var n := ParagraphCount(LengthOf(parameters));
      && |parts| == n + 2
      && parts[0] in Lookup(StoryBeginnings, genre)
      && (forall k :: 1 <= k <= n ==> parts[k] in Lookup(StoryMiddles, genre))
      && parts[n + 1] in Lookup(StoryEndings, genre)
      && NoLineBreaks(parts)
      && StoryOf(parameters, draws).content == Join(parts, ParagraphBreak)
  {
    TablesWellFormed();
    var genre := GenreOf(parameters);
    var n := ParagraphCount(LengthOf(parameters));
    var beginnings := Lookup(StoryBeginnings, genre);
    var middles := Lookup(StoryMiddles, genre);
    var endings := Lookup(StoryEndings, genre);
    var picked := PickAll(middles, draws[2..2 + n]);
    var b := beginnings[Pick(draws[1], |beginnings|)];
    var e := endings[Pick(draws[2 + n], |endings|)];
    parts := [b] + picked + [e];
    ParagraphTablesHaveNoLineBreaks(genre);
    PartsFromTables(b, picked, e, beginnings, middles, endings);
  }

  /** Paragraphs drawn from line-free lists, placed one after the other, keep their origin and stay line-free. */
  lemma PartsFromTables(b: string, picked: seq<string>, e: string,
                        beginnings: seq<string>, middles: seq<string>, endings: seq<string>)
    requires b in beginnings && e in endings
    requires forall k :: 0 <= k < |picked| ==> picked[k] in middles
    requires NoLineBreaks(beginnings) && NoLineBreaks(middles) && NoLineBreaks(endings)
    ensures var parts := [b] + picked + [e];
      && (forall k :: 1 <= k <= |picked| ==> parts[k] in middles)
      && NoLineBreaks(parts)
  {
    var parts := [b] + picked + [e];
    forall k | 0 <= k < |parts| ensures (1 <= k <= |picked| ==> parts[k] in middles) && '\n' !in parts[k] {
      if 1 <= k <= |picked| {
        assert parts[k] == picked[k - 1];
      }
    }
  }

  /**
   * Splitting the content at blank lines gives exactly the beginning, the
   * `ParagraphCount` middles and the ending, each from the genre's table
   * (after fallback); joining them back gives the content.
   */
  lemma StoryParagraphs(parameters: map<string, string>, draws: seq<real>)
    requires ValidDraws(parameters, draws)
    ensures var genre := GenreOf(parameters);
      var n := ParagraphCount(LengthOf(parameters));
      var content := StoryOf(parameters, draws).content;
      var ps := Split(content, ParagraphBreak);
      && |ps| == n + 2
      && ps[0] in Lookup(StoryBeginnings, genre)
      && (forall k :: 1 <= k <= n ==> ps[k] in Lookup(StoryMiddles, genre))
      && ps[n + 1] in Lookup(StoryEndings, genre)
      && Join(ps, ParagraphBreak) == content
  {
    var parts := StoryParts(parameters, draws);
    assert ParagraphBreak[0] == '\n';
    SplitJoin(parts, ParagraphBreak);
  }

  /**
   * A beginning, paragraphs each followed by a blank line, and a non-empty
   * ending without line breaks: the text starts with the beginning, ends with
   * the ending, and does not end with a blank line.
   */
  lemma LayoutBoundaries(beginning: string, middles: seq<string>, ending: string)
    requires ending != [] && '\n' !in ending
    ensures var text := beginning + ParagraphBreak + Paragraphs(middles) + ending;
      StartsWith(text, beginning) && EndsWith(text, ending) && !EndsWith(text, ParagraphBreak)
  {
    var text := beginning + ParagraphBreak + Paragraphs(middles) + ending;
    assert text[..|beginning|] == beginning;
    assert text[|text| - |ending|..] == ending;
    assert text[|text| - 1] == ending[|ending| - 1];
    assert ending[|ending| - 1] in ending;
    assert ParagraphBreak[1] == '\n';
  }

  /**
   * The content starts with a beginning of the genre's table, ends with an
   * ending of it, and never ends with a blank line.
   */
  lemma StoryBoundaries(parameters: map<string, string>, draws: seq<real>)
    requires ValidDraws(parameters, draws)
    ensures var genre := GenreOf(parameters);
      var content := StoryOf(parameters, draws).content;
      && (exists k :: 0 <= k < |Lookup(StoryBeginnings, genre)|
                      && StartsWith(content, Lookup(StoryBeginnings, genre)[k]))
      && (exists k :: 0 <= k < |Lookup(StoryEndings, genre)|
                      && EndsWith(content, Lookup(StoryEndings, genre)[k]))
      && !EndsWith(content, ParagraphBreak)
  {
    TablesWellFormed();
    var genre := GenreOf(parameters);
    var n := ParagraphCount(LengthOf(parameters));
    var beginnings := Lookup(StoryBeginnings, genre);
    var endings := Lookup(StoryEndings, genre);
    var i := Pick(draws[1], |beginnings|);
    var j := Pick(draws[2 + n], |endings|);
    var picked := PickAll(Lookup(StoryMiddles, genre), draws[2..2 + n]);
    StoryLayout(beginnings[i], picked, endings[j]);
    ParagraphTablesHaveNoLineBreaks(genre);
    assert endings[j] != [] by {
      assert endings[j] in StoryEndings["fantasy"];
    }
    LayoutBoundaries(beginnings[i], picked, endings[j]);
  }

  /** The title is one of the genre's titles (after fallback). */
  lemma StoryTitleFromGenre(parameters: map<string, string>, draws: seq<real>)
    requires ValidDraws(parameters, draws)
    ensures StoryOf(parameters, draws).title in Lookup(StoryTitles, GenreOf(parameters))
  {
    TablesWellFormed();
  }

  /** Tone and setting do not reach the story: only genre and length are read. */
  lemma StoryIgnoresToneAndSetting(parameters: map<string, string>, draws: seq<real>, tone: string, setting: string)
    requires ValidDraws(parameters, draws)
    ensures ValidDraws(parameters["tone" := tone]["setting" := setting], draws)
    ensures StoryOf(parameters["tone" := tone]["setting" := setting], draws) == StoryOf(parameters, draws)
  {
    var other := parameters["tone" := tone]["setting" := setting];
    assert GenreOf(other) == GenreOf(parameters);
    assert LengthOf(other) == LengthOf(parameters);
  }
}
