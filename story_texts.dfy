/**
 * The paragraph texts of the mock story assembler's beginning, middle and
 * ending tables, and the fact that none of them holds a line break.
 */
module StoryTexts {

  // Each paragraph text is a sum of short literals whose value is the
  // source's string. The line-break lemmas below look at one literal at a
  // time and then put the pieces together.

  const FantasyBeginning0: string :=
    "In a realm where magic flowed like "
    + "water through the streams, there lived "
    + "a young apprentice with an unusual gift."
  const FantasyBeginning1: string :=
    "The ancient prophecy spoke of a child "
    + "born under the twin moons, destined to "
    + "restore balance to the fractured "
    + "kingdom."
  const FantasyBeginning2: string :=
    "The dragon's egg lay hidden for "
    + "centuries, until a curious shepherd "
    + "stumbled upon its resting place deep "
    + "within the mountain cave."
  const ScifiBeginning0: string :=
    "The colony ship drifted silently "
    + "through the void, its inhabitants "
    + "unaware that they were no longer headed "
    + "toward their intended destination."
  const ScifiBeginning1: string :=
    "Dr. Eliza Chen stared at the readout in "
    + "disbelief. The quantum fluctuations "
    + "couldn't possibly be natural in origin."
  const ScifiBeginning2: string :=
    "When the first signal from deep space "
    + "arrived, humanity celebrated. When the "
    + "second signal came with instructions, "
    + "everything changed."
  const MysteryBeginning0: string :=
    "The old mansion stood at the end of the "
    + "lane, its windows like vacant eyes "
    + "staring out at the town that had all "
    + "but forgotten it existed."
  const MysteryBeginning1: string :=
    "Detective Morgan flipped through the "
    + "case file one more time, certain there "
    + "was something everyone else had missed."
  const MysteryBeginning2: string :=
    "The package arrived on Tuesday morning, "
    + "unmarked and unexpected. Inside was a "
    + "single key and a note that simply read: "
    + "\"Remember\"."
  const FantasyMiddle0: string :=
    "As the group ventured deeper into the "
    + "enchanted forest, the trees seemed to "
    + "whisper ancient secrets, their branches "
    + "reaching out like gnarled fingers."
  const FantasyMiddle1: string :=
    "The magical tome revealed its secrets "
    + "slowly, each page turning on its own as "
    + "if guided by an invisible hand."
  const FantasyMiddle2: string :=
    "The council of elders debated through "
    + "the night, unaware that their every "
    + "word was being listened to by forces "
    + "that sought to undermine the realm."
  const FantasyEnding0: string :=
    "And so, as the first light of dawn "
    + "broke over the mountains, the spell was "
    + "complete, and peace returned to the "
    + "land once more."
  const FantasyEnding1: string :=
    "Though many would tell the tale in "
    + "years to come, none would ever know the "
    + "true sacrifice that had been made to "
    + "save them all."
  const FantasyEnding2: string :=
    "The magical powers faded from the "
    + "world, but the memories of what had "
    + "transpired would live on in legend for "
    + "generations to come."


  lemma NoLineBreakInFantasyBeginning0Piece0() ensures '\n' !in "In a realm where magic flowed like " { }
  lemma NoLineBreakInFantasyBeginning0Piece1() ensures '\n' !in "water through the streams, there lived " { }
  lemma NoLineBreakInFantasyBeginning0Piece2() ensures '\n' !in "a young apprentice with an unusual gift." { }
  lemma NoLineBreakInFantasyBeginning0()
    ensures '\n' !in FantasyBeginning0
  {
    NoLineBreakInFantasyBeginning0Piece0();
    NoLineBreakInFantasyBeginning0Piece1();
    NoLineBreakInFantasyBeginning0Piece2();
  }

  lemma NoLineBreakInFantasyBeginning1Piece0() ensures '\n' !in "The ancient prophecy spoke of a child " { }
  lemma NoLineBreakInFantasyBeginning1Piece1() ensures '\n' !in "born under the twin moons, destined to " { }
  lemma NoLineBreakInFantasyBeginning1Piece2() ensures '\n' !in "restore balance to the fractured " { }
  lemma NoLineBreakInFantasyBeginning1Piece3() ensures '\n' !in "kingdom." { }
  lemma NoLineBreakInFantasyBeginning1()
    ensures '\n' !in FantasyBeginning1
  {
    NoLineBreakInFantasyBeginning1Piece0();
    NoLineBreakInFantasyBeginning1Piece1();
    NoLineBreakInFantasyBeginning1Piece2();
    NoLineBreakInFantasyBeginning1Piece3();
  }

  lemma NoLineBreakInFantasyBeginning2Piece0() ensures '\n' !in "The dragon's egg lay hidden for " { }
  lemma NoLineBreakInFantasyBeginning2Piece1() ensures '\n' !in "centuries, until a curious shepherd " { }
  lemma NoLineBreakInFantasyBeginning2Piece2() ensures '\n' !in "stumbled upon its resting place deep " { }
  lemma NoLineBreakInFantasyBeginning2Piece3() ensures '\n' !in "within the mountain cave." { }
  lemma NoLineBreakInFantasyBeginning2()
    ensures '\n' !in FantasyBeginning2
  {
    NoLineBreakInFantasyBeginning2Piece0();
    NoLineBreakInFantasyBeginning2Piece1();
    NoLineBreakInFantasyBeginning2Piece2();
    NoLineBreakInFantasyBeginning2Piece3();
  }

  lemma NoLineBreakInScifiBeginning0Piece0() ensures '\n' !in "The colony ship drifted silently " { }
  lemma NoLineBreakInScifiBeginning0Piece1() ensures '\n' !in "through the void, its inhabitants " { }
  lemma NoLineBreakInScifiBeginning0Piece2() ensures '\n' !in "unaware that they were no longer headed " { }
  lemma NoLineBreakInScifiBeginning0Piece3() ensures '\n' !in "toward their intended destination." { }
  lemma NoLineBreakInScifiBeginning0()
    ensures '\n' !in ScifiBeginning0
  {
    NoLineBreakInScifiBeginning0Piece0();
    NoLineBreakInScifiBeginning0Piece1();
    NoLineBreakInScifiBeginning0Piece2();
    NoLineBreakInScifiBeginning0Piece3();
  }

  lemma NoLineBreakInScifiBeginning1Piece0() ensures '\n' !in "Dr. Eliza Chen stared at the readout in " { }
  lemma NoLineBreakInScifiBeginning1Piece1() ensures '\n' !in "disbelief. The quantum fluctuations " { }
  lemma NoLineBreakInScifiBeginning1Piece2() ensures '\n' !in "couldn't possibly be natural in origin." { }
  lemma NoLineBreakInScifiBeginning1()
    ensures '\n' !in ScifiBeginning1
  {
    NoLineBreakInScifiBeginning1Piece0();
    NoLineBreakInScifiBeginning1Piece1();
    NoLineBreakInScifiBeginning1Piece2();
  }

  lemma NoLineBreakInScifiBeginning2Piece0() ensures '\n' !in "When the first signal from deep space " { }
  lemma NoLineBreakInScifiBeginning2Piece1() ensures '\n' !in "arrived, humanity celebrated. When the " { }
  lemma NoLineBreakInScifiBeginning2Piece2() ensures '\n' !in "second signal came with instructions, " { }
  lemma NoLineBreakInScifiBeginning2Piece3() ensures '\n' !in "everything changed." { }
  lemma NoLineBreakInScifiBeginning2()
    ensures '\n' !in ScifiBeginning2
  {
    NoLineBreakInScifiBeginning2Piece0();
    NoLineBreakInScifiBeginning2Piece1();
    NoLineBreakInScifiBeginning2Piece2();
    NoLineBreakInScifiBeginning2Piece3();
  }

  lemma NoLineBreakInMysteryBeginning0Piece0() ensures '\n' !in "The old mansion stood at the end of the " { }
  lemma NoLineBreakInMysteryBeginning0Piece1() ensures '\n' !in "lane, its windows like vacant eyes " { }
  lemma NoLineBreakInMysteryBeginning0Piece2() ensures '\n' !in "staring out at the town that had all " { }
  lemma NoLineBreakInMysteryBeginning0Piece3() ensures '\n' !in "but forgotten it existed." { }
  lemma NoLineBreakInMysteryBeginning0()
    ensures '\n' !in MysteryBeginning0
  {
    NoLineBreakInMysteryBeginning0Piece0();
    NoLineBreakInMysteryBeginning0Piece1();
    NoLineBreakInMysteryBeginning0Piece2();
    NoLineBreakInMysteryBeginning0Piece3();
  }

  lemma NoLineBreakInMysteryBeginning1Piece0() ensures '\n' !in "Detective Morgan flipped through the " { }
  lemma NoLineBreakInMysteryBeginning1Piece1() ensures '\n' !in "case file one more time, certain there " { }
  lemma NoLineBreakInMysteryBeginning1Piece2() ensures '\n' !in "was something everyone else had missed." { }
  lemma NoLineBreakInMysteryBeginning1()
    ensures '\n' !in MysteryBeginning1
  {
    NoLineBreakInMysteryBeginning1Piece0();
    NoLineBreakInMysteryBeginning1Piece1();
    NoLineBreakInMysteryBeginning1Piece2();
  }

  lemma NoLineBreakInMysteryBeginning2Piece0() ensures '\n' !in "The package arrived on Tuesday morning, " { }
  lemma NoLineBreakInMysteryBeginning2Piece1() ensures '\n' !in "unmarked and unexpected. Inside was a " { }
  lemma NoLineBreakInMysteryBeginning2Piece2() ensures '\n' !in "single key and a note that simply read: " { }
  lemma NoLineBreakInMysteryBeginning2Piece3() ensures '\n' !in "\"Remember\"." { }
  lemma NoLineBreakInMysteryBeginning2()
    ensures '\n' !in MysteryBeginning2
  {
    NoLineBreakInMysteryBeginning2Piece0();
    NoLineBreakInMysteryBeginning2Piece1();
    NoLineBreakInMysteryBeginning2Piece2();
    NoLineBreakInMysteryBeginning2Piece3();
  }

  lemma NoLineBreakInFantasyMiddle0Piece0() ensures '\n' !in "As the group ventured deeper into the " { }
  lemma NoLineBreakInFantasyMiddle0Piece1() ensures '\n' !in "enchanted forest, the trees seemed to " { }
  lemma NoLineBreakInFantasyMiddle0Piece2() ensures '\n' !in "whisper ancient secrets, their branches " { }
  lemma NoLineBreakInFantasyMiddle0Piece3() ensures '\n' !in "reaching out like gnarled fingers." { }
  lemma NoLineBreakInFantasyMiddle0()
    ensures '\n' !in FantasyMiddle0
  {
    NoLineBreakInFantasyMiddle0Piece0();
    NoLineBreakInFantasyMiddle0Piece1();
    NoLineBreakInFantasyMiddle0Piece2();
    NoLineBreakInFantasyMiddle0Piece3();
  }

  lemma NoLineBreakInFantasyMiddle1Piece0() ensures '\n' !in "The magical tome revealed its secrets " { }
  lemma NoLineBreakInFantasyMiddle1Piece1() ensures '\n' !in "slowly, each page turning on its own as " { }
  lemma NoLineBreakInFantasyMiddle1Piece2() ensures '\n' !in "if guided by an invisible hand." { }
  lemma NoLineBreakInFantasyMiddle1()
    ensures '\n' !in FantasyMiddle1
  {
    NoLineBreakInFantasyMiddle1Piece0();
    NoLineBreakInFantasyMiddle1Piece1();
    NoLineBreakInFantasyMiddle1Piece2();
  }

  lemma NoLineBreakInFantasyMiddle2Piece0() ensures '\n' !in "The council of elders debated through " { }
  lemma NoLineBreakInFantasyMiddle2Piece1() ensures '\n' !in "the night, unaware that their every " { }
  lemma NoLineBreakInFantasyMiddle2Piece2() ensures '\n' !in "word was being listened to by forces " { }
  lemma NoLineBreakInFantasyMiddle2Piece3() ensures '\n' !in "that sought to undermine the realm." { }
  lemma NoLineBreakInFantasyMiddle2()
    ensures '\n' !in FantasyMiddle2
  {
    NoLineBreakInFantasyMiddle2Piece0();
    NoLineBreakInFantasyMiddle2Piece1();
    NoLineBreakInFantasyMiddle2Piece2();
    NoLineBreakInFantasyMiddle2Piece3();
  }

  lemma NoLineBreakInFantasyEnding0Piece0() ensures '\n' !in "And so, as the first light of dawn " { }
  lemma NoLineBreakInFantasyEnding0Piece1() ensures '\n' !in "broke over the mountains, the spell was " { }
  lemma NoLineBreakInFantasyEnding0Piece2() ensures '\n' !in "complete, and peace returned to the " { }
  lemma NoLineBreakInFantasyEnding0Piece3() ensures '\n' !in "land once more." { }
  lemma NoLineBreakInFantasyEnding0()
    ensures '\n' !in FantasyEnding0
  {
    NoLineBreakInFantasyEnding0Piece0();
    NoLineBreakInFantasyEnding0Piece1();
    NoLineBreakInFantasyEnding0Piece2();
    NoLineBreakInFantasyEnding0Piece3();
  }

  lemma NoLineBreakInFantasyEnding1Piece0() ensures '\n' !in "Though many would tell the tale in " { }
  lemma NoLineBreakInFantasyEnding1Piece1() ensures '\n' !in "years to come, none would ever know the " { }
  lemma NoLineBreakInFantasyEnding1Piece2() ensures '\n' !in "true sacrifice that had been made to " { }
  lemma NoLineBreakInFantasyEnding1Piece3() ensures '\n' !in "save them all." { }
  lemma NoLineBreakInFantasyEnding1()
    ensures '\n' !in FantasyEnding1
  {
    NoLineBreakInFantasyEnding1Piece0();
    NoLineBreakInFantasyEnding1Piece1();
    NoLineBreakInFantasyEnding1Piece2();
    NoLineBreakInFantasyEnding1Piece3();
  }

  lemma NoLineBreakInFantasyEnding2Piece0() ensures '\n' !in "The magical powers faded from the " { }
  lemma NoLineBreakInFantasyEnding2Piece1() ensures '\n' !in "world, but the memories of what had " { }
  lemma NoLineBreakInFantasyEnding2Piece2() ensures '\n' !in "transpired would live on in legend for " { }
  lemma NoLineBreakInFantasyEnding2Piece3() ensures '\n' !in "generations to come." { }
  lemma NoLineBreakInFantasyEnding2()
    ensures '\n' !in FantasyEnding2
  {
    NoLineBreakInFantasyEnding2Piece0();
    NoLineBreakInFantasyEnding2Piece1();
    NoLineBreakInFantasyEnding2Piece2();
    NoLineBreakInFantasyEnding2Piece3();
  }
}
