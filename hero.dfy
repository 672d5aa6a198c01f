/**
 * The hero section's summary chips: a list of highlights is shown whole
 * when it is short, and otherwise as a random selection followed by an
 * "And more..." chip. The random order is a parameter: any permutation of
 * the highlights the shuffle may have produced.
 */
module Hero {
  import Typewriter

  /** One summary card: its sentence and its highlight chips. */
  datatype Summary = Summary(text: string, highlights: seq<string>)

  const DefaultMaxItems: int := 6
  const MoreLabel: string := "And more..."

  /** The texts the hero's typewriter cycles through. */
  const HeroTexts: seq<string> :=
    ["Augusto Polonio", "a Game Developer", "a Software Developer", "Augusto Polonio"]

  const WelcomeHighlights: seq<string> := ["Game Developer", "Software Engineer", "Problem Solver"]
  const GameHighlights: seq<string> :=
    ["Unity", "Godot", "C#", "GDScript", "Game Design", "Mobile Games"]
  const AppHighlights: seq<string> :=
    ["JavaScript", "TypeScript", "React", "Node.js", ".NET", "C#", "SQL Server",
     "Full Stack", "APIs", "CI/CD", "SOLID Principles", "Sencha ExtJS", "Cordova"]
  const TogetherHighlights: seq<string> := ["10+ Years Experience", "Full Stack", "Game Development"]

  /** The four summary cards, one per typewriter text. */
  const Summaries: seq<Summary> := [
    Summary("Welcome to my portfolio", WelcomeHighlights),
    Summary("Crafting immersive experiences", GameHighlights),
    Summary("Building robust applications for web and mobile", AppHighlights),
    Summary("Let's create something amazing together", TogetherHighlights)
  ]

  /** The end position `a.slice(0, end)` stops at in an array of length
      `len`: a negative end counts from the back, and both are clamped into
      `0..len`. */
  function SliceEnd(len: nat, end: int): (r: nat)
    ensures r <= len
    ensures 0 <= end <= len ==> r == end
    ensures end > len ==> r == len
    ensures end < 0 ==> r == if len + end < 0 then 0 else len + end
  {
    if end < 0 then (if len + end < 0 then 0 else len + end)
    else if end > len then len
    else end
  }

  /** A permutation has the length of the list it permutes. */
  lemma PermutationLength(highlights: seq<string>, shuffled: seq<string>)
    requires multiset(shuffled) == multiset(highlights)
    ensures |shuffled| == |highlights|
  {
    assert |shuffled| == |multiset(shuffled)|;
  }

  /** `getDisplayHighlights(highlights, maxItems)`, where `shuffled` is the
      order the random sort left the copy in. */
  function DisplayHighlights(highlights: seq<string>, shuffled: seq<string>, maxItems: int): (r: seq<string>)
    requires multiset(shuffled) == multiset(highlights)
    ensures |highlights| <= maxItems ==> r == highlights
    ensures |highlights| > maxItems ==>
      && |r| == SliceEnd(|highlights|, maxItems - 1) + 1
      && r[|r| - 1] == MoreLabel
      && (PermutationLength(highlights, shuffled); r[..|r| - 1] == shuffled[..|r| - 1])
  {
    PermutationLength(highlights, shuffled);
    if |highlights| <= maxItems then highlights
    else shuffled[..SliceEnd(|shuffled|, maxItems - 1)] + [MoreLabel]
  }

  /** A list longer than a positive `maxItems` shows exactly `maxItems`
      chips: `maxItems - 1` of its own and the "And more..." chip. */
  lemma TruncatedLength(highlights: seq<string>, shuffled: seq<string>, maxItems: int)
    requires multiset(shuffled) == multiset(highlights)
    requires 1 <= maxItems < |highlights|
    ensures |DisplayHighlights(highlights, shuffled, maxItems)| == maxItems
  {
  }

  /** With `maxItems` of zero or less the slice end counts from the back:
      all but `1 - maxItems` of the shuffled chips are kept. */
  lemma NonPositiveMax(highlights: seq<string>, shuffled: seq<string>, maxItems: int)
    requires multiset(shuffled) == multiset(highlights)
    requires maxItems <= 0 && 0 < |highlights|
    ensures var keep := |highlights| + maxItems - 1;
      |DisplayHighlights(highlights, shuffled, maxItems)| == (if keep < 0 then 0 else keep) + 1
  {
  }

  /** The chips in front of "And more..." are distinct positions of the
      input: taken together, a sub-multiset of the highlights. */
  lemma {:induction false} SelectionFromInput(highlights: seq<string>, shuffled: seq<string>, maxItems: int)
    requires multiset(shuffled) == multiset(highlights)
    requires |highlights| > maxItems
    ensures var r := DisplayHighlights(highlights, shuffled, maxItems);
      multiset(r[..|r| - 1]) <= multiset(highlights)
  {
    var r := DisplayHighlights(highlights, shuffled, maxItems);
    var n := |r| - 1;
    assert shuffled == shuffled[..n] + shuffled[n..];
    assert multiset(shuffled) == multiset(shuffled[..n]) + multiset(shuffled[n..]);
  }

  /** Every shown chip other than "And more..." is one of the highlights. */
  lemma ShownAreHighlights(highlights: seq<string>, shuffled: seq<string>, maxItems: int, k: nat)
    requires multiset(shuffled) == multiset(highlights)
    requires |highlights| > maxItems
    requires k + 1 < |DisplayHighlights(highlights, shuffled, maxItems)|
    ensures DisplayHighlights(highlights, shuffled, maxItems)[k] in highlights
  {
    var r := DisplayHighlights(highlights, shuffled, maxItems);
    assert r[k] == shuffled[k];
    assert shuffled[k] in multiset(shuffled);
  }

  /** Of the shipped summaries, only the third (thirteen highlights) is
      truncated at the default of six chips. */
  lemma OnlyThirdTruncated(k: nat, shuffled: seq<string>)
    requires k < |Summaries|
    requires multiset(shuffled) == multiset(Summaries[k].highlights)
    ensures DisplayHighlights(Summaries[k].highlights, shuffled, DefaultMaxItems) == Summaries[k].highlights
      <==> k != 2
  {
    var h := Summaries[k].highlights;
    assert |WelcomeHighlights| == 3 && |GameHighlights| == 6;
    assert |AppHighlights| == 13 && |TogetherHighlights| == 3;
    if k == 2 {
      assert |DisplayHighlights(h, shuffled, DefaultMaxItems)| == 6;
    }
  }

  /** There is one summary per typewriter text, so every index the
      typewriter announces selects a summary card. */
  lemma AnnouncedIndexSelectsSummary(t: Typewriter.TypewriterText)
    requires t.texts == HeroTexts && t.Ready()
    ensures forall k :: 0 <= k < |t.announced| ==> t.announced[k] < |Summaries|
  {
    assert |HeroTexts| == |Summaries| == 4;
  }
}
