/**
 * The typewriter effect: it types a text one character at a time, pauses,
 * deletes it one character at a time and moves on to the next text,
 * cyclically. Timers are left out: each call of `Step` is one transition
 * the effect schedules.
 */
module Typewriter {

  /** The four state variables: `currentTextIndex`, `currentText`,
      `isDeleting`, `isPaused`. */
  datatype Cursor = Cursor(index: nat, text: string, deleting: bool, paused: bool)

  /** The state the component starts in. */
  const Start: Cursor := Cursor(0, "", false, false)

  /** `s.substring(0, end)`: the end is clamped into `0..|s|`. */
  function Prefix(s: string, end: int): (r: string)
    ensures |r| == if end < 0 then 0 else if end > |s| then |s| else end
    ensures r == s[..|r|]
  {
    if end < 0 then [] else if end > |s| then s else s[..end]
  }

  /** The index names a text and the shown text is a prefix of it. */
  predicate Valid(texts: seq<string>, c: Cursor) {
    c.index < |texts| && |c.text| <= |texts[c.index]| && c.text == texts[c.index][..|c.text|]
  }

  /** One transition of the effect, in its order of priority: a pause ends
      in deleting; a fully typed text pauses; a fully deleted text moves on
      to the next index, cyclically; otherwise one character is typed or
      deleted. */
  function Next(texts: seq<string>, c: Cursor): (r: Cursor)
    requires c.index < |texts|
    ensures r.index == c.index || r.index == (c.index + 1) % |texts|
    ensures r.index != c.index ==> r.text == "" && !r.deleting && !r.paused
    ensures c.paused ==> r.deleting && !r.paused && r.text == c.text
  {
    var full := texts[c.index];
    if c.paused then c.(paused := false, deleting := true)
    else if !c.deleting && c.text == full then c.(paused := true)
    else if c.deleting && c.text == "" then c.(deleting := false, index := (c.index + 1) % |texts|)
    else if c.deleting then c.(text := Prefix(full, |c.text| - 1))
    else c.(text := Prefix(full, |c.text| + 1))
  }

  /** `onTextChange(currentTextIndex)`'s condition: typing has completed the
      current text. */
  predicate Complete(texts: seq<string>, c: Cursor)
    requires c.index < |texts|
  {
    !c.deleting && c.text == texts[c.index]
  }

  /** The callback's effect re-runs when the index, the text or the
      deleting flag changed, and then fires if the text is complete. */
  predicate Fires(texts: seq<string>, before: Cursor, after: Cursor)
    requires after.index < |texts|
  {
    (before.index, before.text, before.deleting) != (after.index, after.text, after.deleting)
    && Complete(texts, after)
  }

  /** `k` transitions from `c`. */
  function Run(texts: seq<string>, c: Cursor, k: nat): (r: Cursor)
    requires Valid(texts, c)
    ensures Valid(texts, r)
    decreases k
  {
    if k == 0 then c
    else
      NextValid(texts, c);
      Run(texts, Next(texts, c), k - 1)
  }

  // ---------------------------------------------------------------------
  // Lemmas
  // ---------------------------------------------------------------------

  lemma StartValid(texts: seq<string>)
    requires |texts| > 0
    ensures Valid(texts, Start)
  {
  }

  /** Every transition keeps the index in range and the text a prefix of
      the current text. */
  lemma NextValid(texts: seq<string>, c: Cursor)
    requires Valid(texts, c)
    ensures Valid(texts, Next(texts, c))
  {
  }

  /** The index changes only when a deleted text moves on, and then to the
      next index modulo the number of texts. */
  lemma IndexAdvance(texts: seq<string>, c: Cursor)
    requires Valid(texts, c)
    ensures Next(texts, c).index != c.index ==>
      && !c.paused && c.deleting && c.text == ""
      && Next(texts, c).index == (c.index + 1) % |texts|
    ensures !c.paused && c.deleting && c.text == "" ==>
      Next(texts, c) == Cursor((c.index + 1) % |texts|, "", false, false)
  {
  }

  /** A pause always ends in deleting, and a fully typed text always
      pauses. */
  lemma PauseThenDelete(texts: seq<string>, c: Cursor)
    requires Valid(texts, c)
    ensures c.paused ==> !Next(texts, c).paused && Next(texts, c).deleting && Next(texts, c).text == c.text
    ensures !c.paused && Complete(texts, c) ==> Next(texts, c) == c.(paused := true)
  {
  }

  /** Each character step adds or removes exactly one character. */
  lemma OneCharacter(texts: seq<string>, c: Cursor)
    requires Valid(texts, c) && !c.paused
    ensures !c.deleting && c.text != texts[c.index] ==>
      Next(texts, c).text == texts[c.index][..|c.text| + 1] && Next(texts, c).index == c.index
    ensures c.deleting && c.text != "" ==>
      Next(texts, c).text == c.text[..|c.text| - 1] && Next(texts, c).index == c.index
  {
    var full := texts[c.index];
    assert full[..|full|] == full;
  }

  /** The callback fires only when a transition completes a text: either
      typing its last character, or moving on to a next text that is empty.
      It never fires on ending a pause or on starting to pause. */
  lemma FiresWhenComplete(texts: seq<string>, c: Cursor)
    requires Valid(texts, c)
    ensures Fires(texts, c, Next(texts, c)) ==>
      && !Next(texts, c).deleting && Next(texts, c).text == texts[Next(texts, c).index]
      && !c.paused
      && (c.deleting ==> c.text == "" && texts[(c.index + 1) % |texts|] == "")
    ensures !c.paused && !c.deleting && |c.text| + 1 == |texts[c.index]| ==>
      Fires(texts, c, Next(texts, c))
  {
    NextValid(texts, c);
    assert texts[c.index][..|texts[c.index]|] == texts[c.index];
  }

  /** Typing `k` more characters of a text not yet complete. */
  lemma {:induction false} TypeOut(texts: seq<string>, i: nat, j: nat, k: nat)
    requires i < |texts| && j + k <= |texts[i]|
    ensures Run(texts, Cursor(i, texts[i][..j], false, false), k) == Cursor(i, texts[i][..j + k], false, false)
    decreases k
  {
    if k > 0 {
      var c := Cursor(i, texts[i][..j], false, false);
      assert c.text != texts[i] by {
        assert |c.text| == j < |texts[i]|;
      }
      assert Next(texts, c) == Cursor(i, texts[i][..j + 1], false, false);
      TypeOut(texts, i, j + 1, k - 1);
    }
  }

  /** Deleting `k` characters of a shown prefix. */
  lemma {:induction false} RubOut(texts: seq<string>, i: nat, j: nat, k: nat)
    requires i < |texts| && k <= j <= |texts[i]|
    ensures Run(texts, Cursor(i, texts[i][..j], true, false), k) == Cursor(i, texts[i][..j - k], true, false)
    decreases k
  {
    if k > 0 {
      var c := Cursor(i, texts[i][..j], true, false);
      assert c.text != "" by {
        assert |c.text| == j > 0;
      }
      assert Next(texts, c) == Cursor(i, texts[i][..j - 1], true, false);
      RubOut(texts, i, j - 1, k - 1);
    }
  }

  /** `k + m` transitions are `k` transitions followed by `m`. */
  lemma {:induction false} RunAdd(texts: seq<string>, c: Cursor, k: nat, m: nat)
    requires Valid(texts, c)
    ensures Run(texts, c, k + m) == Run(texts, Run(texts, c, k), m)
    decreases k
  {
    if k > 0 {
      NextValid(texts, c);
      RunAdd(texts, Next(texts, c), k - 1, m);
    }
  }

  /** A whole cycle: from an empty display of text `i`, `n` typing steps,
      the pause, the switch to deleting, `n` deleting steps and the advance
      (`2n + 3` transitions for a text of length `n`) reach an empty display
      of the next text. */
  lemma Cycle(texts: seq<string>, i: nat)
    requires i < |texts|
    ensures var n := |texts[i]|;
      Run(texts, Cursor(i, "", false, false), 2 * n + 3) == Cursor((i + 1) % |texts|, "", false, false)
  {
    var n := |texts[i]|;
    var c0 := Cursor(i, "", false, false);
    TypeAndPause(texts, i);
    DeleteAndAdvance(texts, i);
    RunAdd(texts, c0, n + 2, n + 1);
  }

  /** Typing a whole text, pausing and switching to deleting take `n + 2`
      transitions. */
  lemma TypeAndPause(texts: seq<string>, i: nat)
    requires i < |texts|
    ensures Run(texts, Cursor(i, "", false, false), |texts[i]| + 2) == Cursor(i, texts[i], true, false)
  {
    var full := texts[i];
    var n := |full|;
    var c0 := Cursor(i, "", false, false);
    assert full[..0] == "" && full[..n] == full;
    TypeOut(texts, i, 0, n);
    var typed := Cursor(i, full, false, false);
    var paused := Cursor(i, full, false, true);
    var deleting := Cursor(i, full, true, false);
    assert Next(texts, typed) == paused;
    assert Next(texts, paused) == deleting;
    assert Run(texts, typed, 2) == deleting by {
      assert Run(texts, paused, 1) == Run(texts, deleting, 0);
    }
    RunAdd(texts, c0, n, 2);
  }

  /** Deleting a whole text and moving on take `n + 1` transitions. */
  lemma DeleteAndAdvance(texts: seq<string>, i: nat)
    requires i < |texts|
    ensures Run(texts, Cursor(i, texts[i], true, false), |texts[i]| + 1) == Cursor((i + 1) % |texts|, "", false, false)
  {
    var full := texts[i];
    var n := |full|;
    var deleting := Cursor(i, full, true, false);
    var empty := Cursor(i, "", true, false);
    assert full[..0] == "" && full[..n] == full;
    RubOut(texts, i, n, n);
    assert Run(texts, empty, 1) == Cursor((i + 1) % |texts|, "", false, false) by {
      assert Next(texts, empty) == Cursor((i + 1) % |texts|, "", false, false);
    }
    RunAdd(texts, deleting, n, 1);
  }

  // ---------------------------------------------------------------------
  // The component
  // ---------------------------------------------------------------------

  /** The component's state variables and the indices passed to its
      `onTextChange` callback so far. */
  class TypewriterText {
    const texts: seq<string>
    var index: nat
    var text: string
    var deleting: bool
    var paused: bool
    var announced: seq<nat>

    function State(): Cursor
      reads this
    {
      Cursor(index, text, deleting, paused)
    }

    /** The state is valid and every announced index names a text. */
    ghost predicate Ready()
      reads this
    {
      && Valid(texts, State())
      && forall k :: 0 <= k < |announced| ==> announced[k] < |texts|
    }

    /** Mounting runs the callback's effect once: it fires when the first
        text is empty. */
    constructor(texts: seq<string>)
      requires |texts| > 0
      ensures this.texts == texts && State() == Start && Ready()
      ensures announced == if texts[0] == "" then [0] else []
    {
      this.texts := texts;
      index, text, deleting, paused := 0, "", false, false;
      announced := if texts[0] == "" then [0] else [];
    }

    /** One transition, then the callback's effect. */
    method Step()
      requires Ready()
      modifies this
      ensures Ready()
      ensures State() == Next(texts, old(State()))
      ensures announced == old(announced) + (if Fires(texts, old(State()), State()) then [index] else [])
    {
      var i0, t0, d0 := index, text, deleting;
      NextValid(texts, State());
      var full := texts[index];
      if paused {
        paused := false;
        deleting := true;
      } else if !deleting && text == full {
        paused := true;
      } else if deleting && text == "" {
        deleting := false;
        index := (index + 1) % |texts|;
      } else if deleting {
        text := Prefix(full, |text| - 1);
      } else {
        text := Prefix(full, |text| + 1);
      }
      if (i0, t0, d0) != (index, text, deleting)
        && !deleting && text == texts[index]
      {
        announced := announced + [index];
      }
    }
  }
}
