/** The `TypeWriter` of the hero section: the target text appears one
    character per timeout. Only the state change a timeout performs is
    modelled; the timer itself is left to whoever calls `Step`. */
module TypeWriter {

  /** The two pieces of component state. */
  datatype State = State(currentText: string, currentIndex: nat)

  /** Both `useState` initial values: nothing typed, which is consistent
      with every target text. */
  function Init(): (s: State)
    ensures forall text: string :: Typed(text, s)
  {
    State("", 0)
  }

  /** What has been typed so far is exactly the first `currentIndex`
      characters of the target. */
  predicate Typed(text: string, s: State) {
    s.currentIndex <= |text| && s.currentText == text[..s.currentIndex]
  }

  /** One run of the effect: while characters remain, the timeout appends
      the next one and advances the index; otherwise nothing is scheduled. */
  function Step(text: string, s: State): (r: State)
    ensures Typed(text, s) ==> Typed(text, r)
    ensures Typed(text, s) && s.currentIndex < |text| ==> r.currentIndex == s.currentIndex + 1
    ensures s.currentIndex >= |text| ==> r == s
  {
    if s.currentIndex < |text| then
      State(s.currentText + [text[s.currentIndex]], s.currentIndex + 1)
    else
      s
  }

  /** The state after `n` timeouts have fired, starting from the initial
      state. */
  function After(text: string, n: nat): (s: State)
    ensures Typed(text, s)
    ensures s.currentIndex <= n
  {
    if n == 0 then Init() else Step(text, After(text, n - 1))
  }

  /** After `n` timeouts the first `min(n, |text|)` characters are shown. */
  lemma {:induction false} AfterShowsPrefix(text: string, n: nat)
    ensures var k := if n < |text| then n else |text|;
      After(text, n) == State(text[..k], k)
  {
    if n > 0 {
      AfterShowsPrefix(text, n - 1);
      var k := if n - 1 < |text| then n - 1 else |text|;
      if k < |text| {
        assert text[..k] + [text[k]] == text[..k + 1];
      }
    }
  }

  /** The displayed text is a prefix of the target at every moment. */
  lemma AfterIsPrefix(text: string, n: nat)
    ensures After(text, n).currentText <= text
    ensures Typed(text, After(text, n))
  {
    AfterShowsPrefix(text, n);
  }

  /** After `|text|` timeouts the whole text is shown and the effect stops
      scheduling: every later timeout leaves the state alone. */
  lemma AfterFinished(text: string, n: nat)
    requires n >= |text|
    ensures After(text, n).currentText == text
    ensures Step(text, After(text, n)) == After(text, n)
    ensures After(text, n) == After(text, |text|)
  {
    AfterShowsPrefix(text, n);
    AfterShowsPrefix(text, |text|);
  }

  /** Running the effect to completion: the number of timeouts fired and the
      final state. */
  method TypeOut(text: string) returns (s: State, steps: nat)
    ensures s.currentText == text && s.currentIndex == |text|
    ensures steps == |text|
    ensures Step(text, s) == s
  {
    s := Init();
    steps := 0;
    while s.currentIndex < |text|
      invariant Typed(text, s)
      invariant steps == s.currentIndex
      decreases |text| - s.currentIndex
    {
      s := Step(text, s);
      steps := steps + 1;
    }
  }

  /** The text the hero section types out, written in pieces only to keep
      the verifier's work on the constant small. */
  function HeroText(): string {
    "Software Engineer " + "& Open Source " + "Contributor"
  }

  /** The hero text is 43 characters, shown in full after 43 timeouts. */
  lemma HeroTyped()
    ensures |HeroText()| == 43
    ensures After(HeroText(), 43).currentText == HeroText()
  {
    AfterFinished(HeroText(), 43);
  }
}
