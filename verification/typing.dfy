/** The typing animation of `HeroSection`: an interval that reveals one more
    character of the title per tick, then clears itself. Ticks are explicit
    steps; the 50 ms period is not modelled. */
module Typing {

  const FullText := "Welcome to Liora \U{2014} Your AI Career & Skills Advisor"

  /** The closure's `currentIndex`, the component's `displayText`, and whether the interval still runs. */
  datatype Animation = Animation(index: nat, display: string, running: bool)

  const Start := Animation(0, "", true)

  /** One interval callback. */
  function Tick(text: string, a: Animation): Animation {
    if !a.running then a
    else if a.index <= |text| then Animation(a.index + 1, text[..a.index], true)
    else a.(running := false)
  }

  /** Unmounting clears the interval. */
  function Unmount(a: Animation): Animation {
    a.(running := false)
  }

  function Ticks(text: string, a: Animation, n: nat): Animation
    decreases n
  {
    if n == 0 then a else Ticks(text, Tick(text, a), n - 1)
  }

  /** What holds between ticks: the display is the text up to the previous
      index, and a cleared interval has shown the whole text. */
  ghost predicate Shows(text: string, a: Animation) {
    && a.index <= |text| + 1
    && a.display == (if a.index == 0 then "" else text[..a.index - 1])
    && (a.running || a.index == |text| + 1)
  }

  /** Every tick keeps the display a prefix of the text; an updating tick
      advances the index by one and lengthens the display by one. */
  lemma TickShows(text: string, a: Animation)
    requires Shows(text, a)
    ensures Shows(text, Tick(text, a))
    ensures Tick(text, a).display <= text
    ensures Tick(text, a).index != a.index ==>
      Tick(text, a).index == a.index + 1 && (a.index == 0 || |Tick(text, a).display| == |a.display| + 1)
  {
  }

  /** Before the interval is cleared, tick `n` has shown the first `n - 1` characters. */
  lemma {:induction false} TicksFromStart(text: string, n: nat)
    requires n <= |text| + 1
    ensures Ticks(text, Start, n) == Animation(n, if n == 0 then "" else text[..n - 1], true)
  {
    if n > 0 {
      TicksFromStart(text, n - 1);
      TicksSplit(text, Start, n - 1);
    }
  }

  lemma {:induction false} TicksSplit(text: string, a: Animation, n: nat)
    ensures Ticks(text, a, n + 1) == Tick(text, Ticks(text, a, n))
    decreases n
  {
    if n > 0 {
      TicksSplit(text, Tick(text, a), n - 1);
    }
  }

  /** After `|text| + 2` ticks the interval is cleared with the whole text
      shown, and every later tick changes nothing. */
  lemma Finishes(text: string, m: nat)
    ensures Ticks(text, Start, |text| + 2 + m) == Animation(|text| + 1, text, false)
  {
    TicksFromStart(text, |text| + 1);
    assert text[..|text|] == text;
    TicksSplit(text, Start, |text| + 1);
    FinishedStays(text, Ticks(text, Start, |text| + 2), m);
    TicksAdd(text, Start, |text| + 2, m);
  }

  lemma {:induction false} FinishedStays(text: string, a: Animation, m: nat)
    requires !a.running
    ensures Ticks(text, a, m) == a
    decreases m
  {
    if m > 0 {
      FinishedStays(text, Tick(text, a), m - 1);
    }
  }

  lemma {:induction false} TicksAdd(text: string, a: Animation, n: nat, m: nat)
    ensures Ticks(text, a, n + m) == Ticks(text, Ticks(text, a, n), m)
    decreases n
  {
    if n > 0 {
      TicksAdd(text, Tick(text, a), n - 1, m);
    }
  }

  /** After the component unmounts, no tick changes what is displayed. */
  lemma UnmountFreezes(text: string, a: Animation, m: nat)
    ensures Ticks(text, Unmount(a), m) == Unmount(a)
    ensures Ticks(text, Unmount(a), m).display == a.display
  {
    FinishedStays(text, Unmount(a), m);
  }

  /** Runs the interval until it clears itself, counting the ticks that
      updated the display. */
  method Animate(text: string) returns (updates: nat, shown: string)
    ensures updates == |text| + 1
    ensures shown == text
  {
    var a := Start;
    updates := 0;
    while a.running
      invariant Shows(text, a)
      invariant updates == a.index
      decreases |text| + 1 - a.index + (if a.running then 1 else 0)
    {
      var next := Tick(text, a);
      if next.index != a.index {
        updates := updates + 1;
      }
      a := next;
    }
    assert text[..|text|] == text;
    shown := a.display;
  }

  /** The hero title is 50 characters long; it is fully shown once the
      interval clears itself, after 51 updating ticks and one final tick. */
  lemma HeroTitle()
    ensures |FullText| == 50
    ensures Ticks(FullText, Start, |FullText| + 2) == Animation(|FullText| + 1, FullText, false)
  {
    Finishes(FullText, 0);
  }
}
