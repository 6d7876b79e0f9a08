/** The card carousel shared by script.js, data_analysis.js and frontend/App.js: each card's
    class follows from its distance to the current card, counted modulo the number of cards. */
module Carousel {
  import opened Js

  datatype CardClass = Active | Next | Previous | Hidden

  /** The embed URL script.js and data_analysis.js give each card's iframe. */
  function EmbedUrl(id: string): (url: string)
    ensures |url| == |id| + 66 && url[37..37 + |id|] == id
  {
    "https://open.spotify.com/embed/track/" + id + "?utm_source=generator&theme=0"
  }

  /** `(index - current + n) % n`. */
  function Position(index: int, current: int, n: int): int
    requires n > 0
  {
    Remainder(index - current + n, n)
  }

  /** The class chain the three sources share: position 0 is active, 1 next, -1 or `n - 1`
      previous, anything else hidden. */
  function ClassAt(position: int, n: int): (c: CardClass)
    ensures c == Active <==> position == 0
    ensures c == Next <==> position == 1
    ensures n >= 3 && 0 <= position < n ==> (c == Previous <==> position == n - 1)
    ensures n == 2 && 0 <= position < n ==> c != Previous && c != Hidden
  {
    if position == 0 then Active
    else if position == 1 then Next
    else if position == -1 || position == n - 1 then Previous
    else Hidden
  }

  /** The classes of all `n` cards when `current` is the current index. */
  function Classes(current: int, n: int): (classes: seq<CardClass>)
    requires n > 0
    ensures |classes| == n
  {
    seq(n, i requires 0 <= i < n => ClassAt(Position(i, current, n), n))
  }

  /** The classes cards are created with: 0 previous, 1 active, 2 next, the rest hidden. */
  function InitialClass(index: int): CardClass
  {
    if index == 0 then Previous else if index == 1 then Active else if index == 2 then Next else Hidden
  }

  function InitialClasses(n: nat): (classes: seq<CardClass>)
    ensures |classes| == n
  {
    seq(n, i requires 0 <= i < n => InitialClass(i))
  }

  /** `p % n` for `0 <= p < 3n`. */
  lemma ModSmall(p: int, n: int)
    requires n > 0 && 0 <= p < 3 * n
    ensures p % n == if p < n then p else if p < 2 * n then p - n else p - 2 * n
  {
    if p < n {
      ModOf(p, n, 0, p);
    } else if p < 2 * n {
      ModOf(p, n, 1, p - n);
    } else {
      ModOf(p, n, 2, p - 2 * n);
    }
  }

  /** `p % n` is the remainder of any decomposition `q * n + r` with `0 <= r < n`. */
  lemma ModOf(p: int, n: int, q: int, r: int)
    requires n > 0 && p == q * n + r && 0 <= r < n
    ensures p % n == r
  {
    var d := p / n - q;
    assert d * n == r - p % n;
  }

  /** With both indices in range the position is the forward distance from the current card
      to the card, in `[0, n)`: the `-1` test is dead. */
  lemma PositionInRange(index: int, current: int, n: int)
    requires 0 <= index < n && 0 <= current < n
    ensures Position(index, current, n) == if index >= current then index - current else index - current + n
  {
    ModSmall(index - current + n, n);
  }

  /** The card at the current index is the only active card. */
  lemma ExactlyOneActive(current: int, n: int)
    requires 0 <= current < n
    ensures forall i :: 0 <= i < n ==> (Classes(current, n)[i] == Active <==> i == current)
  {
    forall i | 0 <= i < n
      ensures Classes(current, n)[i] == Active <==> i == current
    {
      PositionInRange(i, current, n);
    }
  }

  /** The index one card further, and one card back. */
  function Following(current: int, n: int): int
  {
    if current + 1 < n then current + 1 else 0
  }

  function Preceding(current: int, n: int): int
  {
    if current >= 1 then current - 1 else n - 1
  }

  /** The neighbours: the card after the current one is next and, from three cards on, the
      card before it is previous and every other card hidden. With two cards the other card
      is next, never previous. */
  lemma Neighbours(current: int, n: int)
    requires 0 <= current < n
    ensures n >= 2 ==> Classes(current, n)[Following(current, n)] == Next
    ensures n >= 3 ==> Classes(current, n)[Preceding(current, n)] == Previous
    ensures n >= 3 ==> forall i :: 0 <= i < n && i != current && i != Following(current, n) && i != Preceding(current, n)
                          ==> Classes(current, n)[i] == Hidden
    ensures n == 2 ==> Classes(current, n)[1 - current] == Next
  {
    if n >= 2 {
      PositionInRange(Following(current, n), current, n);
    }
    if n == 2 {
      PositionInRange(1 - current, current, n);
    }
    if n >= 3 {
      PositionInRange(Preceding(current, n), current, n);
      forall i | 0 <= i < n && i != current && i != Following(current, n) && i != Preceding(current, n)
        ensures Classes(current, n)[i] == Hidden
      {
        PositionInRange(i, current, n);
      }
    }
  }

  /** From three cards on, the creation classes are the classes of current index 1; with one
      or two cards they are not: the single card starts out previous, and of two cards the
      first starts out previous where the chain makes it next. */
  lemma InitialClassesMatchIndexOne(n: nat)
    ensures n >= 3 ==> InitialClasses(n) == Classes(1, n)
    ensures n == 1 ==> InitialClasses(n) == [Previous] && Classes(1, n) == [Active]
    ensures n == 2 ==> InitialClasses(n) == [Previous, Active] && Classes(1, n) == [Next, Active]
  {
    if n >= 3 {
      forall i | 0 <= i < n
        ensures InitialClasses(n)[i] == Classes(1, n)[i]
      {
        PositionInRange(i, 1, n);
      }
    } else if n == 2 {
      PositionInRange(0, 1, 2);
      PositionInRange(1, 1, 2);
    } else if n == 1 {
      assert Position(0, 1, 1) == 0;
    }
  }

  /** `(current + direction + n) % n` for a step of one card either way: in range whenever the
      dividend is not negative, no wrap while the target is in range, and wrap-around at both
      ends. */
  function Step(current: int, direction: int, n: int): (next: int)
    requires n > 0
    ensures current + direction + n >= 0 ==> 0 <= next < n
    ensures 0 <= current + direction < n ==> next == current + direction
    ensures current + direction == n ==> next == 0
    ensures current + direction == -1 ==> next == n - 1
  {
    var p := current + direction + n;
    if 0 <= p < 3 * n then ModSmall(p, n); Remainder(p, n) else Remainder(p, n)
  }

  /** A step forward goes to the following card and a step back to the preceding one, so the
      index stays in range and either step undoes the other. */
  lemma StepInverse(current: int, n: int)
    requires 0 <= current < n
    ensures Step(current, 1, n) == Following(current, n)
    ensures Step(current, -1, n) == Preceding(current, n)
    ensures Step(Step(current, 1, n), -1, n) == current
    ensures Step(Step(current, -1, n), 1, n) == current
  {
    ModSmall(current + 1 + n, n);
    ModSmall(current - 1 + n, n);
    var f := Following(current, n);
    var p := Preceding(current, n);
    ModSmall(f - 1 + n, n);
    ModSmall(p + 1 + n, n);
  }
}
