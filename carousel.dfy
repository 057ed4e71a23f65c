/** The suggestion carousel (src/components/Carousel.tsx): four command cards, one
    shown at a time, moved by the arrows, by the dots and by a periodic tick. */
module CarouselModel {
  import opened Types

  datatype CarouselCard = CarouselCard(
    id: string, title: string, description: string, command: string, icon: string, color: string)

  const CAROUSEL_CARDS: seq<CarouselCard> := [
    CarouselCard("1", "Open WhatsApp", "Launch WhatsApp instantly", "Open WhatsApp",
                 "MessageCircle", "from-green-400 to-emerald-600"),
    CarouselCard("2", "YouTube Search", "Search for any video", "Search YouTube for cats",
                 "Youtube", "from-red-400 to-pink-600"),
    CarouselCard("3", "System Control", "Control device functions", "Turn on flashlight",
                 "Zap", "from-yellow-400 to-orange-600"),
    CarouselCard("4", "Voice Commands", "Talk naturally to BarbraAI", "What can you do?",
                 "Volume2", "from-purple-400 to-indigo-600")
  ]

  /** JavaScript's `%`: the remainder takes the sign of the dividend. */
  function JsRemainder(a: int, n: int): (r: int)
    requires n > 0
    ensures -n < r < n
    ensures a >= 0 ==> r == a % n
    ensures a < 0 ==> r <= 0
    ensures (a - r) % n == 0
  {
    if a >= 0 then RemainderLeavesMultiple(a, n); a % n
    else RemainderLeavesMultiple(-a, n); -((-a) % n)
  }

  /** Taking away the remainder of a natural number leaves a multiple of the divisor,
      and so does its negation. */
  lemma RemainderLeavesMultiple(m: int, n: int)
    requires m >= 0 && n > 0
    ensures (m - m % n) % n == 0
    ensures (-m + m % n) % n == 0
  {
    var k := m / n;
    var x := m - m % n;
    assert x == n * k;
    var q := x / n;
    assert n * (k - q) == x % n;
    SmallMultipleIsZero(n, k - q);
    var y := -m + m % n;
    assert y == n * -k;
    var p := y / n;
    assert n * (-k - p) == y % n;
    SmallMultipleIsZero(n, -k - p);
  }

  /** The only multiple of a positive number that lies below it and is not negative is 0. */
  lemma SmallMultipleIsZero(n: int, d: int)
    requires n > 0
    ensures 0 <= n * d < n ==> d == 0
  {
    if d >= 1 {
      assert n * d == n + n * (d - 1);
    } else if d <= -1 {
      assert n * d == -n + n * (d + 1);
    }
  }

  /** `(prev + 1) % CAROUSEL_CARDS.length`. */
  function NextIndex(i: int): int
  {
    JsRemainder(i + 1, |CAROUSEL_CARDS|)
  }

  /** `(prev - 1 + CAROUSEL_CARDS.length) % CAROUSEL_CARDS.length`. */
  function PrevIndex(i: int): int
  {
    JsRemainder(i - 1 + |CAROUSEL_CARDS|, |CAROUSEL_CARDS|)
  }

  predicate ValidIndex(i: int)
  {
    0 <= i < |CAROUSEL_CARDS|
  }

  /** `CAROUSEL_CARDS.map(...)`: the card at the current index is rendered, every other
      position renders `null`. */
  function Render(current: int): (r: seq<Option<CarouselCard>>)
    ensures |r| == |CAROUSEL_CARDS|
    ensures forall k :: 0 <= k < |r| ==> (r[k].Some? <==> k == current)
    ensures forall k :: 0 <= k < |r| && r[k].Some? ==> r[k].value == CAROUSEL_CARDS[k]
  {
    seq(|CAROUSEL_CARDS|, k requires 0 <= k < |CAROUSEL_CARDS| =>
      if k == current then Some(CAROUSEL_CARDS[k]) else None)
  }

  /** The cards actually shown: the non-null entries of the render, in order. */
  function Shown(r: seq<Option<CarouselCard>>): (cards: seq<CarouselCard>)
    ensures |cards| <= |r|
    ensures forall c :: c in cards ==> exists k :: 0 <= k < |r| && r[k] == Some(c)
  {
    if r == [] then [] else Present(r[0]) + Shown(r[1..])
  }

  function Present(o: Option<CarouselCard>): seq<CarouselCard>
  {
    if o.Some? then [o.value] else []
  }

  class Carousel {
    var currentIndex: int

    predicate Valid()
      reads this
    {
      ValidIndex(currentIndex)
    }

    /** The first render shows the first card. */
    constructor ()
      ensures currentIndex == 0 && Valid()
    {
      currentIndex := 0;
    }

    /** The right arrow. */
    method NextCard()
      requires Valid()
      modifies this
      ensures currentIndex == NextIndex(old(currentIndex)) && Valid()
    {
      currentIndex := NextIndex(currentIndex);
    }

    /** The left arrow. */
    method PrevCard()
      requires Valid()
      modifies this
      ensures currentIndex == PrevIndex(old(currentIndex)) && Valid()
    {
      currentIndex := PrevIndex(currentIndex);
    }

    /** One firing of the interval timer: the same step as the right arrow. */
    method Tick()
      requires Valid()
      modifies this
      ensures currentIndex == NextIndex(old(currentIndex)) && Valid()
    {
      currentIndex := NextIndex(currentIndex);
    }

    /** The dot at position `index`. */
    method SelectDot(index: int)
      requires ValidIndex(index)
      modifies this
      ensures currentIndex == index && Valid() && DotHighlighted(index)
    {
      currentIndex := index;
    }

    /** Clicking the shown card hands its command to `onCommandSelect`. */
    method ClickActiveCard() returns (command: string)
      requires Valid()
      ensures Shown(Render(currentIndex)) == [CAROUSEL_CARDS[currentIndex]]
      ensures command == CAROUSEL_CARDS[currentIndex].command
    {
      ShownIsActive(currentIndex);
      command := CAROUSEL_CARDS[currentIndex].command;
    }

    /** The dot at `index` is highlighted: exactly the dot of the card that is shown. */
    function DotHighlighted(index: int): (lit: bool)
      requires Valid() && ValidIndex(index)
      reads this
      ensures lit <==> Shown(Render(currentIndex)) == [CAROUSEL_CARDS[index]]
    {
      ShownIsActive(currentIndex);
      index == currentIndex
    }
  }

  /** From a valid index both steps stay valid, and move by one place around the ring. */
  lemma StepsStayInRange(i: int)
    requires ValidIndex(i)
    ensures ValidIndex(NextIndex(i)) && ValidIndex(PrevIndex(i))
    ensures NextIndex(i) == (i + 1) % |CAROUSEL_CARDS|
    ensures PrevIndex(i) == (i + |CAROUSEL_CARDS| - 1) % |CAROUSEL_CARDS|
  {
  }

  /** The arrows undo each other. */
  lemma NextPrevInverse(i: int)
    requires ValidIndex(i)
    ensures PrevIndex(NextIndex(i)) == i
    ensures NextIndex(PrevIndex(i)) == i
  {
  }

  /** `n` consecutive steps forward. */
  function Advance(i: int, n: nat): int
  {
    if n == 0 then i else NextIndex(Advance(i, n - 1))
  }

  /** `n` ticks from a valid index land `n` places further round the ring. */
  lemma {:induction false} AdvanceWraps(i: int, n: nat)
    requires ValidIndex(i)
    ensures Advance(i, n) == (i + n) % |CAROUSEL_CARDS|
  {
    if n > 0 {
      AdvanceWraps(i, n - 1);
      ModSuccessor(i + n - 1);
    }
  }

  lemma ModSuccessor(m: nat)
    ensures (m % 4 + 1) % 4 == (m + 1) % 4
  {
    var q, p := m / 4, m % 4;
    assert m == 4 * q + p;
    if p < 3 {
      assert m + 1 == 4 * q + (p + 1);
    } else {
      assert m + 1 == 4 * (q + 1);
    }
  }

  /** After one tick per card the carousel shows the card it started with. */
  lemma FullCycle(i: int)
    requires ValidIndex(i)
    ensures Advance(i, |CAROUSEL_CARDS|) == i
  {
    AdvanceWraps(i, |CAROUSEL_CARDS|);
  }

  /** At a valid index exactly one card is shown: the one at that index. And with an
      index out of range nothing would be shown. */
  lemma ShownIsActive(i: int)
    ensures ValidIndex(i) ==> Shown(Render(i)) == [CAROUSEL_CARDS[i]]
    ensures !ValidIndex(i) ==> Shown(Render(i)) == []
  {
    if ValidIndex(i) {
      ShownOnly(Render(i), i);
    } else {
      ShownNone(Render(i));
    }
  }

  /** A render with a single non-null entry shows just that entry. */
  lemma {:induction false} ShownOnly(r: seq<Option<CarouselCard>>, k: nat)
    requires k < |r|
    requires forall j :: 0 <= j < |r| ==> (r[j].Some? <==> j == k)
    ensures Shown(r) == [r[k].value]
  {
    if k == 0 {
      ShownNone(r[1..]);
    } else {
      ShownOnly(r[1..], k - 1);
    }
  }

  /** A render with no non-null entry shows nothing. */
  lemma {:induction false} ShownNone(r: seq<Option<CarouselCard>>)
    requires forall j :: 0 <= j < |r| ==> r[j].None?
    ensures Shown(r) == []
  {
    if r != [] {
      ShownNone(r[1..]);
    }
  }
}
