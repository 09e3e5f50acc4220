/** The paged service-card carousel: three cards are shown at a time, and
    the Next and Prev buttons slide in the following or preceding three,
    wrapping around the card list. While a slide is in flight the buttons are
    locked; the end of the CSS transition promotes the incoming cards. */
module MovingCards {
  import opened JsValues
  import opened CardWithHover

  const LogoPlaceholder: string := "https://placehold.co/80x80/000000/FFFFFF?text=Logo"
  const BackgroundPlaceholder: string := "https://placehold.co/400x240/555555/FFFFFF?text=Background"

  // ---------------------------------------------------------------------
  // The carousel's own variant of the hover card
  // ---------------------------------------------------------------------

  /** The list shown under the description: `listItems && listItems.map(...)`
      renders nothing when the list is missing. */
  function ShownItems(listItems: Option<seq<string>>): seq<string> {
    if listItems.Some? then listItems.value else []
  }

  /** The hover card used inside the carousel: like `CardWithHover.View`, but
      a falsy image is replaced by a placeholder and a missing list renders
      as no bullets, so it never throws. */
  function GuardedView(card: ServiceCard, isHovered: bool): (v: CardView)
    ensures v.Summary? <==> !isHovered
    ensures v.background.Some? && v.background.value != ""
    ensures Truthy(card.backImage) ==> v.background == card.backImage
    ensures !Truthy(card.backImage) ==> v.background == Some(BackgroundPlaceholder)
    ensures v.Summary? ==>
      v.logo.Some? &&
      (Truthy(card.image) ==> v.logo == card.image) &&
      (!Truthy(card.image) ==> v.logo == Some(LogoPlaceholder)) &&
      v.heading1 == card.title1 && v.heading2 == card.title2
    ensures v.Detail? ==>
      v.heading == JoinedTitle(card.title1, card.title2) &&
      |v.entries| == 1 + |ShownItems(card.listItems)| &&
      v.entries[0] == Paragraph(card.description) &&
      (forall i :: 0 <= i < |ShownItems(card.listItems)| ==>
        v.entries[i + 1] == Bullet(i, ShownItems(card.listItems)[i])) &&
      (card.listItems.None? ==> |v.entries| == 1)
  {
    var background := Some(OrElse(card.backImage, BackgroundPlaceholder));
    if !isHovered then
      Summary(Some(OrElse(card.image, LogoPlaceholder)), card.title1, card.title2, background)
    else
      Detail(JoinedTitle(card.title1, card.title2),
             DetailEntries(card.description, ShownItems(card.listItems)),
             background)
  }

  /** The two card variants agree on every card the unguarded one can render
      whose images are present; the guarded one also renders the rest. */
  lemma GuardedViewRefinesView(card: ServiceCard, isHovered: bool)
    requires Truthy(card.image) && Truthy(card.backImage)
    ensures View(card, isHovered).Ok? ==> View(card, isHovered).value == GuardedView(card, isHovered)
    ensures View(card, isHovered).TypeError? ==>
      GuardedView(card, isHovered) ==
        Detail(JoinedTitle(card.title1, card.title2), [Paragraph(card.description)], card.backImage)
  {
    if isHovered && card.listItems.None? {
      assert Bullets([], 0) == [];
    }
  }

  // ---------------------------------------------------------------------
  // Window arithmetic
  // ---------------------------------------------------------------------

  /** `getThreeCards(start)`: the three cards from `start`, wrapping around
      with JavaScript's `%`; nothing at all for an empty list. A negative
      start can produce a negative index, which reads `undefined`. */
  function Window(cards: seq<ServiceCard>, start: Num): (r: seq<Option<ServiceCard>>)
    ensures |cards| == 0 ==> r == []
    ensures |cards| > 0 ==> |r| == 3
    ensures start.NaN? ==> forall i :: 0 <= i < |r| ==> r[i] == None
    ensures start.Int? ==> forall i :: 0 <= i < |r| ==>
      (r[i].Some? <==> start.v + i >= 0 || (start.v + i) % |cards| == 0)
    ensures start.Int? ==> forall i :: 0 <= i < |r| && r[i].Some? ==>
      r[i].value == cards[(start.v + i) % |cards|]
  {
    if |cards| == 0 then []
    else seq(3, i requires 0 <= i < 3 => At(cards, NumRem(Add(start, i), |cards|)))
  }

  /** From a start inside the list, every slot of the window is a card, and
      the slots hold consecutive cards modulo the list length. */
  lemma WindowFromValidStart(cards: seq<ServiceCard>, s: int)
    requires 0 <= s < |cards|
    ensures |Window(cards, Int(s))| == 3
    ensures forall i :: 0 <= i < 3 ==> Window(cards, Int(s))[i] == Some(cards[(s + i) % |cards|])
  {}

  /** With fewer than three cards the window repeats cards: from any start
      for one card, from a non-negative start for two. */
  lemma {:induction false} WindowRepeats(cards: seq<ServiceCard>, s: int, i: nat)
    requires 0 < |cards| < 3 && (|cards| == 1 || 0 <= s) && i + |cards| < 3
    ensures Window(cards, Int(s))[i] == Window(cards, Int(s))[i + |cards|]
    ensures Window(cards, Int(s))[i].Some?
  {
    var n := |cards|;
    ModUnique(s + i + n, n, (s + i) / n + 1, (s + i) % n);
  }

  /** `(currentIndex + 3) % allCards.length`. */
  function NextStart(c: Num, len: nat): (r: Num)
    ensures len == 0 || c.NaN? <==> r.NaN?
    ensures len > 0 && c.Int? && c.v >= -3 ==> 0 <= r.v < len && r.v == (c.v + 3) % len
  {
    NumRem(Add(c, 3), len)
  }

  /** `currentIndex - 3`, plus the length once if that is negative. */
  function PrevStart(c: Num, len: nat): (r: Num)
    ensures c.NaN? <==> r.NaN?
    ensures len >= 3 && c.Int? && 0 <= c.v < len ==> 0 <= r.v < len && r.v == (c.v - 3) % len
  {
    var p := Add(c, -3);
    if p.Int? && p.v < 0 then Int(len + p.v) else p
  }

  /** Next from a start less than one length past the list wraps at most once. */
  lemma NextStartWrapsOnce(c: int, len: nat)
    requires len > 0 && 0 <= c + 3 < 2 * len
    ensures NextStart(Int(c), len) == Int(if c + 3 < len then c + 3 else c + 3 - len)
  {
    if c + 3 >= len {
      ModUnique(c + 3, len, 1, c + 3 - len);
    }
  }

  /** For three or more cards, Prev undoes Next ... */
  lemma PrevAfterNext(c: int, len: nat)
    requires len >= 3 && 0 <= c < len
    ensures PrevStart(NextStart(Int(c), len), len) == Int(c)
  {
    NextStartWrapsOnce(c, len);
  }

  /** ... and Next undoes Prev. */
  lemma NextAfterPrev(c: int, len: nat)
    requires len >= 3 && 0 <= c < len
    ensures NextStart(PrevStart(Int(c), len), len) == Int(c)
  {
    var p := if c >= 3 then c - 3 else len + c - 3;
    assert PrevStart(Int(c), len) == Int(p);
    NextStartWrapsOnce(p, len);
  }

  /** An empty card list turns the index into NaN on the first Next, and
      Prev keeps it NaN. */
  lemma EmptyListIndexIsNaN(c: Num)
    ensures NextStart(c, 0) == NaN
    ensures PrevStart(NaN, 0) == NaN
  {}

  /** With one or two cards, Prev from the first card leaves a negative start,
      and with two cards the first slot of that window is `undefined` while
      the third holds the second card, so the window does not repeat. */
  lemma FewCardsPrevGoesNegative(cards: seq<ServiceCard>)
    requires 0 < |cards| < 3
    ensures PrevStart(Int(0), |cards|).v < 0
    ensures |cards| == 2 ==> Window(cards, PrevStart(Int(0), |cards|))[0] == None
    ensures |cards| == 2 ==> Window(cards, PrevStart(Int(0), |cards|))[2] == Some(cards[1])
  {
    if |cards| == 2 {
      assert PrevStart(Int(0), 2) == Int(-1);
      assert (-1) % 2 == 1;
    }
  }

  // ---------------------------------------------------------------------
  // The carousel component
  // ---------------------------------------------------------------------

  /** `animationState.direction`: null, 'next' or 'prev'. */
  datatype Direction = NoDirection | Forward | Backward

  datatype AnimationState = AnimationState(direction: Direction, trigger: bool)

  const Idle: AnimationState := AnimationState(NoDirection, false)

  /** What one of the three grid slots holds: the card on show and the card
      sliding in, each possibly absent. */
  datatype SlotView = SlotView(outgoing: Option<ServiceCard>, incoming: Option<ServiceCard>)

  /** `cards[k]` on a window, where both a short array and an `undefined`
      element read as no card. */
  function SlotCard(cards: seq<Option<ServiceCard>>, k: nat): Option<ServiceCard> {
    if k < |cards| then cards[k] else None
  }

  /** The start of the window a slide in direction `dir` moves away from. */
  function SlideOrigin(c: Num, len: nat, dir: Direction): Num {
    if dir == Forward then PrevStart(c, len) else NextStart(c, len)
  }

  class Carousel {
    const allCards: seq<ServiceCard>
    var currentIndex: Num
    var activeCards: seq<Option<ServiceCard>>
    var transitioningCards: seq<Option<ServiceCard>>
    var animationState: AnimationState

    /** The state every reachable carousel is in: a non-empty list keeps an
        integer index, a list of three or more keeps it in range, and the
        card arrays are the windows at the index (the incoming ones while a
        slide is in flight, the shown ones when idle). For three or more
        cards, the cards on show during a slide are the window the slide
        started from. */
    ghost predicate Valid()
      reads this
    {
      (|allCards| > 0 ==> currentIndex.Int?) &&
      (|allCards| >= 3 ==> 0 <= currentIndex.v < |allCards|) &&
      (animationState.trigger <==> animationState.direction != NoDirection) &&
      (animationState.trigger ==> transitioningCards == Window(allCards, currentIndex)) &&
      (!animationState.trigger ==>
        transitioningCards == [] && activeCards == Window(allCards, currentIndex)) &&
      (|allCards| >= 3 && animationState.trigger ==>
        activeCards == Window(allCards, SlideOrigin(currentIndex, |allCards|, animationState.direction)))
    }

    /** Mounting: index 0, nothing moving, and once the effect has run the
        first three cards on show (none for an empty list). */
    constructor (serviceObjects: seq<ServiceCard>)
      ensures Valid()
      ensures allCards == serviceObjects
      ensures currentIndex == Int(0) && animationState == Idle && transitioningCards == []
      ensures |serviceObjects| > 0 ==> activeCards == Window(serviceObjects, Int(0))
      ensures |serviceObjects| == 0 ==> activeCards == []
    {
      allCards := serviceObjects;
      currentIndex := Int(0);
      activeCards := [];
      transitioningCards := [];
      animationState := Idle;
      new;
      if |allCards| > 0 {
        activeCards := GetThreeCards(Int(0));
      }
    }

    /** `getThreeCards`, built by pushing one card per loop step. */
    method GetThreeCards(startIdx: Num) returns (cards: seq<Option<ServiceCard>>)
      ensures cards == Window(allCards, startIdx)
    {
      cards := [];
      if |allCards| == 0 {
        return;
      }
      for i := 0 to 3
        invariant cards == Window(allCards, startIdx)[..i]
      {
        cards := cards + [At(allCards, NumRem(Add(startIdx, i), |allCards|))];
      }
    }

    /** The Next button: ignored while a slide is in flight; otherwise the
        index moves three cards on and the window there slides in. */
    method HandleNext()
      requires Valid()
      modifies this
      ensures Valid()
      ensures old(animationState.trigger) ==> unchanged(this)
      ensures !old(animationState.trigger) ==>
        currentIndex == NextStart(old(currentIndex), |allCards|) &&
        transitioningCards == Window(allCards, currentIndex) &&
        animationState == AnimationState(Forward, true) &&
        activeCards == old(activeCards)
    {
      if animationState.trigger {
        return;
      }
      if |allCards| >= 3 {
        PrevAfterNext(currentIndex.v, |allCards|);
      }
      var nextStartIdx := NumRem(Add(currentIndex, 3), |allCards|);
      transitioningCards := GetThreeCards(nextStartIdx);
      animationState := AnimationState(Forward, true);
      currentIndex := nextStartIdx;
    }

    /** The Prev button: ignored while a slide is in flight; otherwise the
        index moves three cards back (adding the length once if negative)
        and the window there slides in. */
    method HandlePrev()
      requires Valid()
      modifies this
      ensures Valid()
      ensures old(animationState.trigger) ==> unchanged(this)
      ensures !old(animationState.trigger) ==>
        currentIndex == PrevStart(old(currentIndex), |allCards|) &&
        transitioningCards == Window(allCards, currentIndex) &&
        animationState == AnimationState(Backward, true) &&
        activeCards == old(activeCards)
    {
      if animationState.trigger {
        return;
      }
      if |allCards| >= 3 {
        NextAfterPrev(currentIndex.v, |allCards|);
      }
      var prevStartIdx := Add(currentIndex, -3);
      if prevStartIdx.Int? && prevStartIdx.v < 0 {
        prevStartIdx := Int(|allCards| + prevStartIdx.v);
      }
      transitioningCards := GetThreeCards(prevStartIdx);
      animationState := AnimationState(Backward, true);
      currentIndex := prevStartIdx;
    }

    /** The end of the slide transition: the incoming cards go on show and
        the lock is released; outside a slide it does nothing. */
    method OnAnimationEnd()
      requires Valid()
      modifies this
      ensures Valid()
      ensures old(animationState.trigger) ==>
        activeCards == old(transitioningCards) &&
        transitioningCards == [] &&
        animationState == Idle &&
        currentIndex == old(currentIndex)
      ensures !old(animationState.trigger) ==> unchanged(this)
    {
      if animationState.trigger {
        activeCards := transitioningCards;
        transitioningCards := [];
        animationState := Idle;
      }
    }

    /** `renderCardSlot(k)`: the shown and the incoming card of slot `k`. */
    function Slot(k: nat): (r: SlotView)
      reads this
      requires k < 3
      ensures Valid() && !animationState.trigger ==> r.incoming == None
      ensures Valid() && animationState.trigger ==> r.incoming == SlotCard(Window(allCards, currentIndex), k)
    {
      SlotView(SlotCard(activeCards, k), SlotCard(transitioningCards, k))
    }
  }

  /** For three or more cards, slot `k` shows the card `k` places after the
      index: on show when idle, and sliding in during a slide, while the card
      sliding out is the one `k` places after the start the slide left. */
  lemma SlotsShowWindow(c: Carousel, k: nat)
    requires c.Valid() && |c.allCards| >= 3 && k < 3
    ensures var card := Some(c.allCards[(c.currentIndex.v + k) % |c.allCards|]);
      if c.animationState.trigger then
        var origin := SlideOrigin(c.currentIndex, |c.allCards|, c.animationState.direction);
        c.Slot(k) == SlotView(Some(c.allCards[(origin.v + k) % |c.allCards|]), card)
      else c.Slot(k) == SlotView(card, None)
  {
    WindowFromValidStart(c.allCards, c.currentIndex.v);
    if c.animationState.trigger {
      var origin := SlideOrigin(c.currentIndex, |c.allCards|, c.animationState.direction);
      WindowFromValidStart(c.allCards, origin.v);
    }
  }

  /** With two cards, Prev from the first card and its transition end leave
      slot 0 without a card on show; the next slide then sets the lock while
      slot 0 still has no card, the only element whose transition end would
      release it. */
  method TwoCardsLockWithEmptySlotZero(c: Carousel)
    requires c.Valid() && |c.allCards| == 2 && !c.animationState.trigger && c.currentIndex == Int(0)
    modifies c
    ensures c.Valid()
    ensures c.animationState.trigger && c.Slot(0).outgoing == None
  {
    c.HandlePrev();
    c.OnAnimationEnd();
    assert c.currentIndex == Int(-1);
    assert c.Slot(0).outgoing == None;
    c.HandleNext();
  }

  /** Next, its transition end, Prev and its transition end bring an idle
      carousel of three or more cards back to exactly the state it started
      in; so does the opposite order. */
  method NextThenPrev(c: Carousel)
    requires c.Valid() && !c.animationState.trigger && |c.allCards| >= 3
    modifies c
    ensures c.Valid()
    ensures c.currentIndex == old(c.currentIndex) && c.activeCards == old(c.activeCards)
    ensures c.transitioningCards == old(c.transitioningCards) && c.animationState == old(c.animationState)
  {
    PrevAfterNext(c.currentIndex.v, |c.allCards|);
    c.HandleNext();
    c.OnAnimationEnd();
    c.HandlePrev();
    c.OnAnimationEnd();
  }

  method PrevThenNext(c: Carousel)
    requires c.Valid() && !c.animationState.trigger && |c.allCards| >= 3
    modifies c
    ensures c.Valid()
    ensures c.currentIndex == old(c.currentIndex) && c.activeCards == old(c.activeCards)
    ensures c.transitioningCards == old(c.transitioningCards) && c.animationState == old(c.animationState)
  {
    NextAfterPrev(c.currentIndex.v, |c.allCards|);
    c.HandlePrev();
    c.OnAnimationEnd();
    c.HandleNext();
    c.OnAnimationEnd();
  }
}
