/**
 * The scroll-stack carousel: an inner scroll container whose offset selects
 * the active card, the per-card visual state derived from that index, and the
 * wheel handler that locks the page while the cards are being scrolled.
 *
 * The container's `scrollTop` is a field, moved by the wheel handler, the
 * intersection reset and native scrolling; `scrollHeight - clientHeight`
 * is a constant field and bounding rectangles are parameters. Animation
 * frames and observer callbacks are explicit event methods.
 */
module ScrollStack {
  import opened RealFacts

  /** Distance from the bottom at which a downward scroll counts as completed. */
  const CompleteSlack: real := 5.0
  /** Distance from the bottom within which an upward wheel re-enters the stack. */
  const ReenterSlack: real := 10.0
  /** Offset from the top below which an upward wheel releases the lock. */
  const TopSlack: real := 5.0
  /** The section counts as in view when its top is at most this far down. */
  const InViewTop: real := 100.0

  /**
   * The browser keeps `scrollTop` within `[0, maxScroll]`: an assumption
   * about the DOM, stated here rather than derived.
   */
  function ClampScroll(top: real, maxScroll: real): (r: real)
    requires 0.0 <= maxScroll
    ensures 0.0 <= r <= maxScroll
    ensures 0.0 <= top <= maxScroll ==> r == top
    ensures top < 0.0 ==> r == 0.0
    ensures top > maxScroll ==> r == maxScroll
  {
    if top < 0.0 then 0.0 else if top > maxScroll then maxScroll else top
  }

  /** Scroll progress of the inner container: `scrollTop / maxScroll`, or 0 when nothing can scroll. */
  function Progress(scrollTop: real, maxScroll: real): (p: real)
    ensures maxScroll > 0.0 ==> p * maxScroll == scrollTop
    ensures maxScroll <= 0.0 ==> p == 0.0
    ensures 0.0 <= scrollTop <= maxScroll ==> 0.0 <= p <= 1.0
  {
    if maxScroll > 0.0 then scrollTop / maxScroll else 0.0
  }

  /**
   * How many of the `cardCount` equal bands of width `1/cardCount` the
   * progress has reached, kept within `[0, cap]`.
   */
  function BandsReached(progress: real, cardCount: nat, cap: nat): (k: nat)
    requires cardCount > 0
    ensures k <= cap
  {
    var f := (progress * cardCount as real).Floor;
    if f < 0 then 0 else if f > cap then cap else f
  }

  /**
   * The active card for a progress value: the bands reached, capped at the
   * last card; -1 when there are no cards (`Math.min(0, -1)`).
   */
  function ActiveIndex(progress: real, cardCount: nat): (idx: int)
    ensures cardCount == 0 ==> idx == -1
    ensures cardCount > 0 ==> 0 <= idx < cardCount
    ensures cardCount > 0 && progress < 1.0 / cardCount as real ==> idx == 0
    ensures cardCount > 0 && progress >= 1.0 ==> idx == cardCount - 1
  {
    if cardCount == 0 then -1
    else
      ThresholdReached(progress, cardCount, 1);
      BandsReached(progress, cardCount, cardCount - 1)
  }

  /** `progress >= k * (1/n)` exactly when the floor of `progress * n` is at least `k`. */
  lemma ThresholdReached(progress: real, n: nat, k: int)
    requires n > 0
    ensures progress >= (1.0 / n as real) * k as real <==> (progress * n as real).Floor >= k
  {
    var step := 1.0 / n as real;
    assert step * n as real == 1.0;
    assert step > 0.0;
    assert step * k as real * n as real == k as real;
    if progress >= step * k as real {
      assert progress * n as real >= step * k as real * n as real;
    } else {
      assert progress * n as real < step * k as real * n as real;
    }
  }

  /**
   * The active card is the band the progress lies in: card `k` is active
   * when progress has reached `k/n` (or `k` is the first card) and has not
   * reached `(k+1)/n` (or `k` is the last card).
   */
  lemma ActiveIndexIsBand(progress: real, n: nat)
    requires n > 0
    ensures var k := ActiveIndex(progress, n);
      && (k == 0 || progress >= (1.0 / n as real) * k as real)
      && (k == n - 1 || progress < (1.0 / n as real) * (k + 1) as real)
  {
    var k := ActiveIndex(progress, n);
    ThresholdReached(progress, n, k);
    ThresholdReached(progress, n, k + 1);
  }

  /** Scrolling further never moves the active card backwards. */
  lemma ActiveIndexMonotone(p1: real, p2: real, n: nat)
    requires p1 <= p2
    ensures ActiveIndex(p1, n) <= ActiveIndex(p2, n)
  {
    if n > 0 {
      var x1, x2 := p1 * n as real, p2 * n as real;
      MulNonNegative(p2 - p1, n as real);
      assert x2 - x1 == (p2 - p1) * n as real;
      FloorMonotone(x1, x2);
    }
  }

  /**
   * The frame callback's loop: walk the bands in order and remember the
   * last one whose threshold the progress has reached, then cap at the
   * last card.
   */
  method ComputeActiveIndex(progress: real, cardCount: nat) returns (idx: int)
    ensures idx == ActiveIndex(progress, cardCount)
  {
    var newActiveIndex := 0;
    // With no cards the source divides by zero (Infinity); the loop below then never runs.
    var progressPerCard := if cardCount > 0 then 1.0 / cardCount as real else 0.0;
    for i := 0 to cardCount
      invariant cardCount > 0 ==> newActiveIndex == BandsReached(progress, cardCount, i)
      invariant cardCount == 0 ==> newActiveIndex == 0
    {
      ThresholdReached(progress, cardCount, i + 1);
      if progress >= progressPerCard * (i + 1) as real {
        newActiveIndex := i + 1;
      }
    }
    idx := if newActiveIndex < cardCount - 1 then newActiveIndex else cardCount - 1;
  }

  /** The visual state `getCardTransform` gives one card. */
  datatype CardStyle = CardStyle(
    visible: bool,
    translateY: real,   // pixels
    scale: real,
    opacity: real,
    zIndex: int,
    pointerEvents: bool)

  /**
   * Visual state of card `index` of `cardCount`: revealed cards rise into a
   * layered stack; hidden ones wait 100px below, transparent and inert.
   */
  function CardTransform(index: nat, activeCardIndex: int, cardCount: nat, isIntersecting: bool): (s: CardStyle)
    requires index < cardCount
    ensures s.visible <==> isIntersecting && activeCardIndex >= index
    ensures !s.visible ==> s.opacity == 0.0 && s.translateY == 100.0 && !s.pointerEvents
    ensures s.visible ==> s.pointerEvents && 20.0 < s.translateY <= 80.0
    ensures s.visible ==> s.opacity == (if index == 0 then 0.85 else 1.0)
    ensures 0.0 <= s.opacity <= 1.0
    ensures 0.85 <= s.scale && s.zIndex >= 10
  {
    var isVisible := isIntersecting && activeCardIndex >= index;
    var scale := 0.85 + index as real * 0.015;
    var stackStep := 60.0 / cardCount as real;
    StackOffsetBelowSixty(index, cardCount);
    var translateY := if isVisible then 80.0 - index as real * stackStep else 100.0;
    CardStyle(
      isVisible,
      translateY,
      scale,
      if isVisible then (if index == 0 then 0.85 else 1.0) else 0.0,
      10 + index * 10,
      isVisible)
  }

  /** A card's stacking offset `index * (60 / cardCount)` stays below 60px. */
  lemma StackOffsetBelowSixty(index: nat, cardCount: nat)
    requires index < cardCount
    ensures 0.0 <= index as real * (60.0 / cardCount as real) < 60.0
  {
    StackOffsetAsQuotient(index, cardCount);
    QuotientBelow((60 * index) as real, cardCount as real, 60.0);
  }

  /** `index * (60 / n)` written as a single quotient `(60 * index) / n`. */
  lemma StackOffsetAsQuotient(index: nat, cardCount: nat)
    requires 0 < cardCount
    ensures (60 * index) as real / cardCount as real == index as real * (60.0 / cardCount as real)
  {
  }

  /** A non-negative quotient stays below `bound` when the dividend stays below `bound * n`. */
  lemma QuotientBelow(x: real, n: real, bound: real)
    requires n > 0.0 && 0.0 <= x < bound * n
    ensures 0.0 <= x / n < bound
  {
  }

  /** Dividing by a positive number keeps a strict order. */
  lemma QuotientMonotone(x: real, y: real, n: real)
    requires n > 0.0 && x < y
    ensures x / n < y / n
  {
  }

  /** The visible cards are always a prefix: if card `j` shows, so does every earlier card. */
  lemma VisibleCardsFormPrefix(i: nat, j: nat, activeCardIndex: int, cardCount: nat, isIntersecting: bool)
    requires i <= j < cardCount
    requires CardTransform(j, activeCardIndex, cardCount, isIntersecting).visible
    ensures CardTransform(i, activeCardIndex, cardCount, isIntersecting).visible
  {
  }

  /**
   * Later cards stack above and are larger than earlier ones; among the
   * revealed cards, later ones sit higher, and every revealed card sits
   * above every hidden one.
   */
  lemma LaterCardsStackOnTop(i: nat, j: nat, activeCardIndex: int, cardCount: nat, isIntersecting: bool)
    requires i < j < cardCount
    ensures var a := CardTransform(i, activeCardIndex, cardCount, isIntersecting);
      var b := CardTransform(j, activeCardIndex, cardCount, isIntersecting);
      && a.zIndex < b.zIndex
      && a.scale < b.scale
      && (a.visible && b.visible ==> b.translateY < a.translateY)
      && (a.visible && !b.visible ==> a.translateY < b.translateY)
      && (b.visible ==> a.visible)
  {
    StackOffsetAsQuotient(i, cardCount);
    StackOffsetAsQuotient(j, cardCount);
    QuotientMonotone((60 * i) as real, (60 * j) as real, cardCount as real);
  }

  /** Whether the section's bounding box counts as "in view" for the wheel handler: its top at most 100px down and its bottom at least halfway down the viewport. */
  predicate InView(rectTop: real, rectBottom: real, innerHeight: real)
  {
    rectTop <= InViewTop && rectBottom >= innerHeight * 0.5
  }

  /**
   * The carousel's state: the React state fields and refs of the component
   * plus the inner container's `scrollTop`. `maxScroll` is the container's
   * `scrollHeight - clientHeight`, fixed for the lifetime of the object.
   */
  class ScrollStackState {
    const cardCount: nat
    const maxScroll: real
    var activeCardIndex: int
    var isIntersecting: bool
    var isScrollLocked: bool
    var hasCompletedScroll: bool
    var scrollTop: real
    /** The throttle ref: while set, scroll events schedule no frame. */
    var ticking: bool
    /** An animation frame has been requested and has not run yet. */
    var framePending: bool

    /**
     * `scrollTop` stays within the container, and, with every state update
     * and listener re-registration applied at once, a completed stack is
     * never locked. A frame is only ever requested together with setting
     * the throttle ref.
     */
    ghost predicate Valid()
      reads this
    {
      && 0.0 <= maxScroll
      && 0.0 <= scrollTop <= maxScroll
      && (hasCompletedScroll ==> !isScrollLocked)
      && -1 <= activeCardIndex
      && (cardCount > 0 ==> activeCardIndex < cardCount)
      && (framePending ==> ticking)
    }

    /**
     * The throttle ref is set but no frame will ever clear it: a frame
     * returned early because the section refs were missing.
     */
    ghost predicate Frozen()
      reads this
    {
      ticking && !framePending
    }

    /** First render, followed by the mount effect's `handleScroll()`, which requests a frame. */
    constructor (cardCount: nat, maxScroll: real)
      requires 0.0 <= maxScroll
      ensures Valid()
      ensures this.cardCount == cardCount && this.maxScroll == maxScroll
      ensures activeCardIndex == 0 && scrollTop == 0.0
      ensures !isIntersecting && !isScrollLocked && !hasCompletedScroll
      ensures ticking && framePending
    {
      this.cardCount := cardCount;
      this.maxScroll := maxScroll;
      activeCardIndex := 0;
      isIntersecting := false;
      isScrollLocked := false;
      hasCompletedScroll := false;
      scrollTop := 0.0;
      ticking := true;
      framePending := true;
    }

    /**
     * A `scroll` event on the inner container: request a frame and set the
     * throttle ref, unless the ref is already set.
     */
    method OnContainerScroll()
      requires Valid()
      modifies this
      ensures Valid()
      ensures ticking
      ensures !old(ticking) ==> framePending
      ensures old(ticking) ==> framePending == old(framePending)
      ensures old(Frozen()) ==> Frozen()
      ensures activeCardIndex == old(activeCardIndex) && scrollTop == old(scrollTop)
      ensures isIntersecting == old(isIntersecting) && isScrollLocked == old(isScrollLocked)
      ensures hasCompletedScroll == old(hasCompletedScroll)
    {
      if !ticking {
        framePending := true;
        ticking := true;
      }
    }

    /**
     * The requested animation frame runs, if one is pending. With the
     * section refs present it recomputes the active card and clears the
     * throttle ref; with them missing it returns early and leaves the ref
     * set, after which no scroll event requests a frame again.
     */
    method RunFrame(refsPresent: bool)
      requires Valid()
      modifies this
      ensures Valid()
      ensures !framePending
      ensures old(framePending) && refsPresent ==>
        activeCardIndex == ActiveIndex(Progress(scrollTop, maxScroll), cardCount) && !ticking
      ensures old(framePending) && !refsPresent ==>
        activeCardIndex == old(activeCardIndex) && Frozen()
      ensures !old(framePending) ==>
        activeCardIndex == old(activeCardIndex) && ticking == old(ticking)
      ensures old(Frozen()) ==> Frozen() && activeCardIndex == old(activeCardIndex)
      ensures scrollTop == old(scrollTop) && isIntersecting == old(isIntersecting)
      ensures isScrollLocked == old(isScrollLocked) && hasCompletedScroll == old(hasCompletedScroll)
    {
      if !framePending {
        return;
      }
      framePending := false;
      if !refsPresent {
        return;
      }
      var progress := Progress(scrollTop, maxScroll);
      activeCardIndex := ComputeActiveIndex(progress, cardCount);
      ticking := false;
    }

    /**
     * The container is scrolled natively to `top`: the default action of a
     * wheel event `Wheel` did not prevent, or the scrollbar, touch or
     * keyboard. The browser clamps the offset to the scrollable range. The
     * `scroll` event this raises is `OnContainerScroll`.
     */
    method NativeScroll(top: real)
      requires Valid()
      modifies this
      ensures Valid()
      ensures scrollTop == ClampScroll(top, maxScroll)
      ensures activeCardIndex == old(activeCardIndex) && isIntersecting == old(isIntersecting)
      ensures isScrollLocked == old(isScrollLocked) && hasCompletedScroll == old(hasCompletedScroll)
      ensures ticking == old(ticking) && framePending == old(framePending)
    {
      scrollTop := ClampScroll(top, maxScroll);
    }

    /**
     * A wheel event while the listener is registered (only while the
     * section intersects). Returns whether the page scroll was prevented.
     */
    method Wheel(deltaY: real, rectTop: real, rectBottom: real, innerHeight: real) returns (prevented: bool)
      requires Valid()
      modifies this
      ensures Valid()
      ensures activeCardIndex == old(activeCardIndex) && ticking == old(ticking)
      ensures framePending == old(framePending)
      ensures isIntersecting == old(isIntersecting)
      // downward while in view and not completed: lock, scroll, complete near the bottom
      ensures old(isIntersecting) && InView(rectTop, rectBottom, innerHeight)
              && !old(hasCompletedScroll) && deltaY > 0.0 ==>
        && prevented
        && scrollTop == ClampScroll(old(scrollTop) + deltaY, maxScroll)
        && hasCompletedScroll == (scrollTop >= maxScroll - CompleteSlack)
        && isScrollLocked == !hasCompletedScroll
      // upward at the top: release the lock, do not move
      ensures old(isIntersecting) && InView(rectTop, rectBottom, innerHeight)
              && !old(hasCompletedScroll) && deltaY < 0.0 && old(scrollTop) <= TopSlack ==>
        && !prevented && !isScrollLocked
        && scrollTop == old(scrollTop) && !hasCompletedScroll
      // upward inside the stack: lock and scroll back
      ensures old(isIntersecting) && InView(rectTop, rectBottom, innerHeight)
              && !old(hasCompletedScroll) && deltaY < 0.0 && old(scrollTop) > TopSlack ==>
        && prevented && isScrollLocked && !hasCompletedScroll
        && scrollTop == ClampScroll(old(scrollTop) + deltaY, maxScroll)
      // upward after completion, near the bottom: re-enter the stack
      ensures old(isIntersecting) && InView(rectTop, rectBottom, innerHeight)
              && old(hasCompletedScroll) && deltaY < 0.0 && old(scrollTop) >= maxScroll - ReenterSlack ==>
        && prevented && isScrollLocked && !hasCompletedScroll
        && scrollTop == ClampScroll(old(scrollTop) + deltaY, maxScroll)
      // every other event leaves the state alone
      ensures !old(isIntersecting) || !InView(rectTop, rectBottom, innerHeight) || deltaY == 0.0
              || (old(hasCompletedScroll) && (deltaY > 0.0 || old(scrollTop) < maxScroll - ReenterSlack)) ==>
        && !prevented
        && scrollTop == old(scrollTop) && isScrollLocked == old(isScrollLocked)
        && hasCompletedScroll == old(hasCompletedScroll)
    {
      prevented := false;
      if !isIntersecting {
        return;
      }
      var isInView := InView(rectTop, rectBottom, innerHeight);
      if isInView && !hasCompletedScroll {
        var currentScroll := scrollTop;
        if deltaY > 0.0 {
          prevented := true;
          isScrollLocked := true;
          scrollTop := ClampScroll(scrollTop + deltaY, maxScroll);
          if scrollTop >= maxScroll - CompleteSlack {
            hasCompletedScroll := true;
            isScrollLocked := false;
          }
        } else if deltaY < 0.0 {
          if currentScroll <= TopSlack {
            isScrollLocked := false;
            return;
          }
          prevented := true;
          isScrollLocked := true;
          scrollTop := ClampScroll(scrollTop + deltaY, maxScroll);
        }
      } else if isInView && hasCompletedScroll && deltaY < 0.0 {
        if scrollTop >= maxScroll - ReenterSlack {
          prevented := true;
          isScrollLocked := true;
          hasCompletedScroll := false;
          scrollTop := ClampScroll(scrollTop + deltaY, maxScroll);
        }
      }
    }

    /**
     * The intersection observer's callback. Leaving with the section below
     * the viewport resets the stack; leaving above it only releases the lock.
     */
    method OnIntersection(entryIntersecting: bool, rectTop: real, rectBottom: real)
      requires Valid()
      modifies this
      ensures Valid()
      ensures isIntersecting == entryIntersecting
      ensures activeCardIndex == old(activeCardIndex) && ticking == old(ticking)
      ensures framePending == old(framePending)
      ensures !entryIntersecting && rectTop > 0.0 ==>
        !hasCompletedScroll && !isScrollLocked && scrollTop == 0.0
      ensures !entryIntersecting && !(rectTop > 0.0) && rectBottom < 0.0 ==>
        !isScrollLocked && hasCompletedScroll == old(hasCompletedScroll) && scrollTop == old(scrollTop)
      ensures entryIntersecting || (!(rectTop > 0.0) && !(rectBottom < 0.0)) ==>
        && isScrollLocked == old(isScrollLocked)
        && hasCompletedScroll == old(hasCompletedScroll) && scrollTop == old(scrollTop)
    {
      isIntersecting := entryIntersecting;
      if !entryIntersecting {
        if rectTop > 0.0 {
          hasCompletedScroll := false;
          isScrollLocked := false;
          scrollTop := 0.0;
        } else if rectBottom < 0.0 {
          isScrollLocked := false;
        }
      }
    }

    /** Visual state of card `index` in the current state. */
    function Card(index: nat): (s: CardStyle)
      reads this
      requires index < cardCount
      ensures s.visible <==> isIntersecting && activeCardIndex >= index
    {
      CardTransform(index, activeCardIndex, cardCount, isIntersecting)
    }
  }
}
