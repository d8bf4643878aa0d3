/**
  The flashcard widget: a current index that moves cyclically through a
  deck of `n` cards and a flip flag that shows the definition side.
  The source clears the flag at once and moves the index 150 ms later so
  the flip animation can finish; here the two happen in one step.
 */
module FlashcardsView {
  import opened StudyTypes

  datatype DeckState = DeckState(index: nat, flipped: bool)

  /** A freshly mounted deck: first card, term side up. */
  const Start := DeckState(0, false)

  predicate InRange(st: DeckState, n: nat)
  {
    st.index < n
  }

  /** "Next": unflip, then advance modulo the deck size. The button exists
      only for a non-empty deck. */
  function Next(st: DeckState, n: nat): (r: DeckState)
    requires n > 0
    ensures InRange(r, n) && !r.flipped
    ensures st.index + 1 < n ==> r.index == st.index + 1
    ensures st.index == n - 1 ==> r.index == 0
  {
    DeckState((st.index + 1) % n, false)
  }

  /** "Prev": unflip, then step back modulo the deck size. */
  function Prev(st: DeckState, n: nat): (r: DeckState)
    requires n > 0
    ensures InRange(r, n) && !r.flipped
    ensures 0 < st.index <= n ==> r.index == st.index - 1
    ensures st.index == 0 ==> r.index == n - 1
  {
    DeckState((st.index - 1 + n) % n, false)
  }

  /** Clicking the card turns it over and nothing else. */
  function Flip(st: DeckState): (r: DeckState)
    ensures r.index == st.index
    ensures r.flipped != st.flipped
  {
    st.(flipped := !st.flipped)
  }

  lemma FlipTwiceIsIdentity(st: DeckState)
    ensures Flip(Flip(st)) == st
  {
  }

  /** Going forward then back (or back then forward) returns to the same
      card, term side up. */
  lemma NextPrevInverse(st: DeckState, n: nat)
    requires n > 0 && InRange(st, n)
    ensures Prev(Next(st, n), n) == st.(flipped := false)
    ensures Next(Prev(st, n), n) == st.(flipped := false)
  {
  }

  /** `k` presses of "Next". */
  function NextTimes(st: DeckState, n: nat, k: nat): DeckState
    requires n > 0
  {
    if k == 0 then st else Next(NextTimes(st, n, k - 1), n)
  }

  /** `k` presses of "Next" advance the index by `k` modulo the deck size. */
  lemma {:induction false} NextTimesAdvances(st: DeckState, n: nat, k: nat)
    requires n > 0 && InRange(st, n) && k > 0
    ensures NextTimes(st, n, k).index == (st.index + k) % n
    ensures !NextTimes(st, n, k).flipped
  {
    if k > 1 {
      NextTimesAdvances(st, n, k - 1);
      var m := st.index + k - 1;
      assert NextTimes(st, n, k).index == (m % n + 1) % n;
      ModSucc(m, n);
    }
  }

  lemma {:induction false} MulAtLeast(d: nat, n: nat)
    requires d >= 1
    ensures d * n >= n
  {
    if d > 1 {
      MulAtLeast(d - 1, n);
      assert d * n == (d - 1) * n + n;
    }
  }

  /** Euclidean division has a unique remainder. */
  lemma ModUnique(a: int, q: int, r: int, n: int)
    requires n > 0 && 0 <= r < n && a == q * n + r
    ensures a % n == r
  {
    var q0, r0 := a / n, a % n;
    assert a == q0 * n + r0;
    if q > q0 {
      assert (q - q0) * n == q * n - q0 * n;
      MulAtLeast(q - q0, n);
    } else if q < q0 {
      assert (q0 - q) * n == q0 * n - q * n;
      MulAtLeast(q0 - q, n);
    }
  }

  lemma ModSucc(m: nat, n: nat)
    requires n > 0
    ensures (m % n + 1) % n == (m + 1) % n
  {
    var q, r := m / n, m % n;
    assert m == q * n + r;
    if r + 1 == n {
      assert m + 1 == (q + 1) * n + 0;
      ModUnique(m + 1, q + 1, 0, n);
      ModUnique(r + 1, 1, 0, n);
    } else {
      ModUnique(m + 1, q, r + 1, n);
      ModUnique(r + 1, 0, r + 1, n);
    }
  }

  /** A full lap of `n` presses returns to the starting card. */
  lemma FullLapReturns(st: DeckState, n: nat)
    requires n > 0 && InRange(st, n)
    ensures NextTimes(st, n, n) == st.(flipped := false)
  {
    NextTimesAdvances(st, n, n);
    ModUnique(st.index + n, 1, st.index, n);
  }

  /** The events the rendered deck can deliver. */
  datatype DeckEvent = NextClicked | PrevClicked | CardClicked

  /** Applies the events to a deck of `n` cards. An empty deck renders no
      card and no buttons, so every event is ignored. */
  function Run(st: DeckState, n: nat, evs: seq<DeckEvent>): DeckState
    decreases |evs|
  {
    if evs == [] || n == 0 then st
    else
      var next := match evs[0]
        case NextClicked => Next(st, n)
        case PrevClicked => Prev(st, n)
        case CardClicked => Flip(st);
      Run(next, n, evs[1..])
  }

  /** The index never leaves the deck. */
  lemma {:induction false} RunStaysInRange(st: DeckState, n: nat, evs: seq<DeckEvent>)
    requires InRange(st, n)
    ensures InRange(Run(st, n, evs), n)
    decreases |evs|
  {
    if evs != [] {
      var next := match evs[0]
        case NextClicked => Next(st, n)
        case PrevClicked => Prev(st, n)
        case CardClicked => Flip(st);
      RunStaysInRange(next, n, evs[1..]);
    }
  }

  /** What the widget shows: a "none generated" message, or one side of the
      current card with its 1-based position. */
  datatype CardScreen =
    | NoCards
    | CardFace(shown: string, position: nat, total: nat)

  /** The empty-deck guard comes first, so an empty deck is never indexed. */
  function Render(st: DeckState, deck: seq<Flashcard>): (r: CardScreen)
    requires |deck| == 0 || InRange(st, |deck|)
    ensures r.NoCards? <==> |deck| == 0
    ensures r.CardFace? ==> r.position == st.index + 1
    ensures r.CardFace? ==> 1 <= r.position <= r.total == |deck|
    ensures r.CardFace? ==> r.shown == (if st.flipped then deck[st.index].definition else deck[st.index].term)
  {
    if |deck| == 0 then NoCards
    else
      var card := deck[st.index];
      CardFace(if st.flipped then card.definition else card.term, st.index + 1, |deck|)
  }

  /** Every reachable deck state can be rendered, and its position is in [1, n]. */
  lemma ReachableRenders(deck: seq<Flashcard>, evs: seq<DeckEvent>)
    requires |deck| > 0
    ensures InRange(Run(Start, |deck|, evs), |deck|)
    ensures 1 <= Render(Run(Start, |deck|, evs), deck).position <= |deck|
  {
    RunStaysInRange(Start, |deck|, evs);
  }
}
