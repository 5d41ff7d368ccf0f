/** The flashcard page of js/study.js: a fixed deck, a current card that
    the next and previous buttons move around the deck, and a flag that
    says which face is up. */
module Study {
  import opened Results
  import opened Text

  /** One flashcard. */
  datatype Card = Card(ru: string, ko: string, example: string)

  /** The deck the page ships with (`vocabList`). */
  const VOCAB_LIST: seq<Card> := [
    Card("пренебрегать", "무시하다, 경시하다", "Он пренебрегает здоровьем."),
    Card("возражать", "반대하다", "Я не возражаю.")
  ]

  /** The face `renderCard` draws. */
  datatype Face = Front(ru: string) | Back(ko: string, example: string)

  /** JavaScript's `%`: the remainder takes the sign of the dividend. */
  function JsRem(a: int, b: int): (r: int)
    requires b > 0
    ensures a >= 0 ==> r == a % b
    ensures a >= 0 ==> 0 <= r < b
  {
    if a >= 0 then a % b else -((-a) % b)
  }

  /** The index the "next" button moves to in a deck of `n` cards. */
  function NextIndex(i: int, n: int): (j: int)
    requires n > 0 && 0 <= i < n
    ensures 0 <= j < n
    ensures i < n - 1 ==> j == i + 1
    ensures i == n - 1 ==> j == 0
  {
    JsRem(i + 1, n)
  }

  /** The index the "prev" button moves to in a deck of `n` cards. */
  function PrevIndex(i: int, n: int): (j: int)
    requires n > 0 && 0 <= i < n
    ensures 0 <= j < n
    ensures i > 0 ==> j == i - 1
    ensures i == 0 ==> j == n - 1
  {
    JsRem(i - 1 + n, n)
  }

  /** "prev" undoes "next", and "next" undoes "prev". */
  lemma PrevUndoesNext(i: int, n: int)
    requires n > 0 && 0 <= i < n
    ensures PrevIndex(NextIndex(i, n), n) == i
    ensures NextIndex(PrevIndex(i, n), n) == i
  {
  }

  /** The index after pressing "next" `k` times. */
  function NextTimes(i: int, n: int, k: nat): (j: int)
    requires n > 0 && 0 <= i < n
    ensures 0 <= j < n
  {
    if k == 0 then i else NextIndex(NextTimes(i, n, k - 1), n)
  }

  /** Pressing "next" `k` times from the first card lands on card `k mod n`:
      a full round of the deck comes back to the first card. */
  lemma {:induction false} NextTimesFromStart(n: int, k: nat)
    requires n > 0
    ensures NextTimes(0, n, k) == k % n
  {
    if k > 0 {
      NextTimesFromStart(n, k - 1);
      var j := (k - 1) % n;
      if j < n - 1 {
        assert NextIndex(j, n) == j + 1;
        ModStep(k, n);
      } else {
        ModWrap(k, n);
      }
    }
  }

  lemma ModStep(k: nat, n: int)
    requires n > 0 && k > 0 && (k - 1) % n < n - 1
    ensures k % n == (k - 1) % n + 1
  {
    var q := (k - 1) / n;
    assert k == q * n + ((k - 1) % n + 1);
    assert (q + 1) * n == q * n + n;
    DivIs(k, n, q);
  }

  lemma ModWrap(k: nat, n: int)
    requires n > 0 && k > 0 && (k - 1) % n == n - 1
    ensures k % n == 0
  {
    var q := (k - 1) / n;
    assert k == q * n + n;
    assert (q + 1) * n == q * n + n;
    assert (q + 2) * n == q * n + n + n;
    DivIs(k, n, q + 1);
  }

  /** `renderCard()`: nothing on an empty deck; otherwise the Russian word
      on the front, and the meaning and the example on the back. */
  function FaceOf(deck: seq<Card>, index: int, flipped: bool): (f: Option<Face>)
    requires deck != [] ==> 0 <= index < |deck|
    ensures f.None? <==> deck == []
    ensures f.Some? && !flipped ==> f.value == Front(deck[index].ru)
    ensures f.Some? && flipped ==> f.value == Back(deck[index].ko, deck[index].example)
  {
    if deck == [] then None
    else if !flipped then Some(Front(deck[index].ru))
    else Some(Back(deck[index].ko, deck[index].example))
  }

  /** The page's state: `currentIndex` and `isFlipped`. */
  class Flashcards {
    var currentIndex: int
    var isFlipped: bool

    /** The current card is a card of the deck. */
    ghost predicate Valid()
      reads this
    {
      0 <= currentIndex < |VOCAB_LIST|
    }

    /** The page as loaded: the first card, front up. */
    constructor ()
      ensures Valid()
      ensures currentIndex == 0 && !isFlipped
    {
      currentIndex := 0;
      isFlipped := false;
    }

    /** The "next" button: the following card, wrapping round, front up. */
    method Next() returns (face: Option<Face>)
      requires Valid()
      modifies this
      ensures Valid()
      ensures currentIndex == NextIndex(old(currentIndex), |VOCAB_LIST|) && !isFlipped
      ensures face == Some(Front(VOCAB_LIST[currentIndex].ru))
    {
      currentIndex := JsRem(currentIndex + 1, |VOCAB_LIST|);
      isFlipped := false;
      face := FaceOf(VOCAB_LIST, currentIndex, isFlipped);
    }

    /** The "prev" button: the preceding card, wrapping round, front up. */
    method Prev() returns (face: Option<Face>)
      requires Valid()
      modifies this
      ensures Valid()
      ensures currentIndex == PrevIndex(old(currentIndex), |VOCAB_LIST|) && !isFlipped
      ensures face == Some(Front(VOCAB_LIST[currentIndex].ru))
    {
      currentIndex := JsRem(currentIndex - 1 + |VOCAB_LIST|, |VOCAB_LIST|);
      isFlipped := false;
      face := FaceOf(VOCAB_LIST, currentIndex, isFlipped);
    }

    /** The "flip" button and a click on the card: the other face of the
        same card. */
    method Flip() returns (face: Option<Face>)
      requires Valid()
      modifies this
      ensures Valid()
      ensures currentIndex == old(currentIndex) && isFlipped == !old(isFlipped)
      ensures face == FaceOf(VOCAB_LIST, currentIndex, isFlipped)
    {
      isFlipped := !isFlipped;
      face := FaceOf(VOCAB_LIST, currentIndex, isFlipped);
    }
  }

  /** A flip always shows the other face of the card, so two flips show
      the face that was up before them. */
  lemma FlipShowsOtherFace(index: int, flipped: bool)
    requires 0 <= index < |VOCAB_LIST|
    ensures FaceOf(VOCAB_LIST, index, !flipped) != FaceOf(VOCAB_LIST, index, flipped)
  {
  }
}
