/**
 * The score displays: the Scoreboard that counts points while the game
 * board is shown, and the two Highscore read-outs (current and best) of the
 * end view. Each draws its score with three digit renderers, units first.
 */
module Scores {
  import opened Wrappers
  import opened Common

  /** NUM_DIGITS: renderers per display. */
  const NumDigits := 3

  /** The largest score the clamping setters keep. */
  const MaxScore := 999

  /** The clamp of both Score setters: into 0..999. */
  function Clamp(v: int): (r: int)
    ensures 0 <= r <= MaxScore
    ensures 0 <= v <= MaxScore ==> r == v
    ensures v < 0 ==> r == 0
    ensures v > MaxScore ==> r == MaxScore
  {
    if v > MaxScore then MaxScore else if v < 0 then 0 else v
  }

  /** Clamping twice is clamping once, and clamping keeps the order of scores. */
  lemma ClampIdempotentMonotone(a: int, b: int)
    ensures Clamp(Clamp(a)) == Clamp(a)
    ensures a <= b ==> Clamp(a) <= Clamp(b)
  {
  }

  // ---------------------------------------------------------------------
  // Decimal text
  // ---------------------------------------------------------------------

  /** int.ToString() of a non-negative int: its decimal digits, most significant first. */
  function DecimalString(n: nat): (r: string)
    ensures 1 <= |r|
    ensures forall i :: 0 <= i < |r| ==> '0' <= r[i] <= '9'
    ensures n < 10 ==> |r| == 1
    ensures n < 1000 ==> |r| <= NumDigits
    ensures r[0] == '0' ==> n == 0
  {
    if n < 10 then [DigitChar(n)] else DecimalString(n / 10) + [DigitChar(n % 10)]
  }

  /** The number a string of decimal digits denotes. */
  function DecimalValue(s: string): int
  {
    if s == [] then 0 else DecimalValue(s[..|s| - 1]) * 10 + (s[|s| - 1] as int - '0' as int)
  }

  /** Reading back the decimal text of n gives n. */
  lemma {:induction false} DecimalRoundTrip(n: nat)
    ensures DecimalValue(DecimalString(n)) == n
  {
    if n >= 10 {
      DecimalRoundTrip(n / 10);
      var s := DecimalString(n);
      assert s[..|s| - 1] == DecimalString(n / 10);
    }
  }

  // ---------------------------------------------------------------------
  // The three digit renderers
  // ---------------------------------------------------------------------

  /**
   * What SetScore leaves in the renderers for a string of at most three
   * characters: renderer j shows the j-th character from the right, and
   * the renderers past the string show '0'.
   */
  function Layout(score: string): (r: seq<char>)
    requires |score| <= NumDigits
    ensures |r| == NumDigits
  {
    seq(NumDigits, j requires 0 <= j < NumDigits => if j < |score| then score[|score| - 1 - j] else '0')
  }

  /**
   * For a score in 0..999 the renderers show its units, tens and hundreds
   * digits, in that order: read right to left they are the score padded
   * with zeros to three digits.
   */
  lemma DisplayShowsScore(n: int)
    requires 0 <= n <= MaxScore
    ensures Layout(DecimalString(n)) == [DigitChar(n % 10), DigitChar(n / 10 % 10), DigitChar(n / 100)]
  {
    var s := DecimalString(n);
    if n >= 100 {
      assert (n / 10) / 10 == n / 100 && (n / 10) % 10 == n / 10 % 10;
      assert DecimalString(n / 10) == [DigitChar(n / 100)] + [DigitChar(n / 10 % 10)];
      assert s == [DigitChar(n / 100)] + [DigitChar(n / 10 % 10)] + [DigitChar(n % 10)];
    } else if n >= 10 {
      assert s == [DigitChar(n / 10)] + [DigitChar(n % 10)];
    }
  }

  /** What a display shows for a score in 0..999: renderer j shows the digit of weight 10^j. */
  function Digits(n: int): (r: seq<char>)
    requires 0 <= n <= MaxScore
    ensures |r| == NumDigits
  {
    [DigitChar(n % 10), DigitChar(n / 10 % 10), DigitChar(n / 100)]
  }

  /** The three renderers of a score display, each showing one character. */
  class Display {
    /** _spriteRenderers: renderer j draws the character renderers[j]. */
    const renderers: array<char>

    predicate Valid()
    {
      renderers.Length == NumDigits
    }

    /** What the renderers show. */
    function Shown(): seq<char>
      reads renderers
    {
      renderers[..]
    }

    /** Awake: NUM_DIGITS renderers, each showing '0'. */
    constructor ()
      ensures Valid() && fresh(renderers)
      ensures Shown() == "000"
    {
      renderers := new char[NumDigits](_ => '0');
    }

    /**
     * SetScore: a string longer than three characters changes nothing;
     * otherwise its characters go right to left into renderers 0.., and
     * the remaining renderers are set to '0'.
     */
    method SetScore(score: string)
      requires Valid()
      modifies renderers
      ensures |score| > NumDigits ==> Shown() == old(Shown())
      ensures |score| <= NumDigits ==> Shown() == Layout(score)
    {
      var length := |score|;
      if length > NumDigits {
        return;
      }
      var j := 0;
      var i := length - 1;
      while i >= 0 && j < NumDigits
        invariant -1 <= i < length && j == length - 1 - i
        invariant forall k :: 0 <= k < j ==> renderers[k] == score[length - 1 - k]
      {
        renderers[j] := score[i];
        j := j + 1;
        i := i - 1;
      }
      i := NumDigits - 1;
      while i > length - 1
        invariant length - 1 <= i <= NumDigits - 1
        invariant forall k :: 0 <= k < length ==> renderers[k] == score[length - 1 - k]
        invariant forall k :: i < k < NumDigits ==> renderers[k] == '0'
      {
        renderers[i] := '0';
        i := i - 1;
      }
      assert Shown() == Layout(score);
    }
  }

  // ---------------------------------------------------------------------
  // Highscore
  // ---------------------------------------------------------------------

  /** One read-out of the end view (current score or best score). */
  class Highscore {
    /** _score. */
    var score: int
    const display: Display

    /** The score is in 0..999 and the display shows its digits. */
    ghost predicate Valid()
      reads this, display.renderers
    {
      display.Valid() && 0 <= score <= MaxScore && display.Shown() == Digits(score)
    }

    /** Awake, with _score at its initial 0. */
    constructor ()
      ensures Valid() && fresh(display) && fresh(display.renderers)
      ensures score == 0 && display.Shown() == "000"
    {
      score := 0;
      display := new Display();
    }

    /**
     * The Score setter: the value clamped into 0..999 is kept and drawn,
     * units in renderer 0, tens in renderer 1, hundreds in renderer 2.
     */
    method UpdateScore(value: int)
      requires display.Valid()
      modifies this`score, display.renderers
      ensures Valid()
      ensures score == Clamp(value)
      ensures display.Shown() == Layout(DecimalString(score))
      ensures display.Shown() == [DigitChar(score % 10), DigitChar(score / 10 % 10), DigitChar(score / 100)]
    {
      score := Clamp(value);
      display.SetScore(DecimalString(score));
      DisplayShowsScore(score);
    }
  }

  // ---------------------------------------------------------------------
  // Scoreboard
  // ---------------------------------------------------------------------

  /** The stored high score, 0 when there is none (PlayerPrefs.HasKey false). */
  function Previous(stored: Option<int>): int
  {
    if stored.Some? then stored.value else 0
  }

  /** What TryAddHighScore leaves stored: the score, when it beats the previous high score. */
  function Recorded(stored: Option<int>, score: int): Option<int>
  {
    if score > Previous(stored) then Some(score) else stored
  }

  /**
   * The stored high score only grows, becomes the larger of the previous
   * one and the score, and recording the same score again changes nothing.
   */
  lemma RecordedIsMax(stored: Option<int>, score: int)
    ensures Previous(Recorded(stored, score)) == if score > Previous(stored) then score else Previous(stored)
    ensures Previous(Recorded(stored, score)) >= Previous(stored)
    ensures Recorded(Recorded(stored, score), score) == Recorded(stored, score)
  {
  }

  class Scoreboard {
    /** _score. */
    var score: int
    const display: Display
    /** _currentHighscore and _bestHighscore. */
    const current: Highscore
    const best: Highscore

    /**
     * The score is in 0..999 and drawn on the display, both read-outs
     * show their own scores, and the three displays are distinct.
     */
    ghost predicate Valid()
      reads this, display.renderers, current, current.display.renderers, best, best.display.renderers
    {
      && 0 <= score <= MaxScore
      && display.Valid() && display.Shown() == Digits(score)
      && current.Valid() && best.Valid()
      && current != best
      && display.renderers != current.display.renderers
      && display.renderers != best.display.renderers
      && current.display.renderers != best.display.renderers
    }

    /** Awake, with _score at its initial 0 and the two read-outs of the end view. */
    constructor (current: Highscore, best: Highscore)
      requires current != best && current.display.renderers != best.display.renderers
      requires current.Valid() && best.Valid()
      ensures Valid() && score == 0 && display.Shown() == "000"
      ensures this.current == current && this.best == best
    {
      score := 0;
      display := new Display();
      this.current := current;
      this.best := best;
    }

    /** The private Score setter: clamp into 0..999, then draw. */
    method UpdateScore(value: int)
      requires Valid()
      modifies this`score, display.renderers
      ensures Valid()
      ensures score == Clamp(value)
      ensures display.Shown() == [DigitChar(score % 10), DigitChar(score / 10 % 10), DigitChar(score / 100)]
    {
      score := Clamp(value);
      display.SetScore(DecimalString(score));
      DisplayShowsScore(score);
    }

    /** SuccessfulMatch: three points more, at most 999, and drawn. */
    method OnSuccessfulMatch()
      requires Valid()
      modifies this`score, display.renderers
      ensures Valid()
      ensures score == if old(score) + 3 > MaxScore then MaxScore else old(score) + 3
      ensures display.Shown() == Digits(score)
    {
      UpdateScore(score + 3);
    }

    /** UnsuccessfulMatch: one point less, at least 0, and drawn. */
    method OnUnsuccessfulMatch()
      requires Valid()
      modifies this`score, display.renderers
      ensures Valid()
      ensures score == if old(score) == 0 then 0 else old(score) - 1
      ensures display.Shown() == Digits(score)
    {
      UpdateScore(score - 1);
    }

    /** The board's events, delivered to the two handlers this scoreboard subscribes. */
    method OnBoardEvent(e: BoardEvent)
      requires Valid()
      modifies this`score, display.renderers
      ensures Valid()
      ensures score == Clamp(old(score) + (if e == SuccessfulMatch then 3 else -1))
      ensures display.Shown() == Digits(score)
    {
      if e == SuccessfulMatch {
        OnSuccessfulMatch();
      } else {
        OnUnsuccessfulMatch();
      }
    }

    /**
     * TryAddHighScore, with the PlayerPrefs entry given as stored and its
     * new content returned: the current read-out gets the score, the best
     * one the larger of the score and the previous high score (0 when none
     * is stored), which is written back only when the score beats it. Both
     * read-outs are redrawn by their setters.
     */
    method TryAddHighScore(stored: Option<int>) returns (stored': Option<int>)
      requires Valid()
      modifies current`score, current.display.renderers, best`score, best.display.renderers
      ensures Valid()
      ensures stored' == Recorded(stored, score)
      ensures current.score == score && current.display.Shown() == Digits(score)
      ensures best.score == Clamp(Previous(Recorded(stored, score)))
      ensures best.display.Shown() == Digits(best.score)
    {
      var previous := Previous(stored);
      current.UpdateScore(score);
      if score > previous {
        stored' := Some(score);
        best.UpdateScore(score);
      } else {
        stored' := stored;
        best.UpdateScore(previous);
      }
    }

    /**
     * OnNavigate: towards the game board the score goes back to 0; from the
     * game board to the end view the high scores are updated; any other
     * navigation changes nothing, on the displays included.
     */
    method OnNavigate(next: ViewType, previous: ViewType, stored: Option<int>) returns (stored': Option<int>)
      requires Valid()
      modifies this`score, display.renderers, current`score, current.display.renderers, best`score, best.display.renderers
      ensures Valid()
      ensures next == Gameboard ==>
        && score == 0 && display.Shown() == "000" && stored' == stored
        && current.score == old(current.score) && best.score == old(best.score)
        && current.display.Shown() == old(current.display.Shown()) && best.display.Shown() == old(best.display.Shown())
      ensures next == End && previous == Gameboard ==>
        && score == old(score) && display.Shown() == old(display.Shown()) && stored' == Recorded(stored, score)
        && current.score == score && current.display.Shown() == Digits(score)
        && best.score == Clamp(Previous(Recorded(stored, score))) && best.display.Shown() == Digits(best.score)
      ensures next != Gameboard && !(next == End && previous == Gameboard) ==>
        && score == old(score) && stored' == stored
        && current.score == old(current.score) && best.score == old(best.score)
        && display.Shown() == old(display.Shown())
        && current.display.Shown() == old(current.display.Shown()) && best.display.Shown() == old(best.display.Shown())
    {
      stored' := stored;
      if next == Gameboard {
        UpdateScore(0);
      } else if next == End && previous == Gameboard {
        stored' := TryAddHighScore(stored);
      }
    }
  }
}
