/**
 * One board slot. Its three coroutines (Delay, Disappear, Shake) are split
 * into the part that runs when the coroutine is started (up to its first
 * yield) and a separate finish step that runs the rest, so that any
 * interleaving of finishes can be explored without modelling time.
 */
module Tiles {
  import opened Wrappers
  import opened MatchUtility

  /** Everything a tile keeps, as one value. */
  datatype TileState = TileState(
    current: MatchSet, isReady: bool, isSelected: bool,
    pendingDelays: nat, pendingValues: seq<MatchSet>, pendingShakes: nat, selectionEvents: nat)

  /**
   * The value a tile holds for the board's bookkeeping: the value of the
   * latest Disappear in flight, else the committed value if it has a
   * sprite, else none.
   */
  function HoldingOf(s: TileState): (h: Option<MatchSet>)
    ensures s.pendingValues == [] ==> (h.Some? <==> s.current.sprite.Some?)
    ensures h.Some? && s.pendingValues == [] ==> h.value == s.current
    ensures s.pendingValues != [] ==> h == Some(s.pendingValues[|s.pendingValues| - 1])
  {
    if s.pendingValues != [] then Some(s.pendingValues[|s.pendingValues| - 1])
    else if s.current.sprite.Some? then Some(s.current)
    else None
  }

  /** The state right after DisappearTile(v) started on a tile in state s. */
  function Disappearing(s: TileState, v: MatchSet): TileState
  {
    s.(pendingDelays := 0, isReady := false, isSelected := false, pendingValues := s.pendingValues + [v])
  }

  /** The state right after ShakeTile started on a tile in state s. */
  function Shaking(s: TileState): TileState
  {
    s.(pendingDelays := 0, isReady := false, isSelected := false, pendingShakes := s.pendingShakes + 1)
  }

  /** The state right after a write of value through the IsSelected setter. */
  function SelectedSet(s: TileState, value: bool): TileState
  {
    s.(isSelected := value, selectionEvents := s.selectionEvents + 1)
  }

  /** The state right after StartCoroutine("Delay"). */
  function Delaying(s: TileState): TileState
  {
    s.(isReady := false, pendingDelays := s.pendingDelays + 1)
  }

  /** The state once the finally block of a Delay has run. */
  function DelayFinished(s: TileState): TileState
    requires s.pendingDelays > 0
  {
    s.(isReady := true, pendingDelays := s.pendingDelays - 1)
  }

  /** The state once the finally block of the oldest Disappear has run. */
  function DisappearFinished(s: TileState): TileState
    requires s.pendingValues != []
  {
    s.(isSelected := false, selectionEvents := s.selectionEvents + 1, current := s.pendingValues[0],
       pendingValues := s.pendingValues[1..], isReady := true)
  }

  /** The state once the finally block of a Shake has run. */
  function ShakeFinished(s: TileState): TileState
    requires s.pendingShakes > 0
  {
    s.(isSelected := false, selectionEvents := s.selectionEvents + 1, pendingShakes := s.pendingShakes - 1, isReady := true)
  }

  /**
   * A tile with a Disappear in flight is unready and has no Delay left
   * that could make it ready before the Disappear commits its value.
   */
  predicate DisappearGuarded(s: TileState)
  {
    s.pendingValues != [] ==> !s.isReady && s.pendingDelays == 0
  }

  /**
   * As Select is written, the Delay starts after the handler has started
   * the tile's Disappear: the guard is broken, and once that Delay
   * finishes the tile is ready with its Disappear still in flight.
   */
  lemma DelayAfterDisappear(s: TileState, v: MatchSet)
    ensures !DisappearGuarded(Delaying(Disappearing(s, v)))
    ensures var f := DelayFinished(Delaying(Disappearing(s, v)));
      f.isReady && f.pendingValues != [] && f.current == s.current
  {
  }

  /**
   * Started before the event is raised, the Delay is stopped by the
   * Disappear the handler starts, and the guard holds whatever the tile's
   * state was; a Delay started on a ready tile, a finishing Delay and a
   * Shake keep it.
   */
  lemma DelayBeforeDisappear(s: TileState, v: MatchSet)
    ensures DisappearGuarded(Disappearing(Delaying(s), v))
    ensures DisappearGuarded(s) && s.isReady ==> DisappearGuarded(Delaying(s))
    ensures DisappearGuarded(s) && s.pendingDelays > 0 ==> DisappearGuarded(DelayFinished(s))
    ensures DisappearGuarded(s) ==> DisappearGuarded(Shaking(s))
  {
  }

  class Tile {
    /** _currentMatchSet: the committed value (its sprite is null while the tile has none). */
    var current: MatchSet
    /** _isReady: Select only acts when this is true. */
    var isReady: bool
    /** _isSelected. */
    var isSelected: bool
    /** Delay coroutines started and not yet finished or stopped. */
    var pendingDelays: nat
    /** Disappear coroutines in flight, oldest first, each with the value it commits. */
    var pendingValues: seq<MatchSet>
    /** Shake coroutines in flight. */
    var pendingShakes: nat
    /** How many times IsSelectedChanged has been raised. */
    var selectionEvents: nat

    /** All of this tile's fields at once. */
    function State(): TileState
      reads this
    {
      TileState(current, isReady, isSelected, pendingDelays, pendingValues, pendingShakes, selectionEvents)
    }

    /** What this tile holds for the board (see HoldingOf). */
    function Holding(): (h: Option<MatchSet>)
      reads this
      ensures h == HoldingOf(State())
      ensures pendingValues != [] ==> h == Some(pendingValues[|pendingValues| - 1])
    {
      HoldingOf(State())
    }

    /** The field initialisers and Awake: Awake writes IsSelected = false through the setter. */
    constructor ()
      ensures current == Default && current.sprite == None
      ensures isReady && !isSelected
      ensures pendingDelays == 0 && pendingValues == [] && pendingShakes == 0
      ensures selectionEvents == 1
      ensures Holding() == None
    {
      current := Default;
      isReady := true;
      pendingDelays := 0;
      pendingValues := [];
      pendingShakes := 0;
      isSelected := false;
      selectionEvents := 1;
    }

    /** The IsSelected setter: every write raises IsSelectedChanged once, even when the value is unchanged. */
    method SetSelected(value: bool)
      modifies this`isSelected, this`selectionEvents
      ensures isSelected == value
      ensures selectionEvents == old(selectionEvents) + 1
      ensures State() == SelectedSet(old(State()), value)
    {
      isSelected := value;
      selectionEvents := selectionEvents + 1;
    }

    /** StartCoroutine("Delay"): the tile stops being ready until this Delay finishes. */
    method StartDelay()
      modifies this`isReady, this`pendingDelays
      ensures !isReady
      ensures pendingDelays == old(pendingDelays) + 1
      ensures State() == Delaying(old(State()))
    {
      isReady := false;
      pendingDelays := pendingDelays + 1;
    }

    /** A Delay reaches its finally block after SELECTION_DELAY: the tile is ready again. */
    method FinishDelay()
      requires pendingDelays > 0
      modifies this`isReady, this`pendingDelays
      ensures isReady
      ensures pendingDelays == old(pendingDelays) - 1
      ensures State() == DelayFinished(old(State()))
    {
      pendingDelays := pendingDelays - 1;
      isReady := true;
    }

    /**
     * DisappearTile: the start of Disappear stops every pending Delay and
     * makes the tile unready and unselected by direct writes (no event); the
     * committed value stays as it was until the coroutine finishes.
     */
    method DisappearTile(newMatchSet: MatchSet)
      modifies this`pendingDelays, this`isReady, this`isSelected, this`pendingValues
      ensures pendingDelays == 0 && !isReady && !isSelected
      ensures pendingValues == old(pendingValues) + [newMatchSet]
      ensures current == old(current) && selectionEvents == old(selectionEvents)
      ensures State() == Disappearing(old(State()), newMatchSet)
      ensures Holding() == Some(newMatchSet)
    {
      pendingDelays := 0;
      isReady := false;
      isSelected := false;
      pendingValues := pendingValues + [newMatchSet];
    }

    /**
     * The finally block of the oldest Disappear: IsSelected = false through
     * the setter (one event), then the new value is committed and the tile
     * is ready.
     */
    method FinishDisappear()
      requires pendingValues != []
      modifies this`isSelected, this`selectionEvents, this`current, this`pendingValues, this`isReady
      ensures !isSelected && isReady
      ensures selectionEvents == old(selectionEvents) + 1
      ensures current == old(pendingValues[0])
      ensures pendingValues == old(pendingValues[1..])
      ensures current.sprite.Some? ==> Holding() == old(Holding())
      ensures State() == DisappearFinished(old(State()))
    {
      var v := pendingValues[0];
      SetSelected(false);
      current := v;
      pendingValues := pendingValues[1..];
      isReady := true;
    }

    /**
     * ShakeTile: the start of Shake stops every pending Delay and makes the
     * tile unready and unselected by direct writes (no event). The value is
     * never touched.
     */
    method ShakeTile()
      modifies this`pendingDelays, this`isReady, this`isSelected, this`pendingShakes
      ensures pendingDelays == 0 && !isReady && !isSelected
      ensures pendingShakes == old(pendingShakes) + 1
      ensures current == old(current) && pendingValues == old(pendingValues)
      ensures selectionEvents == old(selectionEvents)
      ensures State() == Shaking(old(State()))
    {
      pendingDelays := 0;
      isReady := false;
      isSelected := false;
      pendingShakes := pendingShakes + 1;
    }

    /** The finally block of a Shake: IsSelected = false through the setter, then ready. */
    method FinishShake()
      requires pendingShakes > 0
      modifies this`isSelected, this`selectionEvents, this`pendingShakes, this`isReady
      ensures !isSelected && isReady
      ensures selectionEvents == old(selectionEvents) + 1
      ensures pendingShakes == old(pendingShakes) - 1
      ensures current == old(current) && pendingValues == old(pendingValues)
      ensures State() == ShakeFinished(old(State()))
    {
      SetSelected(false);
      pendingShakes := pendingShakes - 1;
      isReady := true;
    }
  }
}
