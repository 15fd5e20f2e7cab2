/**
 * The game board: the 27-value universe built in Awake, the pool of values
 * not on the board (_inactiveMatchSets), the tiles, the selection handler
 * that judges three selected tiles, and ResetTiles, which hands tiles new
 * values drawn from the pool.
 */
module Board {
  import opened Wrappers
  import opened MatchUtility
  import opened Tiles
  import opened Common

  predicate Distinct<T(==)>(s: seq<T>)
  {
    forall i, j :: 0 <= i < j < |s| ==> s[i] != s[j]
  }

  lemma DistinctAppend<T>(s: seq<T>, x: T)
    requires Distinct(s) && x !in s
    ensures Distinct(s + [x])
  {
    var s' := s + [x];
    forall i, j | 0 <= i < j < |s'|
      ensures s'[i] != s'[j]
    {
      if j < |s| {
        assert s'[i] == s[i] && s'[j] == s[j];
      } else {
        assert s'[i] == s[i];
      }
    }
  }

  function Min(a: int, b: int): int
  {
    if a <= b then a else b
  }

  // ---------------------------------------------------------------------
  // The universe of values
  // ---------------------------------------------------------------------

  /**
   * The value Awake builds for colour c, number n and symbol s, with the
   * sprite named by the concatenated digits (every such sprite resource is
   * taken to exist).
   */
  function Face(c: int, n: int, s: int): MatchSet
    requires 0 <= c < 3 && 0 <= n < 3 && 0 <= s < 3
  {
    MatchSet(ToColor(c), n, ToSymbol(s), Some(Sprite([DigitChar(c), DigitChar(n), DigitChar(s)])))
  }

  /** The value Awake adds at step i of its three nested loops (i = 9c + 3n + s). */
  function FaceAt(i: int): MatchSet
    requires 0 <= i < 27
  {
    Face(i / 9, (i / 3) % 3, i % 3)
  }

  /** The values of the first k steps of Awake's loops. */
  function FacesBelow(k: int): set<MatchSet>
    requires 0 <= k <= 27
  {
    set i | 0 <= i < k :: FaceAt(i)
  }

  /** All 27 values. */
  function Universe(): set<MatchSet>
  {
    FacesBelow(27)
  }

  /** Steps of Awake's loops produce values with different faces. */
  lemma FaceAtInjective(i: int, j: int)
    requires 0 <= i < 27 && 0 <= j < 27
    ensures SameFace(FaceAt(i), FaceAt(j)) ==> i == j
  {
    if SameFace(FaceAt(i), FaceAt(j)) {
      assert ColorValue(FaceAt(i).color) == i / 9 && ColorValue(FaceAt(j).color) == j / 9;
      assert SymbolValue(FaceAt(i).symbol) == i % 3 && SymbolValue(FaceAt(j).symbol) == j % 3;
    }
  }

  /** The first k steps give k distinct values. */
  lemma {:induction false} FacesBelowSize(k: int)
    requires 0 <= k <= 27
    ensures |FacesBelow(k)| == k
  {
    if k > 0 {
      FacesBelowSize(k - 1);
      FacesBelowStep(k - 1);
      FaceAtNew(k - 1);
    } else {
      assert FacesBelow(0) == {};
    }
  }

  /** Step k of Awake's loops adds a value the earlier steps did not. */
  lemma FaceAtNew(k: int)
    requires 0 <= k < 27
    ensures FaceAt(k) !in FacesBelow(k)
  {
    if FaceAt(k) in FacesBelow(k) {
      var i :| 0 <= i < k && FaceAt(i) == FaceAt(k);
      FaceAtInjective(i, k);
    }
  }

  /** One more step of Awake's loops adds the value of that step. */
  lemma FacesBelowStep(k: int)
    requires 0 <= k < 27
    ensures FacesBelow(k + 1) == FacesBelow(k) + {FaceAt(k)}
  {
  }

  /**
   * The universe: 27 values, each well-formed and with a sprite, no two
   * sharing a face, and every well-formed face present.
   */
  lemma UniverseFacts()
    ensures |Universe()| == 27
    ensures forall x :: x in Universe() ==> WellFormed(x) && x.sprite.Some?
    ensures forall x, y :: x in Universe() && y in Universe() && SameFace(x, y) ==> x == y
    ensures forall m :: WellFormed(m) ==> exists x :: x in Universe() && SameFace(x, m)
  {
    FacesBelowSize(27);
    forall x, y | x in Universe() && y in Universe() && SameFace(x, y)
      ensures x == y
    {
      var i :| 0 <= i < 27 && FaceAt(i) == x;
      var j :| 0 <= j < 27 && FaceAt(j) == y;
      FaceAtInjective(i, j);
    }
    forall m | WellFormed(m)
      ensures exists x :: x in Universe() && SameFace(x, m)
    {
      var i := 9 * ColorValue(m.color) + 3 * m.number + SymbolValue(m.symbol);
      assert SameFace(FaceAt(i), m);
    }
  }

  /** Every value is in the universe exactly when it is FaceAt of some step. */
  lemma InUniverse(x: MatchSet)
    requires x in Universe()
    ensures WellFormed(x) && x.sprite.Some?
  {
  }

  /** For any two values, exactly one of the 27 completes a match with them. */
  lemma ExactlyOneCompletion(a: MatchSet, b: MatchSet)
    ensures exists c :: c in Universe() && CheckMatch([a, b, c])
    ensures forall c, d :: c in Universe() && d in Universe() && CheckMatch([a, b, c]) && CheckMatch([a, b, d]) ==> c == d
  {
    UniverseFacts();
    var w := Completion(a, b);
    var c :| c in Universe() && SameFace(c, w);
    CompletionUnique(a, b, c);
    forall c, d | c in Universe() && d in Universe() && CheckMatch([a, b, c]) && CheckMatch([a, b, d])
      ensures c == d
    {
      CompletionUnique(a, b, c);
      CompletionUnique(a, b, d);
    }
  }

  // ---------------------------------------------------------------------
  // The partition of the universe between the pool and the tiles
  // ---------------------------------------------------------------------

  /** The values a sequence of holdings names. */
  function HeldValues(h: seq<Option<MatchSet>>): set<MatchSet>
  {
    set i | 0 <= i < |h| && h[i].Some? :: h[i].value
  }

  function OptionSet(o: Option<MatchSet>): set<MatchSet>
  {
    if o.Some? then {o.value} else {}
  }

  /**
   * The pool and the tiles' holdings split the universe: no value is held
   * twice, no held value is in the pool, and together they are the 27.
   */
  ghost predicate PartitionOf(pool: set<MatchSet>, h: seq<Option<MatchSet>>)
  {
    && (forall i, j :: 0 <= i < j < |h| && h[i].Some? && h[j].Some? ==> h[i].value != h[j].value)
    && (forall i :: 0 <= i < |h| && h[i].Some? ==> h[i].value !in pool)
    && pool + HeldValues(h) == Universe()
  }

  /**
   * One step of ResetTiles keeps the partition: the tile's old holding goes
   * back to the pool and a pool value m becomes its holding.
   */
  lemma PartitionStep(pool: set<MatchSet>, h: seq<Option<MatchSet>>, k: int, m: MatchSet)
    requires PartitionOf(pool, h)
    requires 0 <= k < |h| && m in pool
    ensures PartitionOf((pool + OptionSet(h[k])) - {m}, h[k := Some(m)])
  {
    var pool', h' := (pool + OptionSet(h[k])) - {m}, h[k := Some(m)];
    assert m !in HeldValues(h);
    assert HeldValues(h') == (HeldValues(h) - OptionSet(h[k])) + {m} by {
      forall x | x in HeldValues(h')
        ensures x in (HeldValues(h) - OptionSet(h[k])) + {m}
      {
        var i :| 0 <= i < |h'| && h'[i].Some? && h'[i].value == x;
        if i != k {
          assert h[i] == h'[i];
        }
      }
      forall x | x in (HeldValues(h) - OptionSet(h[k])) + {m}
        ensures x in HeldValues(h')
      {
        if x == m {
          assert h'[k] == Some(m);
        } else {
          var i :| 0 <= i < |h| && h[i].Some? && h[i].value == x;
          assert i != k;
          assert h'[i] == h[i];
        }
      }
    }
    forall i, j | 0 <= i < j < |h'| && h'[i].Some? && h'[j].Some?
      ensures h'[i].value != h'[j].value
    {
      if i == k {
        assert h[j].value in HeldValues(h);
      } else if j == k {
        assert h[i].value in HeldValues(h);
      }
    }
  }

  /** The fact a partition gives about a holding: the pool does not hold it. */
  lemma HeldNotInPool(pool: set<MatchSet>, h: seq<Option<MatchSet>>, k: int)
    requires PartitionOf(pool, h) && 0 <= k < |h| && h[k].Some?
    ensures h[k].value !in pool && h[k].value in Universe()
  {
    assert h[k].value in HeldValues(h);
  }

  /** The values of a sequence, as a set. */
  function Elements(s: seq<MatchSet>): set<MatchSet>
  {
    set x | x in s
  }

  /** The values the released tiles return to the pool (only those with a sprite). */
  function Released(olds: seq<MatchSet>): set<MatchSet>
  {
    set j | 0 <= j < |olds| && olds[j].sprite.Some? :: olds[j]
  }

  /**
   * The pool after ResetTiles has, step by step, added the old value of
   * tile j (when it has a sprite) and removed the value drawn for it.
   */
  function ReleaseDraw(pool: set<MatchSet>, olds: seq<MatchSet>, drawn: seq<MatchSet>): set<MatchSet>
    requires |olds| == |drawn|
  {
    if drawn == [] then pool
    else
      (ReleaseDraw(pool, olds[..|olds| - 1], drawn[..|drawn| - 1]) + OptionSet(if olds[|olds| - 1].sprite.Some? then Some(olds[|olds| - 1]) else None))
        - {drawn[|drawn| - 1]}
  }

  /**
   * When every value drawn came from the pool and no released value was in
   * it, the step-by-step pool is (pool minus the drawn values) plus the
   * released ones.
   */
  lemma {:induction false} ReleaseDrawSplit(pool: set<MatchSet>, olds: seq<MatchSet>, drawn: seq<MatchSet>)
    requires |olds| == |drawn|
    requires forall j :: 0 <= j < |drawn| ==> drawn[j] in pool
    requires forall j :: 0 <= j < |olds| ==> olds[j] !in pool || olds[j].sprite == None
    ensures ReleaseDraw(pool, olds, drawn) == (pool - Elements(drawn)) + Released(olds)
  {
    if drawn != [] {
      var n := |drawn| - 1;
      ReleaseDrawSplit(pool, olds[..n], drawn[..n]);
      assert forall j :: 0 <= j < n ==> drawn[..n][j] == drawn[j];
      assert Elements(drawn) == Elements(drawn[..n]) + {drawn[n]};
      assert Released(olds) == Released(olds[..n]) + (if olds[n].sprite.Some? then {olds[n]} else {});
      assert drawn[n] !in Released(olds);
    }
  }

  /** Randomize(tiles): some order of the batch (any may come out). */
  method Shuffle<T(==)>(batch: seq<T>) returns (order: seq<T>)
    requires Distinct(batch)
    ensures multiset(order) == multiset(batch) && Distinct(order)
    ensures |order| == |batch|
    ensures forall j :: 0 <= j < |order| ==> order[j] in batch
  {
    // the source draws a random permutation; any permutation may come out
    order :| multiset(order) == multiset(batch) && Distinct(order);
    assert |multiset(order)| == |multiset(batch)|;
    forall j | 0 <= j < |order|
      ensures order[j] in batch
    {
      assert order[j] in multiset(batch);
    }
  }

  /** Some value of avail has the face of g. */
  predicate FaceLeft(avail: set<MatchSet>, g: MatchSet)
  {
    exists x :: x in avail && SameFace(x, g)
  }

  /**
   * The n-th value drawn (values[n - 1]) has the face of g whenever a value
   * with that face was left after the first n - 1 draws from snapshot.
   */
  predicate ForcedLast(snapshot: set<MatchSet>, values: seq<MatchSet>, n: int, g: MatchSet)
  {
    1 <= n <= |values| &&
    (FaceLeft(snapshot - Elements(values[..n - 1]), g) ==> SameFace(values[n - 1], g))
  }

  /**
   * The draws of ResetTiles from a shuffled snapshot of the pool for n
   * tiles: n - 1 values in snapshot order, then the left-over value whose
   * face is g if there is one, else the next one. First() on an empty list
   * throws: ok is false and the values drawn so far are kept.
   */
  method Draw(snapshot: set<MatchSet>, n: nat, g: MatchSet) returns (ok: bool, values: seq<MatchSet>)
    requires n >= 1
    ensures ok <==> |snapshot| >= n
    ensures |values| == (if ok then n else Min(|snapshot|, n - 1))
    ensures Distinct(values)
    ensures forall j :: 0 <= j < |values| ==> values[j] in snapshot
    ensures ok ==> ForcedLast(snapshot, values, n, g)
  {
    var available := snapshot;
    values := [];
    var i := 0;
    while i < n - 1
      invariant 0 <= i <= n - 1 && |values| == i
      invariant available <= snapshot && |available| + i == |snapshot|
      invariant forall x :: x in values ==> x in snapshot && x !in available
      invariant forall x :: x in snapshot && x !in values ==> x in available
      invariant Distinct(values)
    {
      if available == {} {
        return false, values;
      }
      var m :| m in available;
      available := available - {m};
      DistinctAppend(values, m);
      values := values + [m];
      i := i + 1;
    }
    var forced := set x | x in available && SameFace(x, g);
    var last: MatchSet;
    if forced != {} {
      last :| last in forced;
    } else if available == {} {
      return false, values;
    } else {
      last :| last in available;
      forall x | x in snapshot - Elements(values)
        ensures !SameFace(x, g)
      {
        assert x in available && x !in forced;
      }
    }
    DistinctAppend(values, last);
    values := values + [last];
    ok := true;
    assert values[..n - 1] == values[..i];
  }

  /** The states of a sequence of tiles. */
  function StatesOf(ts: seq<Tile>): (r: seq<TileState>)
    reads ts
    ensures |r| == |ts|
    ensures forall j :: 0 <= j < |ts| ==> r[j] == ts[j].State()
  {
    seq(|ts|, j reads ts requires 0 <= j < |ts| => ts[j].State())
  }

  /** What each of a sequence of tile states holds. */
  function HoldingsOf(ss: seq<TileState>): (h: seq<Option<MatchSet>>)
    ensures |h| == |ss|
    ensures forall i :: 0 <= i < |ss| ==> h[i] == HoldingOf(ss[i])
  {
    seq(|ss|, i requires 0 <= i < |ss| => HoldingOf(ss[i]))
  }

  /** Where t stands in s, or -1 when it is not there. */
  function Position(s: seq<Tile>, t: Tile): (p: int)
    ensures -1 <= p < |s|
    ensures p == -1 <==> t !in s
    ensures p >= 0 ==> s[p] == t
  {
    if s == [] then -1
    else if s[0] == t then 0
    else
      var q := Position(s[1..], t);
      if q == -1 then -1 else q + 1
  }

  /**
   * The states of the tiles ts (formerly ss) once order[j] has started
   * disappearing towards values[j], for every j below |values|.
   */
  function AfterReset(ss: seq<TileState>, ts: seq<Tile>, order: seq<Tile>, values: seq<MatchSet>): (r: seq<TileState>)
    requires |ss| == |ts|
    ensures |r| == |ss|
  {
    seq(|ss|, i requires 0 <= i < |ss| =>
      var p := Position(order, ts[i]);
      if 0 <= p < |values| then Disappearing(ss[i], values[p]) else ss[i])
  }

  /** A value of the pool that was never drawn is still in the pool. */
  lemma {:induction false} ReleaseDrawKeeps(pool: set<MatchSet>, olds: seq<MatchSet>, drawn: seq<MatchSet>, x: MatchSet)
    requires |olds| == |drawn|
    requires x in pool && x !in drawn
    ensures x in ReleaseDraw(pool, olds, drawn)
  {
    if drawn != [] {
      var n := |drawn| - 1;
      assert x != drawn[n];
      assert x !in drawn[..n];
      ReleaseDrawKeeps(pool, olds[..n], drawn[..n], x);
    }
  }

  /**
   * ResetTiles on tiles with no Disappear in flight keeps the partition:
   * each tile in turn gives back what it held and takes a value the pool
   * still has.
   */
  lemma {:induction false} ResetKeepsPartition(pool: set<MatchSet>, ss: seq<TileState>, ts: seq<Tile>, order: seq<Tile>, olds: seq<MatchSet>, values: seq<MatchSet>)
    requires |ss| == |ts| && Distinct(ts) && Distinct(order)
    requires forall j :: 0 <= j < |order| ==> order[j] in ts
    requires |olds| == |values| <= |order|
    requires forall i :: 0 <= i < |ts| && ts[i] in order ==> ss[i].pendingValues == []
    requires forall i, j :: 0 <= i < |ts| && 0 <= j < |olds| && ts[i] == order[j] ==> olds[j] == ss[i].current
    requires Distinct(values)
    requires forall j :: 0 <= j < |values| ==> values[j] in pool
    requires PartitionOf(pool, HoldingsOf(ss))
    ensures PartitionOf(ReleaseDraw(pool, olds, values), HoldingsOf(AfterReset(ss, ts, order, values)))
  {
    if values == [] {
      assert AfterReset(ss, ts, order, values) == ss;
    } else {
      var k := |values| - 1;
      var olds', values' := olds[..k], values[..k];
      DistinctPrefix(values, k);
      ResetKeepsPartition(pool, ss, ts, order, olds', values');
      var i :| 0 <= i < |ts| && ts[i] == order[k];
      var h := HoldingsOf(AfterReset(ss, ts, order, values'));
      AfterResetStep(ss, ts, order, values, i);
      assert h[i] == (if olds[k].sprite.Some? then Some(olds[k]) else None);
      ReleaseDrawKeeps(pool, olds', values', values[k]);
      PartitionStep(ReleaseDraw(pool, olds', values'), h, i, values[k]);
    }
  }

  lemma DistinctPrefix<T>(s: seq<T>, k: int)
    requires Distinct(s) && 0 <= k < |s|
    ensures Distinct(s[..k]) && s[k] !in s[..k]
  {
    forall a, b | 0 <= a < b < k
      ensures s[..k][a] != s[..k][b]
    {
      assert s[..k][a] == s[a] && s[..k][b] == s[b];
    }
  }

  /** One more tile handed a value changes only that tile's holding. */
  lemma AfterResetStep(ss: seq<TileState>, ts: seq<Tile>, order: seq<Tile>, values: seq<MatchSet>, i: int)
    requires |ss| == |ts| && Distinct(ts) && Distinct(order) && 0 < |values| <= |order|
    requires 0 <= i < |ts| && ts[i] == order[|values| - 1]
    ensures HoldingsOf(AfterReset(ss, ts, order, values[..|values| - 1]))[i] == HoldingOf(ss[i])
    ensures HoldingsOf(AfterReset(ss, ts, order, values)) ==
      HoldingsOf(AfterReset(ss, ts, order, values[..|values| - 1]))[i := Some(values[|values| - 1])]
  {
    var k := |values| - 1;
    assert Position(order, ts[i]) == k;
    forall x | 0 <= x < |ts| && x != i
      ensures AfterReset(ss, ts, order, values)[x] == AfterReset(ss, ts, order, values[..k])[x]
    {
      assert Position(order, ts[x]) != k;
    }
  }

  /**
   * Under the same conditions the pool after ResetTiles is the pool minus
   * the values handed out plus the released values.
   */
  lemma ResetPool(pool: set<MatchSet>, ss: seq<TileState>, ts: seq<Tile>, order: seq<Tile>, olds: seq<MatchSet>, values: seq<MatchSet>)
    requires |ss| == |ts|
    requires forall j :: 0 <= j < |order| ==> order[j] in ts
    requires |olds| == |values| <= |order|
    requires forall i :: 0 <= i < |ts| && ts[i] in order ==> ss[i].pendingValues == []
    requires forall i, j :: 0 <= i < |ts| && 0 <= j < |olds| && ts[i] == order[j] ==> olds[j] == ss[i].current
    requires forall j :: 0 <= j < |values| ==> values[j] in pool
    requires PartitionOf(pool, HoldingsOf(ss))
    ensures ReleaseDraw(pool, olds, values) == (pool - Elements(values)) + Released(olds)
  {
    forall j | 0 <= j < |olds| && olds[j].sprite.Some?
      ensures olds[j] !in pool
    {
      var i :| 0 <= i < |ts| && ts[i] == order[j];
      HeldNotInPool(pool, HoldingsOf(ss), i);
    }
    ReleaseDrawSplit(pool, olds, values);
  }

  /**
   * What ResetTiles(batch) does, between the pool p0 and tile states ss0
   * (of the board's tiles ts) before the call and the pool p1 and tile
   * states ss1 after it. order is the shuffled batch, values[j] the value
   * handed to order[j], olds[j] the value order[j] had committed before.
   */
  ghost predicate ResetResult(p0: set<MatchSet>, ss0: seq<TileState>, p1: set<MatchSet>, ss1: seq<TileState>,
    ts: seq<Tile>, batch: seq<Tile>, ok: bool, order: seq<Tile>, values: seq<MatchSet>, olds: seq<MatchSet>)
  {
    && |ss0| == |ts|
    // fewer than three tiles: nothing happens; otherwise First() throws when the snapshot runs out
    && (ok <==> |batch| < 3 || |p0| >= |batch|)
    && (|batch| < 3 ==> order == [] && values == [] && olds == [] && p1 == p0 && ss1 == ss0)
    && (|batch| >= 3 ==> multiset(order) == multiset(batch) && Distinct(order))
    && (forall j :: 0 <= j < |order| ==> order[j] in batch && order[j] in ts)
    && |values| == (if |batch| < 3 then 0 else if ok then |batch| else Min(|p0|, |batch| - 1))
    && |values| <= |order|
    // every value handed out comes from the snapshot, and none twice
    && Distinct(values)
    && (forall j :: 0 <= j < |values| ==> values[j] in p0)
    && |olds| == |values|
    && (forall j :: 0 <= j < |values| ==> olds[j] == ss0[Position(ts, order[j])].current)
    // order[j] has started disappearing towards values[j]; every other tile is as it was
    && ss1 == AfterReset(ss0, ts, order, values)
    // each tile in turn gave back its committed value (if it had a sprite) and took its new one
    && p1 == ReleaseDraw(p0, olds, values)
    // the last tile is forced to the left-over value facing GetMatch of the first
    // two tiles' committed values, if there is one
    && (ok && |batch| >= 3 ==> ForcedLast(p0, values, |batch|, WrittenMatch(olds[0], olds[1])))
  }

  /**
   * ResetTiles on a batch with no Disappear in flight keeps the partition,
   * and the new pool is the old one minus the values handed out plus the
   * released values.
   */
  lemma ResetPreservesPartition(p0: set<MatchSet>, ss0: seq<TileState>, p1: set<MatchSet>, ss1: seq<TileState>,
    ts: seq<Tile>, batch: seq<Tile>, ok: bool, order: seq<Tile>, values: seq<MatchSet>, olds: seq<MatchSet>)
    requires ResetResult(p0, ss0, p1, ss1, ts, batch, ok, order, values, olds)
    requires Distinct(ts)
    requires PartitionOf(p0, HoldingsOf(ss0))
    requires forall i :: 0 <= i < |ts| && ts[i] in batch ==> ss0[i].pendingValues == []
    ensures PartitionOf(p1, HoldingsOf(ss1))
    ensures p1 == (p0 - Elements(values)) + Released(olds)
    ensures forall j, k :: 0 <= j < |values| && 0 <= k < |olds| && olds[k].sprite.Some? ==> values[j] != olds[k]
  {
    ReleasedOffPool(p0, ss0, ts, batch, order, olds);
    if |batch| < 3 {
      assert Elements(values) == {} && Released(olds) == {};
    } else {
      forall i, j | 0 <= i < |ts| && 0 <= j < |olds| && ts[i] == order[j]
        ensures olds[j] == ss0[i].current
      {
        assert Position(ts, order[j]) == i;
      }
      ResetKeepsPartition(p0, ss0, ts, order, olds, values);
      ResetPool(p0, ss0, ts, order, olds, values);
    }
  }

  /** A committed value with a sprite on a batch tile with no Disappear in flight is not in the pool. */
  lemma ReleasedOffPool(p0: set<MatchSet>, ss0: seq<TileState>, ts: seq<Tile>, batch: seq<Tile>,
    order: seq<Tile>, olds: seq<MatchSet>)
    requires |ss0| == |ts| && |olds| <= |order|
    requires PartitionOf(p0, HoldingsOf(ss0))
    requires forall j :: 0 <= j < |order| ==> order[j] in batch && order[j] in ts
    requires forall i :: 0 <= i < |ts| && ts[i] in batch ==> ss0[i].pendingValues == []
    requires forall j :: 0 <= j < |olds| ==> olds[j] == ss0[Position(ts, order[j])].current
    ensures forall k :: 0 <= k < |olds| && olds[k].sprite.Some? ==> olds[k] !in p0
  {
    forall k | 0 <= k < |olds| && olds[k].sprite.Some?
      ensures olds[k] !in p0
    {
      var i := Position(ts, order[k]);
      HeldNotInPool(p0, HoldingsOf(ss0), i);
    }
  }

  /** The parts of ResetShuffled (Shuffle, Draw, ReplaceAll) put together give ResetResult. */
  lemma ResetFromParts(p0: set<MatchSet>, ss0: seq<TileState>, p1: set<MatchSet>, ss1: seq<TileState>,
    ts: seq<Tile>, batch: seq<Tile>, ok: bool, order: seq<Tile>, values: seq<MatchSet>, olds: seq<MatchSet>, g: MatchSet)
    requires |ss0| == |ts| && |batch| >= 3 && |order| == |batch|
    requires multiset(order) == multiset(batch) && Distinct(order)
    requires forall j :: 0 <= j < |order| ==> order[j] in batch
    requires forall t :: t in batch ==> t in ts
    requires ok <==> |p0| >= |order|
    requires |values| == (if ok then |order| else Min(|p0|, |order| - 1))
    requires Distinct(values) && forall j :: 0 <= j < |values| ==> values[j] in p0
    requires ok ==> ForcedLast(p0, values, |order|, g)
    requires |olds| == |values|
    requires forall j :: 0 <= j < |values| ==> olds[j] == ss0[Position(ts, order[j])].current
    requires ss1 == AfterReset(ss0, ts, order, values)
    requires p1 == ReleaseDraw(p0, olds, values)
    requires |olds| >= 2 ==> g == WrittenMatch(olds[0], olds[1])
    ensures ResetResult(p0, ss0, p1, ss1, ts, batch, ok, order, values, olds)
  {
  }

  /**
   * As written, ResetTiles forces the last tile towards Blue, 0, At whenever
   * the first two tiles had committed game values: the forcing does not
   * depend on those values at all.
   */
  lemma ResetForcesDefault(p0: set<MatchSet>, ss0: seq<TileState>, p1: set<MatchSet>, ss1: seq<TileState>,
    ts: seq<Tile>, batch: seq<Tile>, ok: bool, order: seq<Tile>, values: seq<MatchSet>, olds: seq<MatchSet>)
    requires ResetResult(p0, ss0, p1, ss1, ts, batch, ok, order, values, olds)
    requires ok && |batch| >= 3
    requires WellFormed(olds[0]) && WellFormed(olds[1])
    ensures ForcedLast(p0, values, |batch|, Default)
  {
    WrittenMatchIsDefault(olds[0], olds[1]);
  }

  /**
   * With the completion in place of GetMatch, the forced last value
   * completes a match with the first two committed values whenever a value
   * of that face was left in the pool.
   */
  lemma CompletionForcesMatch(snapshot: set<MatchSet>, values: seq<MatchSet>, n: int, a: MatchSet, b: MatchSet)
    requires ForcedLast(snapshot, values, n, Completion(a, b))
    requires FaceLeft(snapshot - Elements(values[..n - 1]), Completion(a, b))
    requires WellFormed(values[n - 1])
    ensures CheckMatch([a, b, values[n - 1]])
  {
    CompletionUnique(a, b, values[n - 1]);
  }

  /**
   * GetMatch is given the committed values of the first two tiles, which
   * the same call hands back to the pool. On a match, the face completing
   * those two is the face of the third matched tile, which is on the board
   * when the snapshot is taken: even a correct completion finds no such
   * value in the pool, so the last tile's value is never forced.
   */
  lemma PreCallCompletionNeverLeft(pool: set<MatchSet>, h: seq<Option<MatchSet>>, a: MatchSet, b: MatchSet, k: int)
    requires PartitionOf(pool, h)
    requires 0 <= k < |h| && h[k].Some?
    requires CheckMatch([a, b, h[k].value])
    ensures !FaceLeft(pool, Completion(a, b))
  {
    var c := h[k].value;
    HeldNotInPool(pool, h, k);
    UniverseFacts();
    CompletionUnique(a, b, c);
    if x :| x in pool && SameFace(x, Completion(a, b)) {
      assert false;
    }
  }

  /** After a reset without a throw, the tile order[j] holds the value handed to it. */
  lemma HandedValueHeld(ss0: seq<TileState>, ss1: seq<TileState>, ts: seq<Tile>, order: seq<Tile>, values: seq<MatchSet>, j: int)
    requires |ss0| == |ts| && Distinct(order) && |values| <= |order|
    requires 0 <= j < |values| && order[j] in ts
    requires ss1 == AfterReset(ss0, ts, order, values)
    ensures 0 <= Position(ts, order[j]) < |ss1|
    ensures HoldingOf(ss1[Position(ts, order[j])]) == Some(values[j])
  {
    var i := Position(ts, order[j]);
    assert Position(order, ts[i]) == j;
  }

  /**
   * The forcing as evidently intended: the completion of the first two
   * NEW values. Whenever a value of that face is left, the three tiles
   * order[0], order[1] and the last one hold a match once the reset is done.
   */
  lemma NewValuesForceMatch(p0: set<MatchSet>, ss0: seq<TileState>, ss1: seq<TileState>, ts: seq<Tile>, order: seq<Tile>, values: seq<MatchSet>)
    requires |ss0| == |ts| && Distinct(order) && 3 <= |values| == |order|
    requires forall j :: 0 <= j < |order| ==> order[j] in ts
    requires values[|values| - 1] in Universe()
    requires ss1 == AfterReset(ss0, ts, order, values)
    requires ForcedLast(p0, values, |values|, Completion(values[0], values[1]))
    requires FaceLeft(p0 - Elements(values[..|values| - 1]), Completion(values[0], values[1]))
    ensures HoldingOf(ss1[Position(ts, order[0])]) == Some(values[0])
    ensures HoldingOf(ss1[Position(ts, order[1])]) == Some(values[1])
    ensures HoldingOf(ss1[Position(ts, order[|values| - 1])]) == Some(values[|values| - 1])
    ensures CheckMatch([values[0], values[1], values[|values| - 1]])
  {
    LastDrawnMatches(p0, values);
    FirstTwoAndLastHeld(ss0, ss1, ts, order, values);
  }

  /** The tiles handed the first two values and the last one hold them after the reset. */
  lemma FirstTwoAndLastHeld(ss0: seq<TileState>, ss1: seq<TileState>, ts: seq<Tile>, order: seq<Tile>, values: seq<MatchSet>)
    requires |ss0| == |ts| && Distinct(order) && 3 <= |values| == |order|
    requires forall j :: 0 <= j < |order| ==> order[j] in ts
    requires ss1 == AfterReset(ss0, ts, order, values)
    ensures HoldingOf(ss1[Position(ts, order[0])]) == Some(values[0])
    ensures HoldingOf(ss1[Position(ts, order[1])]) == Some(values[1])
    ensures HoldingOf(ss1[Position(ts, order[|values| - 1])]) == Some(values[|values| - 1])
  {
    var n := |values|;
    assert order[0] in ts && order[1] in ts && order[n - 1] in ts;
    HandedValueHeld(ss0, ss1, ts, order, values, 0);
    HandedValueHeld(ss0, ss1, ts, order, values, 1);
    HandedValueHeld(ss0, ss1, ts, order, values, n - 1);
  }

  /** The last value drawn by the intended forcing completes a match with the first two. */
  lemma LastDrawnMatches(p0: set<MatchSet>, values: seq<MatchSet>)
    requires 3 <= |values| && values[|values| - 1] in Universe()
    requires ForcedLast(p0, values, |values|, Completion(values[0], values[1]))
    requires FaceLeft(p0 - Elements(values[..|values| - 1]), Completion(values[0], values[1]))
    ensures CheckMatch([values[0], values[1], values[|values| - 1]])
  {
    InUniverse(values[|values| - 1]);
    CompletionForcesMatch(p0, values, |values|, values[0], values[1]);
  }

  // ---------------------------------------------------------------------
  // Selection arbitration
  // ---------------------------------------------------------------------

  /** The positions of the selected tiles, in board order: _tiles.Where(x => x.IsSelected). */
  function SelectedIndices(ss: seq<TileState>): (r: seq<int>)
    ensures forall j :: 0 <= j < |r| ==> 0 <= r[j] < |ss| && ss[r[j]].isSelected
    ensures forall i :: 0 <= i < |ss| && ss[i].isSelected ==> i in r
    ensures forall a, b :: 0 <= a < b < |r| ==> r[a] < r[b]
  {
    if ss == [] then []
    else
      var n := |ss| - 1;
      SelectedIndices(ss[..n]) + (if ss[n].isSelected then [n] else [])
  }

  /** The tiles at the given positions. */
  function Pick(ts: seq<Tile>, idx: seq<int>): (r: seq<Tile>)
    requires forall j :: 0 <= j < |idx| ==> 0 <= idx[j] < |ts|
    ensures |r| == |idx| && forall j :: 0 <= j < |idx| ==> r[j] == ts[idx[j]]
  {
    seq(|idx|, j requires 0 <= j < |idx| => ts[idx[j]])
  }

  /** The committed values of the states at the given positions. */
  function ValuesAt(ss: seq<TileState>, idx: seq<int>): (r: seq<MatchSet>)
    requires forall j :: 0 <= j < |idx| ==> 0 <= idx[j] < |ss|
    ensures |r| == |idx| && forall j :: 0 <= j < |idx| ==> r[j] == ss[idx[j]].current
  {
    seq(|idx|, j requires 0 <= j < |idx| => ss[idx[j]].current)
  }

  /** What the selection handler decides, given the tiles' states once the sender's setter ran. */
  datatype Verdict = Ignored | Matched(picked: seq<int>) | Mismatched(picked: seq<int>)

  /**
   * The handler acts only when the sender is selected and exactly three
   * tiles are; it then tests the three committed values with CheckMatch.
   */
  function Judge(ss: seq<TileState>, senderSelected: bool): (v: Verdict)
    ensures v.Ignored? <==> !senderSelected || |SelectedIndices(ss)| != 3
    ensures !v.Ignored? ==> v.picked == SelectedIndices(ss)
    ensures v.Matched? <==> !v.Ignored? && CheckMatch(ValuesAt(ss, SelectedIndices(ss)))
  {
    var picked := SelectedIndices(ss);
    if !senderSelected || |picked| != 3 then Ignored
    else if CheckMatch(ValuesAt(ss, picked)) then Matched(picked)
    else Mismatched(picked)
  }

  /** The states once every tile at a position in picked has started shaking. */
  function AfterShake(ss: seq<TileState>, picked: seq<int>): (r: seq<TileState>)
    ensures |r| == |ss|
  {
    seq(|ss|, i requires 0 <= i < |ss| => if i in picked then Shaking(ss[i]) else ss[i])
  }

  /**
   * ResetTiles leaves every tile outside the batch as it was; when it does
   * not throw, every tile of the batch has started disappearing towards
   * the value handed to it.
   */
  lemma ResetTouchesOnlyBatch(p0: set<MatchSet>, ss0: seq<TileState>, p1: set<MatchSet>, ss1: seq<TileState>,
    ts: seq<Tile>, batch: seq<Tile>, ok: bool, order: seq<Tile>, values: seq<MatchSet>, olds: seq<MatchSet>)
    requires ResetResult(p0, ss0, p1, ss1, ts, batch, ok, order, values, olds)
    ensures forall i :: 0 <= i < |ts| && ts[i] !in batch ==> ss1[i] == ss0[i]
    ensures ok && |batch| >= 3 ==> forall i :: 0 <= i < |ts| && ts[i] in batch ==>
      0 <= Position(order, ts[i]) < |values| && ss1[i] == Disappearing(ss0[i], values[Position(order, ts[i])])
  {
    forall i | 0 <= i < |ts| && ts[i] !in batch
      ensures ss1[i] == ss0[i]
    {
      if |batch| >= 3 {
        assert ts[i] !in multiset(batch);
        assert ts[i] !in order;
      }
    }
    if ok && |batch| >= 3 {
      forall i | 0 <= i < |ts| && ts[i] in batch
        ensures 0 <= Position(order, ts[i]) < |values|
      {
        assert ts[i] in multiset(order);
      }
    }
  }

  /**
   * What OnIsSelectedChange does, between pool p0 and tile states ss0
   * before the call and p1, ss1 after it; raised is the event the handler
   * raises, if any. A match
   * resets exactly the three selected tiles and raises SuccessfulMatch
   * unless ResetTiles threw; a mismatch shakes the three and raises
   * UnsuccessfulMatch; otherwise nothing happens.
   */
  ghost predicate HandlerResult(p0: set<MatchSet>, ss0: seq<TileState>,
    p1: set<MatchSet>, ss1: seq<TileState>, raised: Option<BoardEvent>, ts: seq<Tile>, senderSelected: bool,
    ok: bool, order: seq<Tile>, values: seq<MatchSet>, olds: seq<MatchSet>)
  {
    && |ss0| == |ts|
    && var v := Judge(ss0, senderSelected);
    && (v.Ignored? ==> ok && p1 == p0 && ss1 == ss0 && raised == None && order == [] && values == [])
    && (!v.Ignored? ==> ThreeResult(p0, ss0, p1, ss1, raised, ts, v.picked, ok, order, values, olds))
  }

  /**
   * What the handler does with the three selected tiles at positions
   * picked: on a match, ResetTiles of exactly those three and
   * SuccessfulMatch unless it threw; otherwise the three shake,
   * UnsuccessfulMatch is raised and the pool is untouched.
   */
  ghost predicate ThreeResult(p0: set<MatchSet>, ss0: seq<TileState>,
    p1: set<MatchSet>, ss1: seq<TileState>, raised: Option<BoardEvent>, ts: seq<Tile>, picked: seq<int>,
    ok: bool, order: seq<Tile>, values: seq<MatchSet>, olds: seq<MatchSet>)
  {
    && |ss0| == |ts|
    && (forall j :: 0 <= j < |picked| ==> 0 <= picked[j] < |ts|)
    && (CheckMatch(ValuesAt(ss0, picked)) ==>
         && ResetResult(p0, ss0, p1, ss1, ts, Pick(ts, picked), ok, order, values, olds)
         && raised == (if ok then Some(SuccessfulMatch) else None))
    && (!CheckMatch(ValuesAt(ss0, picked)) ==>
         ok && p1 == p0 && ss1 == AfterShake(ss0, picked) && raised == Some(UnsuccessfulMatch) && order == [] && values == [])
  }

  /** Shaking changes no holding. */
  lemma ShakeKeepsHoldings(ss: seq<TileState>, picked: seq<int>)
    ensures HoldingsOf(AfterShake(ss, picked)) == HoldingsOf(ss)
  {
    forall i | 0 <= i < |ss|
      ensures HoldingOf(AfterShake(ss, picked)[i]) == HoldingOf(ss[i])
    {
      assert AfterShake(ss, picked)[i].pendingValues == ss[i].pendingValues;
      assert AfterShake(ss, picked)[i].current == ss[i].current;
    }
  }

  /**
   * The tile whose selection completed a match has started disappearing
   * with no Delay left, so the Delay Select starts afterwards is its only
   * one: when that Delay finishes the tile is ready again although its
   * Disappear is still in flight.
   */
  lemma MatchedSenderGetsDelay(p0: set<MatchSet>, toggled: seq<TileState>, p1: set<MatchSet>, handled: seq<TileState>,
    raised: Option<BoardEvent>, ts: seq<Tile>, ok: bool, order: seq<Tile>, values: seq<MatchSet>, olds: seq<MatchSet>, k: int)
    requires HandlerResult(p0, toggled, p1, handled, raised, ts, true, ok, order, values, olds)
    requires Judge(toggled, true).Matched? && ok
    requires 0 <= k < |ts| && toggled[k].isSelected
    ensures handled[k].pendingValues != [] && handled[k].pendingDelays == 0
    ensures Delaying(handled[k]).pendingDelays == 1 && !Delaying(handled[k]).isReady
    ensures !DisappearGuarded(Delaying(handled[k]))
    ensures DelayFinished(Delaying(handled[k])).isReady && DelayFinished(Delaying(handled[k])).pendingValues != []
  {
    var picked := SelectedIndices(toggled);
    var batch := Pick(ts, picked);
    var j :| 0 <= j < |picked| && picked[j] == k;
    assert batch[j] == ts[k];
    ResetTouchesOnlyBatch(p0, toggled, p1, handled, ts, batch, ok, order, values, olds);
  }

  /** No more values are held than there are tiles. */
  lemma {:induction false} HeldValuesSize(h: seq<Option<MatchSet>>)
    ensures |HeldValues(h)| <= |h|
  {
    if h != [] {
      var n := |h| - 1;
      HeldValuesSize(h[..n]);
      assert HeldValues(h) <= HeldValues(h[..n]) + OptionSet(h[n]) by {
        forall x | x in HeldValues(h)
          ensures x in HeldValues(h[..n]) + OptionSet(h[n])
        {
          var i :| 0 <= i < |h| && h[i].Some? && h[i].value == x;
          if i < n {
            assert h[..n][i] == h[i];
          }
        }
      }
      assert |HeldValues(h[..n]) + OptionSet(h[n])| <= |HeldValues(h[..n])| + |OptionSet(h[n])|;
      SubsetSize(HeldValues(h), HeldValues(h[..n]) + OptionSet(h[n]));
    }
  }

  lemma SubsetSize<T>(a: set<T>, b: set<T>)
    requires a <= b
    ensures |a| <= |b|
  {
    assert b == a + (b - a);
  }

  /** Under the partition the pool keeps at least 27 minus the number of tiles. */
  lemma PoolSize(pool: set<MatchSet>, h: seq<Option<MatchSet>>)
    requires PartitionOf(pool, h)
    ensures |pool| >= 27 - |h|
  {
    UniverseFacts();
    HeldValuesSize(h);
    assert |pool + HeldValues(h)| <= |pool| + |HeldValues(h)|;
  }

  /**
   * When the selected tiles have no Disappear in flight and the partition
   * holds on a board of at most 24 tiles, the handler never throws and
   * keeps the partition; a match raises SuccessfulMatch exactly once.
   */
  lemma HandlerKeepsPartition(p0: set<MatchSet>, ss0: seq<TileState>,
    p1: set<MatchSet>, ss1: seq<TileState>, raised: Option<BoardEvent>, ts: seq<Tile>, senderSelected: bool,
    ok: bool, order: seq<Tile>, values: seq<MatchSet>, olds: seq<MatchSet>)
    requires HandlerResult(p0, ss0, p1, ss1, raised, ts, senderSelected, ok, order, values, olds)
    requires Distinct(ts) && |ts| <= 24
    requires PartitionOf(p0, HoldingsOf(ss0))
    requires forall i :: 0 <= i < |ss0| && ss0[i].isSelected ==> ss0[i].pendingValues == []
    ensures ok && PartitionOf(p1, HoldingsOf(ss1))
    ensures Judge(ss0, senderSelected).Matched? ==> raised == Some(SuccessfulMatch)
  {
    var v := Judge(ss0, senderSelected);
    if !v.Ignored? {
      ThreeKeepsPartition(p0, ss0, p1, ss1, raised, ts, v.picked, ok, order, values, olds);
    }
  }

  /** The match case of ThreeKeepsPartition. */
  lemma PickedReset(p0: set<MatchSet>, ss0: seq<TileState>, p1: set<MatchSet>, ss1: seq<TileState>,
    ts: seq<Tile>, picked: seq<int>, ok: bool, order: seq<Tile>, values: seq<MatchSet>, olds: seq<MatchSet>)
    requires forall j :: 0 <= j < |picked| ==> 0 <= picked[j] < |ts|
    requires ResetResult(p0, ss0, p1, ss1, ts, Pick(ts, picked), ok, order, values, olds)
    requires Distinct(ts) && |ts| <= 24 && |picked| == 3
    requires PartitionOf(p0, HoldingsOf(ss0))
    requires forall j :: 0 <= j < |picked| ==> ss0[picked[j]].pendingValues == []
    ensures ok && PartitionOf(p1, HoldingsOf(ss1))
  {
    var batch := Pick(ts, picked);
    PoolSize(p0, HoldingsOf(ss0));
    assert |p0| >= |batch|;
    PickedSettled(ss0, ts, picked);
    ResetPreservesPartition(p0, ss0, p1, ss1, ts, batch, ok, order, values, olds);
  }

  /** A tile of Pick(ts, picked) is one of the picked positions, so it has no Disappear in flight. */
  lemma PickedSettled(ss0: seq<TileState>, ts: seq<Tile>, picked: seq<int>)
    requires |ss0| == |ts| && Distinct(ts)
    requires forall j :: 0 <= j < |picked| ==> 0 <= picked[j] < |ts|
    requires forall j :: 0 <= j < |picked| ==> ss0[picked[j]].pendingValues == []
    ensures forall i :: 0 <= i < |ts| && ts[i] in Pick(ts, picked) ==> ss0[i].pendingValues == []
  {
    var batch := Pick(ts, picked);
    forall i | 0 <= i < |ts| && ts[i] in batch
      ensures ss0[i].pendingValues == []
    {
      var j :| 0 <= j < |batch| && batch[j] == ts[i];
      assert ts[picked[j]] == ts[i];
    }
  }

  /** The match and mismatch cases of HandlerKeepsPartition, for three selected tiles at picked. */
  lemma ThreeKeepsPartition(p0: set<MatchSet>, ss0: seq<TileState>,
    p1: set<MatchSet>, ss1: seq<TileState>, raised: Option<BoardEvent>, ts: seq<Tile>, picked: seq<int>,
    ok: bool, order: seq<Tile>, values: seq<MatchSet>, olds: seq<MatchSet>)
    requires ThreeResult(p0, ss0, p1, ss1, raised, ts, picked, ok, order, values, olds)
    requires Distinct(ts) && |ts| <= 24 && |picked| == 3
    requires PartitionOf(p0, HoldingsOf(ss0))
    requires forall j :: 0 <= j < |picked| ==> ss0[picked[j]].pendingValues == []
    ensures ok && PartitionOf(p1, HoldingsOf(ss1))
  {
    if CheckMatch(ValuesAt(ss0, picked)) {
      PickedReset(p0, ss0, p1, ss1, ts, picked, ok, order, values, olds);
    } else {
      ShakeKeepsHoldings(ss0, picked);
    }
  }

  /** Replacing one tile's state changes only that tile's holding. */
  lemma HoldingsUpdate(ss: seq<TileState>, k: int, t: TileState)
    requires 0 <= k < |ss|
    ensures HoldingsOf(ss[k := t]) == HoldingsOf(ss)[k := HoldingOf(t)]
  {
  }

  /** A state update that keeps the tile's holding keeps all holdings. */
  lemma SameHoldings(ss: seq<TileState>, k: int, t: TileState)
    requires 0 <= k < |ss| && HoldingOf(t) == HoldingOf(ss[k])
    ensures HoldingsOf(ss[k := t]) == HoldingsOf(ss)
  {
    HoldingsUpdate(ss, k, t);
    assert HoldingsOf(ss)[k := HoldingOf(ss[k])] == HoldingsOf(ss);
  }

  /**
   * A whole Select keeps the partition: the setter's write and the Delay
   * started afterwards change no holding, and in between the handler keeps
   * it (HandlerKeepsPartition) when the selected tiles have no Disappear
   * in flight.
   */
  lemma SelectKeepsPartition(p0: set<MatchSet>, s0: seq<TileState>, toggled: seq<TileState>,
    p1: set<MatchSet>, handled: seq<TileState>, final: seq<TileState>, raised: Option<BoardEvent>,
    ts: seq<Tile>, value: bool, ok: bool, order: seq<Tile>, values: seq<MatchSet>, olds: seq<MatchSet>, k: int)
    requires 0 <= k < |s0| && |handled| == |s0|
    requires toggled == s0[k := SelectedSet(s0[k], value)]
    requires HandlerResult(p0, toggled, p1, handled, raised, ts, value, ok, order, values, olds)
    requires final == (if ok then handled[k := Delaying(handled[k])] else handled)
    requires Distinct(ts) && |ts| <= 24
    requires PartitionOf(p0, HoldingsOf(s0))
    requires forall i :: 0 <= i < |s0| && toggled[i].isSelected ==> s0[i].pendingValues == []
    ensures ok && PartitionOf(p1, HoldingsOf(final))
  {
    SelectionWrite(p0, s0, toggled, k, value);
    HandlerKeepsPartition(p0, toggled, p1, handled, raised, ts, value, ok, order, values, olds);
    DelayKeepsPartition(p1, handled, final, k);
  }

  /** The Delay Select starts after the handler changes no holding. */
  lemma DelayKeepsPartition(p1: set<MatchSet>, handled: seq<TileState>, final: seq<TileState>, k: int)
    requires 0 <= k < |handled| && final == handled[k := Delaying(handled[k])]
    requires PartitionOf(p1, HoldingsOf(handled))
    ensures PartitionOf(p1, HoldingsOf(final))
  {
    SameHoldings(handled, k, Delaying(handled[k]));
  }

  /** The setter's write keeps the partition and every pending value. */
  lemma SelectionWrite(p0: set<MatchSet>, s0: seq<TileState>, toggled: seq<TileState>, k: int, value: bool)
    requires 0 <= k < |s0| && toggled == s0[k := SelectedSet(s0[k], value)]
    requires PartitionOf(p0, HoldingsOf(s0))
    requires forall i :: 0 <= i < |s0| && toggled[i].isSelected ==> s0[i].pendingValues == []
    ensures PartitionOf(p0, HoldingsOf(toggled))
    ensures forall i :: 0 <= i < |toggled| && toggled[i].isSelected ==> toggled[i].pendingValues == []
  {
    SameHoldings(s0, k, SelectedSet(s0[k], value));
    assert forall i :: 0 <= i < |toggled| ==> toggled[i].pendingValues == s0[i].pendingValues;
  }

  /**
   * The finish steps keep the partition: a finishing Delay or Shake
   * changes no holding, and a finishing Disappear commits a value of the
   * universe, which has a sprite, so the tile goes on holding it.
   */
  lemma FinishKeepsPartition(pool: set<MatchSet>, ss: seq<TileState>, k: int)
    requires PartitionOf(pool, HoldingsOf(ss)) && 0 <= k < |ss|
    ensures ss[k].pendingDelays > 0 ==> PartitionOf(pool, HoldingsOf(ss[k := DelayFinished(ss[k])]))
    ensures ss[k].pendingShakes > 0 ==> PartitionOf(pool, HoldingsOf(ss[k := ShakeFinished(ss[k])]))
    ensures ss[k].pendingValues != [] ==> PartitionOf(pool, HoldingsOf(ss[k := DisappearFinished(ss[k])]))
  {
    var h := HoldingsOf(ss);
    assert h[k := h[k]] == h;
    if ss[k].pendingDelays > 0 {
      HoldingsUpdate(ss, k, DelayFinished(ss[k]));
    }
    if ss[k].pendingShakes > 0 {
      HoldingsUpdate(ss, k, ShakeFinished(ss[k]));
    }
    if ss[k].pendingValues != [] {
      HeldNotInPool(pool, h, k);
      InUniverse(ss[k].pendingValues[|ss[k].pendingValues| - 1]);
      HoldingsUpdate(ss, k, DisappearFinished(ss[k]));
      assert HoldingOf(DisappearFinished(ss[k])) == h[k];
    }
  }

  // ---------------------------------------------------------------------
  // Start and OnNavigate
  // ---------------------------------------------------------------------

  /** The states once every tile has had IsSelected = true written through its setter. */
  function SelectedAll(ss: seq<TileState>): (r: seq<TileState>)
    ensures |r| == |ss|
    ensures forall i :: 0 <= i < |ss| ==> r[i].isSelected && r[i].selectionEvents == ss[i].selectionEvents + 1
  {
    seq(|ss|, i requires 0 <= i < |ss| => SelectedSet(ss[i], true))
  }

  /** The states once the first n tiles have had IsSelected = true written. */
  function SelectedBelow(ss: seq<TileState>, n: int): (r: seq<TileState>)
    ensures |r| == |ss|
  {
    seq(|ss|, i requires 0 <= i < |ss| => if i < n then SelectedSet(ss[i], true) else ss[i])
  }

  /**
   * Start or OnNavigate(Gameboard) on a board of at most 13 tiles whose
   * tiles have no Disappear in flight and whose pool and tiles split the
   * universe: ResetTiles does not throw, the partition holds afterwards,
   * and every tile (nine of them on the real board) ends unselected and
   * unready, waiting for its Disappear.
   */
  lemma BoardResetKeepsPartition(p0: set<MatchSet>, ss0: seq<TileState>, p1: set<MatchSet>, ss1: seq<TileState>,
    ts: seq<Tile>, ok: bool, order: seq<Tile>, values: seq<MatchSet>, olds: seq<MatchSet>)
    requires ResetResult(p0, SelectedAll(ss0), p1, ss1, ts, ts, ok, order, values, olds)
    requires Distinct(ts) && 3 <= |ts| <= 13
    requires PartitionOf(p0, HoldingsOf(ss0))
    requires forall i :: 0 <= i < |ss0| ==> ss0[i].pendingValues == []
    ensures ok && PartitionOf(p1, HoldingsOf(ss1))
    ensures forall i :: 0 <= i < |ss1| ==> !ss1[i].isSelected && !ss1[i].isReady && ss1[i].pendingValues != []
  {
    var ss := SelectedAll(ss0);
    SelectedAllHoldings(ss0);
    PoolSize(p0, HoldingsOf(ss0));
    ResetPreservesPartition(p0, ss, p1, ss1, ts, ts, ok, order, values, olds);
    FullResetDisappears(ss, ss1, ts, order, values);
  }

  /** Writing IsSelected changes no holding. */
  lemma SelectedAllHoldings(ss: seq<TileState>)
    ensures HoldingsOf(SelectedAll(ss)) == HoldingsOf(ss)
    ensures forall i :: 0 <= i < |ss| ==> SelectedAll(ss)[i].pendingValues == ss[i].pendingValues
  {
    forall i | 0 <= i < |ss|
      ensures HoldingOf(SelectedAll(ss)[i]) == HoldingOf(ss[i])
    {
      assert SelectedAll(ss)[i].pendingValues == ss[i].pendingValues && SelectedAll(ss)[i].current == ss[i].current;
    }
  }

  /** Handing a value to every tile of the board leaves each one disappearing. */
  lemma FullResetDisappears(ss: seq<TileState>, ss1: seq<TileState>, ts: seq<Tile>, order: seq<Tile>, values: seq<MatchSet>)
    requires |ss| == |ts| && multiset(order) == multiset(ts) && |values| == |ts|
    requires ss1 == AfterReset(ss, ts, order, values)
    ensures forall i :: 0 <= i < |ss1| ==> !ss1[i].isSelected && !ss1[i].isReady && ss1[i].pendingValues != []
  {
    assert |order| == |multiset(order)| == |ts|;
    forall i | 0 <= i < |ss1|
      ensures !ss1[i].isSelected && !ss1[i].isReady && ss1[i].pendingValues != []
    {
      assert ts[i] in multiset(order);
      assert 0 <= Position(order, ts[i]) < |values|;
    }
  }

  /** Awake's three nested loops: one value per colour, number and symbol. */
  method BuildUniverse() returns (u: set<MatchSet>)
    ensures u == Universe()
  {
    u := {};
    for c := 0 to 3
      invariant u == FacesBelow(9 * c)
    {
      for n := 0 to 3
        invariant u == FacesBelow(9 * c + 3 * n)
      {
        for sy := 0 to 3
          invariant u == FacesBelow(9 * c + 3 * n + sy)
        {
          AwakeStep(c, n, sy);
          u := u + {Face(c, n, sy)};
        }
      }
    }
  }

  /** The step of Awake's loops for colour c, number n and symbol s adds the value FaceAt(9c + 3n + s). */
  lemma AwakeStep(c: int, n: int, s: int)
    requires 0 <= c < 3 && 0 <= n < 3 && 0 <= s < 3
    ensures FacesBelow(9 * c + 3 * n + s + 1) == FacesBelow(9 * c + 3 * n + s) + {Face(c, n, s)}
  {
    var k := 9 * c + 3 * n + s;
    assert k / 9 == c && (k / 3) % 3 == n && k % 3 == s;
    FacesBelowStep(k);
  }

  class GameBoard {
    /** _inactiveMatchSets: the values on no tile. */
    var pool: set<MatchSet>
    /** _tiles: the board's tiles, in the order GetComponentsInChildren gives them. */
    const tiles: seq<Tile>

    ghost predicate Valid()
    {
      Distinct(tiles)
    }

    /** What each tile holds, tile by tile. */
    function Holdings(): (h: seq<Option<MatchSet>>)
      reads tiles
      ensures |h| == |tiles|
      ensures forall i :: 0 <= i < |tiles| ==> h[i] == tiles[i].Holding()
    {
      HoldingsOf(StatesOf(tiles))
    }

    /** The pool and the tiles split the 27 values. */
    ghost predicate Partitioned()
      reads this, tiles
    {
      PartitionOf(pool, Holdings())
    }

    /**
     * Awake puts the 27 values into the pool; Start finds the tiles
     * (GetComponentsInChildren), given here as ts.
     */
    constructor (ts: seq<Tile>)
      requires Distinct(ts)
      ensures tiles == ts && pool == Universe()
      ensures Valid()
      ensures (forall i :: 0 <= i < |ts| ==> ts[i].Holding() == None) ==> Partitioned()
    {
      var universe := BuildUniverse();
      tiles, pool := ts, universe;
      new;
      if forall i :: 0 <= i < |ts| ==> ts[i].Holding() == None {
        assert HeldValues(Holdings()) == {};
      }
    }

    /**
     * Start, and OnNavigate towards the game board: with the handler
     * unsubscribed every tile is set selected through its setter (so no
     * match is evaluated), then ResetTiles() resets all the tiles.
     * Navigator subscription is not part of this model.
     */
    method Start() returns (ok: bool, order: seq<Tile>, values: seq<MatchSet>, ghost olds: seq<MatchSet>)
      requires Valid()
      modifies this`pool, set t | t in tiles
      ensures ResetResult(old(pool), SelectedAll(old(StatesOf(tiles))), pool, StatesOf(tiles), tiles, tiles, ok, order, values, olds)
    {
      SelectAllDetached();
      ok, order, values, olds := ResetTiles(tiles);
    }

    /** OnNavigate: only a navigation to the game board does anything (Start's loop and ResetTiles()). */
    method OnNavigate(next: ViewType) returns (ok: bool, order: seq<Tile>, values: seq<MatchSet>, ghost olds: seq<MatchSet>)
      requires Valid()
      modifies this`pool, set t | t in tiles
      ensures next != Gameboard ==> ok && pool == old(pool) && StatesOf(tiles) == old(StatesOf(tiles))
      ensures next == Gameboard ==>
        ResetResult(old(pool), SelectedAll(old(StatesOf(tiles))), pool, StatesOf(tiles), tiles, tiles, ok, order, values, olds)
    {
      ok, order, values, olds := true, [], [], [];
      if next == Gameboard {
        ok, order, values, olds := Start();
      }
    }

    /** The loop of Start and OnNavigate: IsSelected = true on every tile, in order. */
    method SelectAllDetached()
      requires Valid()
      modifies set t | t in tiles
      ensures StatesOf(tiles) == SelectedAll(old(StatesOf(tiles)))
    {
      ghost var s0 := StatesOf(tiles);
      assert SelectedBelow(s0, 0) == s0;
      for i := 0 to |tiles|
        invariant StatesOf(tiles) == SelectedBelow(s0, i)
      {
        SetSelectedAt(i, true);
      }
      assert SelectedBelow(s0, |tiles|) == SelectedAll(s0);
    }

    /** A write of value through the IsSelected setter of the tile at k; only that tile changes. */
    method SetSelectedAt(k: int, value: bool)
      requires Valid() && 0 <= k < |tiles|
      modifies tiles[k]
      ensures StatesOf(tiles) == old(StatesOf(tiles))[k := SelectedSet(old(StatesOf(tiles))[k], value)]
    {
      tiles[k].SetSelected(value);
      forall x | 0 <= x < |tiles| && x != k
        ensures tiles[x].State() == old(tiles[x].State())
      {
        assert tiles[x] != tiles[k];
      }
    }

    /** StartCoroutine("Delay") on the tile at k; only that tile changes. */
    method StartDelayAt(k: int)
      requires Valid() && 0 <= k < |tiles|
      modifies tiles[k]
      ensures StatesOf(tiles) == old(StatesOf(tiles))[k := Delaying(old(StatesOf(tiles))[k])]
    {
      tiles[k].StartDelay();
      forall x | 0 <= x < |tiles| && x != k
        ensures tiles[x].State() == old(tiles[x].State())
      {
        assert tiles[x] != tiles[k];
      }
    }

    /**
     * Tile.Select with the board's handler subscribed. When the tile is
     * ready, the IsSelected setter toggles it and raises IsSelectedChanged,
     * which runs the handler at once (toggled: the states it sees; handled:
     * the states it leaves); only then is Delay started on the tile, unless
     * the handler threw. When the tile is not ready nothing happens.
     */
    method Select(t: Tile) returns (raised: Option<BoardEvent>, ok: bool, ghost toggled: seq<TileState>, ghost handled: seq<TileState>,
                                    ghost order: seq<Tile>, ghost values: seq<MatchSet>, ghost olds: seq<MatchSet>)
      requires Valid() && t in tiles
      modifies this`pool, set x | x in tiles
      ensures !old(t.isReady) ==> raised == None && ok && pool == old(pool) && StatesOf(tiles) == old(StatesOf(tiles))
      ensures old(t.isReady) ==>
        var k := Position(tiles, t);
        && 0 <= k < |tiles| && |handled| == |tiles|
        && toggled == old(StatesOf(tiles))[k := SelectedSet(old(StatesOf(tiles))[k], !old(t.isSelected))]
        && HandlerResult(old(pool), toggled, pool, handled, raised, tiles, !old(t.isSelected), ok, order, values, olds)
        && StatesOf(tiles) == (if ok then handled[k := Delaying(handled[k])] else handled)
    {
      ghost var s0 := StatesOf(tiles);
      raised, ok, toggled, handled, order, values, olds := None, true, s0, s0, [], [], [];
      if t.isReady {
        var k := Position(tiles, t);
        SetSelectedAt(k, !t.isSelected);
        toggled := StatesOf(tiles);
        raised, ok, order, values, olds := OnIsSelectedChange(t);
        handled := StatesOf(tiles);
        if ok {
          StartDelayAt(k);
        }
      }
    }

    /**
     * ResetTiles(tiles): with fewer than three tiles nothing happens.
     * Otherwise the tiles are shuffled (any order may come out), and every
     * tile but the last, in that order, releases its value to the pool (if
     * it has a sprite) and starts disappearing towards the next value of a
     * shuffled snapshot of the pool taken at the start. The last tile gets
     * the snapshot value whose face equals GetMatch of the first two tiles'
     * committed (pre-call) values if one is left, else the next one. When
     * the snapshot runs out, First() throws and the call stops where it is
     * (ok is false).
     *
     * The draws depend only on the snapshot and on committed values, which
     * no step of the loop changes, so they are made first (Draw) and then
     * handed out tile by tile (ReplaceAll); the outcome is the source's.
     *
     * order is the shuffled batch, values[j] the value handed to order[j],
     * olds[j] the committed value order[j] had before the call.
     */
    method ResetTiles(batch: seq<Tile>) returns (ok: bool, order: seq<Tile>, values: seq<MatchSet>, ghost olds: seq<MatchSet>)
      requires Valid()
      requires forall t :: t in batch ==> t in tiles
      requires Distinct(batch)
      modifies this`pool, set t | t in batch
      ensures ResetResult(old(pool), old(StatesOf(tiles)), pool, StatesOf(tiles), tiles, batch, ok, order, values, olds)
    {
      ok, order, values, olds := true, [], [], [];
      if |batch| >= 3 {
        ok, order, values, olds := ResetShuffled(batch);
      }
    }

    /** ResetTiles on a batch of three tiles or more. */
    method ResetShuffled(batch: seq<Tile>) returns (ok: bool, order: seq<Tile>, values: seq<MatchSet>, ghost olds: seq<MatchSet>)
      requires Valid() && |batch| >= 3
      requires forall t :: t in batch ==> t in tiles
      requires Distinct(batch)
      modifies this`pool, set t | t in batch
      ensures ResetResult(old(pool), old(StatesOf(tiles)), pool, StatesOf(tiles), tiles, batch, ok, order, values, olds)
    {
      ghost var p0, s0 := pool, StatesOf(tiles);
      order := Shuffle(batch);
      assert order[0].current == s0[Position(tiles, order[0])].current;
      assert order[1].current == s0[Position(tiles, order[1])].current;
      var guaranteed := GetMatch(order[0].current, order[1].current);
      ok, values := Draw(pool, |order|, guaranteed);
      ghost var s1 := StatesOf(tiles);
      assert s1 == s0;
      olds := ReplaceAll(order, values);
      ResetFromParts(p0, s1, pool, StatesOf(tiles), tiles, batch, ok, order, values, olds, guaranteed);
    }

    /** _tiles.Where(x => x.IsSelected).ToList(), as positions in tiles. */
    method SelectedTiles() returns (picked: seq<int>)
      ensures picked == SelectedIndices(StatesOf(tiles))
    {
      ghost var ss := StatesOf(tiles);
      picked := [];
      var i := 0;
      while i < |tiles|
        invariant 0 <= i <= |tiles|
        invariant picked == SelectedIndices(ss[..i])
      {
        assert ss[..i + 1][..i] == ss[..i];
        if tiles[i].isSelected {
          picked := picked + [i];
        }
        i := i + 1;
      }
      assert ss[..i] == ss;
    }

    /** ShakeTile on the tile at k: only that tile's state changes. */
    method ShakeAt(k: int)
      requires Valid() && 0 <= k < |tiles|
      modifies tiles[k]
      ensures StatesOf(tiles) == old(StatesOf(tiles))[k := Shaking(old(StatesOf(tiles))[k])]
    {
      tiles[k].ShakeTile();
      forall x | 0 <= x < |tiles| && x != k
        ensures tiles[x].State() == old(tiles[x].State())
      {
        assert tiles[x] != tiles[k];
      }
    }

    /** foreach (var selectedTile in selectedTiles) selectedTile.ShakeTile(). */
    method ShakeAll(picked: seq<int>)
      requires Valid()
      requires forall j :: 0 <= j < |picked| ==> 0 <= picked[j] < |tiles|
      requires forall a, b :: 0 <= a < b < |picked| ==> picked[a] < picked[b]
      modifies set t | t in tiles
      ensures StatesOf(tiles) == AfterShake(old(StatesOf(tiles)), picked)
    {
      ghost var s0 := StatesOf(tiles);
      var i := 0;
      assert AfterShake(s0, picked[..0]) == s0;
      while i < |picked|
        invariant 0 <= i <= |picked|
        invariant StatesOf(tiles) == AfterShake(s0, picked[..i])
      {
        ghost var st := StatesOf(tiles);
        ShakeAt(picked[i]);
        ShakeStep(s0, st, StatesOf(tiles), picked, i);
        i := i + 1;
      }
      assert picked[..i] == picked;
    }

    /**
     * OnIsSelectedChange(sender): ignored unless the sender is selected and
     * exactly three tiles are; then the three are judged (EvaluateThree).
     * raised is the event the board raises (SuccessfulMatch or
     * UnsuccessfulMatch), if any.
     */
    method OnIsSelectedChange(sender: Tile) returns (raised: Option<BoardEvent>, ok: bool, order: seq<Tile>, values: seq<MatchSet>, ghost olds: seq<MatchSet>)
      requires Valid() && sender in tiles
      modifies this`pool, set t | t in tiles
      ensures HandlerResult(old(pool), old(StatesOf(tiles)), pool, StatesOf(tiles), raised, tiles,
                            old(sender.isSelected), ok, order, values, olds)
    {
      ghost var p0, s0, sel := pool, StatesOf(tiles), sender.isSelected;
      raised, ok, order, values, olds := None, true, [], [], [];
      if !sender.isSelected {
        HandlerIgnored(p0, s0, tiles, sel, olds);
        return;
      }
      var picked := SelectedTiles();
      if |picked| != 3 {
        HandlerIgnored(p0, s0, tiles, sel, olds);
        return;
      }
      ghost var s1 := StatesOf(tiles);
      assert s1 == s0;
      raised, ok, order, values, olds := EvaluateThree(picked);
      HandlerJudged(p0, s1, pool, StatesOf(tiles), raised, tiles, sel, picked, ok, order, values, olds);
    }

    /** The selected three: CheckMatch on their committed values decides between MatchThree and MismatchThree. */
    method EvaluateThree(picked: seq<int>) returns (raised: Option<BoardEvent>, ok: bool, order: seq<Tile>, values: seq<MatchSet>, ghost olds: seq<MatchSet>)
      requires Valid() && |picked| == 3
      requires forall j :: 0 <= j < |picked| ==> 0 <= picked[j] < |tiles|
      requires forall a, b :: 0 <= a < b < |picked| ==> picked[a] < picked[b]
      modifies this`pool, set t | t in tiles
      ensures ThreeResult(old(pool), old(StatesOf(tiles)), pool, StatesOf(tiles), raised, tiles,
                          picked, ok, order, values, olds)
    {
      var matches := [tiles[picked[0]].current, tiles[picked[1]].current, tiles[picked[2]].current];
      assert matches == ValuesAt(StatesOf(tiles), picked);
      if CheckMatch(matches) {
        ok, order, values, olds := MatchThree(picked);
        raised := if ok then Some(SuccessfulMatch) else None;
      } else {
        raised, ok, order, values, olds := Some(UnsuccessfulMatch), true, [], [], [];
        ShakeAll(picked);
      }
    }

    /** A match: ResetTiles(selectedTiles). */
    method MatchThree(picked: seq<int>) returns (ok: bool, order: seq<Tile>, values: seq<MatchSet>, ghost olds: seq<MatchSet>)
      requires Valid() && |picked| == 3
      requires forall j :: 0 <= j < |picked| ==> 0 <= picked[j] < |tiles|
      requires forall a, b :: 0 <= a < b < |picked| ==> picked[a] < picked[b]
      modifies this`pool, set t | t in tiles
      ensures ResetResult(old(pool), old(StatesOf(tiles)), pool, StatesOf(tiles), tiles, Pick(tiles, picked), ok, order, values, olds)
    {
      ghost var p0, s0 := pool, StatesOf(tiles);
      var batch := [tiles[picked[0]], tiles[picked[1]], tiles[picked[2]]];
      ok, order, values, olds := ResetTiles(batch);
      ResetOfPicked(p0, s0, pool, StatesOf(tiles), tiles, batch, picked, ok, order, values, olds);
    }

    /**
     * The loops of ResetTiles once the values are drawn: tile order[j]
     * releases its committed value and starts disappearing towards
     * values[j], for every j below |values|.
     */
    method ReplaceAll(order: seq<Tile>, values: seq<MatchSet>) returns (ghost olds: seq<MatchSet>)
      requires Valid()
      requires forall j :: 0 <= j < |order| ==> order[j] in tiles
      requires Distinct(order) && |values| <= |order|
      modifies this`pool, set t | t in order
      ensures |olds| == |values|
      ensures forall j :: 0 <= j < |values| ==> olds[j] == old(StatesOf(tiles))[Position(tiles, order[j])].current
      ensures pool == ReleaseDraw(old(pool), olds, values)
      ensures StatesOf(tiles) == AfterReset(old(StatesOf(tiles)), tiles, order, values)
    {
      ghost var s0 := StatesOf(tiles);
      olds := [];
      var i := 0;
      assert AfterReset(s0, tiles, order, values[..0]) == s0;
      while i < |values|
        invariant 0 <= i <= |values| && |olds| == i
        invariant forall j :: 0 <= j < i ==> olds[j] == s0[Position(tiles, order[j])].current
        invariant StatesOf(tiles) == AfterReset(s0, tiles, order, values[..i])
        invariant pool == ReleaseDraw(old(pool), olds, values[..i])
      {
        ghost var k := Position(tiles, order[i]);
        ghost var st, p := StatesOf(tiles), pool;
        var released := Replace(order[i], values[i], k);
        ReplaceAllStep(old(pool), s0, st, StatesOf(tiles), p, pool, tiles, order, values, olds, released, i, k);
        olds := olds + [released];
        i := i + 1;
      }
      assert values[..i] == values;
    }

    /**
     * One tile of ResetTiles: its committed value goes back to the pool if
     * it has a sprite, m leaves the pool, and the tile starts disappearing
     * towards m. (For the last tile the source starts the Disappear before
     * removing m from the pool; the two steps touch disjoint state.)
     */
    method Replace(t: Tile, m: MatchSet, ghost k: int) returns (released: MatchSet)
      requires Valid() && 0 <= k < |tiles| && tiles[k] == t
      modifies this`pool, t
      ensures released == old(StatesOf(tiles))[k].current
      ensures pool == (old(pool) + (if released.sprite.Some? then {released} else {})) - {m}
      ensures StatesOf(tiles) == old(StatesOf(tiles))[k := Disappearing(old(StatesOf(tiles))[k], m)]
    {
      released := t.current;
      if released.sprite.Some? {
        pool := pool + {released};
      }
      pool := pool - {m};
      t.DisappearTile(m);
      forall x | 0 <= x < |tiles| && x != k
        ensures tiles[x].State() == old(tiles[x].State())
      {
        assert tiles[x] != t;
      }
    }
  }

  lemma PrefixStep<T>(s: seq<T>, i: int)
    requires 0 <= i < |s|
    ensures s[..i + 1] == s[..i] + [s[i]]
  {
  }

  /** Appending one release and one draw extends ReleaseDraw by one step. */
  lemma DrawStep(pool: set<MatchSet>, olds: seq<MatchSet>, drawn: seq<MatchSet>, r: MatchSet, m: MatchSet)
    requires |olds| == |drawn|
    ensures ReleaseDraw(pool, olds + [r], drawn + [m]) ==
      (ReleaseDraw(pool, olds, drawn) + (if r.sprite.Some? then {r} else {})) - {m}
  {
    assert (olds + [r])[..|olds|] == olds;
    assert (drawn + [m])[..|drawn|] == drawn;
  }

  /** Handing order[|values|] (which is ts[k]) the value v changes the states at k only. */
  lemma AfterResetExtend(ss: seq<TileState>, ts: seq<Tile>, order: seq<Tile>, values: seq<MatchSet>, v: MatchSet, k: int)
    requires |ss| == |ts| && Distinct(ts) && Distinct(order) && |values| < |order|
    requires 0 <= k < |ts| && ts[k] == order[|values|]
    ensures AfterReset(ss, ts, order, values)[k] == ss[k]
    ensures AfterReset(ss, ts, order, values + [v]) == AfterReset(ss, ts, order, values)[k := Disappearing(ss[k], v)]
  {
    assert Position(order, ts[k]) == |values|;
    forall x | 0 <= x < |ts| && x != k
      ensures AfterReset(ss, ts, order, values + [v])[x] == AfterReset(ss, ts, order, values)[x]
    {
      assert Position(order, ts[x]) != |values|;
    }
  }

  /** One turn of the ReplaceAll loop keeps its invariants. */
  lemma ReplaceAllStep(p0: set<MatchSet>, s0: seq<TileState>, st: seq<TileState>, st': seq<TileState>,
    p: set<MatchSet>, p': set<MatchSet>, ts: seq<Tile>, order: seq<Tile>, values: seq<MatchSet>,
    olds: seq<MatchSet>, released: MatchSet, i: int, k: int)
    requires |s0| == |ts| && Distinct(ts) && Distinct(order) && 0 <= i < |values| <= |order|
    requires forall j :: 0 <= j < |order| ==> order[j] in ts
    requires 0 <= k < |ts| && ts[k] == order[i]
    requires |olds| == i && forall j :: 0 <= j < i ==> olds[j] == s0[Position(ts, order[j])].current
    requires st == AfterReset(s0, ts, order, values[..i])
    requires released == st[k].current
    requires st' == st[k := Disappearing(st[k], values[i])]
    requires p == ReleaseDraw(p0, olds, values[..i])
    requires p' == (p + (if released.sprite.Some? then {released} else {})) - {values[i]}
    ensures forall j :: 0 <= j < i + 1 ==> (olds + [released])[j] == s0[Position(ts, order[j])].current
    ensures st' == AfterReset(s0, ts, order, values[..i + 1])
    ensures p' == ReleaseDraw(p0, olds + [released], values[..i + 1])
  {
    PrefixStep(values, i);
    AfterResetExtend(s0, ts, order, values[..i], values[i], k);
    DrawStep(p0, olds, values[..i], released, values[i]);
    assert Position(ts, order[i]) == k;
    assert Position(order, ts[k]) == i;
    assert st[k] == s0[k];
    forall j | 0 <= j < i + 1
      ensures (olds + [released])[j] == s0[Position(ts, order[j])].current
    {
      if j < i {
        assert (olds + [released])[j] == olds[j];
      }
    }
  }

  /** One turn of the ShakeAll loop keeps its invariant. */
  lemma ShakeStep(s0: seq<TileState>, st: seq<TileState>, st': seq<TileState>, picked: seq<int>, i: int)
    requires 0 <= i < |picked| && 0 <= picked[i] < |s0|
    requires forall a, b :: 0 <= a < b < |picked| ==> picked[a] < picked[b]
    requires st == AfterShake(s0, picked[..i])
    requires st' == st[picked[i] := Shaking(st[picked[i]])]
    ensures st' == AfterShake(s0, picked[..i + 1])
  {
    var k := picked[i];
    assert k !in picked[..i];
    forall x | 0 <= x < |s0|
      ensures st'[x] == AfterShake(s0, picked[..i + 1])[x]
    {
      assert x in picked[..i + 1] <==> x in picked[..i] || x == k;
    }
  }

  lemma HandlerIgnored(p0: set<MatchSet>, ss0: seq<TileState>, ts: seq<Tile>, sel: bool, olds: seq<MatchSet>)
    requires |ss0| == |ts| && (!sel || |SelectedIndices(ss0)| != 3)
    ensures HandlerResult(p0, ss0, p0, ss0, None, ts, sel, true, [], [], olds)
  {
  }

  lemma HandlerJudged(p0: set<MatchSet>, ss0: seq<TileState>, p1: set<MatchSet>, ss1: seq<TileState>,
    raised: Option<BoardEvent>, ts: seq<Tile>, sel: bool, picked: seq<int>,
    ok: bool, order: seq<Tile>, values: seq<MatchSet>, olds: seq<MatchSet>)
    requires |ss0| == |ts| && sel && picked == SelectedIndices(ss0) && |picked| == 3
    requires ThreeResult(p0, ss0, p1, ss1, raised, ts, picked, ok, order, values, olds)
    ensures HandlerResult(p0, ss0, p1, ss1, raised, ts, sel, ok, order, values, olds)
  {
  }

  /** ResetResult for the batch built from the three picked tiles. */
  lemma ResetOfPicked(p0: set<MatchSet>, ss0: seq<TileState>, p1: set<MatchSet>, ss1: seq<TileState>,
    ts: seq<Tile>, batch: seq<Tile>, picked: seq<int>, ok: bool, order: seq<Tile>, values: seq<MatchSet>, olds: seq<MatchSet>)
    requires |picked| == 3 && forall j :: 0 <= j < |picked| ==> 0 <= picked[j] < |ts|
    requires batch == [ts[picked[0]], ts[picked[1]], ts[picked[2]]]
    requires ResetResult(p0, ss0, p1, ss1, ts, batch, ok, order, values, olds)
    ensures ResetResult(p0, ss0, p1, ss1, ts, Pick(ts, picked), ok, order, values, olds)
  {
    assert batch == Pick(ts, picked);
  }
}
