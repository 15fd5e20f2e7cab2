/**
 * The match rules of MatchJoy: the value a tile carries (MatchSet), the
 * three-tile match test (CheckMatch) and the "third tile" function
 * (GetMatch) as the source writes it, beside the completion it was meant
 * to compute.
 */
module MatchUtility {
  import opened Wrappers

  /** MatchColor: Blue = 0, Red = 1, Yellow = 2. */
  datatype MatchColor = Blue | Red | Yellow

  /** MatchSymbol: At = 0, Plus = 1, Slash = 2. */
  datatype MatchSymbol = At | Plus | Slash

  /** A sprite resource, identified by its name. */
  datatype Sprite = Sprite(name: string)

  /** The MatchSet struct: three attributes and the sprite that draws it (null when unset). */
  datatype MatchSet = MatchSet(color: MatchColor, number: int, symbol: MatchSymbol, sprite: Option<Sprite>)

  /** `new MatchSet()`: every field at its default. */
  const Default := MatchSet(Blue, 0, At, None)

  /** The integer an enum value casts to. */
  function ColorValue(c: MatchColor): int
  {
    match c
    case Blue => 0
    case Red => 1
    case Yellow => 2
  }

  function SymbolValue(s: MatchSymbol): int
  {
    match s
    case At => 0
    case Plus => 1
    case Slash => 2
  }

  /** The casts `(MatchColor)i` and `(MatchSymbol)i`, for the values the enums declare. */
  function ToColor(i: int): (c: MatchColor)
    requires 0 <= i < 3
    ensures ColorValue(c) == i
  {
    if i == 0 then Blue else if i == 1 then Red else Yellow
  }

  function ToSymbol(i: int): (s: MatchSymbol)
    requires 0 <= i < 3
    ensures SymbolValue(s) == i
  {
    if i == 0 then At else if i == 1 then Plus else Slash
  }

  /** A value the game can produce: its number is in 0..2 like the two enums. */
  predicate WellFormed(m: MatchSet)
  {
    0 <= m.number < 3
  }

  /** Two values agree on colour, number and symbol (the sprite aside). */
  predicate SameFace(a: MatchSet, b: MatchSet)
  {
    a.color == b.color && a.number == b.number && a.symbol == b.symbol
  }

  /** C#'s `%` on int: the remainder truncated toward zero, so it takes the sign of x. */
  function CsRem(x: int, m: int): (r: int)
    requires m > 0
    ensures -m < r < m
    ensures x >= 0 ==> r >= 0
    ensures x < 0 ==> r <= 0
    ensures exists q :: x == q * m + r
  {
    if x >= 0 then
      assert x == (x / m) * m + x % m;
      x % m
    else
      assert x == (-((-x) / m)) * m + -((-x) % m);
      -((-x) % m)
  }

  /** A truncated remainder by 3 is zero exactly when x is a multiple of 3. */
  lemma CsRemZero(x: int)
    ensures CsRem(x, 3) == 0 <==> x % 3 == 0
  {
  }

  /** CheckMatch: an array of exactly three values whose colours, numbers and symbols each sum to a multiple of 3. */
  function CheckMatch(tiles: seq<MatchSet>): (r: bool)
    ensures r ==> |tiles| == 3
    ensures |tiles| == 3 ==>
      (r <==> && (ColorValue(tiles[0].color) + ColorValue(tiles[1].color) + ColorValue(tiles[2].color)) % 3 == 0
              && (tiles[0].number + tiles[1].number + tiles[2].number) % 3 == 0
              && (SymbolValue(tiles[0].symbol) + SymbolValue(tiles[1].symbol) + SymbolValue(tiles[2].symbol)) % 3 == 0)
  {
    if |tiles| != 3 then false
    else
      CsRemZero(ColorValue(tiles[0].color) + ColorValue(tiles[1].color) + ColorValue(tiles[2].color));
      CsRemZero(tiles[0].number + tiles[1].number + tiles[2].number);
      CsRemZero(SymbolValue(tiles[0].symbol) + SymbolValue(tiles[1].symbol) + SymbolValue(tiles[2].symbol));
      && CsRem(ColorValue(tiles[0].color) + ColorValue(tiles[1].color) + ColorValue(tiles[2].color), 3) == 0
      && CsRem(tiles[0].number + tiles[1].number + tiles[2].number, 3) == 0
      && CsRem(SymbolValue(tiles[0].symbol) + SymbolValue(tiles[1].symbol) + SymbolValue(tiles[2].symbol), 3) == 0
  }

  /** The sum of one attribute over a sequence of values. */
  function SumOf(s: seq<MatchSet>, f: MatchSet -> int): int
  {
    if s == [] then 0 else f(s[0]) + SumOf(s[1..], f)
  }

  /** Taking one element out of a sequence takes its term out of the sum. */
  lemma {:induction false} SumOfWithout(s: seq<MatchSet>, i: nat, f: MatchSet -> int)
    requires i < |s|
    ensures SumOf(s, f) == f(s[i]) + SumOf(s[..i] + s[i + 1..], f)
  {
    if i > 0 {
      SumOfWithout(s[1..], i - 1, f);
      assert s[1..][..i - 1] + s[1..][i..] == (s[..i] + s[i + 1..])[1..];
    } else {
      assert s[..i] + s[i + 1..] == s[1..];
    }
  }

  /** Removing the element at i removes one occurrence of it from the multiset. */
  lemma MultisetWithout(u: seq<MatchSet>, i: nat)
    requires i < |u|
    ensures multiset(u[..i] + u[i + 1..]) == multiset(u) - multiset{u[i]}
  {
    assert u == u[..i] + [u[i]] + u[i + 1..];
  }

  /** A sum does not depend on the order of its terms. */
  lemma {:induction false} SumOfPermutation(s: seq<MatchSet>, u: seq<MatchSet>, f: MatchSet -> int)
    requires multiset(s) == multiset(u)
    ensures SumOf(s, f) == SumOf(u, f)
  {
    if s == [] {
      assert |u| == |multiset(u)| == 0;
    } else {
      var i := MatchHead(s, u);
      SumOfPermutation(s[1..], u[..i] + u[i + 1..], f);
      SumOfWithout(u, i, f);
    }
  }

  /** The head of s sits at some i in its permutation u, and the rests are permutations of each other. */
  lemma MatchHead(s: seq<MatchSet>, u: seq<MatchSet>) returns (i: nat)
    requires s != [] && multiset(s) == multiset(u)
    ensures i < |u| && u[i] == s[0]
    ensures multiset(s[1..]) == multiset(u[..i] + u[i + 1..])
  {
    assert s[0] in multiset(u);
    i :| 0 <= i < |u| && u[i] == s[0];
    MultisetWithout(u, i);
    assert s == [s[0]] + s[1..];
    assert multiset(s) == multiset{s[0]} + multiset(s[1..]);
  }

  /** For three values the sums CheckMatch tests are SumOf the three attributes. */
  lemma SumOfThree(t: seq<MatchSet>, f: MatchSet -> int)
    requires |t| == 3
    ensures SumOf(t, f) == f(t[0]) + f(t[1]) + f(t[2])
  {
    assert SumOf(t[2..], f) == f(t[2]) + SumOf(t[3..], f);
    assert SumOf(t[1..], f) == f(t[1]) + SumOf(t[2..], f) by { assert t[1..][1..] == t[2..]; }
  }

  /** CheckMatch is order-independent: any rearrangement of the three values gives the same answer. */
  lemma CheckMatchPermutation(t: seq<MatchSet>, u: seq<MatchSet>)
    requires multiset(t) == multiset(u)
    ensures CheckMatch(t) == CheckMatch(u)
  {
    assert |t| == |multiset(t)| == |multiset(u)| == |u|;
    if |t| == 3 {
      var color := (m: MatchSet) => ColorValue(m.color);
      var number := (m: MatchSet) => m.number;
      var symbol := (m: MatchSet) => SymbolValue(m.symbol);
      SumOfPermutation(t, u, color);
      SumOfPermutation(t, u, number);
      SumOfPermutation(t, u, symbol);
      SumOfThree(t, color); SumOfThree(u, color);
      SumOfThree(t, number); SumOfThree(u, number);
      SumOfThree(t, symbol); SumOfThree(u, symbol);
    }
  }

  /** CheckMatch looks only at colour, number and symbol: sprites play no part. */
  lemma CheckMatchIgnoresSprite(t: seq<MatchSet>, u: seq<MatchSet>)
    requires |t| == |u|
    requires forall i :: 0 <= i < |t| ==> SameFace(t[i], u[i])
    ensures CheckMatch(t) == CheckMatch(u)
  {
  }

  /** Three copies of one value always match. */
  lemma ThreeOfAKindMatch(a: MatchSet)
    ensures CheckMatch([a, a, a])
  {
  }

  /**
   * The correct completion: for each attribute the one value in 0..2 that
   * brings the three-way sum to a multiple of 3. Like `new MatchSet()`, it
   * carries no sprite.
   */
  function Completion(a: MatchSet, b: MatchSet): (c: MatchSet)
    ensures WellFormed(c) && c.sprite == None
    ensures CheckMatch([a, b, c])
  {
    MatchSet(ToColor((-(ColorValue(a.color) + ColorValue(b.color))) % 3),
             (-(a.number + b.number)) % 3,
             ToSymbol((-(SymbolValue(a.symbol) + SymbolValue(b.symbol))) % 3),
             None)
  }

  /** The completion is the only well-formed third value that matches a and b, up to its sprite. */
  lemma CompletionUnique(a: MatchSet, b: MatchSet, c: MatchSet)
    requires WellFormed(c)
    ensures CheckMatch([a, b, c]) <==> SameFace(c, Completion(a, b))
  {
    var d := Completion(a, b);
    if CheckMatch([a, b, c]) {
      assert ColorValue(c.color) == ColorValue(d.color);
      assert SymbolValue(c.symbol) == SymbolValue(d.symbol);
    }
    if SameFace(c, d) {
      assert SameFace(a, a) && SameFace(b, b);
      CheckMatchIgnoresSprite([a, b, c], [a, b, d]);
    }
  }

  /**
   * GetMatch's guard: `k + f + s % 3 == 0` in C#, where `%` binds to s alone,
   * so it is (k + f + (s % 3)) == 0.
   */
  predicate Guard(k: int, f: int, s: int)
  {
    k + f + CsRem(s, 3) == 0
  }

  /**
   * The value one of GetMatch's loops leaves in its field after running k
   * over 0..n-1: the last k whose guard holds, or the field's default 0 if
   * no guard held.
   */
  function LastGuardHit(f: int, s: int, n: nat): (r: int)
    ensures 0 <= r && (n > 0 ==> r < n)
    ensures (exists k :: 0 <= k < n && Guard(k, f, s)) ==>
      Guard(r, f, s) && forall k :: r < k < n ==> !Guard(k, f, s)
    ensures (forall k :: 0 <= k < n ==> !Guard(k, f, s)) ==> r == 0
  {
    if n == 0 then 0
    else if Guard(n - 1, f, s) then n - 1
    else LastGuardHit(f, s, n - 1)
  }

  /** What GetMatch returns, as the source writes it. */
  function WrittenMatch(first: MatchSet, second: MatchSet): MatchSet
  {
    MatchSet(ToColor(LastGuardHit(ColorValue(first.color), ColorValue(second.color), 3)),
             LastGuardHit(first.number, second.number, 3),
             ToSymbol(LastGuardHit(SymbolValue(first.symbol), SymbolValue(second.symbol), 3)),
             None)
  }

  /**
   * GetMatch: three loops, each overwriting one field of a fresh MatchSet
   * whenever its guard holds.
   */
  method GetMatch(first: MatchSet, second: MatchSet) returns (third: MatchSet)
    ensures third == WrittenMatch(first, second)
    ensures WellFormed(first) && WellFormed(second) ==> third == Default
  {
    third := Default;
    for color := 0 to 3
      invariant third == MatchSet(ToColor(LastGuardHit(ColorValue(first.color), ColorValue(second.color), color)), 0, At, None)
    {
      if color + ColorValue(first.color) + CsRem(ColorValue(second.color), 3) == 0 {
        third := third.(color := ToColor(color));
      }
    }
    for number := 0 to 3
      invariant third.color == ToColor(LastGuardHit(ColorValue(first.color), ColorValue(second.color), 3))
      invariant third.number == LastGuardHit(first.number, second.number, number)
      invariant third.symbol == At && third.sprite == None
    {
      if number + first.number + CsRem(second.number, 3) == 0 {
        third := third.(number := number);
      }
    }
    for symbol := 0 to 3
      invariant third.color == ToColor(LastGuardHit(ColorValue(first.color), ColorValue(second.color), 3))
      invariant third.number == LastGuardHit(first.number, second.number, 3)
      invariant third.symbol == ToSymbol(LastGuardHit(SymbolValue(first.symbol), SymbolValue(second.symbol), symbol))
      invariant third.sprite == None
    {
      if symbol + SymbolValue(first.symbol) + CsRem(SymbolValue(second.symbol), 3) == 0 {
        third := third.(symbol := ToSymbol(symbol));
      }
    }
    if WellFormed(first) && WellFormed(second) {
      WrittenMatchIsDefault(first, second);
    }
  }

  /**
   * For every pair of values the game produces, GetMatch returns Blue, 0,
   * At and no sprite: a guard k + f + s == 0 over three non-negative terms
   * holds only when all three are 0.
   */
  lemma WrittenMatchIsDefault(first: MatchSet, second: MatchSet)
    requires WellFormed(first) && WellFormed(second)
    ensures WrittenMatch(first, second) == Default
  {
    var fc, sc := ColorValue(first.color), ColorValue(second.color);
    var fs, ss := SymbolValue(first.symbol), SymbolValue(second.symbol);
    assert LastGuardHit(fc, sc, 3) == 0;
    assert LastGuardHit(first.number, second.number, 3) == 0;
    assert LastGuardHit(fs, ss, 3) == 0;
  }

  /**
   * The value GetMatch returns matches its two inputs exactly when their
   * completion happens to be Blue, 0, At: for well-formed inputs it is no
   * completion function.
   */
  lemma WrittenMatchCompletesOnlyDefault(a: MatchSet, b: MatchSet)
    requires WellFormed(a) && WellFormed(b)
    ensures CheckMatch([a, b, WrittenMatch(a, b)]) <==> SameFace(Completion(a, b), Default)
  {
    WrittenMatchIsDefault(a, b);
    CompletionUnique(a, b, Default);
  }

  /** The concrete case: (Blue, 0, At) and (Red, 1, Plus) get (Blue, 0, At), and the sums are 1. */
  lemma WrittenMatchCounterexample()
    ensures var a, b := MatchSet(Blue, 0, At, None), MatchSet(Red, 1, Plus, None);
      && WrittenMatch(a, b) == Default
      && !CheckMatch([a, b, WrittenMatch(a, b)])
      && CheckMatch([a, b, Completion(a, b)])
      && SameFace(Completion(a, b), MatchSet(Yellow, 2, Slash, None))
  {
    var a, b := MatchSet(Blue, 0, At, None), MatchSet(Red, 1, Plus, None);
    WrittenMatchIsDefault(a, b);
  }
}
