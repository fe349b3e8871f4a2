/**
 * The integer state behind the matrix-rain background that both pages draw
 * (js/main.js:34-89, js/profile.js:35-78): one drop row per 14-pixel column,
 * advanced once per frame. Glyph choice and painting are not modelled; the
 * `Math.random() > 0.975` reset draw of each column is a boolean oracle.
 */
module MatrixRain {

  /** Glyph cell size in pixels, `fontSize`. */
  const FONT_SIZE: nat := 14

  /** `Math.ceil(width / fontSize)`: the number of columns that cover the canvas width. */
  function Columns(width: nat): (n: nat)
    ensures n * FONT_SIZE >= width
    ensures n > 0 ==> (n - 1) * FONT_SIZE < width
  {
    (width + FONT_SIZE - 1) / FONT_SIZE
  }

  /**
   * One column in one frame: a drop below the bottom edge whose draw fired is
   * set to 0, and every drop is then incremented.
   */
  function ColumnStep(drop: int, height: int, reset: bool): (r: int)
    ensures r == drop + 1 || r == 1
    ensures r != drop + 1 ==> drop * FONT_SIZE > height && reset
    ensures drop * FONT_SIZE > height && reset ==> r == 1
  {
    if drop * FONT_SIZE > height && reset then 1 else drop + 1
  }

  /** One frame over all columns, `resets[i]` being the draw column i would make. */
  function Frame(drops: seq<int>, height: int, resets: seq<bool>): (r: seq<int>)
    requires |resets| == |drops|
    ensures |r| == |drops|
  {
    if drops == [] then []
    else [ColumnStep(drops[0], height, resets[0])] + Frame(drops[1..], height, resets[1..])
  }

  /** Column i of a frame depends only on column i before it and its own draw. */
  lemma {:induction false} FrameAt(drops: seq<int>, height: int, resets: seq<bool>, i: nat)
    requires |resets| == |drops| && i < |drops|
    ensures Frame(drops, height, resets)[i] == ColumnStep(drops[i], height, resets[i])
  {
    if i > 0 {
      FrameAt(drops[1..], height, resets[1..], i - 1);
    }
  }

  /**
   * Every column either moves down one row or restarts at row 1, and it can
   * restart only once it is below the bottom edge of the canvas.
   */
  lemma FrameMovesOrRestarts(drops: seq<int>, height: int, resets: seq<bool>, i: nat)
    requires |resets| == |drops| && i < |drops|
    ensures Frame(drops, height, resets)[i] == drops[i] + 1 || Frame(drops, height, resets)[i] == 1
    ensures Frame(drops, height, resets)[i] != drops[i] + 1 ==> drops[i] * FONT_SIZE > height && resets[i]
    ensures drops[i] * FONT_SIZE > height && resets[i] ==> Frame(drops, height, resets)[i] == 1
  {
    FrameAt(drops, height, resets, i);
  }

  /** All rows are at least 1. */
  ghost predicate Positive(drops: seq<int>) {
    forall i :: 0 <= i < |drops| ==> drops[i] >= 1
  }

  /** A frame keeps every row at least 1. */
  lemma FrameKeepsPositive(drops: seq<int>, height: int, resets: seq<bool>)
    requires |resets| == |drops| && Positive(drops)
    ensures Positive(Frame(drops, height, resets))
  {
    forall i | 0 <= i < |drops|
      ensures Frame(drops, height, resets)[i] >= 1
    {
      FrameAt(drops, height, resets, i);
    }
  }

  /**
   * The canvas and its drops. The array is sized once from the width at
   * creation; resizing changes only the canvas dimensions.
   */
  class Rain {
    var width: nat
    var height: nat
    const drops: array<int>

    ghost predicate Valid()
      reads this, drops
    {
      Positive(drops[..])
    }

    /** `Array(columns).fill(1)` for the window's width at creation. */
    constructor (width: nat, height: nat)
      ensures Valid() && fresh(drops)
      ensures this.width == width && this.height == height
      ensures drops.Length == Columns(width)
      ensures forall i :: 0 <= i < drops.Length ==> drops[i] == 1
    {
      this.width := width;
      this.height := height;
      drops := new int[Columns(width)](_ => 1);
    }

    /** The resize listener: the canvas takes the new window size; the drops are left alone. */
    method Resize(width: nat, height: nat)
      requires Valid()
      modifies this
      ensures Valid()
      ensures this.width == width && this.height == height
      ensures drops[..] == old(drops[..])
    {
      this.width := width;
      this.height := height;
    }

    /** `draw`: the loop over the columns, one reset draw per column. */
    method Draw(resets: seq<bool>)
      requires Valid() && |resets| == drops.Length
      modifies drops
      ensures Valid()
      ensures drops[..] == Frame(old(drops[..]), height, resets)
    {
      ghost var before := drops[..];
      var i := 0;
      while i < drops.Length
        invariant 0 <= i <= drops.Length
        invariant forall k :: 0 <= k < i ==> drops[k] == ColumnStep(before[k], height, resets[k])
        invariant forall k :: i <= k < drops.Length ==> drops[k] == before[k]
      {
        if drops[i] * FONT_SIZE > height && resets[i] {
          drops[i] := 0;
        }
        drops[i] := drops[i] + 1;
        i := i + 1;
      }
      forall k | 0 <= k < drops.Length
        ensures drops[..][k] == Frame(before, height, resets)[k]
      {
        FrameAt(before, height, resets, k);
      }
      FrameKeepsPositive(before, height, resets);
    }
  }
}
