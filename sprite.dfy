/** Which part of the player's sprite sheet Player.Draw shows (main.go,
    Player.Draw): the animation column from the frame counter, the row from
    the facing direction, the 32x32 source rectangle on a 33-pixel grid
    (one pixel of border), and the blinking that hides the player on some
    frames while it is invincible. The drawing itself is not modelled. */
module Sprite {
  import opened PlayerLogic

  const FrameLength: nat := 6
  const ImgWidth: int := 32
  const ImgHeight: int := 32
  const ImgBorder: int := 1

  const IdleRow: nat := 0
  const WalkRightRow: nat := 1
  const WalkLeftRow: nat := 2
  const WalkDownRow: nat := 3
  const WalkUpRow: nat := 4

  datatype Option<T> = None | Some(value: T)

  /** A half-open pixel rectangle [x0, x1) x [y0, y1), as image.Rect. */
  datatype Rect = Rect(x0: int, y0: int, x1: int, y1: int)

  predicate Overlap(a: Rect, b: Rect) {
    a.x0 < b.x1 && b.x0 < a.x1 && a.y0 < b.y1 && b.y0 < a.y1
  }

  /** Animation column: advances every 5 frames and cycles through 6. */
  function FrameColumn(frameCount: nat): (c: nat)
    ensures c < FrameLength
  {
    (frameCount / 5) % FrameLength
  }

  /** Sheet row for the facing direction: a horizontal component decides
      first (right, then left), then up, then down; no direction is idle. */
  function RowIndex(dirX: int, dirY: int): (r: nat)
    ensures r <= WalkUpRow
    ensures r == IdleRow <==> dirX == 0 && dirY == 0
  {
    if dirX > 0 then WalkRightRow
    else if dirX < 0 then WalkLeftRow
    else if dirY < 0 then WalkUpRow
    else if dirY > 0 then WalkDownRow
    else IdleRow
  }

  /** Source rectangle of the cell in column `column`, row `row`. */
  function SourceRect(column: nat, row: nat): (r: Rect)
    ensures r.x1 - r.x0 == ImgWidth && r.y1 - r.y0 == ImgHeight
    ensures r.x0 % (ImgWidth + ImgBorder) == 0 && r.y0 % (ImgHeight + ImgBorder) == 0
  {
    var sx := column * ImgWidth + column * ImgBorder;
    var sy := row * ImgHeight + row * ImgBorder;
    Rect(sx, sy, sx + ImgWidth, sy + ImgHeight)
  }

  /** The player is hidden on this frame. */
  predicate IsFlashFrame(invincible: bool, frameCount: nat)
    ensures IsFlashFrame(invincible, frameCount) ==> invincible
  {
    invincible && (frameCount / 10) % 2 == 0
  }

  /** What Player.Draw shows: nothing on a flash frame, otherwise the cell
      chosen by frame counter and direction. */
  function Draw(p: PlayerState): (r: Option<Rect>)
    ensures r.None? <==> IsFlashFrame(p.vitals.invincible, p.frameCount)
    ensures r.None? ==> p.vitals.invincible
    ensures r.Some? ==> r.value == SourceRect(FrameColumn(p.frameCount), RowIndex(p.dirX, p.dirY))
  {
    if IsFlashFrame(p.vitals.invincible, p.frameCount) then None
    else Some(SourceRect(FrameColumn(p.frameCount), RowIndex(p.dirX, p.dirY)))
  }

  /** The animation repeats every 30 frames and shows each column for 5. */
  lemma FrameColumnCycle(n: nat)
    ensures FrameColumn(n) == (n % 30) / 5
    ensures FrameColumn(n + 30) == FrameColumn(n)
  {
    var q, r := n / 30, n % 30;
    assert n == 30 * q + r;
    assert n / 5 == 6 * q + r / 5;
    assert (n + 30) / 5 == 6 * (q + 1) + r / 5;
  }

  /** While invincible the player blinks with period 20: hidden for the
      first 10 frames of each period, shown for the next 10. */
  lemma FlashFramePeriod(invincible: bool, n: nat)
    ensures IsFlashFrame(invincible, n) <==> invincible && n % 20 < 10
  {
    var q, r := n / 20, n % 20;
    assert n == 20 * q + r;
    assert n / 10 == 2 * q + r / 10;
  }

  /** The column and row can be read back from the rectangle's origin. */
  lemma SourceRectCell(column: nat, row: nat)
    ensures SourceRect(column, row).x0 / (ImgWidth + ImgBorder) == column
    ensures SourceRect(column, row).y0 / (ImgHeight + ImgBorder) == row
  {
    assert SourceRect(column, row).x0 == 33 * column;
    assert SourceRect(column, row).y0 == 33 * row;
  }

  /** Distinct cells never share a pixel: the one-pixel border separates
      them. */
  lemma SourceRectsDisjoint(c1: nat, r1: nat, c2: nat, r2: nat)
    requires c1 != c2 || r1 != r2
    ensures !Overlap(SourceRect(c1, r1), SourceRect(c2, r2))
  {
  }

  /** Drawing is suppressed exactly on the blink frames of invincibility. */
  lemma DrawHidden(p: PlayerState)
    ensures Draw(p).None? <==> p.vitals.invincible && p.frameCount % 20 < 10
  {
    FlashFramePeriod(p.vitals.invincible, p.frameCount);
  }

  /** The row drawn after Player.Update follows the keys held during that
      tick, with Right > Left > Up > Down > none. */
  lemma RowFollowsKeys(p: PlayerState, keys: Keys, collision: bool, now: int)
    ensures var q := PlayerStep(p, keys, collision, now);
            RowIndex(q.dirX, q.dirY) ==
              if keys.right then WalkRightRow
              else if keys.left then WalkLeftRow
              else if keys.up then WalkUpRow
              else if keys.down then WalkDownRow
              else IdleRow
  {
  }
}
