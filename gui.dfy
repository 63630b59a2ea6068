/** The display glue of `main/main_gui.c`: the flush callback that hands a
    rendered landscape area to the pixel-processing accelerator, rotated by
    90 degrees into the portrait panel's frame buffer, and the touch read
    callback. The accelerator call itself is not modelled. */
module MainGui {

  /** Physical panel, portrait. */
  const PhysHRes: int := 720
  const PhysVRes: int := 1280
  /** Logical screen, landscape. */
  const HRes: int := 1280
  const VRes: int := 720
  /** RGB565 */
  const BytesPerPixel: int := 2
  const FramebufferBytes: int := PhysHRes * PhysVRes * BytesPerPixel

  /** An `lv_area_t`: inclusive corners. */
  datatype Area = Area(x1: int, y1: int, x2: int, y2: int)

  /** A non-empty area inside the logical screen, as the renderer hands it. */
  predicate OnScreen(a: Area)
  {
    0 <= a.x1 <= a.x2 < HRes && 0 <= a.y1 <= a.y2 < VRes
  }

  /** What `flush_callback` computes: the block's width and height, its
      top-left corner on the panel, and the byte offset of that corner. */
  datatype FlushPlan = FlushPlan(w: int, h: int, physX: int, physY: int, byteOffset: int)

  function PlanFlush(a: Area): FlushPlan
  {
    var w := a.x2 - a.x1 + 1;
    var h := a.y2 - a.y1 + 1;
    var physX := a.y1;
    var physY := PhysVRes - 1 - a.x2;
    FlushPlan(w, h, physX, physY, (physY * PhysHRes + physX) * BytesPerPixel)
  }

  /** The rotation the flush implements: logical (x, y) lands on panel
      pixel (y, 1279 - x). */
  function Rotate(x: int, y: int): (int, int)
  {
    (y, PhysVRes - 1 - x)
  }

  /** Its inverse. */
  function Unrotate(px: int, py: int): (int, int)
  {
    (PhysVRes - 1 - py, px)
  }

  /** The rotation is a bijection between the logical screen and the panel. */
  lemma RotationIsBijective(x: int, y: int, px: int, py: int)
    ensures Unrotate(Rotate(x, y).0, Rotate(x, y).1) == (x, y)
    ensures Rotate(Unrotate(px, py).0, Unrotate(px, py).1) == (px, py)
    ensures 0 <= x < HRes && 0 <= y < VRes ==>
              0 <= Rotate(x, y).0 < PhysHRes && 0 <= Rotate(x, y).1 < PhysVRes
    ensures 0 <= px < PhysHRes && 0 <= py < PhysVRes ==>
              0 <= Unrotate(px, py).0 < HRes && 0 <= Unrotate(px, py).1 < VRes
  {
  }

  lemma RotationInjective(x: int, y: int, x': int, y': int)
    requires Rotate(x, y) == Rotate(x', y')
    ensures x == x' && y == y'
  {
    RotationIsBijective(x, y, 0, 0);
    RotationIsBijective(x', y', 0, 0);
  }

  /** For an area on screen, the block has at least one pixel each way and
      its rotated image is exactly the h x w block at (physX, physY), inside
      the panel. */
  lemma FlushBlockInPanel(a: Area)
    requires OnScreen(a)
    ensures var p := PlanFlush(a);
            && 1 <= p.w && 1 <= p.h
            && 0 <= p.physX < PhysHRes && 0 <= p.physY < PhysVRes
            && p.physY + p.w - 1 == PhysVRes - 1 - a.x1
            && p.physX + p.h - 1 == a.y2 < PhysHRes
            && Rotate(a.x2, a.y1) == (p.physX, p.physY)
            && Rotate(a.x1, a.y2) == (p.physX + p.h - 1, p.physY + p.w - 1)
  {
  }

  /** Every pixel of the area lands inside the rotated block, and every
      pixel of the block comes from the area. */
  lemma FlushBlockIsImage(a: Area, x: int, y: int, px: int, py: int)
    requires OnScreen(a)
    ensures var p := PlanFlush(a);
            (a.x1 <= x <= a.x2 && a.y1 <= y <= a.y2 ==>
               p.physX <= Rotate(x, y).0 < p.physX + p.h && p.physY <= Rotate(x, y).1 < p.physY + p.w)
            && (p.physX <= px < p.physX + p.h && p.physY <= py < p.physY + p.w ==>
               a.x1 <= Unrotate(px, py).0 <= a.x2 && a.y1 <= Unrotate(px, py).1 <= a.y2)
  {
  }

  /** Byte offset of panel pixel (px, py) in the RGB565 frame buffer. */
  function PixelOffset(px: int, py: int): int
  {
    (py * PhysHRes + px) * BytesPerPixel
  }

  /** Every panel pixel's two bytes lie inside the frame buffer, and distinct
      pixels do not share bytes. */
  lemma {:induction false} PixelOffsetInFramebuffer(px: int, py: int, qx: int, qy: int)
    requires 0 <= px < PhysHRes && 0 <= py < PhysVRes
    requires 0 <= qx < PhysHRes && 0 <= qy < PhysVRes
    ensures 0 <= PixelOffset(px, py) && PixelOffset(px, py) + BytesPerPixel <= FramebufferBytes
    ensures (px, py) != (qx, qy) ==>
              PixelOffset(px, py) + BytesPerPixel <= PixelOffset(qx, qy)
              || PixelOffset(qx, qy) + BytesPerPixel <= PixelOffset(px, py)
  {
    assert py * PhysHRes + px <= (PhysVRes - 1) * PhysHRes + PhysHRes - 1;
    if py < qy {
      assert py * PhysHRes + px < (py + 1) * PhysHRes <= qy * PhysHRes;
    } else if qy < py {
      assert qy * PhysHRes + qx < (qy + 1) * PhysHRes <= py * PhysHRes;
    }
  }

  /** The output pointer of the flush addresses the block's corner, and the
      block's last pixel still lies inside the frame buffer. */
  lemma FlushOffsetInFramebuffer(a: Area)
    requires OnScreen(a)
    ensures var p := PlanFlush(a);
            && p.byteOffset == PixelOffset(p.physX, p.physY)
            && 0 <= p.byteOffset
            && PixelOffset(p.physX + p.h - 1, p.physY + p.w - 1) + BytesPerPixel <= FramebufferBytes
  {
    var p := PlanFlush(a);
    FlushBlockInPanel(a);
    PixelOffsetInFramebuffer(p.physX, p.physY, 0, 0);
    PixelOffsetInFramebuffer(p.physX + p.h - 1, p.physY + p.w - 1, 0, 0);
  }

  datatype IndevState = Released | Pressed

  /** The part of `lv_indev_data_t` a read callback fills in. */
  datatype IndevData = IndevData(pointX: int, pointY: int, state: IndevState)

  /** `touch_callback`: touch input is disabled, every read reports
      "released" and leaves the point as it was. */
  function TouchRead(d: IndevData): (r: IndevData)
    ensures r.state == Released && r.pointX == d.pointX && r.pointY == d.pointY
  {
    d.(state := Released)
  }
}
