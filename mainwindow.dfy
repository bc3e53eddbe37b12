/**
 * The overlay's main window (`MainUI`): the constructor sizes the form and its panels
 * from the program options, and `ReceiveData` decides, on each new sample of game
 * memory, which panels to redraw.
 */
module MainWindow {
  import opened Items
  import opened Graphics
  import Inventory

  /** The program options the window reads. */
  datatype Options = Options(
    noTitleBar: bool,
    noInventory: bool,
    debug: bool,
    noEnemyHealth: bool)

  /** The sizes the form and its panels have before the constructor adjusts them, as the
      window designer sets them. */
  datatype DesignerSizes = DesignerSizes(
    formWidth: int,
    formHeight: int,
    statisticsWidth: int,
    healthWidth: int,
    healthHeight: int,
    inventoryWidth: int,
    inventoryHeight: int)

  /** The form's size, the inventory panel's size and visibility, and whether the form
      is drawn without a border. */
  datatype Geometry = Geometry(
    width: int,
    height: int,
    inventoryWidth: int,
    inventoryHeight: int,
    inventoryVisible: bool,
    borderless: bool)

  /** The form is never made shorter than its designer height to fit the inventory;
      this is the height the designer gives it. */
  const MinimumHeight := 545

  function TitleHeight(o: Options): int {
    if o.noTitleBar then 0 else 39
  }

  function BorderWidth(o: Options): int {
    if o.noTitleBar then 0 else 16
  }

  /** The geometry the constructor leaves, in closed form, for slot size `size`: the
      specification of the `MainUI` constructor. With the inventory shown, the panel is
      2.5 slots wide (`2 * size + size / 2`, rounded down) and the form is as wide as the
      panel plus the statistics panel less 30, plus the border. */
  function Layout(o: Options, d: DesignerSizes, size: int): (g: Geometry)
    ensures g.inventoryVisible <==> !o.noInventory
    ensures g.borderless <==> o.noTitleBar
    ensures o.noInventory ==> g.inventoryWidth == d.inventoryWidth && g.inventoryHeight == d.inventoryHeight
    ensures !o.noInventory ==>
      && g.inventoryWidth == 2 * size + size / 2
      && g.width == g.inventoryWidth + d.statisticsWidth - 30 + BorderWidth(o)
      && g.inventoryHeight == 6 * size
      && (g.height == d.formHeight || g.height == TitleHeight(o) + g.inventoryHeight)
      && (TitleHeight(o) + g.inventoryHeight > MinimumHeight ==> g.height == TitleHeight(o) + g.inventoryHeight)
  {
    var title := TitleHeight(o);
    var border := BorderWidth(o);
    if !o.noInventory then
      var panelWidth := size * 2 + size / 2;
      var panelHeight := size * 6;
      Geometry(panelWidth + d.statisticsWidth - 30 + border,
               if title + panelHeight > MinimumHeight then title + panelHeight else d.formHeight,
               panelWidth, panelHeight, true, o.noTitleBar)
    else
      Geometry(if o.noEnemyHealth then d.healthWidth + border else d.statisticsWidth + border,
               title + d.healthHeight + 70 + (if o.debug then 56 else 0) + (if o.noEnemyHealth then 0 else 150),
               d.inventoryWidth, d.inventoryHeight, false, o.noTitleBar)
  }

  /** With the designer's height of 545, the form with the inventory is exactly as tall
      as the larger of 545 and the title bar plus the panel, so the panel always fits. */
  lemma HeightFitsInventory(o: Options, d: DesignerSizes, size: int)
    requires !o.noInventory && d.formHeight == MinimumHeight
    ensures var g := Layout(o, d, size);
      && g.height >= MinimumHeight
      && g.height >= TitleHeight(o) + g.inventoryHeight
      && (g.height == MinimumHeight || g.height == TitleHeight(o) + g.inventoryHeight)
  {
  }

  /** Without the inventory, the form's height adds the health panel, 70 pixels, the
      debug lines when shown and the enemy list when shown; its width is the statistics
      panel's when enemy health is shown, else the health panel's. */
  lemma HeightWithoutInventory(o: Options, d: DesignerSizes, size: int)
    requires o.noInventory
    ensures var g := Layout(o, d, size);
      && !g.inventoryVisible
      && g.height - TitleHeight(o) - d.healthHeight - 70 == (if o.debug then 56 else 0) + (if o.noEnemyHealth then 0 else 150)
      && g.width - BorderWidth(o) == (if o.noEnemyHealth then d.healthWidth else d.statisticsWidth)
  {
  }

  /** The inventory panel holds twelve one-slot icons: every one-slot icon the paint
      handler places in the first twelve cells lies inside the panel. */
  lemma PanelHoldsTwelveCells(o: Options, d: DesignerSizes, size: int, table: map<Item, Rect>, p: Inventory.Placement)
    requires size > 0 && !o.noInventory && Inventory.LaidOut(size, table, p)
    requires p.cell < 12 && p.image.w == size && p.image.h == size
    ensures var g := Layout(o, d, size);
      && 0 <= p.image.x && p.image.x + p.image.w <= g.inventoryWidth
      && 0 <= p.image.y && p.image.y + p.image.h <= g.inventoryHeight
  {
    Inventory.OneSlotIconInPanel(size, table, p);
  }

  // ----- The redraw throttle

  const TicksPerMillisecond := 10000

  /** The health and inventory panels are redrawn at most every 333 milliseconds. */
  const FullUIDrawTicks := TicksPerMillisecond * 333

  /** Which panels one call invalidates. */
  datatype Redraws = Redraws(health: bool, inventory: bool, statistics: bool)

  /** The two clock readings of one call: the one the throttle tests, and the one it
      stores as the new time of the last full redraw. */
  datatype Call = Call(check: int, stamp: int)

  /** One call that does not throw: the new time of the last full redraw and the panels
      redrawn. The specification of `MainUI.ReceiveData`. */
  function Throttle(last: int, c: Call, noInventory: bool): (res: (int, Redraws))
    ensures res.1.health <==> c.check - last >= FullUIDrawTicks
    ensures res.1.inventory <==> res.1.health && !noInventory
    ensures res.1.statistics
    ensures res.0 == if res.1.health then c.stamp else last
  {
    if c.check - last >= FullUIDrawTicks then (c.stamp, Redraws(true, !noInventory, true))
    else (last, Redraws(false, false, true))
  }

  /** The panels each call of a sequence redraws, from a window built at `start`. */
  function Replay(start: int, calls: seq<Call>, noInventory: bool): (rs: seq<Redraws>)
    ensures |rs| == |calls|
    decreases |calls|
  {
    if calls == [] then []
    else
      var (last, r) := Throttle(start, calls[0], noInventory);
      [r] + Replay(last, calls[1..], noInventory)
  }

  /** The clock never runs backwards: readings are taken in call order, after `start`. */
  ghost predicate ClockMonotone(start: int, calls: seq<Call>) {
    && (|calls| > 0 ==> start <= calls[0].check)
    && (forall i | 0 <= i < |calls| :: calls[i].check <= calls[i].stamp)
    && (forall i | 0 <= i < |calls| - 1 :: calls[i].stamp <= calls[i + 1].check)
  }

  /** The statistics panel is redrawn on every call, and the inventory panel together
      with the health panel unless the inventory is switched off. */
  lemma {:induction false} EveryCallRedrawsStatistics(start: int, calls: seq<Call>, noInventory: bool)
    ensures forall i | 0 <= i < |calls| :: Replay(start, calls, noInventory)[i].statistics
    ensures forall i | 0 <= i < |calls| ::
      Replay(start, calls, noInventory)[i].inventory <==> Replay(start, calls, noInventory)[i].health && !noInventory
    decreases |calls|
  {
    if calls != [] {
      var (last, r) := Throttle(start, calls[0], noInventory);
      EveryCallRedrawsStatistics(last, calls[1..], noInventory);
    }
  }

  lemma {:induction false} MonotoneTail(start: int, calls: seq<Call>, noInventory: bool)
    requires ClockMonotone(start, calls) && calls != []
    ensures var last := Throttle(start, calls[0], noInventory).0;
      start <= last && ClockMonotone(last, calls[1..])
  {
  }

  /** The first full redraw waits 333 milliseconds after the window is built. */
  lemma {:induction false} FirstFullRedrawWaits(start: int, calls: seq<Call>, noInventory: bool, j: int)
    requires ClockMonotone(start, calls) && 0 <= j < |calls|
    requires Replay(start, calls, noInventory)[j].health
    ensures calls[j].check - start >= FullUIDrawTicks
    decreases |calls|
  {
    if j > 0 {
      var last := Throttle(start, calls[0], noInventory).0;
      MonotoneTail(start, calls, noInventory);
      FirstFullRedrawWaits(last, calls[1..], noInventory, j - 1);
    }
  }

  /** Two full redraws are at least 333 milliseconds apart. */
  lemma {:induction false} FullRedrawsSpaced(start: int, calls: seq<Call>, noInventory: bool, i: int, j: int)
    requires ClockMonotone(start, calls) && 0 <= i < j < |calls|
    requires Replay(start, calls, noInventory)[i].health && Replay(start, calls, noInventory)[j].health
    ensures calls[j].check - calls[i].check >= FullUIDrawTicks
    decreases |calls|
  {
    var last := Throttle(start, calls[0], noInventory).0;
    MonotoneTail(start, calls, noInventory);
    if i == 0 {
      FirstFullRedrawWaits(last, calls[1..], noInventory, j - 1);
    } else {
      FullRedrawsSpaced(last, calls[1..], noInventory, i - 1, j - 1);
    }
  }

  /** The main window. */
  class MainUI {
    const options: Options
    var lastFullUIDraw: int
    var width: int
    var height: int
    var inventoryWidth: int
    var inventoryHeight: int
    var inventoryVisible: bool
    var borderless: bool

    function Shape(): Geometry
      reads this
    {
      Geometry(width, height, inventoryWidth, inventoryHeight, inventoryVisible, borderless)
    }

    /** Builds the window at clock reading `now`, with slot size `size`; `Layout` is its
        specification. */
    constructor(options: Options, designer: DesignerSizes, size: int, now: int)
      ensures this.options == options
      ensures Shape() == Layout(options, designer, size)
      ensures lastFullUIDraw == now
    {
      this.options := options;
      width := designer.formWidth;
      height := designer.formHeight;
      inventoryWidth := designer.inventoryWidth;
      inventoryHeight := designer.inventoryHeight;
      inventoryVisible := true;
      borderless := false;
      new;
      var titleHeight := 39;
      var borderWidth := 16;
      if options.noTitleBar {
        titleHeight := 0;
        borderWidth := 0;
        borderless := true;
      }
      if !options.noInventory {
        inventoryWidth := size * 2 + size / 2;
        inventoryHeight := size * 6;
        width := inventoryWidth + (designer.statisticsWidth - 30) + borderWidth;
        if titleHeight + inventoryHeight > MinimumHeight {
          height := titleHeight + inventoryHeight;
        }
      } else {
        inventoryVisible := false;
        height := titleHeight + designer.healthHeight + 70;
        if options.debug {
          height := height + 56;
        }
        if !options.noEnemyHealth {
          height := height + 150;
          width := designer.statisticsWidth + borderWidth;
        } else {
          width := designer.healthWidth + borderWidth;
        }
      }
      lastFullUIDraw := now;
    }

    /** Takes a new sample of game memory, with the clock read at `nowAtCheck` for the
        test and at `nowAtStamp` for the stored time, and says which panels to redraw.
        `Throttle` is its specification. */
    method ReceiveData(nowAtCheck: int, nowAtStamp: int) returns (r: Redraws)
      modifies this`lastFullUIDraw
      ensures r.health <==> nowAtCheck - old(lastFullUIDraw) >= FullUIDrawTicks
      ensures r.inventory <==> r.health && !options.noInventory
      ensures r.statistics
      ensures lastFullUIDraw == if r.health then nowAtStamp else old(lastFullUIDraw)
      ensures (lastFullUIDraw, r) == Throttle(old(lastFullUIDraw), Call(nowAtCheck, nowAtStamp), options.noInventory)
    {
      r := Redraws(false, false, false);
      if nowAtCheck - lastFullUIDraw >= FullUIDrawTicks {
        lastFullUIDraw := nowAtStamp;
        r := r.(health := true);
        if !options.noInventory {
          r := r.(inventory := true);
        }
      }
      r := r.(statistics := true);
    }
  }
}
