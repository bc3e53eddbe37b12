/**
 * The inventory panel's paint handler (`MainUI.inventoryPanel_Paint`). It walks the
 * player's inventory entries in order with a slot cursor and places each item's icon
 * and quantity text on a grid of slots two columns wide.
 */
module Inventory {
  import opened Items
  import opened Graphics
  import opened Atlas

  /** One entry of the player's inventory, as the memory provider reports it. */
  datatype InventoryEntry = InventoryEntry(
    slot: int,
    itemType: Item,
    quantity: int,
    isEmpty: bool,
    isInfinite: bool,
    isAcid: bool,
    isBOW: bool,
    isFlame: bool)

  /** Where an icon is cut from: a region of the sprite atlas, or the error image (a
      black slot crossed in red, one slot in size) for a type the table lacks. */
  datatype Sprite = FromAtlas(region: Rect) | ErrorImage

  /** The quantity text: the count, or the infinity sign. */
  datatype QuantityText = Count(n: int) | Infinity

  /** What the handler draws for one non-empty entry: the cursor value (`cell`) it was
      placed at, that cell's column and row, the icon's source and where it is drawn,
      the quantity text's anchor (its bottom-right corner), brush and text. */
  datatype Placement = Placement(
    entry: InventoryEntry,
    cell: int,
    column: int,
    row: int,
    sprite: Sprite,
    image: Rect,
    textX: int,
    textY: int,
    brush: Brush,
    text: QuantityText)

  /** The icon for an item type: its atlas region when the table has one. */
  function SpriteOf(table: map<Item, Rect>, t: Item): (s: Sprite)
    ensures s.FromAtlas? <==> t in table
    ensures s.FromAtlas? ==> s.region == table[t]
  {
    if t in table then FromAtlas(table[t]) else ErrorImage
  }

  /** The width and height of an icon, in pixels. */
  function SpriteWidth(size: int, s: Sprite): int {
    match s
    case FromAtlas(r) => r.w
    case ErrorImage => size
  }

  function SpriteHeight(size: int, s: Sprite): int {
    match s
    case FromAtlas(r) => r.h
    case ErrorImage => size
  }

  /** An entry drawn as a two-slot item: its icon is two slots wide and it is not in
      inventory slot 1. */
  predicate DoubleSlot(size: int, table: map<Item, Rect>, inv: InventoryEntry) {
    SpriteWidth(size, SpriteOf(table, inv.itemType)) == size * 2 && inv.slot != 1
  }

  /** A non-empty two-slot entry outside slot 0 reserves the cell after its own. */
  predicate TakesTwoCells(size: int, table: map<Item, Rect>, inv: InventoryEntry) {
    !inv.isEmpty && DoubleSlot(size, table, inv) && inv.slot != 0
  }

  /** An empty entry in slot 0 or 1 still advances the cursor. */
  predicate HoldsEmptyLeadingSlot(inv: InventoryEntry) {
    (inv.slot == 0 || inv.slot == 1) && inv.isEmpty
  }

  /** The brush of the quantity text. */
  function TextBrush(inv: InventoryEntry): (b: Brush)
    ensures b in {DarkRed, Yellow, Green, Red, White}
  {
    if inv.quantity == 0 then DarkRed
    else if inv.isAcid then Yellow
    else if inv.isBOW then Green
    else if inv.isFlame then Red
    else White
  }

  function QuantityTextOf(inv: InventoryEntry): QuantityText {
    if inv.isInfinite then Infinity else Count(inv.quantity)
  }

  /** The handler's state between entries: the slot cursor and what has been drawn. */
  datatype PaintState = PaintState(cursor: int, drawn: seq<Placement>)

  /** One pass of the loop body over entry `inv`: the specification of `PaintEntry`. */
  function Step(size: int, table: map<Item, Rect>, st: PaintState, inv: InventoryEntry): (next: PaintState)
    requires size > 0 && st.cursor >= -1
    ensures next.cursor >= st.cursor
    ensures |next.drawn| == |st.drawn| + (if inv.isEmpty then 0 else 1)
  {
    var cursor := if HoldsEmptyLeadingSlot(inv) then st.cursor + 1 else st.cursor;
    if inv.isEmpty then
      PaintState(cursor, st.drawn)
    else
      var cell := cursor + 1;
      var column := cell % 2;
      var row := cell / 2;
      var imageX := column * size + size / 2;
      var imageY := row * size;
      var sprite := SpriteOf(table, inv.itemType);
      var image := Rect(imageX, imageY, SpriteWidth(size, sprite), SpriteHeight(size, sprite));
      var p := Placement(inv, cell, column, row, sprite, image,
                         imageX + size, imageY + size, TextBrush(inv), QuantityTextOf(inv));
      if DoubleSlot(size, table, inv) && inv.slot == 0 then
        PaintState(cell, st.drawn + [p.(image := image.(x := imageX - size / 2))])
      else if DoubleSlot(size, table, inv) then
        PaintState(cell + 1, st.drawn + [p.(textX := imageX + size + size)])
      else
        PaintState(cell, st.drawn + [p])
  }

  /** The loop run over `entries` from a cursor of -1. */
  function Run(size: int, table: map<Item, Rect>, entries: seq<InventoryEntry>): (st: PaintState)
    requires size > 0
    ensures st.cursor >= -1
    ensures |st.drawn| <= |entries|
  {
    if entries == [] then PaintState(-1, [])
    else Step(size, table, Run(size, table, entries[..|entries| - 1]), entries[|entries| - 1])
  }

  /** Running the loop one entry further is one more `Step`. */
  lemma RunSnoc(size: int, table: map<Item, Rect>, entries: seq<InventoryEntry>, i: int)
    requires size > 0 && 0 <= i < |entries|
    ensures Run(size, table, entries[..i + 1]) == Step(size, table, Run(size, table, entries[..i]), entries[i])
  {
    assert entries[..i + 1][..i] == entries[..i];
  }

  /** Paints the inventory panel: nothing when the inventory is switched off, otherwise
      one placement per non-empty entry as `Run` describes. The slot size is positive:
      the error image is a bitmap of that size, created before any painting. */
  method PaintInventory(size: int, table: map<Item, Rect>, noInventory: bool, entries: seq<InventoryEntry>)
    returns (drawn: seq<Placement>)
    requires size > 0
    ensures drawn == if noInventory then [] else Run(size, table, entries).drawn
  {
    drawn := [];
    var currentSlot := -1;
    if !noInventory {
      for i := 0 to |entries|
        invariant PaintState(currentSlot, drawn) == Run(size, table, entries[..i])
      {
        RunSnoc(size, table, entries, i);
        currentSlot, drawn := PaintEntry(size, table, currentSlot, drawn, entries[i]);
      }
      assert entries[..|entries|] == entries;
    }
  }

  /** The loop body for one entry: advances the cursor and draws the entry unless it
      is empty. Its specification is `Step`. */
  method PaintEntry(size: int, table: map<Item, Rect>, currentSlot0: int, drawn0: seq<Placement>, inv: InventoryEntry)
    returns (currentSlot: int, drawn: seq<Placement>)
    requires size > 0 && currentSlot0 >= -1
    ensures PaintState(currentSlot, drawn) == Step(size, table, PaintState(currentSlot0, drawn0), inv)
  {
    currentSlot, drawn := currentSlot0, drawn0;
    if (inv.slot == 0 || inv.slot == 1) && inv.isEmpty {
      currentSlot := currentSlot + 1;
    }
    if inv.isEmpty {
      return;
    }
    currentSlot := currentSlot + 1;
    var slotColumn := currentSlot % 2;
    var slotRow := currentSlot / 2;
    var imageX := slotColumn * size + size / 2;
    var imageY := slotRow * size;
    var textX := imageX + size;
    var textY := imageY + size;
    var sprite := if inv.itemType in table then FromAtlas(table[inv.itemType]) else ErrorImage;
    var width := match sprite case FromAtlas(r) => r.w case ErrorImage => size;
    var height := match sprite case FromAtlas(r) => r.h case ErrorImage => size;
    var cell := currentSlot;
    if width == size * 2 && inv.slot != 1 {
      if inv.slot == 0 {
        imageX := imageX - size / 2;
      } else {
        textX := textX + size;
        currentSlot := currentSlot + 1;
      }
    }
    drawn := drawn + [Placement(inv, cell, slotColumn, slotRow, sprite, Rect(imageX, imageY, width, height),
                                textX, textY, TextBrush(inv), QuantityTextOf(inv))];
  }

  // ----- Counting the entries

  /** The non-empty entries, in order. */
  function NonEmpty(entries: seq<InventoryEntry>): seq<InventoryEntry> {
    if entries == [] then []
    else
      var last := entries[|entries| - 1];
      NonEmpty(entries[..|entries| - 1]) + (if last.isEmpty then [] else [last])
  }

  function CountEmptyLeading(entries: seq<InventoryEntry>): nat {
    if entries == [] then 0
    else CountEmptyLeading(entries[..|entries| - 1]) + (if HoldsEmptyLeadingSlot(entries[|entries| - 1]) then 1 else 0)
  }

  function CountTwoCell(size: int, table: map<Item, Rect>, entries: seq<InventoryEntry>): nat {
    if entries == [] then 0
    else CountTwoCell(size, table, entries[..|entries| - 1]) + (if TakesTwoCells(size, table, entries[|entries| - 1]) then 1 else 0)
  }

  /** The entries each placement draws. */
  function EntriesOf(drawn: seq<Placement>): seq<InventoryEntry> {
    if drawn == [] then [] else EntriesOf(drawn[..|drawn| - 1]) + [drawn[|drawn| - 1].entry]
  }

  lemma {:induction false} EntriesOfAppend(drawn: seq<Placement>, p: Placement)
    ensures EntriesOf(drawn + [p]) == EntriesOf(drawn) + [p.entry]
  {
    assert (drawn + [p])[..|drawn|] == drawn;
  }

  /** Exactly the non-empty entries are drawn, once each and in inventory order. */
  lemma {:induction false} DrawsNonEmptyInOrder(size: int, table: map<Item, Rect>, entries: seq<InventoryEntry>)
    requires size > 0
    ensures EntriesOf(Run(size, table, entries).drawn) == NonEmpty(entries)
    ensures |Run(size, table, entries).drawn| == |NonEmpty(entries)|
  {
    if entries != [] {
      var init, last := entries[..|entries| - 1], entries[|entries| - 1];
      DrawsNonEmptyInOrder(size, table, init);
      var st := Run(size, table, init);
      if !last.isEmpty {
        var p := Step(size, table, st, last).drawn[|st.drawn|];
        assert Step(size, table, st, last).drawn == st.drawn + [p];
        EntriesOfAppend(st.drawn, p);
      }
    }
  }

  /** Where the cursor ends: one step from -1 for each empty entry in slot 0 or 1, one
      for each non-empty entry and one more for each two-cell entry. */
  lemma {:induction false} CursorCounts(size: int, table: map<Item, Rect>, entries: seq<InventoryEntry>)
    requires size > 0
    ensures Run(size, table, entries).cursor
         == -1 + CountEmptyLeading(entries) + |NonEmpty(entries)| + CountTwoCell(size, table, entries)
  {
    if entries != [] {
      CursorCounts(size, table, entries[..|entries| - 1]);
    }
  }

  // ----- Where placements land

  /** The number of cells a placement takes: two for an entry that takes two cells. */
  function Extent(size: int, table: map<Item, Rect>, p: Placement): int {
    if TakesTwoCells(size, table, p.entry) then 2 else 1
  }

  /** Every placement is at a cell no earlier than the cursor before it, and each
      leaves the cells it takes behind the cursor. */
  ghost predicate CellsAdvance(size: int, table: map<Item, Rect>, st: PaintState) {
    && (forall j | 0 <= j < |st.drawn| :: st.drawn[j].cell >= 0)
    && (forall j | 0 <= j < |st.drawn| :: st.drawn[j].cell + Extent(size, table, st.drawn[j]) - 1 <= st.cursor)
    && (forall j, k | 0 <= j < k < |st.drawn| ::
          st.drawn[j].cell + Extent(size, table, st.drawn[j]) <= st.drawn[k].cell)
  }

  /** Placements take strictly increasing cells, and an entry that takes two cells has
      both to itself: no two placements share a cell. */
  lemma {:induction false} PlacementsAdvance(size: int, table: map<Item, Rect>, entries: seq<InventoryEntry>)
    requires size > 0
    ensures CellsAdvance(size, table, Run(size, table, entries))
  {
    if entries != [] {
      var init, last := entries[..|entries| - 1], entries[|entries| - 1];
      PlacementsAdvance(size, table, init);
      var st := Run(size, table, init);
      StepAppends(size, table, st, last);
    }
  }

  /** One step draws nothing for an empty entry and never moves the cursor back; for a
      non-empty entry it draws one placement of that entry, past the old cursor, and
      leaves the cursor on the last cell the placement takes. */
  lemma StepAppends(size: int, table: map<Item, Rect>, st: PaintState, inv: InventoryEntry)
    requires size > 0 && st.cursor >= -1
    ensures var next := Step(size, table, st, inv);
      && next.cursor >= st.cursor
      && (inv.isEmpty ==> next.drawn == st.drawn)
      && (!inv.isEmpty ==>
            && |next.drawn| == |st.drawn| + 1
            && next.drawn[..|st.drawn|] == st.drawn
            && next.drawn[|st.drawn|].entry == inv
            && st.cursor < next.drawn[|st.drawn|].cell
            && next.drawn[|st.drawn|].cell + Extent(size, table, next.drawn[|st.drawn|]) - 1 == next.cursor)
  {
    if !inv.isEmpty {
      var next := Step(size, table, st, inv);
      assert next.drawn[..|st.drawn|] == st.drawn;
    }
  }

  /** No two placements share a slot of the grid. */
  lemma DistinctSlots(size: int, table: map<Item, Rect>, entries: seq<InventoryEntry>, j: int, k: int)
    requires size > 0
    requires var d := Run(size, table, entries).drawn; 0 <= j < k < |d|
    ensures var d := Run(size, table, entries).drawn;
      (d[j].column, d[j].row) != (d[k].column, d[k].row)
  {
    PlacementsAdvance(size, table, entries);
    PlacementsLaidOut(size, table, entries);
  }

  /** The layout of one placement: the cell's column and row, the icon drawn half a slot
      in from the column's left edge (a full half slot further left for a two-slot item
      in slot 0), one slot high per row, and the text anchored one slot right of and below
      the icon's corner (one slot further right for an item that takes two cells). */
  ghost predicate LaidOut(size: int, table: map<Item, Rect>, p: Placement) {
    var inv := p.entry;
    var leftShift := if DoubleSlot(size, table, inv) && inv.slot == 0 then size / 2 else 0;
    var textShift := if TakesTwoCells(size, table, inv) then size else 0;
    && !inv.isEmpty
    && p.cell >= 0 && 0 <= p.column < 2 && p.cell == 2 * p.row + p.column
    && p.sprite == SpriteOf(table, inv.itemType)
    && p.image == Rect(p.column * size + size / 2 - leftShift, p.row * size,
                       SpriteWidth(size, p.sprite), SpriteHeight(size, p.sprite))
    && p.textX == p.column * size + size / 2 + size + textShift
    && p.textY == p.row * size + size
    && p.brush == TextBrush(inv)
    && p.text == QuantityTextOf(inv)
  }

  /** Every placement the loop makes is laid out as `LaidOut` says. */
  lemma {:induction false} PlacementsLaidOut(size: int, table: map<Item, Rect>, entries: seq<InventoryEntry>)
    requires size > 0
    ensures forall q | 0 <= q < |Run(size, table, entries).drawn| :: LaidOut(size, table, Run(size, table, entries).drawn[q])
  {
    if entries != [] {
      var init, last := entries[..|entries| - 1], entries[|entries| - 1];
      PlacementsLaidOut(size, table, init);
      var st := Run(size, table, init);
      var next := Step(size, table, st, last);
      if !last.isEmpty {
        var p := next.drawn[|st.drawn|];
        assert next.drawn == st.drawn + [p];
        assert LaidOut(size, table, p);
      }
    }
  }

  /** A one-slot icon placed within the first twelve cells lies inside the inventory
      panel, which is two and a half slots wide and six slots high. */
  lemma OneSlotIconInPanel(size: int, table: map<Item, Rect>, p: Placement)
    requires size > 0 && LaidOut(size, table, p)
    requires p.cell < 12 && p.image.w == size && p.image.h == size
    ensures 0 <= p.image.x && p.image.x + p.image.w <= size * 2 + size / 2
    ensures 0 <= p.image.y && p.image.y + p.image.h <= size * 6
  {
    assert !DoubleSlot(size, table, p.entry) by {
      assert SpriteWidth(size, p.sprite) == size;
    }
    assert 0 <= p.row < 6;
    ScaledGap(size, p.row, 1, 6);
    ScaledGap(size, p.column, 1, 2);
    ScaleMonotone(size, 0, p.row);
    ScaleMonotone(size, 0, p.column);
  }

  // ----- The quantity text

  /** The brush follows the precedence empty stack, acid, BOW gas, flame, plain. */
  lemma BrushPrecedence(inv: InventoryEntry)
    ensures TextBrush(inv) == DarkRed <==> inv.quantity == 0
    ensures TextBrush(inv) == Yellow <==> inv.quantity != 0 && inv.isAcid
    ensures TextBrush(inv) == Green <==> inv.quantity != 0 && !inv.isAcid && inv.isBOW
    ensures TextBrush(inv) == Red <==> inv.quantity != 0 && !inv.isAcid && !inv.isBOW && inv.isFlame
    ensures TextBrush(inv) == White <==> inv.quantity != 0 && !inv.isAcid && !inv.isBOW && !inv.isFlame
  {
  }

  /** The text is the infinity sign exactly for infinite stacks, else the count. */
  lemma InfinityText(inv: InventoryEntry)
    ensures QuantityTextOf(inv) == Infinity <==> inv.isInfinite
    ensures !inv.isInfinite ==> QuantityTextOf(inv) == Count(inv.quantity)
  {
  }

  // ----- With the table `Program.GenerateClipping` builds

  /** A listed type is cut from its sheet cell, and is drawn as a two-slot item exactly
      when it is one of the two-wide weapons and not in slot 1. */
  lemma ListedSprite(size: int, table: map<Item, Rect>, inv: InventoryEntry)
    requires size > 0 && IsAtlasTable(size, table) && Listed(inv.itemType)
    ensures SpriteOf(table, inv.itemType) == FromAtlas(ClipRect(size, inv.itemType))
    ensures DoubleSlot(size, table, inv) <==> IsDoubleWidth(inv.itemType) && inv.slot != 1
  {
    ClipRectInAtlas(size, inv.itemType);
  }

  /** A type the table does not list is drawn with the one-slot error image, and never
      as a two-slot item. */
  lemma UnlistedUsesErrorImage(size: int, table: map<Item, Rect>, inv: InventoryEntry)
    requires size > 0 && IsAtlasTable(size, table) && !Listed(inv.itemType)
    ensures SpriteOf(table, inv.itemType) == ErrorImage
    ensures !DoubleSlot(size, table, inv)
  {
  }

  /** A listed type that is not two-wide has a one-slot icon. */
  lemma OneSlotSprite(size: int, table: map<Item, Rect>, it: Item)
    requires size > 0 && IsAtlasTable(size, table) && Listed(it) && !IsDoubleWidth(it)
    ensures it in table && table[it].w == size && table[it].h == size
  {
    ClipRectInAtlas(size, it);
  }

  /** Two empty leading slots push the first item to the second row: with slots 0 and 1
      empty, the item in slot 2 is drawn at column 0 of row 1, and the item in slot 3
      beside it. */
  lemma EmptyLeadingSlotsExample(size: int, table: map<Item, Rect>)
    requires size > 0 && IsAtlasTable(size, table)
    ensures var entries := [
          InventoryEntry(0, None, 0, true, false, false, false, false),
          InventoryEntry(1, None, 0, true, false, false, false, false),
          InventoryEntry(2, Handgun, 15, false, false, false, false, false),
          InventoryEntry(3, HandgunBullets, 30, false, false, false, false, false)];
      var d := Run(size, table, entries).drawn;
      && |d| == 2
      && d[0].column == 0 && d[0].row == 1 && d[0].image == Rect(size / 2, size, size, size)
      && d[1].column == 1 && d[1].row == 1 && d[1].image == Rect(size + size / 2, size, size, size)
  {
    var entries := [
      InventoryEntry(0, None, 0, true, false, false, false, false),
      InventoryEntry(1, None, 0, true, false, false, false, false),
      InventoryEntry(2, Handgun, 15, false, false, false, false, false),
      InventoryEntry(3, HandgunBullets, 30, false, false, false, false, false)];
    OneSlotSprite(size, table, Handgun);
    OneSlotSprite(size, table, HandgunBullets);
    assert entries[..0] == [];
    RunSnoc(size, table, entries, 0);
    assert Run(size, table, entries[..1]) == PaintState(0, []);
    RunSnoc(size, table, entries, 1);
    assert Run(size, table, entries[..2]) == PaintState(1, []);
    RunSnoc(size, table, entries, 2);
    assert Run(size, table, entries[..3]).cursor == 2;
    RunSnoc(size, table, entries, 3);
    assert entries[..4] == entries;
  }
}
