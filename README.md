# RE: Code Veronica X speedrun overlay — verified model

This project models the core of the Windows Forms overlay that shows live
state from Resident Evil: Code Veronica X: the player's health, inventory,
in-game timer and enemy health. A memory-reading provider feeds it snapshots
of game memory. The model covers six pieces and proves what each promises.

- **Sprite-atlas table.** `Program.GenerateClipping` is modelled in modules
  `Program` and `Atlas`. It maps every listed item identifier to the rectangle of
  its icon in a sheet of 7 × 20 square slots.
  - The model keeps the table's two cursors. The column cursor is set or
    pre-incremented, and the row cursor is pre-incremented once per sheet row.
  - It proves that no key is added twice and that the table holds exactly the
    154 listed items. It also proves that each rectangle agrees with
    `Atlas.SheetRow`. `SheetRow` is a second, hand-written rendering of the
    initializer's listing, one row of seven cells at a time; it is not read
    from the sheet image. Its three vacant cells, at (0, 1), (6, 4) and
    (5, 19), are inferred from the columns the listing skips.
  - It also proves the geometry: every rectangle lies inside the 7W × 20H
    sheet; it is 2W wide exactly for the six two-wide weapons; aliases share a
    rectangle; items with no icon show the empty slot; and any two rectangles
    are identical or disjoint.
- **Inventory placement.** `MainUI.inventoryPanel_Paint` is modelled in
  module `Inventory`: a loop method proved against a fold (`Run`) over the
  entries. The lemmas prove:
  - the cursor's closed form;
  - that exactly the non-empty entries are drawn, in order;
  - that cells strictly increase and are distinct;
  - the coordinate formulas;
  - the text-colour precedence and the infinity text;
  - the error placeholder for unknown types;
  - a worked example.
- **Health precedence.** `MainUI.playerHealthStatus_Paint` is modelled in
  module `Health`: "DEAD", or the first matching status in a fixed order.
- **Enemy list and statistics layout.** `MainUI.statisticsPanel_Paint` is
  modelled in module `Statistics`.
  - Filter: living, non-empty entries; in debug-enemy mode, every non-empty
    entry.
  - Order: a stable sort by ascending percentage, then descending hit points;
    in debug-enemy mode, by ascending slot.
  - Proved: the list is sorted, is a permutation of the filtered entries, and
    is stable.
  - The row positions come from a loop method with the source's `++i`
    counter.
- **Redraw throttle and window geometry.** The `MainUI` constructor and
  `MainUI.ReceiveData` are modelled in module `MainWindow`, as a class with
  those fields. The trace lemmas prove that full redraws come at least
  333 ms apart, and that the first waits 333 ms after construction.

Slot width and height come from the same expression in the source, so the
model uses one slot size, `size`, for both. A positive size is assumed wherever
painting happens: the error image is a bitmap of that size, and it is created
before anything is painted.

Two behaviours of the code worth noting:

- A two-wide icon in inventory slot 1 is not treated as two-wide at all: the
  test is `width == 2W && slot != 1`, so slot 1 gets no offset and uses no
  extra cursor step. Only two-wide items in slots other than 0 and 1 use the
  extra cursor step. `Inventory.ListedSprite` and `Inventory.CursorCounts`
  state this.
- The form height with the inventory shown is set to title + 6H only when that
  exceeds 545. Otherwise the designer height is kept, and it is not forced to
  max(545, …). `MainWindow.HeightFitsInventory` shows the two agree when the
  designer height is 545.

## Model

| member | source | states |
|---|---|---|
| Program.GenerateClipping | SRTPluginUIRECVXWinForms/PluginUI.cs:146-351 | the initializer never adds a key twice (so it never throws); the table holds every listed item and nothing else, at the rectangle of its sheet cell, 154 entries |
| Program.Add | SRTPluginUIRECVXWinForms/PluginUI.cs:151 | each `Dictionary.Add` of the initializer receives a key not yet in the table, and the table grows by exactly that item at its sheet rectangle |
| Program.PrefixSize | SRTPluginUIRECVXWinForms/PluginUI.cs:151-349 | the table of the first n listed items has exactly n entries, so the keys are pairwise distinct |
| Program.Row1 | SRTPluginUIRECVXWinForms/PluginUI.cs:153-157 | sheet row 1 entries land in row index 0 at their sheet cells (the row cursor's first pre-increment gives 0), extending the table |
| Program.Row2 | SRTPluginUIRECVXWinForms/PluginUI.cs:159-165 | sheet row 2 entries land in row index 1 at their sheet cells, the column cursor reset to 1 then pre-incremented |
| Program.Row3 | SRTPluginUIRECVXWinForms/PluginUI.cs:167-175 | sheet row 3 entries land in row index 2 at their sheet cells, including the MagnumBulletsInsideCase alias |
| Program.Row4 | SRTPluginUIRECVXWinForms/PluginUI.cs:177-184 | sheet row 4 entries land in row index 3 at their sheet cells |
| Program.Row5 | SRTPluginUIRECVXWinForms/PluginUI.cs:186-192 | sheet row 5 entries land in row index 4 at their sheet cells |
| Program.Row6 | SRTPluginUIRECVXWinForms/PluginUI.cs:194-199 | sheet row 6 entries land in row index 5, GoldLugers and SubMachineGun two cells wide and BowGunPowder, at the literal columns 2, 4 and 6; the column cursor stays at 1 |
| Program.Row7 | SRTPluginUIRECVXWinForms/PluginUI.cs:201-208 | sheet row 7 entries land in row index 6 at their sheet cells |
| Program.Row8 | SRTPluginUIRECVXWinForms/PluginUI.cs:210-217 | sheet row 8 entries land in row index 7 at their sheet cells |
| Program.Row9 | SRTPluginUIRECVXWinForms/PluginUI.cs:219-226 | sheet row 9 entries land in row index 8 at their sheet cells |
| Program.Row10 | SRTPluginUIRECVXWinForms/PluginUI.cs:228-237 | sheet row 10 entries land in row index 9, including the two Duralumin case aliases |
| Program.Row11 | SRTPluginUIRECVXWinForms/PluginUI.cs:239-246 | sheet row 11 entries land in row index 10 at their sheet cells |
| Program.Row12 | SRTPluginUIRECVXWinForms/PluginUI.cs:248-255 | sheet row 12 entries land in row index 11 at their sheet cells |
| Program.Row13 | SRTPluginUIRECVXWinForms/PluginUI.cs:257-264 | sheet row 13 entries land in row index 12 at their sheet cells |
| Program.Row14 | SRTPluginUIRECVXWinForms/PluginUI.cs:266-273 | sheet row 14 entries land in row index 13 at their sheet cells |
| Program.Row15 | SRTPluginUIRECVXWinForms/PluginUI.cs:275-282 | sheet row 15 entries land in row index 14 at their sheet cells |
| Program.Row16 | SRTPluginUIRECVXWinForms/PluginUI.cs:284-291 | sheet row 16 entries land in row index 15 at their sheet cells |
| Program.Row17 | SRTPluginUIRECVXWinForms/PluginUI.cs:293-300 | sheet row 17 entries land in row index 16 at their sheet cells |
| Program.Row18 | SRTPluginUIRECVXWinForms/PluginUI.cs:302-309 | sheet row 18 entries land in row index 17 at their sheet cells |
| Program.Row19 | SRTPluginUIRECVXWinForms/PluginUI.cs:311-318 | sheet row 19 entries land in row index 18 at their sheet cells |
| Program.Row20 | SRTPluginUIRECVXWinForms/PluginUI.cs:320-325 | sheet row 20 entries land in row index 19, M1P two cells wide, PlayingManual at the fixed column 6 |
| Program.SharedIcons | SRTPluginUIRECVXWinForms/PluginUI.cs:327-332 | the five unused items that borrow an icon are added at that icon's cell, extending the table |
| Program.NoIcons | SRTPluginUIRECVXWinForms/PluginUI.cs:334-349 | the fifteen items with no icon are added at the empty top-left cell, completing the table |
| Atlas.SheetAgrees | SRTPluginUIRECVXWinForms/PluginUI.cs:153-349 | every listed item's cells lie in the 7 × 20 sheet, span one or two cells (two exactly for the two-wide weapons), and the hand-written sheet rendering `SheetRow` holds that item's art in each |
| Atlas.ClipRectInAtlas | SRTPluginUIRECVXWinForms/PluginUI.cs:154-349 | every rectangle has height H and width W or 2W, 2W exactly for RocketLauncher, AssaultRifle, SniperRifle, GoldLugers, SubMachineGun and M1P, and lies inside the 7W × 20H atlas |
| Atlas.AliasesShareRect | SRTPluginUIRECVXWinForms/PluginUI.cs:171-237 | the declared aliases (magnum bullets inside case, the two Duralumin case variants, the board clip) get the rectangle of the item whose icon they show |
| Atlas.SharedIconsShareRect | SRTPluginUIRECVXWinForms/PluginUI.cs:327-331 | the unused items that borrow an icon get the lender's rectangle |
| Atlas.NoIconIsEmptySlot | SRTPluginUIRECVXWinForms/PluginUI.cs:334-349 | each of the fifteen no-icon items is listed and maps to the same rectangle as None, (0, 0, W, H) |
| Atlas.CellsIdenticalOrSeparate | SRTPluginUIRECVXWinForms/PluginUI.cs:154-325 | any two items' cell runs coincide or share no cell: a two-wide item is followed by a column at least two further on |
| Atlas.IdenticalOrDisjoint | SRTPluginUIRECVXWinForms/PluginUI.cs:154-349 | any two rectangles of the table are identical or share no pixel |
| Inventory.PaintInventory | SRTPluginUIRECVXWinForms/MainUI.cs:244-313 | nothing is drawn when the inventory is switched off; otherwise the placements are exactly those of the cursor fold over the entries, from a cursor of -1 |
| Inventory.Step | SRTPluginUIRECVXWinForms/MainUI.cs:259-310 | one pass of the loop never moves the cursor back and draws one placement for a non-empty entry, none for an empty one |
| Inventory.Run | SRTPluginUIRECVXWinForms/MainUI.cs:246-311 | the loop over the entries from a cursor of -1 never leaves the cursor below -1 and draws at most one placement per entry |
| Inventory.TextBrush | SRTPluginUIRECVXWinForms/MainUI.cs:274-283 | the quantity text is drawn in one of DarkRed, Yellow, Green, Red or White |
| Inventory.SpriteOf | SRTPluginUIRECVXWinForms/MainUI.cs:286-289 | an item type is cut from the atlas exactly when the table has it, from its table rectangle; otherwise the error image is used |
| Inventory.PaintEntry | SRTPluginUIRECVXWinForms/MainUI.cs:259-310 | one pass of the loop body advances the cursor and draws the entry exactly as one step of the fold |
| Inventory.DrawsNonEmptyInOrder | SRTPluginUIRECVXWinForms/MainUI.cs:257-265 | exactly the non-empty entries are drawn, once each and in inventory order |
| Inventory.CursorCounts | SRTPluginUIRECVXWinForms/MainUI.cs:246-306 | the cursor ends at -1 plus one per empty entry in slot 0 or 1, one per non-empty entry, and one more per two-slot entry outside slots 0 and 1 |
| Inventory.StepAppends | SRTPluginUIRECVXWinForms/MainUI.cs:259-306 | one loop pass never moves the cursor back, draws nothing for an empty entry, and draws exactly one placement of a non-empty entry past the old cursor, leaving the cursor on the last cell it takes |
| Inventory.PlacementsAdvance | SRTPluginUIRECVXWinForms/MainUI.cs:259-306 | drawn entries get strictly increasing cursor values, all non-negative, and an entry that takes two cells has both to itself |
| Inventory.DistinctSlots | SRTPluginUIRECVXWinForms/MainUI.cs:265-268 | no two drawn entries share a (cursor % 2, cursor / 2) grid cell |
| Inventory.PlacementsLaidOut | SRTPluginUIRECVXWinForms/MainUI.cs:265-310 | each placement has column cursor % 2, row cursor / 2, imageX = col·W + W/2 (less W/2 for a two-slot item in slot 0), imageY = row·H, textX = imageX + W (plus W for a two-slot item outside slots 0 and 1), textY = imageY + H, the icon's own width and height |
| Inventory.OneSlotIconInPanel | SRTPluginUIRECVXWinForms/MainUI.cs:267-272 | a one-slot icon in the first twelve cells lies inside a panel 2.5 slots wide and 6 slots high |
| Inventory.BrushPrecedence | SRTPluginUIRECVXWinForms/MainUI.cs:274-283 | the text brush is the first of DarkRed (quantity 0), Yellow (acid), Green (BOW), Red (flame), White, each as an if-and-only-if |
| Inventory.InfinityText | SRTPluginUIRECVXWinForms/MainUI.cs:310 | the text is the infinity sign exactly when the stack is infinite, otherwise the quantity |
| Inventory.ListedSprite | SRTPluginUIRECVXWinForms/MainUI.cs:285-294 | with the generated table, a listed type is cut from its sheet rectangle and is drawn two slots wide exactly when it is a two-wide weapon not in slot 1 |
| Inventory.UnlistedUsesErrorImage | SRTPluginUIRECVXWinForms/MainUI.cs:286-294 | a type missing from the table uses the W-wide error image and is never treated as two-slot |
| Inventory.EmptyLeadingSlotsExample | SRTPluginUIRECVXWinForms/MainUI.cs:257-272 | with slots 0 and 1 empty, the items in slots 2 and 3 land at columns 0 and 1 of row 1 |
| Health.PaintHealth | SRTPluginUIRECVXWinForms/MainUI.cs:205-241 | the health text is always drawn at (15, 37) |
| Health.DeadOrHitPoints | SRTPluginUIRECVXWinForms/MainUI.cs:203-209 | "DEAD" and the empty icon exactly when the player is dead, in red; a living player's hit points otherwise |
| Health.StatusPrecedence | SRTPluginUIRECVXWinForms/MainUI.cs:211-241 | for a living player the brush is the first match of gassed (Purple), poisoned (Violet), danger (Red), caution orange (Gold), caution yellow (Goldenrod), else LawnGreen, each as an if-and-only-if |
| Health.IconPrecedence | SRTPluginUIRECVXWinForms/MainUI.cs:213-239 | the icon follows the same precedence: POISON, DANGER, CAUTION_YELLOW for either caution level, else FINE |
| Health.IconFollowsBrush | SRTPluginUIRECVXWinForms/MainUI.cs:211-239 | for a living player the brush determines the icon |
| Statistics.Filter | SRTPluginUIRECVXWinForms/MainUI.cs:353-356 | the filtered list is no longer than the provider's and holds only entries of it that are shown (non-empty, and living unless in debug-enemy mode) |
| Statistics.EnemyList | SRTPluginUIRECVXWinForms/MainUI.cs:353-356 | the drawn list is no longer than the provider's and holds only shown entries of it |
| Statistics.SortEnemies | SRTPluginUIRECVXWinForms/MainUI.cs:353-356 | the ordered list is a permutation of its input |
| Statistics.FilterKeeps | SRTPluginUIRECVXWinForms/MainUI.cs:353-356 | the filter keeps exactly the non-empty entries (debug-enemy mode) or the living non-empty ones, each with its multiplicity |
| Statistics.SortedBy | SRTPluginUIRECVXWinForms/MainUI.cs:353-356 | the list is ordered by ascending slot (debug-enemy mode) or ascending percentage then descending hit points |
| Statistics.SortStable | SRTPluginUIRECVXWinForms/MainUI.cs:353-356 | the order is stable: entries with equal keys keep the provider's order |
| Statistics.EnemyListPolicy | SRTPluginUIRECVXWinForms/MainUI.cs:351-356 | the drawn list holds exactly the shown entries with their multiplicities, sorted by the mode's key, equal keys in provider order |
| Statistics.PaintStatistics | SRTPluginUIRECVXWinForms/MainUI.cs:315-371 | the timer at (0, 0); the debug lines at 25, 38, 51, 64; the status lines 25, 38, 51 below the offset (56 in debug mode); the header at offset + 39 + 30; the k-th listed enemy's row at offset + 39 + 15·(k + 3) |
| Statistics.RowAt | SRTPluginUIRECVXWinForms/MainUI.cs:360-368 | an enemy row's bar is 176 × 15 at x = 1, with the debug message two right and one down of the bar's corner and the health message at the corner |
| Statistics.RowsStack | SRTPluginUIRECVXWinForms/MainUI.cs:349-361 | enemy rows stack without overlap, each a full row gap below the header |
| MainWindow.MainUI.constructor | SRTPluginUIRECVXWinForms/MainUI.cs:57-106 | the form's geometry equals the closed-form layout for the options, and the last full redraw is stamped with the construction time |
| MainWindow.Layout | SRTPluginUIRECVXWinForms/MainUI.cs:57-104 | the inventory panel is visible exactly when not switched off and the form is borderless exactly without a title bar; a hidden panel keeps its designer size; a shown panel is 2.5 slots wide (rounded down) and 6 slots high, the form is as wide as the panel plus the statistics panel less 30 plus the border, and the form keeps its designer height unless the title plus the panel is taller than 545, in which case it is exactly that tall |
| MainWindow.Throttle | SRTPluginUIRECVXWinForms/MainUI.cs:171-183 | for a call that does not throw: health redraws exactly when 333 ms have passed since the last full redraw, inventory with it unless switched off, statistics every time; the stamp moves to the second clock reading only on a full redraw |
| MainWindow.MainUI.ReceiveData | SRTPluginUIRECVXWinForms/MainUI.cs:171-183 | for a call that does not throw: health redraws exactly when 333 ms have passed since the last full redraw, inventory with it unless switched off, statistics every time; the stamp moves only on a full redraw; the result and new stamp are those of `Throttle` |
| MainWindow.HeightFitsInventory | SRTPluginUIRECVXWinForms/MainUI.cs:77-85 | with a designer height of 545 the form is max(545, title + 6H) tall, so the inventory panel fits |
| MainWindow.HeightWithoutInventory | SRTPluginUIRECVXWinForms/MainUI.cs:87-103 | without the inventory the height adds health panel + 70, plus 56 in debug mode, plus 150 when enemy health shows; the width follows the statistics or the health panel |
| MainWindow.PanelHoldsTwelveCells | SRTPluginUIRECVXWinForms/MainUI.cs:77-78 | the inventory panel the constructor sizes holds every one-slot icon placed in its first twelve cells |
| MainWindow.EveryCallRedrawsStatistics | SRTPluginUIRECVXWinForms/MainUI.cs:177-183 | over any sequence of calls that do not throw, the statistics panel is redrawn every time and the inventory exactly with the health panel unless switched off |
| MainWindow.FirstFullRedrawWaits | SRTPluginUIRECVXWinForms/MainUI.cs:106 | on a clock that does not run backwards, the first full redraw comes at least 333 ms after construction |
| MainWindow.FullRedrawsSpaced | SRTPluginUIRECVXWinForms/MainUI.cs:171-174 | on a clock that does not run backwards, any two full redraws are at least 333 ms apart |

## Left out

- Drawing is not modelled: GDI+ fonts, brushes, texture transforms, `FillRectangle`/`DrawString`, anti-aliasing settings and the health icon setter. The model records what is drawn and where, not the pixels.
- `GenerateImages` (the error bitmap and the atlas rescaling) is not modelled, beyond using a `size`-square error image. `DrawProgressBarGDI` is not modelled either. Both are bitmap and floating-point work.
- The slot size derivation `Math.Round(112 × ScalingFactor)` is floating-point; the model takes the slot size as a parameter. Width and height are one value because they are computed by the same expression.
- Item identifiers are numbered 0 … 153 in listing order, so distinct names have distinct values by construction. The provider's own enumeration values are not visible. `Program.GenerateClipping`, `Program.Add` and `Program.PrefixSize` prove that no key is added twice only under this assumption: if two of the provider's names shared a value, `Dictionary.Add` (PluginUI.cs:151) would throw.
- `Inventory.ListedSprite`: the width of a texture brush's image is taken to be the width of the region it was cut from.
- `inv == default` is not modelled; entries are values the provider fills in, so only the empty flag is.
- Enemy percentages are modelled as real numbers: float rounding and NaN ordering are not captured.
- The debug and health message texts are not modelled; their computation belongs to the provider.
- Thread marshalling (`Invoke`), the always-on-top focus check, window dragging, the transparency key, the context menu, the options dialog and error display are not modelled. They are OS and UI calls.
- MainWindow.MainUI.ReceiveData: models a call that does not throw. The whole body sits in a try/catch (MainUI.cs:151-188); if the always-on-top `Invoke` (MainUI.cs:153-168) throws, the call redraws nothing, not even the statistics panel, and the stamp does not move.
- MainWindow.EveryCallRedrawsStatistics: holds for sequences of calls that do not throw, for the reason above; a throwing call redraws nothing.
- `DateTime.UtcNow` is an input. `ReceiveData` reads it twice (the test and the stamp), so the model takes both readings.
- `PluginUI.cs` lifecycle (`Startup`, `Shutdown`, the plugin's `ReceiveData` forwarding) and `PluginInfo.cs` are not part of this model.
- The designer's sizes of the form and panels are parameters, since the designer file is not part of this model.
