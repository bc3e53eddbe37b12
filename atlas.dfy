/**
 * The sprite atlas as laid out in the icon sheet: 7 columns by 20 rows of square
 * slots. This module gives, independently of the cursor arithmetic that builds the
 * table, the cell every listed item occupies, a hand-written rendering of the listing
 * as the sheet cell by cell, and the facts the table is meant to have.
 */
module Atlas {
  import opened Items
  import opened Graphics

  const Columns := 7
  const Rows := 20

  /** A run of `span` horizontally adjacent cells starting at column `col` of row `row`
      (both counted from 0). */
  datatype Cell = Cell(col: int, row: int, span: int)

  /** The cell of each listed item, read off the sheet row by row (sheet row k has
      row index k - 1). Identifiers are numbered in listing order, so the block an item
      belongs to is found by comparing it with the first item of the next block. */
  function CellOf(it: Item): Cell
    requires Listed(it)
  {
    if it < Shotgun then
      // sheet row 1
      if it == None then Cell(0, 0, 1)
      else if it == RocketLauncher then Cell(1, 0, 2)
      else if it == AssaultRifle then Cell(3, 0, 2)
      else /* SniperRifle */ Cell(5, 0, 2)
    else if it < CustomHandgun then
      // sheet row 2
      if it == Shotgun then Cell(1, 1, 1)
      else if it == HandgunGlock17 then Cell(2, 1, 1)
      else if it == GrenadeLauncher then Cell(3, 1, 1)
      else if it == BowGun then Cell(4, 1, 1)
      else if it == CombatKnife then Cell(5, 1, 1)
      else /* Handgun */ Cell(6, 1, 1)
    else if it < FlameRounds then
      // sheet row 3
      if it == CustomHandgun then Cell(0, 2, 1)
      else if it == LinearLauncher then Cell(1, 2, 1)
      else if it == HandgunBullets then Cell(2, 2, 1)
      else if it == MagnumBullets then Cell(3, 2, 1)
      else if it == MagnumBulletsInsideCase then Cell(3, 2, 1)
      else if it == ShotgunShells then Cell(4, 2, 1)
      else if it == GrenadeRounds then Cell(5, 2, 1)
      else /* AcidRounds */ Cell(6, 2, 1)
    else if it < MixedHerb2Green then
      // sheet row 4
      if it == FlameRounds then Cell(0, 3, 1)
      else if it == BowGunArrows then Cell(1, 3, 1)
      else if it == M93RPart then Cell(2, 3, 1)
      else if it == FAidSpray then Cell(3, 3, 1)
      else if it == GreenHerb then Cell(4, 3, 1)
      else if it == RedHerb then Cell(5, 3, 1)
      else /* BlueHerb */ Cell(6, 3, 1)
    else if it < InkRibbon then
      // sheet row 5
      if it == MixedHerb2Green then Cell(0, 4, 1)
      else if it == MixedHerbRedGreen then Cell(1, 4, 1)
      else if it == MixedHerbBlueGreen then Cell(2, 4, 1)
      else if it == MixedHerb2GreenBlue then Cell(3, 4, 1)
      else if it == MixedHerb3Green then Cell(4, 4, 1)
      else /* MixedHerbGreenBlueRed */ Cell(5, 4, 1)
    else if it < GunPowderArrow then
      // sheet row 6
      if it == InkRibbon then Cell(0, 5, 1)
      else if it == Magnum then Cell(1, 5, 1)
      else if it == GoldLugers then Cell(2, 5, 2)
      else if it == SubMachineGun then Cell(4, 5, 2)
      else /* BowGunPowder */ Cell(6, 5, 1)
    else if it < AlexandersPierce then
      // sheet row 7
      if it == GunPowderArrow then Cell(0, 6, 1)
      else if it == BOWGasRounds then Cell(1, 6, 1)
      else if it == MGunBullets then Cell(2, 6, 1)
      else if it == GasMask then Cell(3, 6, 1)
      else if it == RifleBullets then Cell(4, 6, 1)
      else if it == DuraluminCaseUnused then Cell(5, 6, 1)
      else /* ARifleBullets */ Cell(6, 6, 1)
    else if it < Lockpick then
      // sheet row 8
      if it == AlexandersPierce then Cell(0, 7, 1)
      else if it == AlexandersJewel then Cell(1, 7, 1)
      else if it == AlfredsRing then Cell(2, 7, 1)
      else if it == AlfredsJewel then Cell(3, 7, 1)
      else if it == LugerReplica then Cell(4, 7, 1)
      else if it == FamilyPicture then Cell(5, 7, 1)
      else /* CalicoBullets */ Cell(6, 7, 1)
    else if it < SidePack then
      // sheet row 9
      if it == Lockpick then Cell(0, 8, 1)
      else if it == GlassEye then Cell(1, 8, 1)
      else if it == PianoRoll then Cell(2, 8, 1)
      else if it == SteeringWheel then Cell(3, 8, 1)
      else if it == CraneKey then Cell(4, 8, 1)
      else if it == Lighter then Cell(5, 8, 1)
      else /* EaglePlate */ Cell(6, 8, 1)
    else if it < Detonator then
      // sheet row 10
      if it == SidePack then Cell(0, 9, 1)
      else if it == MapRoll then Cell(1, 9, 1)
      else if it == HawkEmblem then Cell(2, 9, 1)
      else if it == QueenAntObject then Cell(3, 9, 1)
      else if it == KingAntObject then Cell(4, 9, 1)
      else if it == BiohazardCard then Cell(5, 9, 1)
      else if it == DuraluminCaseM93RParts then Cell(6, 9, 1)
      else if it == DuraluminCaseBowGunPowder then Cell(6, 9, 1)
      else /* DuraluminCaseMagnumRounds */ Cell(6, 9, 1)
    else if it < AirForceProof then
      // sheet row 11
      if it == Detonator then Cell(0, 10, 1)
      else if it == ControlLever then Cell(1, 10, 1)
      else if it == GoldDragonfly then Cell(2, 10, 1)
      else if it == SilverKey then Cell(3, 10, 1)
      else if it == GoldKey then Cell(4, 10, 1)
      else if it == ArmyProof then Cell(5, 10, 1)
      else /* NavyProof */ Cell(6, 10, 1)
    else if it < MusicBoxPlate then
      // sheet row 12
      if it == AirForceProof then Cell(0, 11, 1)
      else if it == KeyWithTag then Cell(1, 11, 1)
      else if it == IDCard then Cell(2, 11, 1)
      else if it == Map then Cell(3, 11, 1)
      else if it == AirportKey then Cell(4, 11, 1)
      else if it == EmblemCard then Cell(5, 11, 1)
      else /* SkeletonPicture */ Cell(6, 11, 1)
    else if it < TG01 then
      // sheet row 13
      if it == MusicBoxPlate then Cell(0, 12, 1)
      else if it == GoldDragonflyNoWings then Cell(1, 12, 1)
      else if it == Album then Cell(2, 12, 1)
      else if it == Halberd then Cell(3, 12, 1)
      else if it == Extinguisher then Cell(4, 12, 1)
      else if it == Briefcase then Cell(5, 12, 1)
      else /* PadlockKey */ Cell(6, 12, 1)
    else if it < SterileRoomKey then
      // sheet row 14
      if it == TG01 then Cell(0, 13, 1)
      else if it == SpAlloyEmblem then Cell(1, 13, 1)
      else if it == ValveHandle then Cell(2, 13, 1)
      else if it == OctaValveHandle then Cell(3, 13, 1)
      else if it == MachineRoomKey then Cell(4, 13, 1)
      else if it == MiningRoomKey then Cell(5, 13, 1)
      else /* BarCodeSticker */ Cell(6, 13, 1)
    else if it < ClementSigma then
      // sheet row 15
      if it == SterileRoomKey then Cell(0, 14, 1)
      else if it == DoorKnob then Cell(1, 14, 1)
      else if it == BatteryPack then Cell(2, 14, 1)
      else if it == HemostaticWire then Cell(3, 14, 1)
      else if it == TurnTableKey then Cell(4, 14, 1)
      else if it == ChemStorageKey then Cell(5, 14, 1)
      else /* ClementAlpha */ Cell(6, 14, 1)
    else if it < SecurityFile then
      // sheet row 16
      if it == ClementSigma then Cell(0, 15, 1)
      else if it == TankObject then Cell(1, 15, 1)
      else if it == SpAlloyEmblemUnused then Cell(2, 15, 1)
      else if it == ClementMixture then Cell(3, 15, 1)
      else if it == RustedSword then Cell(4, 15, 1)
      else if it == Hemostatic then Cell(5, 15, 1)
      else /* SecurityCard */ Cell(6, 15, 1)
    else if it < Socket then
      // sheet row 17
      if it == SecurityFile then Cell(0, 16, 1)
      else if it == AlexiasChoker then Cell(1, 16, 1)
      else if it == AlexiasJewel then Cell(2, 16, 1)
      else if it == QueenAntRelief then Cell(3, 16, 1)
      else if it == KingAntRelief then Cell(4, 16, 1)
      else if it == RedJewel then Cell(5, 16, 1)
      else /* BlueJewel */ Cell(6, 16, 1)
    else if it < WingObject then
      // sheet row 18
      if it == Socket then Cell(0, 17, 1)
      else if it == SqValveHandle then Cell(1, 17, 1)
      else if it == Serum then Cell(2, 17, 1)
      else if it == EarthenwareVase then Cell(3, 17, 1)
      else if it == PaperWeight then Cell(4, 17, 1)
      else if it == SilverDragonflyNoWings then Cell(5, 17, 1)
      else /* SilverDragonfly */ Cell(6, 17, 1)
    else if it < PictureB then
      // sheet row 19
      if it == WingObject then Cell(0, 18, 1)
      else if it == Crystal then Cell(1, 18, 1)
      else if it == GoldDragonfly1Wing then Cell(2, 18, 1)
      else if it == GoldDragonfly2Wings then Cell(3, 18, 1)
      else if it == GoldDragonfly3Wings then Cell(4, 18, 1)
      else if it == File then Cell(5, 18, 1)
      else /* PlantPot */ Cell(6, 18, 1)
    else if it < PrisonersDiary then
      // sheet row 20
      if it == PictureB then Cell(0, 19, 1)
      else if it == M1P then Cell(1, 19, 2)
      else if it == BowGunPowderUnused then Cell(3, 19, 1)
      else if it == EnhancedHandgun then Cell(4, 19, 1)
      else /* PlayingManual */ Cell(6, 19, 1)
    else if it < Card then
      // unused content that shares another item's icon
      if it == PrisonersDiary then Cell(4, 7, 1)
      else if it == DirectorsMemo then Cell(5, 7, 1)
      else if it == Instructions then Cell(6, 7, 1)
      else if it == AlfredsMemo then Cell(3, 15, 1)
      else /* BoardClip */ Cell(6, 19, 1)
    else
      // unused content with no icon: the empty-slot cell
      if it == Card then Cell(0, 0, 1)
      else if it == CrestKeyS then Cell(0, 0, 1)
      else if it == CrestKeyG then Cell(0, 0, 1)
      else if it == EmptyExtinguisher then Cell(0, 0, 1)
      else if it == FileFolders then Cell(0, 0, 1)
      else if it == Memo then Cell(0, 0, 1)
      else if it == NewspaperClip then Cell(0, 0, 1)
      else if it == SquareSocket then Cell(0, 0, 1)
      else if it == RemoteController then Cell(0, 0, 1)
      else if it == QueenAntReliefComplete then Cell(0, 0, 1)
      else if it == QuestionA then Cell(0, 0, 1)
      else if it == QuestionB then Cell(0, 0, 1)
      else if it == QuestionC then Cell(0, 0, 1)
      else if it == QuestionD then Cell(0, 0, 1)
      else /* QuestionE */ Cell(0, 0, 1)
  }

  /** The rectangle of an item in an atlas of `size`-pixel square slots. */
  function ClipRect(size: int, it: Item): Rect
    requires Listed(it)
  {
    RectOf(size, CellOf(it))
  }

  /** A table that holds every listed item, and nothing else, at the rectangle the
      sheet layout gives it: what `Program.GenerateClipping` builds. */
  ghost predicate IsAtlasTable(size: int, table: map<Item, Rect>) {
    && (forall it :: it in table <==> Listed(it))
    && (forall it | it in table :: table[it] == ClipRect(size, it))
  }

  /** The pixel rectangle of a run of cells in an atlas of `size`-pixel square slots. */
  function RectOf(size: int, c: Cell): Rect {
    Rect(size * c.col, size * c.row, size * c.span, size)
  }

  /** The items drawn two slots wide. */
  predicate IsDoubleWidth(it: Item) {
    it in {RocketLauncher, AssaultRifle, SniperRifle, GoldLugers, SubMachineGun, M1P}
  }

  /** The items listed with no art of their own, drawn as the empty slot. */
  predicate HasNoIcon(it: Item) {
    it in {Card, CrestKeyS, CrestKeyG, EmptyExtinguisher, FileFolders, Memo, NewspaperClip,
           SquareSocket, RemoteController, QueenAntReliefComplete,
           QuestionA, QuestionB, QuestionC, QuestionD, QuestionE}
  }

  /** The item whose art an item shows: itself unless it is listed as an alias. */
  function Canonical(it: Item): Item {
    if HasNoIcon(it) then None
    else if it == MagnumBulletsInsideCase then MagnumBullets
    else if it == DuraluminCaseBowGunPowder || it == DuraluminCaseMagnumRounds then DuraluminCaseM93RParts
    else if it == PrisonersDiary then LugerReplica
    else if it == DirectorsMemo then FamilyPicture
    else if it == Instructions then CalicoBullets
    else if it == AlfredsMemo then ClementMixture
    else if it == BoardClip then PlayingManual
    else it
  }

  datatype Occupant = Vacant | Occupied(item: Item)

  /** A second, hand-written rendering of the initializer's listing as the sheet, one
      row of seven cells at a time; a two-wide item fills two cells. It is not read from
      the sheet image: the vacant cells are the ones the listing skips. */
  function SheetRow(row: int): (cells: seq<Occupant>)
    ensures |cells| == Columns
  {
    if row == 0 then [Occupied(None), Occupied(RocketLauncher), Occupied(RocketLauncher), Occupied(AssaultRifle), Occupied(AssaultRifle), Occupied(SniperRifle), Occupied(SniperRifle)]
    else if row == 1 then [Vacant, Occupied(Shotgun), Occupied(HandgunGlock17), Occupied(GrenadeLauncher), Occupied(BowGun), Occupied(CombatKnife), Occupied(Handgun)]
    else if row == 2 then [Occupied(CustomHandgun), Occupied(LinearLauncher), Occupied(HandgunBullets), Occupied(MagnumBullets), Occupied(ShotgunShells), Occupied(GrenadeRounds), Occupied(AcidRounds)]
    else if row == 3 then [Occupied(FlameRounds), Occupied(BowGunArrows), Occupied(M93RPart), Occupied(FAidSpray), Occupied(GreenHerb), Occupied(RedHerb), Occupied(BlueHerb)]
    else if row == 4 then [Occupied(MixedHerb2Green), Occupied(MixedHerbRedGreen), Occupied(MixedHerbBlueGreen), Occupied(MixedHerb2GreenBlue), Occupied(MixedHerb3Green), Occupied(MixedHerbGreenBlueRed), Vacant]
    else if row == 5 then [Occupied(InkRibbon), Occupied(Magnum), Occupied(GoldLugers), Occupied(GoldLugers), Occupied(SubMachineGun), Occupied(SubMachineGun), Occupied(BowGunPowder)]
    else if row == 6 then [Occupied(GunPowderArrow), Occupied(BOWGasRounds), Occupied(MGunBullets), Occupied(GasMask), Occupied(RifleBullets), Occupied(DuraluminCaseUnused), Occupied(ARifleBullets)]
    else if row == 7 then [Occupied(AlexandersPierce), Occupied(AlexandersJewel), Occupied(AlfredsRing), Occupied(AlfredsJewel), Occupied(LugerReplica), Occupied(FamilyPicture), Occupied(CalicoBullets)]
    else if row == 8 then [Occupied(Lockpick), Occupied(GlassEye), Occupied(PianoRoll), Occupied(SteeringWheel), Occupied(CraneKey), Occupied(Lighter), Occupied(EaglePlate)]
    else if row == 9 then [Occupied(SidePack), Occupied(MapRoll), Occupied(HawkEmblem), Occupied(QueenAntObject), Occupied(KingAntObject), Occupied(BiohazardCard), Occupied(DuraluminCaseM93RParts)]
    else if row == 10 then [Occupied(Detonator), Occupied(ControlLever), Occupied(GoldDragonfly), Occupied(SilverKey), Occupied(GoldKey), Occupied(ArmyProof), Occupied(NavyProof)]
    else if row == 11 then [Occupied(AirForceProof), Occupied(KeyWithTag), Occupied(IDCard), Occupied(Map), Occupied(AirportKey), Occupied(EmblemCard), Occupied(SkeletonPicture)]
    else if row == 12 then [Occupied(MusicBoxPlate), Occupied(GoldDragonflyNoWings), Occupied(Album), Occupied(Halberd), Occupied(Extinguisher), Occupied(Briefcase), Occupied(PadlockKey)]
    else if row == 13 then [Occupied(TG01), Occupied(SpAlloyEmblem), Occupied(ValveHandle), Occupied(OctaValveHandle), Occupied(MachineRoomKey), Occupied(MiningRoomKey), Occupied(BarCodeSticker)]
    else if row == 14 then [Occupied(SterileRoomKey), Occupied(DoorKnob), Occupied(BatteryPack), Occupied(HemostaticWire), Occupied(TurnTableKey), Occupied(ChemStorageKey), Occupied(ClementAlpha)]
    else if row == 15 then [Occupied(ClementSigma), Occupied(TankObject), Occupied(SpAlloyEmblemUnused), Occupied(ClementMixture), Occupied(RustedSword), Occupied(Hemostatic), Occupied(SecurityCard)]
    else if row == 16 then [Occupied(SecurityFile), Occupied(AlexiasChoker), Occupied(AlexiasJewel), Occupied(QueenAntRelief), Occupied(KingAntRelief), Occupied(RedJewel), Occupied(BlueJewel)]
    else if row == 17 then [Occupied(Socket), Occupied(SqValveHandle), Occupied(Serum), Occupied(EarthenwareVase), Occupied(PaperWeight), Occupied(SilverDragonflyNoWings), Occupied(SilverDragonfly)]
    else if row == 18 then [Occupied(WingObject), Occupied(Crystal), Occupied(GoldDragonfly1Wing), Occupied(GoldDragonfly2Wings), Occupied(GoldDragonfly3Wings), Occupied(File), Occupied(PlantPot)]
    else [Occupied(PictureB), Occupied(M1P), Occupied(M1P), Occupied(BowGunPowderUnused), Occupied(EnhancedHandgun), Vacant, Occupied(PlayingManual)]
  }

  /** Scaling by a non-negative slot size keeps the order of cell coordinates. */
  lemma ScaleMonotone(size: int, a: int, b: int)
    requires size >= 0 && a <= b
    ensures size * a <= size * b
  {
    assert size * b - size * a == size * (b - a);
  }

  /** What the sheet says about one listed item: its cells lie inside the sheet, it is
      two cells wide exactly when it is a two-wide weapon, the sheet shows its art in
      each of its cells, and the item whose art that is sits in the same cells. */
  ghost predicate WellPlaced(it: Item)
    requires Listed(it)
  {
    var c := CellOf(it);
    && 0 <= c.col && c.col + c.span <= Columns && 0 <= c.row < Rows
    && (c.span == 1 || c.span == 2)
    && (c.span == 2 <==> IsDoubleWidth(it))
    && SheetRow(c.row)[c.col] == Occupied(Canonical(it))
    && (c.span == 2 ==> SheetRow(c.row)[c.col + 1] == Occupied(Canonical(it)))
    && Listed(Canonical(it)) && CellOf(Canonical(it)) == c
  }

  /** The table and the sheet rendering agree on every listed item. */
  lemma SheetAgrees(it: Item)
    requires Listed(it)
    ensures WellPlaced(it)
  {
    if it < FlameRounds {
      WellPlacedRows1To3(it);
    } else if it < GunPowderArrow {
      WellPlacedRows4To6(it);
    } else if it < SidePack {
      WellPlacedRows7To9(it);
    } else if it < MusicBoxPlate {
      WellPlacedRows10To12(it);
    } else if it < ClementSigma {
      WellPlacedRows13To15(it);
    } else if it < WingObject {
      WellPlacedRows16To18(it);
    } else if it < PrisonersDiary {
      WellPlacedRows19To20(it);
    } else {
      WellPlacedUnusedContent(it);
    }
  }

  lemma WellPlacedRows1To3(it: Item)
    requires None <= it < FlameRounds
    ensures WellPlaced(it)
  {
  }

  lemma WellPlacedRows4To6(it: Item)
    requires FlameRounds <= it < GunPowderArrow
    ensures WellPlaced(it)
  {
  }

  lemma WellPlacedRows7To9(it: Item)
    requires GunPowderArrow <= it < SidePack
    ensures WellPlaced(it)
  {
  }

  lemma WellPlacedRows10To12(it: Item)
    requires SidePack <= it < MusicBoxPlate
    ensures WellPlaced(it)
  {
  }

  lemma WellPlacedRows13To15(it: Item)
    requires MusicBoxPlate <= it < ClementSigma
    ensures WellPlaced(it)
  {
  }

  lemma WellPlacedRows16To18(it: Item)
    requires ClementSigma <= it < WingObject
    ensures WellPlaced(it)
  {
  }

  lemma WellPlacedRows19To20(it: Item)
    requires WingObject <= it < PrisonersDiary
    ensures WellPlaced(it)
  {
  }

  lemma WellPlacedUnusedContent(it: Item)
    requires PrisonersDiary <= it < ListedCount as Item
    ensures WellPlaced(it)
  {
  }

  /** A run of one or two cells inside the sheet gives a rectangle inside the atlas. */
  lemma RectOfInAtlas(size: int, c: Cell)
    requires size > 0
    requires 0 <= c.col && c.col + c.span <= Columns && 0 <= c.row < Rows
    requires c.span == 1 || c.span == 2
    ensures var r := RectOf(size, c);
      && r.h == size
      && (r.w == size || r.w == 2 * size)
      && (r.w == 2 * size <==> c.span == 2)
      && 0 <= r.x && r.x + r.w <= Columns * size
      && 0 <= r.y && r.y + r.h <= Rows * size
  {
    ScaleMonotone(size, 0, c.col);
    ScaleMonotone(size, 0, c.row);
    ScaledGap(size, c.col, c.span, Columns);
    ScaledGap(size, c.row, 1, Rows);
    if c.span == 2 {
      assert size * c.span == 2 * size;
    } else {
      assert size * c.span == size;
    }
  }

  /** Every rectangle is one slot high, one or two slots wide (two exactly for the
      two-wide weapons) and lies inside the 7-slot by 20-slot atlas. */
  lemma ClipRectInAtlas(size: int, it: Item)
    requires size > 0 && Listed(it)
    ensures var r := ClipRect(size, it);
      && r.h == size
      && (r.w == size || r.w == 2 * size)
      && (r.w == 2 * size <==> IsDoubleWidth(it))
      && 0 <= r.x && r.x + r.w <= Columns * size
      && 0 <= r.y && r.y + r.h <= Rows * size
  {
    SheetAgrees(it);
    RectOfInAtlas(size, CellOf(it));
  }

  /** The aliases declared in the table draw the same art. */
  lemma AliasesShareRect(size: int)
    ensures ClipRect(size, MagnumBulletsInsideCase) == ClipRect(size, MagnumBullets)
    ensures ClipRect(size, DuraluminCaseBowGunPowder) == ClipRect(size, DuraluminCaseM93RParts)
    ensures ClipRect(size, DuraluminCaseMagnumRounds) == ClipRect(size, DuraluminCaseM93RParts)
    ensures ClipRect(size, BoardClip) == ClipRect(size, PlayingManual)
  {
  }

  /** The unused items that borrow another item's icon draw that item's art. */
  lemma SharedIconsShareRect(size: int)
    ensures ClipRect(size, PrisonersDiary) == ClipRect(size, LugerReplica)
    ensures ClipRect(size, DirectorsMemo) == ClipRect(size, FamilyPicture)
    ensures ClipRect(size, Instructions) == ClipRect(size, CalicoBullets)
    ensures ClipRect(size, AlfredsMemo) == ClipRect(size, ClementMixture)
  {
  }

  /** The items with no icon of their own are drawn from the empty-slot cell at the
      top-left corner, the same rectangle as `None`. */
  lemma NoIconIsEmptySlot(size: int, it: Item)
    requires HasNoIcon(it)
    ensures Listed(it)
    ensures ClipRect(size, it) == ClipRect(size, None) == Rect(0, 0, size, size)
  {
  }

  /** A gap between runs of cells stays a gap after scaling: a run of `span` cells
      from `a` that ends by `b` gives pixels that end by `size * b`. */
  lemma ScaledGap(size: int, a: int, span: int, b: int)
    requires size >= 0 && a + span <= b
    ensures size * a + size * span <= size * b
  {
    ScaleMonotone(size, a + span, b);
    assert size * a + size * span == size * (a + span);
  }

  /** Two runs of cells in different rows, or in one row without a common cell, give
      rectangles that share no pixel. */
  lemma SeparateCellsDisjoint(size: int, a: Cell, b: Cell)
    requires size > 0 && a.span >= 0 && b.span >= 0
    requires a.row != b.row || a.col + a.span <= b.col || b.col + b.span <= a.col
    ensures Disjoint(RectOf(size, a), RectOf(size, b))
  {
    var ra, rb := RectOf(size, a), RectOf(size, b);
    if a.row < b.row {
      ScaledGap(size, a.row, 1, b.row);
      assert ra.y + ra.h <= rb.y;
    } else if b.row < a.row {
      ScaledGap(size, b.row, 1, a.row);
      assert rb.y + rb.h <= ra.y;
    } else if a.col + a.span <= b.col {
      ScaledGap(size, a.col, a.span, b.col);
      assert ra.x + ra.w <= rb.x;
    } else {
      ScaledGap(size, b.col, b.span, a.col);
      assert rb.x + rb.w <= ra.x;
    }
  }

  /** Two runs of cells of the table either coincide or have no cell in common. */
  lemma CellsIdenticalOrSeparate(a: Item, b: Item)
    requires Listed(a) && Listed(b)
    ensures var ca, cb := CellOf(a), CellOf(b);
      || ca == cb
      || ca.row != cb.row || ca.col + ca.span <= cb.col || cb.col + cb.span <= ca.col
  {
    var ca, cb := CellOf(a), CellOf(b);
    SheetAgrees(a);
    SheetAgrees(b);
    if ca.row == cb.row && ca.col < cb.col + cb.span && cb.col < ca.col + ca.span {
      OverlapShowsOneArt(SheetRow(ca.row), ca, cb, Canonical(a), Canonical(b));
    }
  }

  /** Two runs of cells of one sheet row, filled with the art of `ka` and of `kb`,
      that have a cell in common show the same art. */
  lemma OverlapShowsOneArt(cells: seq<Occupant>, ca: Cell, cb: Cell, ka: Item, kb: Item)
    requires 0 <= ca.col && ca.col + ca.span <= |cells| && (ca.span == 1 || ca.span == 2)
    requires 0 <= cb.col && cb.col + cb.span <= |cells| && (cb.span == 1 || cb.span == 2)
    requires cells[ca.col] == Occupied(ka) && (ca.span == 2 ==> cells[ca.col + 1] == Occupied(ka))
    requires cells[cb.col] == Occupied(kb) && (cb.span == 2 ==> cells[cb.col + 1] == Occupied(kb))
    requires ca.col < cb.col + cb.span && cb.col < ca.col + ca.span
    ensures ka == kb
  {
    // Some cell lies in both runs; the row says whose art it is.
    var shared := if ca.col < cb.col then cb.col else ca.col;
    assert cells[shared] == Occupied(ka);
    assert cells[shared] == Occupied(kb);
  }

  /** Any two rectangles of the table are either the same rectangle or share no pixel. */
  lemma IdenticalOrDisjoint(size: int, a: Item, b: Item)
    requires size > 0 && Listed(a) && Listed(b)
    ensures ClipRect(size, a) == ClipRect(size, b) || Disjoint(ClipRect(size, a), ClipRect(size, b))
  {
    CellsIdenticalOrSeparate(a, b);
    SheetAgrees(a);
    SheetAgrees(b);
    if CellOf(a) != CellOf(b) {
      SeparateCellsDisjoint(size, CellOf(a), CellOf(b));
    }
  }
}
