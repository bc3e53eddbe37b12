/**
 * `Program.GenerateClipping`: the table from item identifier to the rectangle of
 * its icon in the sprite atlas. The dictionary initializer adds one entry at a time,
 * in listing order, moving a column cursor and a row cursor as it goes; it is split
 * here at the blocks the listing itself marks (one per sheet row, then the items
 * that borrow an icon, then the items with none).
 */
module Program {
  import opened Items
  import opened Graphics
  import opened Atlas

  /** The entries for the items listed before `next`, at the rectangles the sheet
      layout gives them. */
  ghost function Prefix(size: int, next: Item): map<Item, Rect>
    requires 0 <= next <= ListedCount as Item
  {
    map it | 0 <= it < next :: ClipRect(size, it)
  }

  /** `Dictionary.Add` of one initializer entry. The dictionary throws on a key it
      already holds; here the table holds exactly the items listed before `key`, so the
      key is new, and the rectangle must be the one the sheet layout gives the item. */
  function Add(ghost size: int, table: map<Item, Rect>, key: Item, r: Rect): (t: map<Item, Rect>)
    requires Listed(key) && table == Prefix(size, key)
    requires r == ClipRect(size, key)
    ensures key !in table
    ensures t == Prefix(size, key + 1)
  {
    table[key := r]
  }

  /** Builds the table for slots of `size` pixels square. No key is added twice, so the
      initializer never throws; the table holds every listed item, and nothing else,
      at the rectangle the sheet layout gives it. */
  method GenerateClipping(size: int) returns (table: map<Item, Rect>)
    ensures IsAtlasTable(size, table)
    ensures |table| == ListedCount
  {
    var column := -1;
    var row := -1;
    table := map[];
    table, column, row := Row1(size, table, column, row);
    table, column, row := Row2(size, table, column, row);
    table, column, row := Row3(size, table, column, row);
    table, column, row := Row4(size, table, column, row);
    table, column, row := Row5(size, table, column, row);
    table, column, row := Row6(size, table, column, row);
    table, column, row := Row7(size, table, column, row);
    table, column, row := Row8(size, table, column, row);
    table, column, row := Row9(size, table, column, row);
    table, column, row := Row10(size, table, column, row);
    table, column, row := Row11(size, table, column, row);
    table, column, row := Row12(size, table, column, row);
    table, column, row := Row13(size, table, column, row);
    table, column, row := Row14(size, table, column, row);
    table, column, row := Row15(size, table, column, row);
    table, column, row := Row16(size, table, column, row);
    table, column, row := Row17(size, table, column, row);
    table, column, row := Row18(size, table, column, row);
    table, column, row := Row19(size, table, column, row);
    table, column, row := Row20(size, table, column, row);
    table := SharedIcons(size, table);
    table := NoIcons(size, table);
    PrefixSize(size, ListedCount as Item);
  }

  /** The prefix table before `next` has exactly `next` entries. */
  lemma {:induction false} PrefixSize(size: int, next: Item)
    requires 0 <= next <= ListedCount as Item
    ensures |Prefix(size, next)| == next as int
    decreases next
  {
    var keys := Prefix(size, next).Keys;
    if next > 0 {
      PrefixSize(size, next - 1);
      var before := Prefix(size, next - 1).Keys;
      assert keys == before + {next - 1};
      assert |keys| == |before| + 1;
    } else {
      assert keys == {};
    }
  }

  /** The entries of sheet row 1, at row index 0. */
  method Row1(size: int, table0: map<Item, Rect>, column0: int, row0: int) returns (table: map<Item, Rect>, column: int, row: int)
    requires table0 == Prefix(size, None) && row0 == -1
    ensures table == Prefix(size, Shotgun)
    ensures column == column0 && row == 0
  {
    table, column, row := table0, column0, row0;
    table := Add(size, table, None, Rect(size * 0, size * 0, size, size));
    row := row + 1;
    table := Add(size, table, RocketLauncher, Rect(size * 1, size * row, size * 2, size));
    table := Add(size, table, AssaultRifle, Rect(size * 3, size * row, size * 2, size));
    table := Add(size, table, SniperRifle, Rect(size * 5, size * row, size * 2, size));
  }

  /** The entries of sheet row 2, at row index 1. */
  method Row2(size: int, table0: map<Item, Rect>, column0: int, row0: int) returns (table: map<Item, Rect>, column: int, row: int)
    requires table0 == Prefix(size, Shotgun) && row0 == 0
    ensures table == Prefix(size, CustomHandgun)
    ensures column == 6 && row == 1
  {
    table, column, row := table0, column0, row0;
    column := 1; row := row + 1;
    table := Add(size, table, Shotgun, Rect(size * column, size * row, size, size));
    column := column + 1;
    table := Add(size, table, HandgunGlock17, Rect(size * column, size * row, size, size));
    column := column + 1;
    table := Add(size, table, GrenadeLauncher, Rect(size * column, size * row, size, size));
    column := column + 1;
    table := Add(size, table, BowGun, Rect(size * column, size * row, size, size));
    column := column + 1;
    table := Add(size, table, CombatKnife, Rect(size * column, size * row, size, size));
    column := column + 1;
    table := Add(size, table, Handgun, Rect(size * column, size * row, size, size));
  }

  /** The entries of sheet row 3, at row index 2. */
  method Row3(size: int, table0: map<Item, Rect>, column0: int, row0: int) returns (table: map<Item, Rect>, column: int, row: int)
    requires table0 == Prefix(size, CustomHandgun) && row0 == 1
    ensures table == Prefix(size, FlameRounds)
    ensures column == 6 && row == 2
  {
    table, column, row := table0, column0, row0;
    column := 0; row := row + 1;
    table := Add(size, table, CustomHandgun, Rect(size * column, size * row, size, size));
    column := column + 1;
    table := Add(size, table, LinearLauncher, Rect(size * column, size * row, size, size));
    column := column + 1;
    table := Add(size, table, HandgunBullets, Rect(size * column, size * row, size, size));
    column := column + 1;
    table := Add(size, table, MagnumBullets, Rect(size * column, size * row, size, size));
    table := Add(size, table, MagnumBulletsInsideCase, Rect(size * column, size * row, size, size));
    column := column + 1;
    table := Add(size, table, ShotgunShells, Rect(size * column, size * row, size, size));
    column := column + 1;
    table := Add(size, table, GrenadeRounds, Rect(size * column, size * row, size, size));
    column := column + 1;
    table := Add(size, table, AcidRounds, Rect(size * column, size * row, size, size));
  }

  /** The entries of sheet row 4, at row index 3. */
  method Row4(size: int, table0: map<Item, Rect>, column0: int, row0: int) returns (table: map<Item, Rect>, column: int, row: int)
    requires table0 == Prefix(size, FlameRounds) && row0 == 2
    ensures table == Prefix(size, MixedHerb2Green)
    ensures column == 6 && row == 3
  {
    table, column, row := table0, column0, row0;
    column := 0; row := row + 1;
    table := Add(size, table, FlameRounds, Rect(size * column, size * row, size, size));
    column := column + 1;
    table := Add(size, table, BowGunArrows, Rect(size * column, size * row, size, size));
    column := column + 1;
    table := Add(size, table, M93RPart, Rect(size * column, size * row, size, size));
    column := column + 1;
    table := Add(size, table, FAidSpray, Rect(size * column, size * row, size, size));
    column := column + 1;
    table := Add(size, table, GreenHerb, Rect(size * column, size * row, size, size));
    column := column + 1;
    table := Add(size, table, RedHerb, Rect(size * column, size * row, size, size));
    column := column + 1;
    table := Add(size, table, BlueHerb, Rect(size * column, size * row, size, size));
  }

  /** The entries of sheet row 5, at row index 4. */
  method Row5(size: int, table0: map<Item, Rect>, column0: int, row0: int) returns (table: map<Item, Rect>, column: int, row: int)
    requires table0 == Prefix(size, MixedHerb2Green) && row0 == 3
    ensures table == Prefix(size, InkRibbon)
    ensures column == 5 && row == 4
  {
    table, column, row := table0, column0, row0;
    column := 0; row := row + 1;
    table := Add(size, table, MixedHerb2Green, Rect(size * column, size * row, size, size));
    column := column + 1;
    table := Add(size, table, MixedHerbRedGreen, Rect(size * column, size * row, size, size));
    column := column + 1;
    table := Add(size, table, MixedHerbBlueGreen, Rect(size * column, size * row, size, size));
    column := column + 1;
    table := Add(size, table, MixedHerb2GreenBlue, Rect(size * column, size * row, size, size));
    column := column + 1;
    table := Add(size, table, MixedHerb3Green, Rect(size * column, size * row, size, size));
    column := column + 1;
    table := Add(size, table, MixedHerbGreenBlueRed, Rect(size * column, size * row, size, size));
  }

  /** The entries of sheet row 6, at row index 5. */
  method Row6(size: int, table0: map<Item, Rect>, column0: int, row0: int) returns (table: map<Item, Rect>, column: int, row: int)
    requires table0 == Prefix(size, InkRibbon) && row0 == 4
    ensures table == Prefix(size, GunPowderArrow)
    ensures column == 1 && row == 5
  {
    table, column, row := table0, column0, row0;
    column := 0; row := row + 1;
    table := Add(size, table, InkRibbon, Rect(size * column, size * row, size, size));
    column := column + 1;
    table := Add(size, table, Magnum, Rect(size * column, size * row, size, size));
    table := Add(size, table, GoldLugers, Rect(size * 2, size * row, size * 2, size));
    table := Add(size, table, SubMachineGun, Rect(size * 4, size * row, size * 2, size));
    table := Add(size, table, BowGunPowder, Rect(size * 6, size * row, size, size));
  }

  /** The entries of sheet row 7, at row index 6. */
  method Row7(size: int, table0: map<Item, Rect>, column0: int, row0: int) returns (table: map<Item, Rect>, column: int, row: int)
    requires table0 == Prefix(size, GunPowderArrow) && row0 == 5
    ensures table == Prefix(size, AlexandersPierce)
    ensures column == 6 && row == 6
  {
    table, column, row := table0, column0, row0;
    column := 0; row := row + 1;
    table := Add(size, table, GunPowderArrow, Rect(size * column, size * row, size, size));
    column := column + 1;
    table := Add(size, table, BOWGasRounds, Rect(size * column, size * row, size, size));
    column := column + 1;
    table := Add(size, table, MGunBullets, Rect(size * column, size * row, size, size));
    column := column + 1;
    table := Add(size, table, GasMask, Rect(size * column, size * row, size, size));
    column := column + 1;
    table := Add(size, table, RifleBullets, Rect(size * column, size * row, size, size));
    column := column + 1;
    table := Add(size, table, DuraluminCaseUnused, Rect(size * column, size * row, size, size));
    column := column + 1;
    table := Add(size, table, ARifleBullets, Rect(size * column, size * row, size, size));
  }

  /** The entries of sheet row 8, at row index 7. */
  method Row8(size: int, table0: map<Item, Rect>, column0: int, row0: int) returns (table: map<Item, Rect>, column: int, row: int)
    requires table0 == Prefix(size, AlexandersPierce) && row0 == 6
    ensures table == Prefix(size, Lockpick)
    ensures column == 6 && row == 7
  {
    table, column, row := table0, column0, row0;
    column := 0; row := row + 1;
    table := Add(size, table, AlexandersPierce, Rect(size * column, size * row, size, size));
    column := column + 1;
    table := Add(size, table, AlexandersJewel, Rect(size * column, size * row, size, size));
    column := column + 1;
    table := Add(size, table, AlfredsRing, Rect(size * column, size * row, size, size));
    column := column + 1;
    table := Add(size, table, AlfredsJewel, Rect(size * column, size * row, size, size));
    column := column + 1;
    table := Add(size, table, LugerReplica, Rect(size * column, size * row, size, size));
    column := column + 1;
    table := Add(size, table, FamilyPicture, Rect(size * column, size * row, size, size));
    column := column + 1;
    table := Add(size, table, CalicoBullets, Rect(size * column, size * row, size, size));
  }

  /** The entries of sheet row 9, at row index 8. */
  method Row9(size: int, table0: map<Item, Rect>, column0: int, row0: int) returns (table: map<Item, Rect>, column: int, row: int)
    requires table0 == Prefix(size, Lockpick) && row0 == 7
    ensures table == Prefix(size, SidePack)
    ensures column == 6 && row == 8
  {
    table, column, row := table0, column0, row0;
    column := 0; row := row + 1;
    table := Add(size, table, Lockpick, Rect(size * column, size * row, size, size));
    column := column + 1;
    table := Add(size, table, GlassEye, Rect(size * column, size * row, size, size));
    column := column + 1;
    table := Add(size, table, PianoRoll, Rect(size * column, size * row, size, size));
    column := column + 1;
    table := Add(size, table, SteeringWheel, Rect(size * column, size * row, size, size));
    column := column + 1;
    table := Add(size, table, CraneKey, Rect(size * column, size * row, size, size));
    column := column + 1;
    table := Add(size, table, Lighter, Rect(size * column, size * row, size, size));
    column := column + 1;
    table := Add(size, table, EaglePlate, Rect(size * column, size * row, size, size));
  }

  /** The entries of sheet row 10, at row index 9. */
  method Row10(size: int, table0: map<Item, Rect>, column0: int, row0: int) returns (table: map<Item, Rect>, column: int, row: int)
    requires table0 == Prefix(size, SidePack) && row0 == 8
    ensures table == Prefix(size, Detonator)
    ensures column == 6 && row == 9
  {
    table, column, row := table0, column0, row0;
    column := 0; row := row + 1;
    table := Add(size, table, SidePack, Rect(size * column, size * row, size, size));
    column := column + 1;
    table := Add(size, table, MapRoll, Rect(size * column, size * row, size, size));
    column := column + 1;
    table := Add(size, table, HawkEmblem, Rect(size * column, size * row, size, size));
    column := column + 1;
    table := Add(size, table, QueenAntObject, Rect(size * column, size * row, size, size));
    column := column + 1;
    table := Add(size, table, KingAntObject, Rect(size * column, size * row, size, size));
    column := column + 1;
    table := Add(size, table, BiohazardCard, Rect(size * column, size * row, size, size));
    column := column + 1;
    table := Add(size, table, DuraluminCaseM93RParts, Rect(size * column, size * row, size, size));
    table := Add(size, table, DuraluminCaseBowGunPowder, Rect(size * column, size * row, size, size));
    table := Add(size, table, DuraluminCaseMagnumRounds, Rect(size * column, size * row, size, size));
  }

  /** The entries of sheet row 11, at row index 10. */
  method Row11(size: int, table0: map<Item, Rect>, column0: int, row0: int) returns (table: map<Item, Rect>, column: int, row: int)
    requires table0 == Prefix(size, Detonator) && row0 == 9
    ensures table == Prefix(size, AirForceProof)
    ensures column == 6 && row == 10
  {
    table, column, row := table0, column0, row0;
    column := 0; row := row + 1;
    table := Add(size, table, Detonator, Rect(size * column, size * row, size, size));
    column := column + 1;
    table := Add(size, table, ControlLever, Rect(size * column, size * row, size, size));
    column := column + 1;
    table := Add(size, table, GoldDragonfly, Rect(size * column, size * row, size, size));
    column := column + 1;
    table := Add(size, table, SilverKey, Rect(size * column, size * row, size, size));
    column := column + 1;
    table := Add(size, table, GoldKey, Rect(size * column, size * row, size, size));
    column := column + 1;
    table := Add(size, table, ArmyProof, Rect(size * column, size * row, size, size));
    column := column + 1;
    table := Add(size, table, NavyProof, Rect(size * column, size * row, size, size));
  }

  /** The entries of sheet row 12, at row index 11. */
  method Row12(size: int, table0: map<Item, Rect>, column0: int, row0: int) returns (table: map<Item, Rect>, column: int, row: int)
    requires table0 == Prefix(size, AirForceProof) && row0 == 10
    ensures table == Prefix(size, MusicBoxPlate)
    ensures column == 6 && row == 11
  {
    table, column, row := table0, column0, row0;
    column := 0; row := row + 1;
    table := Add(size, table, AirForceProof, Rect(size * column, size * row, size, size));
    column := column + 1;
    table := Add(size, table, KeyWithTag, Rect(size * column, size * row, size, size));
    column := column + 1;
    table := Add(size, table, IDCard, Rect(size * column, size * row, size, size));
    column := column + 1;
    table := Add(size, table, Map, Rect(size * column, size * row, size, size));
    column := column + 1;
    table := Add(size, table, AirportKey, Rect(size * column, size * row, size, size));
    column := column + 1;
    table := Add(size, table, EmblemCard, Rect(size * column, size * row, size, size));
    column := column + 1;
    table := Add(size, table, SkeletonPicture, Rect(size * column, size * row, size, size));
  }

  /** The entries of sheet row 13, at row index 12. */
  method Row13(size: int, table0: map<Item, Rect>, column0: int, row0: int) returns (table: map<Item, Rect>, column: int, row: int)
    requires table0 == Prefix(size, MusicBoxPlate) && row0 == 11
    ensures table == Prefix(size, TG01)
    ensures column == 6 && row == 12
  {
    table, column, row := table0, column0, row0;
    column := 0; row := row + 1;
    table := Add(size, table, MusicBoxPlate, Rect(size * column, size * row, size, size));
    column := column + 1;
    table := Add(size, table, GoldDragonflyNoWings, Rect(size * column, size * row, size, size));
    column := column + 1;
    table := Add(size, table, Album, Rect(size * column, size * row, size, size));
    column := column + 1;
    table := Add(size, table, Halberd, Rect(size * column, size * row, size, size));
    column := column + 1;
    table := Add(size, table, Extinguisher, Rect(size * column, size * row, size, size));
    column := column + 1;
    table := Add(size, table, Briefcase, Rect(size * column, size * row, size, size));
    column := column + 1;
    table := Add(size, table, PadlockKey, Rect(size * column, size * row, size, size));
  }

  /** The entries of sheet row 14, at row index 13. */
  method Row14(size: int, table0: map<Item, Rect>, column0: int, row0: int) returns (table: map<Item, Rect>, column: int, row: int)
    requires table0 == Prefix(size, TG01) && row0 == 12
    ensures table == Prefix(size, SterileRoomKey)
    ensures column == 6 && row == 13
  {
    table, column, row := table0, column0, row0;
    column := 0; row := row + 1;
    table := Add(size, table, TG01, Rect(size * column, size * row, size, size));
    column := column + 1;
    table := Add(size, table, SpAlloyEmblem, Rect(size * column, size * row, size, size));
    column := column + 1;
    table := Add(size, table, ValveHandle, Rect(size * column, size * row, size, size));
    column := column + 1;
    table := Add(size, table, OctaValveHandle, Rect(size * column, size * row, size, size));
    column := column + 1;
    table := Add(size, table, MachineRoomKey, Rect(size * column, size * row, size, size));
    column := column + 1;
    table := Add(size, table, MiningRoomKey, Rect(size * column, size * row, size, size));
    column := column + 1;
    table := Add(size, table, BarCodeSticker, Rect(size * column, size * row, size, size));
  }

  /** The entries of sheet row 15, at row index 14. */
  method Row15(size: int, table0: map<Item, Rect>, column0: int, row0: int) returns (table: map<Item, Rect>, column: int, row: int)
    requires table0 == Prefix(size, SterileRoomKey) && row0 == 13
    ensures table == Prefix(size, ClementSigma)
    ensures column == 6 && row == 14
  {
    table, column, row := table0, column0, row0;
    column := 0; row := row + 1;
    table := Add(size, table, SterileRoomKey, Rect(size * column, size * row, size, size));
    column := column + 1;
    table := Add(size, table, DoorKnob, Rect(size * column, size * row, size, size));
    column := column + 1;
    table := Add(size, table, BatteryPack, Rect(size * column, size * row, size, size));
    column := column + 1;
    table := Add(size, table, HemostaticWire, Rect(size * column, size * row, size, size));
    column := column + 1;
    table := Add(size, table, TurnTableKey, Rect(size * column, size * row, size, size));
    column := column + 1;
    table := Add(size, table, ChemStorageKey, Rect(size * column, size * row, size, size));
    column := column + 1;
    table := Add(size, table, ClementAlpha, Rect(size * column, size * row, size, size));
  }

  /** The entries of sheet row 16, at row index 15. */
  method Row16(size: int, table0: map<Item, Rect>, column0: int, row0: int) returns (table: map<Item, Rect>, column: int, row: int)
    requires table0 == Prefix(size, ClementSigma) && row0 == 14
    ensures table == Prefix(size, SecurityFile)
    ensures column == 6 && row == 15
  {
    table, column, row := table0, column0, row0;
    column := 0; row := row + 1;
    table := Add(size, table, ClementSigma, Rect(size * column, size * row, size, size));
    column := column + 1;
    table := Add(size, table, TankObject, Rect(size * column, size * row, size, size));
    column := column + 1;
    table := Add(size, table, SpAlloyEmblemUnused, Rect(size * column, size * row, size, size));
    column := column + 1;
    table := Add(size, table, ClementMixture, Rect(size * column, size * row, size, size));
    column := column + 1;
    table := Add(size, table, RustedSword, Rect(size * column, size * row, size, size));
    column := column + 1;
    table := Add(size, table, Hemostatic, Rect(size * column, size * row, size, size));
    column := column + 1;
    table := Add(size, table, SecurityCard, Rect(size * column, size * row, size, size));
  }

  /** The entries of sheet row 17, at row index 16. */
  method Row17(size: int, table0: map<Item, Rect>, column0: int, row0: int) returns (table: map<Item, Rect>, column: int, row: int)
    requires table0 == Prefix(size, SecurityFile) && row0 == 15
    ensures table == Prefix(size, Socket)
    ensures column == 6 && row == 16
  {
    table, column, row := table0, column0, row0;
    column := 0; row := row + 1;
    table := Add(size, table, SecurityFile, Rect(size * column, size * row, size, size));
    column := column + 1;
    table := Add(size, table, AlexiasChoker, Rect(size * column, size * row, size, size));
    column := column + 1;
    table := Add(size, table, AlexiasJewel, Rect(size * column, size * row, size, size));
    column := column + 1;
    table := Add(size, table, QueenAntRelief, Rect(size * column, size * row, size, size));
    column := column + 1;
    table := Add(size, table, KingAntRelief, Rect(size * column, size * row, size, size));
    column := column + 1;
    table := Add(size, table, RedJewel, Rect(size * column, size * row, size, size));
    column := column + 1;
    table := Add(size, table, BlueJewel, Rect(size * column, size * row, size, size));
  }

  /** The entries of sheet row 18, at row index 17. */
  method Row18(size: int, table0: map<Item, Rect>, column0: int, row0: int) returns (table: map<Item, Rect>, column: int, row: int)
    requires table0 == Prefix(size, Socket) && row0 == 16
    ensures table == Prefix(size, WingObject)
    ensures column == 6 && row == 17
  {
    table, column, row := table0, column0, row0;
    column := 0; row := row + 1;
    table := Add(size, table, Socket, Rect(size * column, size * row, size, size));
    column := column + 1;
    table := Add(size, table, SqValveHandle, Rect(size * column, size * row, size, size));
    column := column + 1;
    table := Add(size, table, Serum, Rect(size * column, size * row, size, size));
    column := column + 1;
    table := Add(size, table, EarthenwareVase, Rect(size * column, size * row, size, size));
    column := column + 1;
    table := Add(size, table, PaperWeight, Rect(size * column, size * row, size, size));
    column := column + 1;
    table := Add(size, table, SilverDragonflyNoWings, Rect(size * column, size * row, size, size));
    column := column + 1;
    table := Add(size, table, SilverDragonfly, Rect(size * column, size * row, size, size));
  }

  /** The entries of sheet row 19, at row index 18. */
  method Row19(size: int, table0: map<Item, Rect>, column0: int, row0: int) returns (table: map<Item, Rect>, column: int, row: int)
    requires table0 == Prefix(size, WingObject) && row0 == 17
    ensures table == Prefix(size, PictureB)
    ensures column == 6 && row == 18
  {
    table, column, row := table0, column0, row0;
    column := 0; row := row + 1;
    table := Add(size, table, WingObject, Rect(size * column, size * row, size, size));
    column := column + 1;
    table := Add(size, table, Crystal, Rect(size * column, size * row, size, size));
    column := column + 1;
    table := Add(size, table, GoldDragonfly1Wing, Rect(size * column, size * row, size, size));
    column := column + 1;
    table := Add(size, table, GoldDragonfly2Wings, Rect(size * column, size * row, size, size));
    column := column + 1;
    table := Add(size, table, GoldDragonfly3Wings, Rect(size * column, size * row, size, size));
    column := column + 1;
    table := Add(size, table, File, Rect(size * column, size * row, size, size));
    column := column + 1;
    table := Add(size, table, PlantPot, Rect(size * column, size * row, size, size));
  }

  /** The entries of sheet row 20, at row index 19. */
  method Row20(size: int, table0: map<Item, Rect>, column0: int, row0: int) returns (table: map<Item, Rect>, column: int, row: int)
    requires table0 == Prefix(size, PictureB) && row0 == 18
    ensures table == Prefix(size, PrisonersDiary)
    ensures column == 4 && row == 19
  {
    table, column, row := table0, column0, row0;
    column := 0; row := row + 1;
    table := Add(size, table, PictureB, Rect(size * column, size * row, size, size));
    column := column + 1;
    table := Add(size, table, M1P, Rect(size * column, size * row, size * 2, size));
    column := 3;
    table := Add(size, table, BowGunPowderUnused, Rect(size * column, size * row, size, size));
    column := column + 1;
    table := Add(size, table, EnhancedHandgun, Rect(size * column, size * row, size, size));
    table := Add(size, table, PlayingManual, Rect(size * 6, size * row, size, size));
  }

  /** The entries of the unused items that borrow another item's icon. */
  method SharedIcons(size: int, table0: map<Item, Rect>) returns (table: map<Item, Rect>)
    requires table0 == Prefix(size, PrisonersDiary)
    ensures table == Prefix(size, Card)
  {
    table := table0;
    table := Add(size, table, PrisonersDiary, Rect(size * 4, size * 7, size, size));
    table := Add(size, table, DirectorsMemo, Rect(size * 5, size * 7, size, size));
    table := Add(size, table, Instructions, Rect(size * 6, size * 7, size, size));
    table := Add(size, table, AlfredsMemo, Rect(size * 3, size * 15, size, size));
    table := Add(size, table, BoardClip, Rect(size * 6, size * 19, size, size));
  }

  /** The entries of the unused items with no icon, all drawn as the empty slot. */
  method NoIcons(size: int, table0: map<Item, Rect>) returns (table: map<Item, Rect>)
    requires table0 == Prefix(size, Card)
    ensures table == Prefix(size, ListedCount as Item)
  {
    table := table0;
    table := Add(size, table, Card, Rect(size * 0, size * 0, size, size));
    table := Add(size, table, CrestKeyS, Rect(size * 0, size * 0, size, size));
    table := Add(size, table, CrestKeyG, Rect(size * 0, size * 0, size, size));
    table := Add(size, table, EmptyExtinguisher, Rect(size * 0, size * 0, size, size));
    table := Add(size, table, FileFolders, Rect(size * 0, size * 0, size, size));
    table := Add(size, table, Memo, Rect(size * 0, size * 0, size, size));
    table := Add(size, table, NewspaperClip, Rect(size * 0, size * 0, size, size));
    table := Add(size, table, SquareSocket, Rect(size * 0, size * 0, size, size));
    table := Add(size, table, RemoteController, Rect(size * 0, size * 0, size, size));
    table := Add(size, table, QueenAntReliefComplete, Rect(size * 0, size * 0, size, size));
    table := Add(size, table, QuestionA, Rect(size * 0, size * 0, size, size));
    table := Add(size, table, QuestionB, Rect(size * 0, size * 0, size, size));
    table := Add(size, table, QuestionC, Rect(size * 0, size * 0, size, size));
    table := Add(size, table, QuestionD, Rect(size * 0, size * 0, size, size));
    table := Add(size, table, QuestionE, Rect(size * 0, size * 0, size, size));
  }
}
