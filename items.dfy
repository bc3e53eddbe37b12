/** Inventory item identifiers. */
module Items {

  /** An item identifier: the provider's `ItemEnumeration`, an integer-valued
      enumeration. The named identifiers are the ones the sprite table lists, numbered
      by their position in that listing; the provider's own numbering is not part of
      this model, and nothing below depends on it beyond the names being distinct.
      Any other value is an identifier the table does not list. */
  newtype Item = int

  const None: Item := 0
  const RocketLauncher: Item := 1
  const AssaultRifle: Item := 2
  const SniperRifle: Item := 3
  const Shotgun: Item := 4
  const HandgunGlock17: Item := 5
  const GrenadeLauncher: Item := 6
  const BowGun: Item := 7
  const CombatKnife: Item := 8
  const Handgun: Item := 9
  const CustomHandgun: Item := 10
  const LinearLauncher: Item := 11
  const HandgunBullets: Item := 12
  const MagnumBullets: Item := 13
  const MagnumBulletsInsideCase: Item := 14
  const ShotgunShells: Item := 15
  const GrenadeRounds: Item := 16
  const AcidRounds: Item := 17
  const FlameRounds: Item := 18
  const BowGunArrows: Item := 19
  const M93RPart: Item := 20
  const FAidSpray: Item := 21
  const GreenHerb: Item := 22
  const RedHerb: Item := 23
  const BlueHerb: Item := 24
  const MixedHerb2Green: Item := 25
  const MixedHerbRedGreen: Item := 26
  const MixedHerbBlueGreen: Item := 27
  const MixedHerb2GreenBlue: Item := 28
  const MixedHerb3Green: Item := 29
  const MixedHerbGreenBlueRed: Item := 30
  const InkRibbon: Item := 31
  const Magnum: Item := 32
  const GoldLugers: Item := 33
  const SubMachineGun: Item := 34
  const BowGunPowder: Item := 35
  const GunPowderArrow: Item := 36
  const BOWGasRounds: Item := 37
  const MGunBullets: Item := 38
  const GasMask: Item := 39
  const RifleBullets: Item := 40
  const DuraluminCaseUnused: Item := 41
  const ARifleBullets: Item := 42
  const AlexandersPierce: Item := 43
  const AlexandersJewel: Item := 44
  const AlfredsRing: Item := 45
  const AlfredsJewel: Item := 46
  const LugerReplica: Item := 47
  const FamilyPicture: Item := 48
  const CalicoBullets: Item := 49
  const Lockpick: Item := 50
  const GlassEye: Item := 51
  const PianoRoll: Item := 52
  const SteeringWheel: Item := 53
  const CraneKey: Item := 54
  const Lighter: Item := 55
  const EaglePlate: Item := 56
  const SidePack: Item := 57
  const MapRoll: Item := 58
  const HawkEmblem: Item := 59
  const QueenAntObject: Item := 60
  const KingAntObject: Item := 61
  const BiohazardCard: Item := 62
  const DuraluminCaseM93RParts: Item := 63
  const DuraluminCaseBowGunPowder: Item := 64
  const DuraluminCaseMagnumRounds: Item := 65
  const Detonator: Item := 66
  const ControlLever: Item := 67
  const GoldDragonfly: Item := 68
  const SilverKey: Item := 69
  const GoldKey: Item := 70
  const ArmyProof: Item := 71
  const NavyProof: Item := 72
  const AirForceProof: Item := 73
  const KeyWithTag: Item := 74
  const IDCard: Item := 75
  const Map: Item := 76
  const AirportKey: Item := 77
  const EmblemCard: Item := 78
  const SkeletonPicture: Item := 79
  const MusicBoxPlate: Item := 80
  const GoldDragonflyNoWings: Item := 81
  const Album: Item := 82
  const Halberd: Item := 83
  const Extinguisher: Item := 84
  const Briefcase: Item := 85
  const PadlockKey: Item := 86
  const TG01: Item := 87
  const SpAlloyEmblem: Item := 88
  const ValveHandle: Item := 89
  const OctaValveHandle: Item := 90
  const MachineRoomKey: Item := 91
  const MiningRoomKey: Item := 92
  const BarCodeSticker: Item := 93
  const SterileRoomKey: Item := 94
  const DoorKnob: Item := 95
  const BatteryPack: Item := 96
  const HemostaticWire: Item := 97
  const TurnTableKey: Item := 98
  const ChemStorageKey: Item := 99
  const ClementAlpha: Item := 100
  const ClementSigma: Item := 101
  const TankObject: Item := 102
  const SpAlloyEmblemUnused: Item := 103
  const ClementMixture: Item := 104
  const RustedSword: Item := 105
  const Hemostatic: Item := 106
  const SecurityCard: Item := 107
  const SecurityFile: Item := 108
  const AlexiasChoker: Item := 109
  const AlexiasJewel: Item := 110
  const QueenAntRelief: Item := 111
  const KingAntRelief: Item := 112
  const RedJewel: Item := 113
  const BlueJewel: Item := 114
  const Socket: Item := 115
  const SqValveHandle: Item := 116
  const Serum: Item := 117
  const EarthenwareVase: Item := 118
  const PaperWeight: Item := 119
  const SilverDragonflyNoWings: Item := 120
  const SilverDragonfly: Item := 121
  const WingObject: Item := 122
  const Crystal: Item := 123
  const GoldDragonfly1Wing: Item := 124
  const GoldDragonfly2Wings: Item := 125
  const GoldDragonfly3Wings: Item := 126
  const File: Item := 127
  const PlantPot: Item := 128
  const PictureB: Item := 129
  const M1P: Item := 130
  const BowGunPowderUnused: Item := 131
  const EnhancedHandgun: Item := 132
  const PlayingManual: Item := 133
  const PrisonersDiary: Item := 134
  const DirectorsMemo: Item := 135
  const Instructions: Item := 136
  const AlfredsMemo: Item := 137
  const BoardClip: Item := 138
  const Card: Item := 139
  const CrestKeyS: Item := 140
  const CrestKeyG: Item := 141
  const EmptyExtinguisher: Item := 142
  const FileFolders: Item := 143
  const Memo: Item := 144
  const NewspaperClip: Item := 145
  const SquareSocket: Item := 146
  const RemoteController: Item := 147
  const QueenAntReliefComplete: Item := 148
  const QuestionA: Item := 149
  const QuestionB: Item := 150
  const QuestionC: Item := 151
  const QuestionD: Item := 152
  const QuestionE: Item := 153

  /** The number of identifiers the sprite table lists. */
  const ListedCount := 154

  /** True of the identifiers the sprite table lists. */
  predicate Listed(it: Item) {
    0 <= it < ListedCount as Item
  }
}
