/**
 * The player-health panel's paint handler (`MainUI.playerHealthStatus_Paint`): it
 * picks the health text, its brush and the status icon from the player's state.
 */
module Health {
  import opened Graphics

  /** The player's state as the memory provider reports it. */
  datatype PlayerState = PlayerState(
    currentHP: int,
    isAlive: bool,
    isGassed: bool,
    isPoison: bool,
    isDanger: bool,
    isCautionOrange: bool,
    isCautionYellow: bool)

  /** The status icons the panel can show. */
  datatype StatusIcon = Empty | Poison | Danger | CautionYellow | Fine

  /** The health text: "DEAD", or the current hit points. */
  datatype HealthText = DeadText | HitPoints(hp: int)

  /** What the handler draws: the text, in `brush`, at (`x`, `y`), and the icon. */
  datatype HealthView = HealthView(text: HealthText, brush: Brush, x: int, y: int, icon: StatusIcon)

  /** The health text is drawn 15 pixels in from the left and 37 down. */
  const TextX := 15
  const TextY := 37

  /** The view the handler paints for player state `p`. */
  function PaintHealth(p: PlayerState): (v: HealthView)
    ensures v.x == TextX && v.y == TextY
  {
    if !p.isAlive then HealthView(DeadText, Red, TextX, TextY, Empty)
    else
      var (brush, icon) :=
        if p.isGassed then (Purple, Poison)
        else if p.isPoison then (Violet, Poison)
        else if p.isDanger then (Red, Danger)
        else if p.isCautionOrange then (Gold, CautionYellow)
        else if p.isCautionYellow then (Goldenrod, CautionYellow)
        else (LawnGreen, Fine);
      HealthView(HitPoints(p.currentHP), brush, TextX, TextY, icon)
  }

  /** A dead player gets "DEAD" in red and the empty icon; a living one gets their hit
      points, and never the empty icon. */
  lemma DeadOrHitPoints(p: PlayerState)
    ensures PaintHealth(p).text == DeadText <==> !p.isAlive
    ensures PaintHealth(p).icon == Empty <==> !p.isAlive
    ensures !p.isAlive ==> PaintHealth(p).brush == Red
    ensures p.isAlive ==> PaintHealth(p).text == HitPoints(p.currentHP)
  {
  }

  /** For a living player, the first condition that holds, in the order gassed, poisoned,
      danger, caution orange, caution yellow, decides the brush and icon. */
  lemma StatusPrecedence(p: PlayerState)
    requires p.isAlive
    ensures PaintHealth(p).brush == Purple <==> p.isGassed
    ensures PaintHealth(p).brush == Violet <==> !p.isGassed && p.isPoison
    ensures PaintHealth(p).brush == Red <==> !p.isGassed && !p.isPoison && p.isDanger
    ensures PaintHealth(p).brush == Gold <==> !p.isGassed && !p.isPoison && !p.isDanger && p.isCautionOrange
    ensures PaintHealth(p).brush == Goldenrod
        <==> !p.isGassed && !p.isPoison && !p.isDanger && !p.isCautionOrange && p.isCautionYellow
    ensures PaintHealth(p).brush == LawnGreen
        <==> !p.isGassed && !p.isPoison && !p.isDanger && !p.isCautionOrange && !p.isCautionYellow
  {
  }

  /** The icon follows the same precedence: poison for gassed or poisoned, then danger,
      then caution yellow for either caution level, otherwise fine. */
  lemma IconPrecedence(p: PlayerState)
    requires p.isAlive
    ensures PaintHealth(p).icon == Poison <==> p.isGassed || p.isPoison
    ensures PaintHealth(p).icon == Danger <==> !p.isGassed && !p.isPoison && p.isDanger
    ensures PaintHealth(p).icon == CautionYellow
        <==> !p.isGassed && !p.isPoison && !p.isDanger && (p.isCautionOrange || p.isCautionYellow)
    ensures PaintHealth(p).icon == Fine
        <==> !p.isGassed && !p.isPoison && !p.isDanger && !p.isCautionOrange && !p.isCautionYellow
  {
  }

  /** The brush alone determines the icon for a living player. */
  lemma IconFollowsBrush(p: PlayerState, q: PlayerState)
    requires p.isAlive && q.isAlive && PaintHealth(p).brush == PaintHealth(q).brush
    ensures PaintHealth(p).icon == PaintHealth(q).icon
  {
  }
}
