/**
 * Classification of the smoothed lateral deviation into a steering command.
 * The steering reference line sits at a quarter of the frame width, and the
 * bands are a dead zone of DeadZone pixels and a sharp-turn threshold of
 * TurnThreshold pixels. Sharp and gentle turns differ only in their on-screen
 * label and colour, which Band stands for.
 */
module Decision {
  import opened Commands

  const DeadZone: int := 40
  const TurnThreshold: int := 80

  /** Which display band a deviation falls in: "MAJU", "belok_*" or "BELOK *". */
  datatype Band = Straight | Gentle | Sharp

  datatype Steering = Steering(command: Command, band: Band)

  function Abs(d: int): int
  {
    if d < 0 then -d else d
  }

  /** The reference line `int(width * 0.25)`: a quarter of the width, rounded down. */
  function CenterX(width: nat): (c: nat)
    ensures 4 * c <= width < 4 * c + 4
  {
    width / 4
  }

  /** The command and display band for a deviation `cx - center_x`; first matching band wins. */
  function Classify(deviation: int): (r: Steering)
    ensures r.command == Forward <==> Abs(deviation) < DeadZone
    ensures r.command == Right <==> Abs(deviation) >= DeadZone && deviation < 0
    ensures r.command == Left <==> Abs(deviation) >= DeadZone && deviation >= 0
    ensures r.command != Stop && r.command != Exit
    ensures r.band == Straight <==> r.command == Forward
    ensures r.band == Sharp <==> Abs(deviation) > TurnThreshold
  {
    var absDeviation := Abs(deviation);
    if absDeviation < DeadZone then
      Steering(Forward, Straight)
    else if absDeviation > TurnThreshold then
      if deviation < 0 then Steering(Right, Sharp) else Steering(Left, Sharp)
    else
      if deviation < 0 then Steering(Right, Gentle) else Steering(Left, Gentle)
  }

  /** The sharp and gentle bands send the same command: only the side of the deviation matters. */
  lemma BandDoesNotChangeCommand(d1: int, d2: int)
    requires Abs(d1) >= DeadZone && Abs(d2) >= DeadZone
    requires d1 < 0 <==> d2 < 0
    ensures Classify(d1).command == Classify(d2).command
  {
  }

  /** Swapping the side of a deviation swaps left and right and keeps forward. */
  lemma ClassifyMirror(d: int)
    ensures Classify(-d).command == Mirror(Classify(d).command)
  {
  }

  function Mirror(c: Command): Command
  {
    match c
    case Left => Right
    case Right => Left
    case other => other
  }
}
