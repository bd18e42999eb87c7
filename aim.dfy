/** The player's weapon record and the aim update shared by the second
    generation `Game.playerAim` and the entity `Player.updateAim`. The
    direction itself comes from `Math.atan2` and `Math.sqrt`; the model
    receives their results (`raw` rotation in degrees, unit direction
    `dx`, `dy`) and keeps the part the source computes exactly: folding a
    negative angle into [0, 360) and replacing only the aim fields. */
module Aim {
  import opened Common

  datatype Weapon = Weapon(rotation: real, dx: real, dy: real, position: Vec, size: Size)

  /** The weapon every player is constructed with. Its position uses the
      literal 10 / 2 where the body is 8 wide, so it sits one unit right of
      the centre (104, 108) of a body spawned at (100, 100). */
  const InitialWeapon := Weapon(0.0, 0.0, 0.0, Vec(100.0 + 10.0 / 2.0, 100.0 + 16.0 / 2.0), Size(1.0, 5.0))

  lemma InitialWeaponIsOffCentre()
    ensures InitialWeapon.position == Vec(105.0, 108.0)
    ensures InitialWeapon.position != Centre(Vec(100.0, 100.0), Size(8.0, 16.0))
    ensures InitialWeapon.rotation == 0.0 && InitialWeapon.dx == 0.0 && InitialWeapon.dy == 0.0
  {
  }

  /** `if (rotation < 0) rotation = 180 + (180 - Math.abs(rotation))`. */
  function NormalizeRotation(raw: real): (r: real)
    ensures raw < 0.0 ==> r == 360.0 + raw
    ensures raw >= 0.0 ==> r == raw
    // atan2 in degrees lies in [-180, 180]; the result is a bearing in [0, 360)
    ensures -180.0 <= raw <= 180.0 ==> 0.0 <= r < 360.0
  {
    if raw < 0.0 then 180.0 + (180.0 - (if raw < 0.0 then -raw else raw)) else raw
  }

  /** The weapon after aiming: `{...weapon, rotation, dx, dy}`. */
  function Aimed(w: Weapon, raw: real, dx: real, dy: real): (r: Weapon)
    ensures r.position == w.position && r.size == w.size
    ensures r.dx == dx && r.dy == dy
    ensures -180.0 <= raw <= 180.0 ==> 0.0 <= r.rotation < 360.0
    ensures raw < 0.0 ==> r.rotation == 360.0 + raw
    ensures raw >= 0.0 ==> r.rotation == raw
    ensures r.rotation == NormalizeRotation(raw)
  {
    w.(rotation := NormalizeRotation(raw), dx := dx, dy := dy)
  }
}
