/** The client's pure helpers (src/core/client/Utils.ts): the keyboard rule
    that turns a w/s/a/d press or release into new movement flags, and the
    three-colour banding of a generated tile value. */
module Controls {
  import opened Common
  import Noise

  /** The flag a movement key drives: w up, s down, a left, d right. */
  predicate IsMovementKey(key: string)
  {
    key == "w" || key == "s" || key == "a" || key == "d"
  }

  /** The flag of `m` that `key` drives. */
  function Flag(m: Movement, key: string): bool
    requires IsMovementKey(key)
  {
    if key == "w" then m.up
    else if key == "s" then m.down
    else if key == "a" then m.left
    else m.right
  }

  /** `keyToMovement({key, type, current})`: `None` for an event type other
      than "down"/"up" or a key other than w/s/a/d; otherwise a copy of
      `current` with the key's flag set to true on "down" and to false on
      "up", every other flag as it was. */
  function KeyToMovement(key: string, kind: string, current: Movement): (r: Option<Movement>)
    ensures r.None? <==> (kind != "down" && kind != "up") || !IsMovementKey(key)
    ensures r.Some? ==> Flag(r.value, key) == (kind == "down")
    ensures r.Some? ==> forall other :: IsMovementKey(other) && other != key ==>
                          Flag(r.value, other) == Flag(current, other)
  {
    if kind != "down" && kind != "up" then None
    else if !IsMovementKey(key) then None
    else
      var next := current;
      var pressed := kind == "down";
      var next := if key == "w" then next.(up := pressed) else next;
      var next := if key == "s" then next.(down := pressed) else next;
      var next := if key == "a" then next.(left := pressed) else next;
      var next := if key == "d" then next.(right := pressed) else next;
      Some(next)
  }

  /** Two movements that agree on all four keys' flags are the same. */
  lemma FlagsDetermine(a: Movement, b: Movement)
    requires forall key :: IsMovementKey(key) ==> Flag(a, key) == Flag(b, key)
    ensures a == b
  {
    assert Flag(a, "w") == Flag(b, "w");
    assert Flag(a, "s") == Flag(b, "s");
    assert Flag(a, "a") == Flag(b, "a");
    assert Flag(a, "d") == Flag(b, "d");
  }

  /** Repeating an event changes nothing more: the key's flag already has
      the value the event gives it. */
  lemma KeyToMovementIdempotent(key: string, kind: string, current: Movement)
    requires KeyToMovement(key, kind, current).Some?
    ensures KeyToMovement(key, kind, KeyToMovement(key, kind, current).value) == KeyToMovement(key, kind, current)
  {
    var once := KeyToMovement(key, kind, current).value;
    var twice := KeyToMovement(key, kind, once).value;
    forall other | IsMovementKey(other)
      ensures Flag(twice, other) == Flag(once, other)
    {
    }
    FlagsDetermine(twice, once);
  }

  /** Of a press and a release of the same key, only the later one matters:
      a release after a press gives what the release alone gives. */
  lemma ReleaseAfterPress(key: string, current: Movement)
    requires IsMovementKey(key)
    ensures KeyToMovement(key, "up", KeyToMovement(key, "down", current).value) == KeyToMovement(key, "up", current)
  {
    var pressed := KeyToMovement(key, "down", current).value;
    var a := KeyToMovement(key, "up", pressed).value;
    var b := KeyToMovement(key, "up", current).value;
    forall other | IsMovementKey(other)
      ensures Flag(a, other) == Flag(b, other)
    {
    }
    FlagsDetermine(a, b);
  }

  const Grass := "#6ab04c"
  const Sand := "#f6e58d"
  const Water := "#4834d4"

  /** `getTileColor(tile)`: green below 120, sand-yellow from 120 up to but
      not including 140, blue from 140. */
  function GetTileColor(tile: real): (c: string)
    ensures c == Grass <==> tile < 120.0
    ensures c == Sand <==> 120.0 <= tile < 140.0
    ensures c == Water <==> tile >= 140.0
  {
    if tile < 120.0 then Grass
    else if tile >= 120.0 && tile < 140.0 then Sand
    else Water
  }

  /** The band of a colour, from low tile values to high. */
  function Rank(c: string): nat
  {
    if c == Grass then 0 else if c == Sand then 1 else 2
  }

  /** Higher tiles never get a lower band. */
  lemma TileColorMonotone(a: real, b: real)
    requires a <= b
    ensures Rank(GetTileColor(a)) <= Rank(GetTileColor(b))
  {
  }

  /** A generated tile from a non-negative noise sample is at least 127 and
      so never grass; a zero sample, which every lattice point gives, is
      sand. */
  lemma NonNegativeSampleIsNotGrass(sample: real)
    requires sample >= 0.0
    ensures GetTileColor(Noise.Cell(sample)) != Grass
    ensures sample == 0.0 ==> GetTileColor(Noise.Cell(sample)) == Sand
  {
  }
}
