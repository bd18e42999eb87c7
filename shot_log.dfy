/** The shots record of the first and second generation `Game` classes and
    the fire cooldown both of them enforce. The record is keyed by a fresh
    UUID per shot; JavaScript enumerates such keys in insertion order, so
    it is modelled as the sequence of its values in that order (which is
    what `Object.values(this.shots)` yields and what "the last shot of a
    player" depends on). */
module ShotLog {
  import opened Common
  import Kinematics

  /** `{id, playerId, radius, position, velocity, createdAt}`; `createdAt`
      is kept as the millisecond timestamp its ISO string encodes. */
  datatype Shot = Shot(id: string, playerId: string, radius: real, position: Vec, velocity: Vec, createdAt: int)

  /** Minimum time, in milliseconds, between two shots of one player. */
  const Cooldown: int := 250

  /** No two shots share a key. */
  predicate UniqueIds(shots: seq<Shot>)
  {
    forall i, j :: 0 <= i < j < |shots| ==> shots[i].id != shots[j].id
  }

  predicate HasId(shots: seq<Shot>, id: string)
  {
    exists i :: 0 <= i < |shots| && shots[i].id == id
  }

  /** The position of the key `id` in the record, if it is there. */
  function IndexOf(shots: seq<Shot>, id: string): (r: Option<nat>)
    ensures r.None? <==> !HasId(shots, id)
    ensures r.Some? ==> r.value < |shots| && shots[r.value].id == id
  {
    if shots == [] then None
    else if shots[|shots| - 1].id == id then Some(|shots| - 1)
    else
      var init := shots[..|shots| - 1];
      var r := IndexOf(init, id);
      assert HasId(init, id) <==> HasId(shots, id) by {
        if HasId(shots, id) {
          var i :| 0 <= i < |shots| && shots[i].id == id;
          assert init[i].id == id;
        }
        if HasId(init, id) {
          var i :| 0 <= i < |init| && init[i].id == id;
          assert shots[i].id == id;
        }
      }
      r
  }

  /** `this.shots[s.id] = s`: an existing key keeps its place and takes
      the new value, a new key is appended. */
  function Put(shots: seq<Shot>, s: Shot): (r: seq<Shot>)
    ensures !HasId(shots, s.id) ==> r == shots + [s]
    ensures HasId(shots, s.id) ==> |r| == |shots|
    ensures UniqueIds(shots) ==>
              UniqueIds(r) && forall i :: 0 <= i < |shots| ==> r[i] == (if shots[i].id == s.id then s else shots[i])
    ensures HasId(r, s.id)
  {
    match IndexOf(shots, s.id)
    case None =>
      assert (shots + [s])[|shots|].id == s.id;
      shots + [s]
    case Some(k) =>
      assert shots[k := s][k].id == s.id;
      shots[k := s]
  }

  /** `shots.filter(shot => shot.playerId === playerId)`, in record order. */
  function ShotsOf(shots: seq<Shot>, playerId: string): (r: seq<Shot>)
    ensures |r| <= |shots|
    ensures forall i :: 0 <= i < |r| ==> r[i].playerId == playerId && r[i] in shots
  {
    if shots == [] then []
    else
      var last := shots[|shots| - 1];
      ShotsOf(shots[..|shots| - 1], playerId) + (if last.playerId == playerId then [last] else [])
  }

  /** The filter misses none of the player's shots. */
  lemma {:induction false} ShotsOfComplete(shots: seq<Shot>, playerId: string, i: nat)
    requires i < |shots| && shots[i].playerId == playerId
    ensures shots[i] in ShotsOf(shots, playerId)
  {
    var n := |shots| - 1;
    if i < n {
      assert shots[i] == shots[..n][i];
      ShotsOfComplete(shots[..n], playerId, i);
    }
  }

  /** The filter walks the record in order: a shot appended to the record
      is appended to its owner's filter and to no one else's. */
  lemma {:induction false} ShotsOfAppend(shots: seq<Shot>, s: Shot, playerId: string)
    ensures ShotsOf(shots + [s], playerId) == ShotsOf(shots, playerId) + (if s.playerId == playerId then [s] else [])
  {
    assert (shots + [s])[..|shots|] == shots;
  }

  /** The most recent shot of a player: the last element of the filter. */
  function LastShotBy(shots: seq<Shot>, playerId: string): (r: Option<Shot>)
    ensures r.Some? ==> r.value in shots && r.value.playerId == playerId
    ensures r.None? <==> forall i :: 0 <= i < |shots| ==> shots[i].playerId != playerId
  {
    NoneMeansNoShot(shots, playerId);
    var mine := ShotsOf(shots, playerId);
    if |mine| == 0 then None else Some(mine[|mine| - 1])
  }

  lemma {:induction false} NoneMeansNoShot(shots: seq<Shot>, playerId: string)
    ensures ShotsOf(shots, playerId) == [] <==> forall i :: 0 <= i < |shots| ==> shots[i].playerId != playerId
  {
    if shots != [] {
      var init := shots[..|shots| - 1];
      NoneMeansNoShot(init, playerId);
      if ShotsOf(shots, playerId) == [] {
        forall i | 0 <= i < |shots| ensures shots[i].playerId != playerId {
          if i < |shots| - 1 { assert shots[i] == init[i]; }
        }
      }
    }
  }

  /** The cooldown test: a player with no stored shot may always fire;
      otherwise `now` must be at least 250 ms after that player's last
      stored shot (`now - lastShotTime < 250` rejects). */
  predicate CooldownAllows(shots: seq<Shot>, playerId: string, now: int)
  {
    match LastShotBy(shots, playerId)
    case None => true
    case Some(last) => !(now - last.createdAt < Cooldown)
  }

  /** The creation times of a sequence of shots. */
  function Stamps(shots: seq<Shot>): (r: seq<int>)
    ensures |r| == |shots| && forall i :: 0 <= i < |shots| ==> r[i] == shots[i].createdAt
  {
    seq(|shots|, i requires 0 <= i < |shots| => shots[i].createdAt)
  }

  /** Successive stamps are at least one cooldown apart. */
  predicate SpacedStamps(t: seq<int>)
  {
    forall i :: 0 < i < |t| ==> t[i] - t[i - 1] >= Cooldown
  }

  /** Every player's accepted shots, in record order, are at least one
      cooldown apart. */
  ghost predicate Spaced(shots: seq<Shot>)
  {
    forall p :: SpacedStamps(Stamps(ShotsOf(shots, p)))
  }

  /** Appending a stamp at least one cooldown after the last keeps stamps spaced. */
  lemma SpacedSnoc(t: seq<int>, x: int)
    requires SpacedStamps(t) && (|t| > 0 ==> x - t[|t| - 1] >= Cooldown)
    ensures SpacedStamps(t + [x])
  {
    var u := t + [x];
    forall i | 0 < i < |u| ensures u[i] - u[i - 1] >= Cooldown {
      if i < |t| {
        assert u[i] == t[i] && u[i - 1] == t[i - 1];
      }
    }
  }

  lemma StampsSnoc(a: seq<Shot>, x: Shot)
    ensures Stamps(a + [x]) == Stamps(a) + [x.createdAt]
  {
    assert forall i :: 0 <= i < |a| ==> (a + [x])[i] == a[i];
  }

  /** One player's part of `AppendKeepsSpaced`. */
  lemma AppendKeepsSpacedFor(shots: seq<Shot>, s: Shot, p: string)
    requires SpacedStamps(Stamps(ShotsOf(shots, p)))
    requires CooldownAllows(shots, s.playerId, s.createdAt)
    ensures SpacedStamps(Stamps(ShotsOf(shots + [s], p)))
  {
    ShotsOfAppend(shots, s, p);
    var before := ShotsOf(shots, p);
    if s.playerId != p {
      assert ShotsOf(shots + [s], p) == before;
    } else {
      var t := Stamps(before);
      if |before| > 0 {
        var last := before[|before| - 1];
        assert LastShotBy(shots, p) == Some(last);
        assert t[|t| - 1] == last.createdAt;
      }
      SpacedSnoc(t, s.createdAt);
      StampsSnoc(before, s);
    }
  }

  /** Appending a shot that passed the cooldown test keeps every player's
      shots spaced. */
  lemma AppendKeepsSpaced(shots: seq<Shot>, s: Shot)
    requires Spaced(shots) && CooldownAllows(shots, s.playerId, s.createdAt)
    ensures Spaced(shots + [s])
  {
    forall p ensures SpacedStamps(Stamps(ShotsOf(shots + [s], p))) {
      AppendKeepsSpacedFor(shots, s, p);
    }
  }

  /** A shot after one tick: straight-line integration by its velocity. */
  function Drift(s: Shot): (r: Shot)
    ensures r.position.x - s.position.x == s.velocity.x && r.position.y - s.position.y == s.velocity.y
    ensures r.(position := s.position) == s
  {
    s.(position := Kinematics.Advance(s.position, s.velocity))
  }

  /** Every shot of the record after one tick, in the same order. */
  function DriftAll(shots: seq<Shot>): (r: seq<Shot>)
    ensures |r| == |shots| && forall i :: 0 <= i < |shots| ==> r[i] == Drift(shots[i])
  {
    seq(|shots|, i requires 0 <= i < |shots| => Drift(shots[i]))
  }

  /** Moving the shots changes neither who fired them nor when, so each
      player's filtered shots keep their creation times. */
  lemma {:induction false} DriftKeepsStamps(shots: seq<Shot>, p: string)
    ensures Stamps(ShotsOf(DriftAll(shots), p)) == Stamps(ShotsOf(shots, p))
  {
    if shots != [] {
      var n := |shots| - 1;
      assert DriftAll(shots)[..n] == DriftAll(shots[..n]);
      DriftKeepsStamps(shots[..n], p);
      var a := ShotsOf(DriftAll(shots[..n]), p);
      var b := ShotsOf(shots[..n], p);
      var ta := if Drift(shots[n]).playerId == p then [Drift(shots[n])] else [];
      var tb := if shots[n].playerId == p then [shots[n]] else [];
      assert Stamps(a + ta) == Stamps(a) + Stamps(ta);
      assert Stamps(b + tb) == Stamps(b) + Stamps(tb);
    }
  }

  /** A tick keeps every key, in order, and keeps the cooldown spacing. */
  lemma DriftKeepsRecord(shots: seq<Shot>)
    ensures UniqueIds(shots) ==> UniqueIds(DriftAll(shots))
    ensures Spaced(shots) ==> Spaced(DriftAll(shots))
  {
    forall p ensures Stamps(ShotsOf(DriftAll(shots), p)) == Stamps(ShotsOf(shots, p)) {
      DriftKeepsStamps(shots, p);
    }
  }

  /** A shot appended to the record becomes its owner's most recent one,
      so the next shot of that player is measured against it: it passes
      the cooldown exactly when it comes at least 250 ms later. */
  lemma {:induction false} AppendedIsLast(shots: seq<Shot>, s: Shot, now: int)
    ensures LastShotBy(shots + [s], s.playerId) == Some(s)
    ensures CooldownAllows(shots + [s], s.playerId, now) <==> now - s.createdAt >= Cooldown
  {
    var after := shots + [s];
    assert after[..|after| - 1] == shots;
    assert ShotsOf(after, s.playerId) == ShotsOf(shots, s.playerId) + [s];
  }

  /** Shots of other players do not change whose turn it is. */
  lemma {:induction false} OtherShotKeepsLast(shots: seq<Shot>, s: Shot, p: string)
    requires s.playerId != p
    ensures LastShotBy(shots + [s], p) == LastShotBy(shots, p)
  {
    var after := shots + [s];
    assert after[..|after| - 1] == shots;
    assert ShotsOf(after, p) == ShotsOf(shots, p);
  }
}
