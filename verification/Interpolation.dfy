/**
 What a client draws of another player between two updates: `ApplyRemoteState` and `ApplyTraversal`, over the
 reals.
 */
module Interpolation {
  import opened Protocol
  import opened Delta
  import opened GameplaySync

  const TM_NONE := 0
  const TM_CLIMBING := 1
  const TM_VAULTING := 2
  const TM_LEDGE_GRAB := 3
  const TM_WALL_RUN := 4
  const TM_SLIDE := 5
  const TM_ROLL := 6
  const TM_JUMP := 7
  const TM_FALL := 8
  const TM_LAND := 9

  const INTERP_BUFFER_MS := 100.0
  const FALLBACK_BUFFER_MS := 50.0
  const FALLBACK_VERTICAL_SPEED := 5.0

  const NO_PACKET := Packet(
    Traversal(TM_NONE, 0, 0.0, ORIGIN, 0.0), false, 0, 0, 0, ORIGIN, 0, false, [], false, 0, [], false, 0, 0, 0, false,
    false, 0, 0, 0.0, ORIGIN, false, (0.0, 0.0), false, false, false, ORIGIN, false, 0, 0, false)

  /** `resolved`: the player has a readable entity slot in the game to write to. A new one does not. */
  datatype RemotePlayer = RemotePlayer(
    current: Vec3, target: Vec3, velocity: Vec3, health: real, maxHealth: real, inCutscene: bool, updatedMs: real,
    resolved: bool, gameplay: Packet, prevDead: bool, prevAnimId: int, animStreak: int)

  const NEW_REMOTE := RemotePlayer(ORIGIN, ORIGIN, ORIGIN, 100.0, 100.0, false, 0.0, false, NO_PACKET, false, 0, 0)

  // ---- an update ---------------------------------------------------------------------------------------------

  /** The body of `ApplyStateUpdate` for one entry. */
  function Updated(rp: RemotePlayer, p: PlayerState, nowMs: real): RemotePlayer {
    rp.(target := p.position, current := if rp.updatedMs == 0.0 then p.position else rp.current,
        velocity := p.velocity, health := p.health, maxHealth := p.maxHealth, inCutscene := p.inCutscene,
        animStreak :=
          if p.anim.id != rp.prevAnimId then 3
          else if rp.animStreak > 0 then rp.animStreak - 1
          else rp.animStreak,
        prevAnimId := p.anim.id, gameplay := Parse(p.gameplay, rp.gameplay), updatedMs := nowMs)
  }

  // ---- a frame -----------------------------------------------------------------------------------------------

  function Scale(d: real, t: real): real {
    d * t
  }

  function Lerp(a: real, b: real, t: real): real {
    a + Scale(b - a, t)
  }

  function LerpVec(a: Vec3, b: Vec3, t: real): Vec3 {
    Vec3(Lerp(a.x, b.x, t), Lerp(a.y, b.y, t), Lerp(a.z, b.z, t))
  }

  function Min(a: real, b: real): real {
    if a < b then a else b
  }

  function Max(a: real, b: real): real {
    if a < b then b else a
  }

  /** No traversal data, but the player moves fast vertically or its animation changed lately. */
  predicate Fallback(rp: RemotePlayer) {
    !rp.gameplay.traversalPresent && (Abs(rp.velocity.y) > FALLBACK_VERTICAL_SPEED || rp.animStreak > 0)
  }

  function Mode(rp: RemotePlayer): int {
    if rp.gameplay.traversalPresent then rp.gameplay.traversal.mode
    else if !Fallback(rp) then TM_NONE
    else if rp.velocity.y > 0.0 then TM_JUMP
    else if rp.velocity.y < 0.0 then TM_FALL
    else TM_NONE
  }

  /** How far towards the target a frame goes, as a fraction. */
  function BaseT(rp: RemotePlayer, nowMs: real): real {
    var elapsed := nowMs - rp.updatedMs;
    var buffer := if Fallback(rp) then FALLBACK_BUFFER_MS else INTERP_BUFFER_MS;
    var t := if elapsed <= 0.0 then 1.0 else Min(1.0, elapsed / buffer);
    if Fallback(rp) then Min(1.0, t * 2.0) else t
  }

  /** `ApplyTraversal`: where the mode puts the player. */
  function Traversed(rp: RemotePlayer, nowMs: real, baseT: real, mode: int): Vec3 {
    if mode == TM_VAULTING || mode == TM_ROLL || mode == TM_SLIDE then
      LerpVec(rp.current, rp.gameplay.traversal.target, Min(1.0, Max(0.0, rp.gameplay.traversal.progress)))
    else if mode == TM_CLIMBING || mode == TM_LEDGE_GRAB || mode == TM_LAND then rp.target
    else if mode == TM_WALL_RUN then LerpVec(rp.current, rp.target, Min(1.0, baseT * 3.0))
    else if mode == TM_JUMP || mode == TM_FALL then
      var p, dt := LerpVec(rp.current, rp.target, baseT), (nowMs - rp.updatedMs) / 1000.0;
      Vec3(p.x + rp.velocity.x * dt, p.y + rp.velocity.y * dt, p.z + rp.velocity.z * dt)
    else LerpVec(rp.current, rp.target, baseT)
  }

  /** Dead before, alive now, and the packet says where. */
  predicate Respawns(rp: RemotePlayer) {
    rp.gameplay.deathPresent && rp.prevDead && !rp.gameplay.isDead && rp.gameplay.respawnPresent
  }

  /** One remote player in one call of `ApplyRemoteState`; `statusKnown`: the scanner found the status component. */
  function Frame(rp: RemotePlayer, nowMs: real, statusKnown: bool): RemotePlayer {
    if !rp.resolved then rp.(current := LerpVec(rp.current, rp.target, BaseT(rp, nowMs)))
    else
      var moved := rp.(current := Traversed(rp, nowMs, BaseT(rp, nowMs), Mode(rp)));
      if !rp.gameplay.deathPresent || !statusKnown then moved
      else if Respawns(rp) then
        moved.(current := rp.gameplay.respawn, target := rp.gameplay.respawn, prevDead := rp.gameplay.isDead)
      else moved.(prevDead := rp.gameplay.isDead)
  }

  // ---- convergence -------------------------------------------------------------------------------------------

  ghost predicate Between(a: real, x: real, b: real) {
    a <= x <= b || b <= x <= a
  }

  /** On every axis, x is on the way from a to b. */
  ghost predicate OnSegment(a: Vec3, x: Vec3, b: Vec3) {
    Between(a.x, x.x, b.x) && Between(a.y, x.y, b.y) && Between(a.z, x.z, b.z)
  }

  /** Without a slot in the game always, with one in the modes that go to the target. */
  ghost predicate Converges(rp: RemotePlayer, statusKnown: bool) {
    !rp.resolved || (Mode(rp) !in {TM_VAULTING, TM_ROLL, TM_SLIDE, TM_JUMP, TM_FALL} && !(statusKnown && Respawns(rp)))
  }

  lemma ScaleShortens(d: real, t: real)
    requires 0.0 <= t <= 1.0
    ensures d >= 0.0 ==> 0.0 <= Scale(d, t) <= d
    ensures d <= 0.0 ==> d <= Scale(d, t) <= 0.0
    ensures Scale(d, 1.0) == d
  {}

  lemma LerpBetween(a: real, b: real, t: real)
    requires 0.0 <= t <= 1.0
    ensures Between(a, Lerp(a, b, t), b)
    ensures Lerp(a, b, 1.0) == b
  {
    ScaleShortens(b - a, t);
  }

  lemma LerpOnSegment(a: Vec3, b: Vec3, t: real)
    requires 0.0 <= t <= 1.0
    ensures OnSegment(a, LerpVec(a, b, t), b)
    ensures LerpVec(a, b, 1.0) == b
  {
    LerpBetween(a.x, b.x, t);
    LerpBetween(a.y, b.y, t);
    LerpBetween(a.z, b.z, t);
  }

  lemma BaseTIsFraction(rp: RemotePlayer, nowMs: real)
    ensures 0.0 <= BaseT(rp, nowMs) <= 1.0
    ensures nowMs - rp.updatedMs >= INTERP_BUFFER_MS ==> BaseT(rp, nowMs) == 1.0
    ensures Fallback(rp) && nowMs - rp.updatedMs >= 25.0 ==> BaseT(rp, nowMs) == 1.0
  {}

  /**
   One frame: nearer on every axis without passing, there at the latest 100 ms after the update, nothing else
   moves.
   */
  lemma FrameApproaches(rp: RemotePlayer, nowMs: real, statusKnown: bool)
    requires Converges(rp, statusKnown)
    ensures var f := Frame(rp, nowMs, statusKnown);
            && f == rp.(current := f.current, prevDead := f.prevDead)
            && (rp.resolved && f.prevDead != rp.prevDead ==> f.prevDead == rp.gameplay.isDead)
            && OnSegment(rp.current, f.current, rp.target)
            && (nowMs - rp.updatedMs >= INTERP_BUFFER_MS ==> f.current == rp.target)
            && (rp.current == rp.target ==> f.current == rp.target)
  {
    var t := BaseT(rp, nowMs);
    BaseTIsFraction(rp, nowMs);
    LerpOnSegment(rp.current, rp.target, t);
    LerpOnSegment(rp.current, rp.target, Min(1.0, t * 3.0));
  }

  /** Frames at any times, in any order of them. */
  function Frames(rp: RemotePlayer, times: seq<real>, statusKnown: bool): RemotePlayer
    decreases |times|
  {
    if |times| == 0 then rp else Frames(Frame(rp, times[0], statusKnown), times[1..], statusKnown)
  }

  ghost predicate NoFurther(a: real, x: real, b: real) {
    Abs(x - b) <= Abs(a - b)
  }

  /** A frame does not make a player respawn that was not about to. */
  lemma StaysConvergent(rp: RemotePlayer, nowMs: real, statusKnown: bool)
    requires Converges(rp, statusKnown)
    ensures Converges(Frame(rp, nowMs, statusKnown), statusKnown)
  {}

  /**
   Between two updates, over any schedule of frames: the player stays on the segment to its target on every axis,
   is never further from it than before, and is at it after any schedule with a frame 100 ms after the update.
   */
  lemma {:induction false} ConvergesWithoutOvershoot(rp: RemotePlayer, times: seq<real>, statusKnown: bool)
    requires Converges(rp, statusKnown)
    ensures var f := Frames(rp, times, statusKnown);
            && f.target == rp.target
            && OnSegment(rp.current, f.current, rp.target)
            && NoFurther(rp.current.x, f.current.x, rp.target.x)
            && NoFurther(rp.current.y, f.current.y, rp.target.y)
            && NoFurther(rp.current.z, f.current.z, rp.target.z)
            && (rp.current == rp.target || (exists i :: 0 <= i < |times| && times[i] - rp.updatedMs >= INTERP_BUFFER_MS)
                ==> f.current == rp.target)
    decreases |times|
  {
    if |times| > 0 {
      var first := Frame(rp, times[0], statusKnown);
      FrameApproaches(rp, times[0], statusKnown);
      StaysConvergent(rp, times[0], statusKnown);
      ConvergesWithoutOvershoot(first, times[1..], statusKnown);
      if i :| 0 < i < |times| && times[i] - rp.updatedMs >= INTERP_BUFFER_MS {
        assert times[1..][i - 1] == times[i];
      }
    }
  }

  /**
   From one update to the next: the first puts a player at its place at once; a later one does not make it jump,
   but sends it along the segment from where it was drawn to the new place, which it has reached 100 ms later.
   */
  lemma UpdateToFrame(rp: RemotePlayer, p: PlayerState, nowMs: real, times: seq<real>, statusKnown: bool)
    requires Converges(Updated(rp, p, nowMs), statusKnown)
    ensures var f := Frames(Updated(rp, p, nowMs), times, statusKnown);
            && f.target == p.position
            && (rp.updatedMs == 0.0 ==> f.current == p.position)
            && (rp.updatedMs != 0.0 ==> OnSegment(rp.current, f.current, p.position))
            && ((exists i :: 0 <= i < |times| && times[i] >= nowMs + INTERP_BUFFER_MS) ==> f.current == p.position)
  {
    ConvergesWithoutOvershoot(Updated(rp, p, nowMs), times, statusKnown);
  }

  /** An animation change counts for the three updates after it at most, if the animation then stays the same. */
  lemma FallbackEnds(
      rp: RemotePlayer, p1: PlayerState, p2: PlayerState, p3: PlayerState, p4: PlayerState, t1: real, t2: real,
      t3: real, t4: real)
    requires p1.anim.id == p2.anim.id == p3.anim.id == p4.anim.id && rp.animStreak <= 3
    ensures Updated(Updated(Updated(Updated(rp, p1, t1), p2, t2), p3, t3), p4, t4).animStreak <= 0
    ensures p1.anim.id != rp.prevAnimId ==> Updated(Updated(Updated(rp, p1, t1), p2, t2), p3, t3).animStreak == 1
  {}

  // ---- how far a frame goes ------------------------------------------------------------------------------------

  /** On every axis, x is this many hundredths of the way from a to b. */
  ghost predicate PartWay(a: Vec3, x: Vec3, b: Vec3, hundredths: real) {
    && 100.0 * (x.x - a.x) == hundredths * (b.x - a.x)
    && 100.0 * (x.y - a.y) == hundredths * (b.y - a.y)
    && 100.0 * (x.z - a.z) == hundredths * (b.z - a.z)
  }

  lemma ScaledBy(d: real, e: real)
    ensures 100.0 * Scale(d, e / 100.0) == e * d
  {}

  lemma LerpPartWay(a: Vec3, b: Vec3, hundredths: real)
    ensures PartWay(a, LerpVec(a, b, hundredths / 100.0), b, hundredths)
  {
    ScaledBy(b.x - a.x, hundredths);
    ScaledBy(b.y - a.y, hundredths);
    ScaledBy(b.z - a.z, hundredths);
  }

  lemma LerpWhole(a: Vec3, b: Vec3)
    ensures LerpVec(a, b, 1.0) == b
  {
    LerpOnSegment(a, b, 1.0);
  }

  /** A player without traversal data that moves fast up or down, or whose animation changed lately. */
  ghost predicate InFallback(rp: RemotePlayer) {
    !rp.gameplay.traversalPresent && (rp.velocity.y > 5.0 || rp.velocity.y < -5.0 || rp.animStreak > 0)
  }

  /** Nearer, unless it is there already. */
  ghost predicate Nearer(a: real, x: real, b: real) {
    if a == b then x == b else Abs(x - b) < Abs(a - b)
  }

  lemma PartIsNearer(a: real, x: real, b: real, hundredths: real)
    requires 0.0 < hundredths < 100.0 && 100.0 * (x - a) == hundredths * (b - a)
    ensures Nearer(a, x, b)
  {
    var d := b - a;
    assert 100.0 * (x - b) == Scale(d, hundredths - 100.0);
    if d > 0.0 {
      Shortened(d, hundredths);
    } else if d < 0.0 {
      Shortened(-d, hundredths);
    }
  }

  lemma Shortened(d: real, hundredths: real)
    requires d > 0.0 && 0.0 < hundredths < 100.0
    ensures 0.0 < hundredths * d < 100.0 * d
  {}

  /** How many hundredths of what is left of the way: one for each millisecond since the update, or four. */
  ghost function Hundredths(rp: RemotePlayer, nowMs: real): real {
    if InFallback(rp) then 4.0 * (nowMs - rp.updatedMs) else nowMs - rp.updatedMs
  }

  /** So far and no further, nearer on every axis, and at the target from 100 hundredths on, or at the update itself. */
  ghost predicate GoesPartWay(rp: RemotePlayer, f: RemotePlayer, nowMs: real) {
    && f == rp.(current := f.current)
    && (if 0.0 < Hundredths(rp, nowMs) < 100.0 then PartWay(rp.current, f.current, rp.target, Hundredths(rp, nowMs))
        else f.current == rp.target)
    && Nearer(rp.current.x, f.current.x, rp.target.x)
    && Nearer(rp.current.y, f.current.y, rp.target.y)
    && Nearer(rp.current.z, f.current.z, rp.target.z)
  }

  /** A frame goes a hundredth of the way for each millisecond since the update, in fallback four. */
  lemma FrameGoesPartWay(rp: RemotePlayer, nowMs: real, statusKnown: bool)
    requires !rp.resolved
    ensures GoesPartWay(rp, Frame(rp, nowMs, statusKnown), nowMs)
  {
    var hundredths, f := Hundredths(rp, nowMs), Frame(rp, nowMs, statusKnown);
    if 0.0 < hundredths < 100.0 {
      assert BaseT(rp, nowMs) == hundredths / 100.0;
      LerpPartWay(rp.current, rp.target, hundredths);
      PartIsNearer(rp.current.x, f.current.x, rp.target.x, hundredths);
      PartIsNearer(rp.current.y, f.current.y, rp.target.y, hundredths);
      PartIsNearer(rp.current.z, f.current.z, rp.target.z, hundredths);
    } else {
      assert BaseT(rp, nowMs) == 1.0;
      LerpWhole(rp.current, rp.target);
    }
  }

  // ---- with a slot in the game ---------------------------------------------------------------------------------

  // Nothing in the client gives a remote player a slot (`Screens.NothingResolved`). The rest says what the code
  // written for one does.

  /** Vaults, rolls and slides go to the target of the traversal instead, as far as its progress says. */
  lemma ActionsFollowProgress(rp: RemotePlayer, nowMs: real, statusKnown: bool)
    requires rp.resolved && Mode(rp) in {TM_VAULTING, TM_ROLL, TM_SLIDE} && !(statusKnown && Respawns(rp))
    ensures var f := Frame(rp, nowMs, statusKnown);
            && OnSegment(rp.current, f.current, rp.gameplay.traversal.target)
            && (rp.gameplay.traversal.progress >= 1.0 ==> f.current == rp.gameplay.traversal.target)
            && (rp.gameplay.traversal.progress <= 0.0 ==> f.current == rp.current)
  {
    LerpOnSegment(rp.current, rp.gameplay.traversal.target, Min(1.0, Max(0.0, rp.gameplay.traversal.progress)));
  }

  /**
   In the air a late frame is at the target exactly when the player does not move; otherwise it runs ahead
   forever.
   */
  lemma AirborneRunsAhead(rp: RemotePlayer, nowMs: real, statusKnown: bool)
    requires rp.resolved && Mode(rp) in {TM_JUMP, TM_FALL} && !(statusKnown && Respawns(rp))
    requires nowMs - rp.updatedMs >= INTERP_BUFFER_MS
    ensures Frame(rp, nowMs, statusKnown).current == rp.target <==> rp.velocity == ORIGIN
  {}

  /** A respawn teleports once: the player is drawn at the respawn position, and the next frame converges there. */
  lemma RespawnTeleportsOnce(rp: RemotePlayer, nowMs: real)
    requires rp.resolved && Respawns(rp)
    ensures var f := Frame(rp, nowMs, true);
            f.current == f.target == rp.gameplay.respawn && !Respawns(f)
  {}

  /** Climbing, grabbing a ledge and landing snap to the target; a wall run goes three times as far as on the ground. */
  lemma OtherModes(rp: RemotePlayer, nowMs: real, statusKnown: bool)
    requires rp.resolved && rp.gameplay.traversalPresent && !(statusKnown && Respawns(rp))
    ensures var e, f, mode := nowMs - rp.updatedMs, Frame(rp, nowMs, statusKnown).current, rp.gameplay.traversal.mode;
            && (mode in {TM_CLIMBING, TM_LEDGE_GRAB, TM_LAND} ==> f == rp.target)
            && (mode == TM_WALL_RUN && 0.0 < 3.0 * e < 100.0 ==> PartWay(rp.current, f, rp.target, 3.0 * e))
            && (mode == TM_WALL_RUN && 3.0 * e >= 100.0 ==> f == rp.target)
            && (mode == TM_NONE && 0.0 < e < 100.0 ==> PartWay(rp.current, f, rp.target, e))
  {
    var e, t := nowMs - rp.updatedMs, BaseT(rp, nowMs);
    if 0.0 < e < 100.0 {
      assert t == e / 100.0;
      LerpPartWay(rp.current, rp.target, e);
    }
    if 0.0 < 3.0 * e < 100.0 {
      assert Min(1.0, t * 3.0) == 3.0 * e / 100.0;
      LerpPartWay(rp.current, rp.target, 3.0 * e);
    } else if 3.0 * e >= 100.0 {
      assert Min(1.0, t * 3.0) == 1.0;
      LerpWhole(rp.current, rp.target);
    }
  }

  /** In the air the target is led by the velocity times the seconds since the update, on top of the way to it. */
  lemma AirborneLead(rp: RemotePlayer, nowMs: real, statusKnown: bool)
    requires rp.resolved && Mode(rp) in {TM_JUMP, TM_FALL} && !(statusKnown && Respawns(rp))
    ensures var s, f := (nowMs - rp.updatedMs) / 1000.0, Frame(rp, nowMs, statusKnown).current;
            var g := Frame(rp.(resolved := false), nowMs, statusKnown).current;
            f == Vec3(g.x + rp.velocity.x * s, g.y + rp.velocity.y * s, g.z + rp.velocity.z * s)
  {
    var t := BaseT(rp, nowMs);
    assert Frame(rp, nowMs, statusKnown).current == Traversed(rp, nowMs, t, Mode(rp));
    assert Frame(rp.(resolved := false), nowMs, statusKnown).current == LerpVec(rp.current, rp.target, t);
  }
}
