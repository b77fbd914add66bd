/** Delta diffing, the pure part of server/src/state.ts: what counts as changed, merging, and the tick. */
module Delta {
  import opened Wrappers
  import opened Protocol

  const POS_EPSILON := 0.01
  const VEL_EPSILON := 0.05
  const ROT_EPSILON := 0.001
  const ANIM_TIME_EPSILON := 0.01
  const PROGRESS_EPSILON := 0.02

  function Abs(x: real): real {
    if x < 0.0 then -x else x
  }

  predicate Far(a: real, b: real, eps: real) {
    Abs(a - b) > eps
  }

  predicate VecChanged(a: Vec3, b: Vec3, eps: real) {
    Far(a.x, b.x, eps) || Far(a.y, b.y, eps) || Far(a.z, b.z, eps)
  }

  predicate TraversalChanged(a: Option<Traversal>, b: Option<Traversal>) {
    if a.None? && b.None? then false
    else if a.None? || b.None? then true
    else
      || a.value.mode != b.value.mode
      || a.value.animId != b.value.animId
      || Far(a.value.animTime, b.value.animTime, ANIM_TIME_EPSILON)
      || Far(a.value.progress, b.value.progress, PROGRESS_EPSILON)
      || VecChanged(a.value.target, b.value.target, POS_EPSILON)
  }

  /** The fields `gameplayChanged` looks at; vectors and the mount's animation time are not among them. */
  predicate GameplayChanged(a: Gameplay, b: Gameplay) {
    || a.skillId != b.skillId || a.skillPhase != b.skillPhase || a.skillAnimId != b.skillAnimId
    || a.skillTargetEntity != b.skillTargetEntity || a.activeVfx != b.activeVfx
    || a.statusFlags != b.statusFlags || a.buffIds != b.buffIds
    || a.weaponId != b.weaponId || a.weaponStance != b.weaponStance || a.offHandId != b.offHandId
    || a.isMounted != b.isMounted || a.mountEntityId != b.mountEntityId || a.mountAnimId != b.mountAnimId
    || a.isDead != b.isDead || a.interactionType != b.interactionType
    || a.interactionEntityId != b.interactionEntityId
  }

  /** True when `b` differs from `a` enough to be worth broadcasting. */
  predicate PlayerChanged(a: PlayerState, b: PlayerState) {
    || VecChanged(a.position, b.position, POS_EPSILON)
    || VecChanged(a.velocity, b.velocity, VEL_EPSILON)
    || Far(a.rotation.yaw, b.rotation.yaw, ROT_EPSILON) || Far(a.rotation.pitch, b.rotation.pitch, ROT_EPSILON)
    || a.health != b.health || a.maxHealth != b.maxHealth
    || a.anim.id != b.anim.id || a.anim.moveFlags != b.anim.moveFlags || a.anim.combatFlags != b.anim.combatFlags
    || Far(a.anim.time, b.anim.time, ANIM_TIME_EPSILON)
    || TraversalChanged(a.gameplay.traversal, b.gameplay.traversal)
    || GameplayChanged(a.gameplay, b.gameplay)
  }

  ghost predicate NearVec(a: Vec3, b: Vec3, eps: real) {
    -eps <= a.x - b.x <= eps && -eps <= a.y - b.y <= eps && -eps <= a.z - b.z <= eps
  }

  ghost predicate Near(a: real, b: real, eps: real) {
    -eps <= a - b <= eps
  }

  /** A snapshot that is good enough: every number within its epsilon, the compared fields equal. */
  ghost predicate Fresh(snapshot: PlayerState, live: PlayerState) {
    && NearVec(live.position, snapshot.position, 0.01)
    && NearVec(live.velocity, snapshot.velocity, 0.05)
    && Near(live.rotation.yaw, snapshot.rotation.yaw, 0.001)
    && Near(live.rotation.pitch, snapshot.rotation.pitch, 0.001)
    && live.health == snapshot.health && live.maxHealth == snapshot.maxHealth
    && live.anim.(blendWeight := 0.0, time := 0.0) == snapshot.anim.(blendWeight := 0.0, time := 0.0)
    && Near(live.anim.time, snapshot.anim.time, 0.01)
    && FreshTraversal(snapshot.gameplay.traversal, live.gameplay.traversal)
    && Compared(snapshot.gameplay) == Compared(live.gameplay)
  }

  ghost predicate FreshTraversal(a: Option<Traversal>, b: Option<Traversal>) {
    match (a, b)
    case (None, None) => true
    case (Some(s), Some(t)) =>
      && s.mode == t.mode && s.animId == t.animId
      && Near(s.animTime, t.animTime, 0.01) && Near(s.progress, t.progress, 0.02)
      && NearVec(s.target, t.target, 0.01)
    case _ => false
  }

  /** The gameplay fields that are compared exactly, the others blanked. */
  ghost function Compared(g: Gameplay): Gameplay {
    g.(traversal := None, skillTargetPos := None, mountAnimTime := None, mountPosition := None,
       dodgeDirection := None, respawnPosition := None)
  }

  /** A state is left out of a broadcast exactly when the snapshot is fresh; its own copy is. */
  lemma UnchangedIsFresh(a: PlayerState, b: PlayerState)
    ensures !PlayerChanged(a, b) <==> Fresh(a, b)
    ensures !PlayerChanged(a, a)
  {}

  /** The fields whose changes alone are never broadcast. */
  lemma NeverBroadcastAlone(a: PlayerState, ping: int, host: bool, cutscene: bool, blend: real, g: Gameplay)
    requires g.traversal == a.gameplay.traversal && Compared(g) == Compared(a.gameplay)
    ensures !PlayerChanged(a, a.(ping := ping, isHost := host, inCutscene := cutscene,
                                 anim := a.anim.(blendWeight := blend), gameplay := g))
  {}

  const DEFAULT_ANIM := Anim(0, 0.0, 0, 0, 1.0)

  function CreatePlayerState(id: PlayerId): PlayerState {
    PlayerState(id, ORIGIN, Rotation(0.0, 0.0), ORIGIN, 100.0, 100.0, DEFAULT_ANIM, false, 0, false, NO_GAMEPLAY)
  }

  function Or<T>(patch: Option<T>, cur: Option<T>): Option<T> {
    if patch.Some? then patch else cur
  }

  function MergeGameplay(cur: Gameplay, p: Gameplay): Gameplay {
    Gameplay(
      Or(p.traversal, cur.traversal),
      Or(p.skillId, cur.skillId), Or(p.skillPhase, cur.skillPhase), Or(p.skillAnimId, cur.skillAnimId),
      Or(p.skillTargetPos, cur.skillTargetPos), Or(p.skillTargetEntity, cur.skillTargetEntity),
      Or(p.activeVfx, cur.activeVfx),
      Or(p.statusFlags, cur.statusFlags), Or(p.buffIds, cur.buffIds),
      Or(p.weaponId, cur.weaponId), Or(p.weaponStance, cur.weaponStance), Or(p.offHandId, cur.offHandId),
      Or(p.isMounted, cur.isMounted), Or(p.mountEntityId, cur.mountEntityId), Or(p.mountAnimId, cur.mountAnimId),
      Or(p.mountAnimTime, cur.mountAnimTime), Or(p.mountPosition, cur.mountPosition),
      Or(p.dodgeDirection, cur.dodgeDirection),
      Or(p.isDead, cur.isDead), Or(p.respawnPosition, cur.respawnPosition),
      Or(p.interactionType, cur.interactionType), Or(p.interactionEntityId, cur.interactionEntityId))
  }

  function OrElse<T>(patch: Option<T>, cur: T): T {
    if patch.Some? then patch.value else cur
  }

  /** `updatePlayer` on one entry: only the fields the packet carries are overwritten. */
  function Merge(cur: PlayerState, p: Patch): PlayerState {
    cur.(position := OrElse(p.position, cur.position), rotation := OrElse(p.rotation, cur.rotation),
         velocity := OrElse(p.velocity, cur.velocity), health := OrElse(p.health, cur.health),
         maxHealth := OrElse(p.maxHealth, cur.maxHealth), anim := OrElse(p.anim, cur.anim),
         ping := OrElse(p.ping, cur.ping), gameplay := MergeGameplay(cur.gameplay, p.gameplay))
  }

  // ---- the tick --------------------------------------------------------------------------------------

  predicate Due(players: map<PlayerId, PlayerState>, last: map<PlayerId, PlayerState>, id: PlayerId) {
    id in players && (id !in last || PlayerChanged(last[id], players[id]))
  }

  /** The entries a tick broadcasts, in the order of the Map. */
  function Changed(
      order: seq<PlayerId>, players: map<PlayerId, PlayerState>,
      last: map<PlayerId, PlayerState>): (r: seq<PlayerState>)
  {
    if |order| == 0 then []
    else (if Due(players, last, order[0]) then [players[order[0]]] else []) + Changed(order[1..], players, last)
  }

  /** The snapshots after a tick. */
  function Snapshots(
      players: map<PlayerId, PlayerState>, last: map<PlayerId, PlayerState>): map<PlayerId, PlayerState> {
    map id | id in players.Keys + last.Keys :: if Due(players, last, id) then players[id] else last[id]
  }

  ghost predicate WellKeyed(players: map<PlayerId, PlayerState>) {
    forall id :: id in players ==> players[id].id == id
  }

  /** The broadcast lists the due players, each with the state that is also its new snapshot, and nobody else. */
  lemma {:induction false} ChangedLists(
      order: seq<PlayerId>, players: map<PlayerId, PlayerState>, last: map<PlayerId, PlayerState>)
    requires WellKeyed(players)
    ensures var r := Changed(order, players, last);
            && (forall e :: e in r ==> e.id in order && Due(players, last, e.id) && e == players[e.id])
            && (forall id :: id in order && Due(players, last, id) ==> players[id] in r)
  {
    if |order| > 0 {
      ChangedLists(order[1..], players, last);
    }
  }

  /** No drift: after a tick every player has a snapshot that is fresh, whatever happened since earlier ticks. */
  lemma TickIsFresh(players: map<PlayerId, PlayerState>, last: map<PlayerId, PlayerState>)
    ensures forall id :: id in players ==>
              id in Snapshots(players, last) && Fresh(Snapshots(players, last)[id], players[id])
  {}
}
