/**
 The gameplay fields on their way from one client to another: emitted as optional fields, merged into the
 server's entry, and parsed from the broadcast entry.
 */
module GameplaySync {
  import opened Wrappers
  import opened Protocol
  import opened Delta

  /** `PlayerStatePacket`: every block has a flag that says whether the values count. */
  datatype Packet = Packet(
    traversal: Traversal, traversalPresent: bool,
    skillId: int, skillPhase: int, skillAnimId: int, skillTarget: Vec3, skillTargetEntity: int, skillPresent: bool,
    activeVfx: seq<int>, vfxPresent: bool,
    statusFlags: int, buffIds: seq<int>, statusPresent: bool,
    weaponId: int, weaponStance: int, offHandId: int, equipmentPresent: bool,
    isMounted: bool, mountEntityId: int, mountAnimId: int, mountAnimTime: real, mountPosition: Vec3, mountPresent: bool,
    dodge: (real, real), dodgePresent: bool,
    isDead: bool, deathPresent: bool,
    respawn: Vec3, respawnPresent: bool,
    interactionType: int, interactionEntityId: int, interactionPresent: bool)

  function If<T>(present: bool, value: T): Option<T> {
    if present then Some(value) else None
  }

  /** `EmitGameplayJson`: the fields of the blocks that are present. */
  function Emit(p: Packet): Gameplay {
    Gameplay(
      If(p.traversalPresent, p.traversal),
      If(p.skillPresent, p.skillId), If(p.skillPresent, p.skillPhase), If(p.skillPresent, p.skillAnimId),
      If(p.skillPresent, p.skillTarget), If(p.skillPresent, p.skillTargetEntity),
      If(p.vfxPresent, p.activeVfx),
      If(p.statusPresent, p.statusFlags), If(p.statusPresent, p.buffIds),
      If(p.equipmentPresent, p.weaponId), If(p.equipmentPresent, p.weaponStance), If(p.equipmentPresent, p.offHandId),
      If(p.mountPresent, p.isMounted), If(p.mountPresent, p.mountEntityId), If(p.mountPresent, p.mountAnimId),
      If(p.mountPresent, p.mountAnimTime), If(p.mountPresent, p.mountPosition),
      If(p.dodgePresent, p.dodge),
      If(p.deathPresent, p.isDead), If(p.respawnPresent, p.respawn),
      If(p.interactionPresent, p.interactionType), If(p.interactionPresent, p.interactionEntityId))
  }

  /** `ParseGameplay`: a block is present when its leading field is; other fields default, but for two positions. */
  function Parse(g: Gameplay, held: Packet): Packet {
    Packet(
      OrElse(g.traversal, held.traversal), g.traversal.Some?,
      OrElse(g.skillId, held.skillId),
      if g.skillId.Some? then OrElse(g.skillPhase, 0) else held.skillPhase,
      if g.skillId.Some? then OrElse(g.skillAnimId, 0) else held.skillAnimId,
      if g.skillId.Some? then OrElse(g.skillTargetPos, held.skillTarget) else held.skillTarget,
      if g.skillId.Some? then OrElse(g.skillTargetEntity, 0) else held.skillTargetEntity,
      g.skillId.Some?,
      OrElse(g.activeVfx, held.activeVfx), g.activeVfx.Some?,
      OrElse(g.statusFlags, held.statusFlags),
      if g.statusFlags.Some? then OrElse(g.buffIds, []) else held.buffIds,
      g.statusFlags.Some?,
      OrElse(g.weaponId, held.weaponId),
      if g.weaponId.Some? then OrElse(g.weaponStance, 0) else held.weaponStance,
      if g.weaponId.Some? then OrElse(g.offHandId, 0) else held.offHandId,
      g.weaponId.Some?,
      OrElse(g.isMounted, held.isMounted),
      if g.isMounted.Some? then OrElse(g.mountEntityId, 0) else held.mountEntityId,
      if g.isMounted.Some? then OrElse(g.mountAnimId, 0) else held.mountAnimId,
      if g.isMounted.Some? then OrElse(g.mountAnimTime, 0.0) else held.mountAnimTime,
      if g.isMounted.Some? then OrElse(g.mountPosition, held.mountPosition) else held.mountPosition,
      g.isMounted.Some?,
      OrElse(g.dodgeDirection, held.dodge), g.dodgeDirection.Some?,
      OrElse(g.isDead, held.isDead), g.isDead.Some?,
      OrElse(g.respawnPosition, held.respawn), g.respawnPosition.Some?,
      OrElse(g.interactionType, held.interactionType),
      if g.interactionType.Some? then OrElse(g.interactionEntityId, 0) else held.interactionEntityId,
      g.interactionType.Some?)
  }

  // ---- blocks ------------------------------------------------------------------------------------------------

  /** The content of a block; which fields there are depends on the block. */
  datatype Block =
    | TraversalBlock(traversal: Traversal)
    | SkillBlock(id: int, phase: int, animId: int, target: Vec3, targetEntity: int)
    | VfxBlock(vfx: seq<int>)
    | StatusBlock(flags: int, buffs: seq<int>)
    | EquipmentBlock(weapon: int, stance: int, offHand: int)
    | MountBlock(mounted: bool, entity: int, mountAnim: int, mountTime: real, mountPos: Vec3)
    | DodgeBlock(dodge: (real, real))
    | DeathBlock(dead: bool)
    | RespawnBlock(respawn: Vec3)
    | InteractionBlock(kind: int, entityId: int)

  datatype Kind = Traversing | Skill | Vfx | Status | Equipment | Mount | Dodge | Death | Respawn | Interaction

  /** What a packet says in a block, if it carries the block. */
  function BlockOf(p: Packet, k: Kind): Option<Block> {
    match k
    case Traversing => If(p.traversalPresent, TraversalBlock(p.traversal))
    case Skill => If(p.skillPresent,
        SkillBlock(p.skillId, p.skillPhase, p.skillAnimId, p.skillTarget, p.skillTargetEntity))
    case Vfx => If(p.vfxPresent, VfxBlock(p.activeVfx))
    case Status => If(p.statusPresent, StatusBlock(p.statusFlags, p.buffIds))
    case Equipment => If(p.equipmentPresent, EquipmentBlock(p.weaponId, p.weaponStance, p.offHandId))
    case Mount => If(p.mountPresent,
        MountBlock(p.isMounted, p.mountEntityId, p.mountAnimId, p.mountAnimTime, p.mountPosition))
    case Dodge => If(p.dodgePresent, DodgeBlock(p.dodge))
    case Death => If(p.deathPresent, DeathBlock(p.isDead))
    case Respawn => If(p.respawnPresent, RespawnBlock(p.respawn))
    case Interaction => If(p.interactionPresent, InteractionBlock(p.interactionType, p.interactionEntityId))
  }

  /** The fields of a block come together. */
  ghost predicate Whole(g: Gameplay) {
    && (g.skillId.Some? <==> g.skillPhase.Some?) && (g.skillId.Some? <==> g.skillAnimId.Some?)
    && (g.skillId.Some? <==> g.skillTargetPos.Some?) && (g.skillId.Some? <==> g.skillTargetEntity.Some?)
    && (g.statusFlags.Some? <==> g.buffIds.Some?)
    && (g.weaponId.Some? <==> g.weaponStance.Some?) && (g.weaponId.Some? <==> g.offHandId.Some?)
    && (g.isMounted.Some? <==> g.mountEntityId.Some?) && (g.isMounted.Some? <==> g.mountAnimId.Some?)
    && (g.isMounted.Some? <==> g.mountAnimTime.Some?) && (g.isMounted.Some? <==> g.mountPosition.Some?)
    && (g.interactionType.Some? <==> g.interactionEntityId.Some?)
  }

  /** What the optional fields say in a block. */
  ghost function Carried(g: Gameplay, k: Kind): Option<Block>
    requires Whole(g)
  {
    match k
    case Traversing => if g.traversal.Some? then Some(TraversalBlock(g.traversal.value)) else None
    case Skill =>
      if g.skillId.Some? then
        Some(SkillBlock(g.skillId.value, g.skillPhase.value, g.skillAnimId.value, g.skillTargetPos.value,
            g.skillTargetEntity.value))
      else None
    case Vfx => if g.activeVfx.Some? then Some(VfxBlock(g.activeVfx.value)) else None
    case Status => if g.statusFlags.Some? then Some(StatusBlock(g.statusFlags.value, g.buffIds.value)) else None
    case Equipment =>
      if g.weaponId.Some? then Some(EquipmentBlock(g.weaponId.value, g.weaponStance.value, g.offHandId.value)) else None
    case Mount =>
      if g.isMounted.Some? then
        Some(MountBlock(g.isMounted.value, g.mountEntityId.value, g.mountAnimId.value, g.mountAnimTime.value,
            g.mountPosition.value))
      else None
    case Dodge => if g.dodgeDirection.Some? then Some(DodgeBlock(g.dodgeDirection.value)) else None
    case Death => if g.isDead.Some? then Some(DeathBlock(g.isDead.value)) else None
    case Respawn => if g.respawnPosition.Some? then Some(RespawnBlock(g.respawnPosition.value)) else None
    case Interaction =>
      if g.interactionType.Some? then
        Some(InteractionBlock(g.interactionType.value, g.interactionEntityId.value))
      else None
  }

  /** A receiver reads exactly what the entry carries, whatever it held before. */
  lemma ParsedBlock(g: Gameplay, held: Packet, k: Kind)
    requires Whole(g)
    ensures BlockOf(Parse(g, held), k) == Carried(g, k)
  {}

  /** A field that is missing from a block that is there: zero or nothing, but positions stay as they were. */
  lemma ParsedRest(g: Gameplay, held: Packet)
    ensures var p := Parse(g, held);
            && (p.skillPresent && g.skillPhase.None? ==> p.skillPhase == 0)
            && (p.skillPresent && g.skillAnimId.None? ==> p.skillAnimId == 0)
            && (p.skillPresent && g.skillTargetEntity.None? ==> p.skillTargetEntity == 0)
            && (p.skillPresent && g.skillTargetPos.None? ==> p.skillTarget == held.skillTarget)
            && (p.statusPresent && g.buffIds.None? ==> p.buffIds == [])
            && (p.equipmentPresent && g.weaponStance.None? ==> p.weaponStance == 0)
            && (p.equipmentPresent && g.offHandId.None? ==> p.offHandId == 0)
            && (p.mountPresent && g.mountEntityId.None? ==> p.mountEntityId == 0)
            && (p.mountPresent && g.mountAnimId.None? ==> p.mountAnimId == 0)
            && (p.mountPresent && g.mountAnimTime.None? ==> p.mountAnimTime == 0.0)
            && (p.mountPresent && g.mountPosition.None? ==> p.mountPosition == held.mountPosition)
            && (p.interactionPresent && g.interactionEntityId.None? ==> p.interactionEntityId == 0)
  {}

  lemma EmittedBlock(p: Packet, k: Kind)
    ensures Whole(Emit(p)) && Carried(Emit(p), k) == BlockOf(p, k)
  {}

  lemma MergedWhole(g: Gameplay, h: Gameplay)
    requires Whole(g) && Whole(h)
    ensures Whole(MergeGameplay(g, h))
  {}

  lemma MergedBlock(g: Gameplay, h: Gameplay, k: Kind)
    requires Whole(g) && Whole(h)
    ensures Whole(MergeGameplay(g, h)) && Carried(MergeGameplay(g, h), k) == Or(Carried(h, k), Carried(g, k))
  {
    MergedWhole(g, h);
  }

  // ---- any sequence of packets -------------------------------------------------------------------------------

  /** The server's gameplay fields after these packets. */
  function MergeAll(g: Gameplay, ps: seq<Packet>): Gameplay
    decreases |ps|
  {
    if |ps| == 0 then g else MergeAll(MergeGameplay(g, Emit(ps[0])), ps[1..])
  }

  /** What the packets say in a block: the latest that carries it counts. */
  ghost function Latest(ps: seq<Packet>, k: Kind): Option<Block>
    decreases |ps|
  {
    if |ps| == 0 then None else Or(Latest(ps[1..], k), BlockOf(ps[0], k))
  }

  /** The last packet that carries a block. */
  ghost predicate LastCarrier(ps: seq<Packet>, k: Kind, i: int) {
    && 0 <= i < |ps| && BlockOf(ps[i], k).Some?
    && forall j :: i < j < |ps| ==> BlockOf(ps[j], k).None?
  }

  lemma {:induction false} LatestIsLast(ps: seq<Packet>, k: Kind)
    ensures Latest(ps, k).Some? <==> exists i :: 0 <= i < |ps| && BlockOf(ps[i], k).Some?
    ensures Latest(ps, k).Some? ==> exists i :: LastCarrier(ps, k, i) && Latest(ps, k) == BlockOf(ps[i], k)
    decreases |ps|
  {
    if |ps| > 0 {
      var rest := ps[1..];
      assert forall j :: 0 < j < |ps| ==> ps[j] == rest[j - 1];
      assert forall j :: 0 <= j < |rest| ==> rest[j] == ps[j + 1];
      LatestIsLast(rest, k);
      if Latest(rest, k).Some? {
        var i :| LastCarrier(rest, k, i) && Latest(rest, k) == BlockOf(rest[i], k);
        assert LastCarrier(ps, k, i + 1);
      } else if BlockOf(ps[0], k).Some? {
        assert LastCarrier(ps, k, 0);
      }
    }
  }

  lemma {:induction false} MergedAll(g: Gameplay, ps: seq<Packet>, k: Kind)
    requires Whole(g)
    ensures Whole(MergeAll(g, ps)) && Carried(MergeAll(g, ps), k) == Or(Latest(ps, k), Carried(g, k))
    decreases |ps|
  {
    if |ps| > 0 {
      EmittedBlock(ps[0], k);
      MergedBlock(g, Emit(ps[0]), k);
      MergedAll(MergeGameplay(g, Emit(ps[0])), ps[1..], k);
    }
  }

  lemma {:induction false} MergeAllMore(g: Gameplay, ps: seq<Packet>, p: Packet)
    ensures MergeAll(g, ps + [p]) == MergeGameplay(MergeAll(g, ps), Emit(p))
    decreases |ps|
  {
    if |ps| == 0 {
      assert (ps + [p])[1..] == [];
    } else {
      assert (ps + [p])[1..] == ps[1..] + [p];
      MergeAllMore(MergeGameplay(g, Emit(ps[0])), ps[1..], p);
    }
  }

  /**
   Emit, merge, parse: read out of the server's entry, a block is present exactly when some packet since the
   sender joined carried it, and has the value of the latest that did, whatever its reader held before.
   */
  lemma PipelineRoundTrip(ps: seq<Packet>, held: Packet, k: Kind)
    ensures var block := BlockOf(Parse(MergeAll(NO_GAMEPLAY, ps), held), k);
            && block == Latest(ps, k)
            && (block.Some? <==> exists i :: 0 <= i < |ps| && BlockOf(ps[i], k).Some?)
            && (block.Some? ==> exists i :: LastCarrier(ps, k, i) && block == BlockOf(ps[i], k))
  {
    MergedAll(NO_GAMEPLAY, ps, k);
    LatestIsLast(ps, k);
    ParsedBlock(MergeAll(NO_GAMEPLAY, ps), held, k);
  }

  // ---- a broadcast that leaves fields out --------------------------------------------------------------------

  /** How far a block of a fresh snapshot may be from that of the entry; a dodge and a respawn are not compared. */
  ghost predicate CloseBlock(a: Option<Block>, b: Option<Block>, k: Kind) {
    match k
    case Traversing =>
      FreshTraversal(if a.Some? && a.value.TraversalBlock? then Some(a.value.traversal) else None,
                     if b.Some? && b.value.TraversalBlock? then Some(b.value.traversal) else None)
    case Skill =>
      (a.None? && b.None?)
      || (a.Some? && b.Some? && a.value.SkillBlock? && b.value.SkillBlock?
          && a.value.(target := ORIGIN) == b.value.(target := ORIGIN))
    case Mount =>
      (a.None? && b.None?)
      || (a.Some? && b.Some? && a.value.MountBlock? && b.value.MountBlock?
          && a.value.(mountTime := 0.0, mountPos := ORIGIN) == b.value.(mountTime := 0.0, mountPos := ORIGIN))
    case Dodge => true
    case Respawn => true
    case _ => a == b
  }

  lemma FreshBlock(snapshot: Gameplay, live: Gameplay, k: Kind, held: Packet)
    requires FreshTraversal(snapshot.traversal, live.traversal) && Compared(snapshot) == Compared(live)
    ensures CloseBlock(BlockOf(Parse(snapshot, held), k), BlockOf(Parse(live, held), k), k)
  {}

  /** The updates of a player's entry that matter here are those that carry gameplay fields. */
  lemma OtherUpdatesKeepGameplay(cur: PlayerState, p: Patch)
    requires p.gameplay == NO_GAMEPLAY
    ensures Merge(cur, p).gameplay == cur.gameplay
  {}
}
