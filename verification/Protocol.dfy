/** The data that travels between the clients and the server. */
module Protocol {
  import opened Wrappers

  /** Player ids are uuids and puzzle ids are strings; only equality matters. 0 stands for the empty string. */
  type PlayerId = nat
  type PuzzleId = nat

  const NOBODY: PlayerId := 0
  const NO_PUZZLE: PuzzleId := 0

  datatype Vec3 = Vec3(x: real, y: real, z: real)

  const ORIGIN := Vec3(0.0, 0.0, 0.0)

  datatype Rotation = Rotation(yaw: real, pitch: real)

  datatype Anim = Anim(id: int, time: real, moveFlags: int, combatFlags: int, blendWeight: real)

  datatype Traversal = Traversal(mode: int, animId: int, animTime: real, target: Vec3, progress: real)

  /** The optional fields of a player entry; `None` when the field is absent. */
  datatype Gameplay = Gameplay(
    traversal: Option<Traversal>,
    skillId: Option<int>, skillPhase: Option<int>, skillAnimId: Option<int>,
    skillTargetPos: Option<Vec3>, skillTargetEntity: Option<int>,
    activeVfx: Option<seq<int>>,
    statusFlags: Option<int>, buffIds: Option<seq<int>>,
    weaponId: Option<int>, weaponStance: Option<int>, offHandId: Option<int>,
    isMounted: Option<bool>, mountEntityId: Option<int>, mountAnimId: Option<int>,
    mountAnimTime: Option<real>, mountPosition: Option<Vec3>,
    dodgeDirection: Option<(real, real)>,
    isDead: Option<bool>, respawnPosition: Option<Vec3>,
    interactionType: Option<int>, interactionEntityId: Option<int>)

  const NO_GAMEPLAY := Gameplay(
    None, None, None, None, None, None, None, None, None, None, None,
    None, None, None, None, None, None, None, None, None, None, None)

  datatype PlayerState = PlayerState(
    id: PlayerId, position: Vec3, rotation: Rotation, velocity: Vec3, health: real, maxHealth: real,
    anim: Anim, isHost: bool, ping: int, inCutscene: bool, gameplay: Gameplay)

  /** A partial update of a player; `None` where the packet lacks the field. */
  datatype Patch = Patch(
    position: Option<Vec3>, rotation: Option<Rotation>, velocity: Option<Vec3>,
    health: Option<real>, maxHealth: Option<real>, anim: Option<Anim>, ping: Option<int>, gameplay: Gameplay)

  /** The packets from the server that change what a client holds; `Other` is any that does not. */
  datatype Msg =
    | HandshakeAck(playerId: PlayerId)
    | JoinAck(isHost: bool, players: seq<PlayerState>)
    | PlayerJoin(player: PlayerState)
    | PlayerLeave(leaver: PlayerId)
    | HostReassign(newHostId: PlayerId)
    | StateUpdate(players: seq<PlayerState>)
    | CutsceneStart(actor: PlayerId)
    | CutsceneEnd(actor: PlayerId)
    | PuzzleStart(puzzleId: PuzzleId)
    | PuzzleToken(puzzleId: PuzzleId, controllerId: PlayerId, remainingMs: int, queue: seq<PlayerId>)
    | PuzzleEnd(puzzleId: PuzzleId)
    | Other
}
