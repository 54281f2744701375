/**
 * Value types shared by the fighters, the replay recorder and the match
 * driver: the twelve animation states, the kinds of hit, the network
 * payloads and the snapshots the replay buffer stores.
 */
module Types {

  datatype Option<+T> = None | Some(value: T)

  /** The animation (and combat) state of one fighter. */
  datatype AnimationState =
    | Idle
    | ThrowGloves
    | Ready
    | HighPunch
    | LowPunch
    | Grab
    | HitHigh
    | HitLow
    | Held
    | Falling
    | Down
    | Win

  /** The two damaging attacks ('high' | 'low'). */
  datatype Damage = High | Low

  /** What an attack state does at its hit frame ('high' | 'low' | 'grab'). */
  datatype HitType = Strike(damage: Damage) | Grapple

  /** The two fighters, as named by the winner banner ('PLAYER 1' | 'PLAYER 2'). */
  datatype Side = Player1 | Player2

  /** The full state of one fighter that a peer sends every tick. */
  datatype SyncPayload = SyncPayload(
    x: real,
    y: real,
    vx: real,
    state: AnimationState,
    facingRight: bool,
    health: int)

  /** What the replay buffer keeps of one fighter per tick. */
  datatype PlayerSnapshot = PlayerSnapshot(
    x: real,
    y: real,
    state: AnimationState,
    frameIndex: int,
    facingRight: bool,
    health: int,
    visible: bool)

  /** A transient entity is either a blood particle (with its colour) or a pair of dropped gloves. */
  datatype EntityKind = Blood(color: string) | Glove(isPlayer1: bool)

  datatype EntitySnapshot = EntitySnapshot(
    kind: EntityKind,
    x: real,
    y: real,
    scale: real,
    zIndex: int)

  datatype Camera = Camera(x: real, y: real, zoom: real)

  /** One recorded tick: both fighters, the camera, the transient entities and the hit sounds queued since the previous capture. */
  datatype GameSnapshot = GameSnapshot(
    p1: PlayerSnapshot,
    p2: PlayerSnapshot,
    camera: Camera,
    entities: seq<EntitySnapshot>,
    sounds: seq<Damage>)

  /** Messages on the peer link; anything that is not SYNC, HIT or RESTART is `Unrecognized`. */
  datatype NetworkMessage =
    | Sync(payload: SyncPayload)
    | Hit(damageType: Damage, targetP1: bool)
    | Restart
    | Unrecognized
}
