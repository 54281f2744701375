/**
 * One fighter as a value, and every rule of the fighter state machine as a
 * function on that value: state entry, damage, vulnerability, the hit
 * check, movement physics, separation from the opponent, input, network
 * mirroring and replay snapshots. The `Player` class in module Players
 * carries the same fields and updates them in place; each of its methods is
 * specified by the function of the same name here.
 */
module Fighters {
  import opened Types
  import opened Animations

  /** Knockback of a hit that fells its target; not among the constants shown, so left abstract. */
  const FINISHER_KNOCKBACK_FORCE: real
  /** Fraction of its speed a fighter keeps when it bounces off the arena edge; left abstract likewise. */
  const BOUNCE_FACTOR: real

  const MAX_HEALTH: int := 5
  /** The arena is 800 wide with a margin of 100 on each side. */
  const ARENA_LEFT: real := 100.0
  const ARENA_RIGHT: real := 700.0

  /** The five intents the input layer samples for a fighter each tick. */
  datatype Intents = Intents(left: bool, right: bool, high: bool, low: bool, grab: bool)

  /** Side effects a fighter asks of the match during a tick. */
  datatype Effect =
    | GlovesDropped(x: real, y: real, isPlayer1: bool)
    | Shake
    | HitSound(kind: Damage)
    | BloodBurst(dir: real, finisher: bool)
    | SendHit(kind: Damage, targetP1: bool)

  datatype Fighter = Fighter(
    isPlayer1: bool,
    isLocal: bool,
    health: int,
    state: AnimationState,
    animLocked: bool,
    hitDealt: bool,
    glovesDropped: bool,
    x: real,
    y: real,
    vx: real,
    facingRight: bool,
    visible: bool,
    cursors: map<AnimationState, FrameCursor>)

  /** Every state has its own animation cursor, and each cursor is well placed. */
  predicate CursorsOk(cursors: map<AnimationState, FrameCursor>)
  {
    forall s :: s in cursors && CursorOk(s, cursors[s])
  }

  predicate Valid(f: Fighter)
  {
    CursorsOk(f.cursors)
  }

  /** The fields that only movement, damage, mirroring and replay touch. */
  predicate SameBody(f: Fighter, r: Fighter)
  {
    && r.isPlayer1 == f.isPlayer1 && r.isLocal == f.isLocal
    && r.health == f.health && r.x == f.x && r.y == f.y
    && r.facingRight == f.facingRight && r.visible == f.visible
  }

  /** The cursor of the state the fighter is in. */
  function Cursor(f: Fighter): (c: FrameCursor)
    requires Valid(f)
    ensures CursorOk(f.state, c)
  {
    f.cursors[f.state]
  }

  const AllStates: set<AnimationState> :=
    {Idle, ThrowGloves, Ready, HighPunch, LowPunch, Grab, HitHigh, HitLow, Held, Falling, Down, Win}

  lemma EveryStateListed()
    ensures forall s :: s in AllStates
  {
    forall s ensures s in AllStates {
      match s
      case Idle => case ThrowGloves => case Ready => case HighPunch => case LowPunch => case Grab =>
      case HitHigh => case HitLow => case Held => case Falling => case Down => case Win =>
    }
  }

  /** A fighter as constructed: full health, idle, locked, facing the centre, every animation at its start. */
  function Fresh(isPlayer1: bool, isLocal: bool, x: real, y: real): (f: Fighter)
    ensures Valid(f)
    ensures f.health == MAX_HEALTH && f.state == Idle && f.animLocked && !f.hitDealt && !f.glovesDropped
    ensures f.x == x && f.y == y && f.vx == 0.0 && f.facingRight == isPlayer1 && f.visible
  {
    EveryStateListed();
    var cursors := map s | s in AllStates :: Rewind(s);
    Fighter(isPlayer1, isLocal, MAX_HEALTH, Idle, true, false, false, x, y, 0.0, isPlayer1, true, cursors)
  }

  /**
   * Enter a state. Nothing happens in down, which is terminal, or when the
   * state is already current. Otherwise the one-shot flags are cleared, the
   * lock follows the loop flag of the new state, entering win stops the
   * fighter and starts the trophy animation on frame 3 (player 1) or 7
   * (player 2), and every other entry restarts the animation.
   */
  function SetState(f: Fighter, s: AnimationState): (r: Fighter)
    requires Valid(f)
    ensures Valid(r)
    ensures f.state == Down || f.state == s ==> r == f
    ensures f.state != Down && f.state != s ==>
              && r.state == s && !r.hitDealt && !r.glovesDropped
              && r.animLocked == !Loops(s)
              && r.vx == (if s == Win then 0.0 else f.vx)
              && Cursor(r).frame == (if s != Win then 0 else if f.isPlayer1 then 3 else 7)
              && !Cursor(r).done && Cursor(r).playing
    ensures SameBody(f, r)
  {
    if f.state == Down || f.state == s then f
    else
      var start := Rewind(s);
      var c := if s == Win then GoToFrame(s, start, if f.isPlayer1 then 3 else 7) else start;
      f.(state := s, hitDealt := false, glovesDropped := false,
         vx := if s == Win then 0.0 else f.vx,
         animLocked := !Loops(s),
         cursors := f.cursors[s := c])
  }

  /** Request a series of states in order. */
  function SetStates(f: Fighter, ss: seq<AnimationState>): (r: Fighter)
    requires Valid(f)
    ensures Valid(r)
    decreases |ss|
  {
    if ss == [] then f else SetStates(SetState(f, ss[0]), ss[1..])
  }

  /** No series of state requests takes a fighter out of down, or changes it at all. */
  lemma {:induction false} DownIsAbsorbing(f: Fighter, ss: seq<AnimationState>)
    requires Valid(f) && f.state == Down
    ensures SetStates(f, ss) == f
    decreases |ss|
  {
    if ss != [] {
      DownIsAbsorbing(SetState(f, ss[0]), ss[1..]);
    }
  }

  /** Lose exactly one point of health, then fall if none is left, else react to the kind of hit. */
  function TakeDamage(f: Fighter, d: Damage): (r: Fighter)
    requires Valid(f)
    ensures Valid(r)
    ensures r.health == f.health - 1
    ensures r.state == if f.state == Down then Down
                       else if f.health - 1 <= 0 then Falling
                       else if d == High then HitHigh else HitLow
    ensures r.x == f.x && r.y == f.y && r.vx == f.vx && r.isPlayer1 == f.isPlayer1 && r.isLocal == f.isLocal
  {
    var hurt := f.(health := f.health - 1);
    SetState(hurt, if hurt.health <= 0 then Falling else if d == High then HitHigh else HitLow)
  }

  /** The states in which a punch lands: idle, ready, held and the three attacks. */
  function CanBeHit(f: Fighter): (b: bool)
    ensures b <==> f.state !in {ThrowGloves, HitHigh, HitLow, Falling, Down, Win}
  {
    match f.state
    case Idle => true
    case Ready => true
    case Held => true
    case HighPunch => true
    case LowPunch => true
    case Grab => true
    case ThrowGloves => false
    case HitHigh => false
    case HitLow => false
    case Falling => false
    case Down => false
    case Win => false
  }

  /** A grab lands on a fighter that is not in a one-shot animation, or that is in ready. */
  function CanBeGrabbed(f: Fighter): bool
  {
    !f.animLocked || f.state == Ready
  }

  /**
   * A fighter that has just entered a state can be grabbed exactly when
   * that state loops: idle, ready, down and win release the animation
   * lock, every one-shot state holds it.
   */
  lemma GrabbableAfterEntry(f: Fighter, s: AnimationState)
    requires Valid(f) && f.state != Down && f.state != s
    ensures CanBeGrabbed(SetState(f, s)) <==> Loops(s)
  {
  }

  /** Both fighters and the side effects after an exchange. */
  datatype Exchange = Exchange(attacker: Fighter, target: Fighter, effects: seq<Effect>)

  function Abs(v: real): real { if v < 0.0 then -v else v }

  /** +1 pushes right, -1 pushes left: away from an attacker standing to the left. */
  function PushDirection(attackerX: real, targetX: real): real
  {
    if attackerX < targetX then 1.0 else -1.0
  }

  /**
   * The side effects of a landed punch: a camera shake and the hit sound,
   * a burst of blood for a high punch (a larger one on a finisher), and in
   * a networked match a HIT message naming the target.
   */
  function PunchEffects(attacker: Fighter, d: Damage, dir: real, finisher: bool, multiplayer: bool): seq<Effect>
  {
    var blood := if d == High then [BloodBurst(dir, finisher)] else [];
    var message := if multiplayer then [SendHit(d, !attacker.isPlayer1)] else [];
    [Shake, HitSound(d)] + blood + message
  }

  /** The knockback impulse: the push direction times the force, written without the product. */
  function Push(attackerX: real, targetX: real, force: real): real
  {
    if attackerX < targetX then force else -force
  }

  /** The velocity after bouncing off an arena edge: reversed and scaled by the bounce factor. */
  function Bounce(v: real): real
  {
    -v * BOUNCE_FACTOR
  }

  /**
   * Evaluate an attack against the opponent. Out of range nothing happens,
   * so the attack is tried again on the next tick. In range the attacker's
   * hit is spent whether or not it lands; a grab holds a grabbable target;
   * a punch on a vulnerable target takes one point of health, knocks the
   * target away from the attacker (harder when it fells the target), shakes
   * the camera, plays the hit sound, sprays blood for a high punch, and in
   * a networked match tells the peer which fighter was hit. The rules are
   * stated case by case in the lemmas that follow.
   */
  function CheckHit(a: Fighter, t: Fighter, hit: HitType, multiplayer: bool): (r: Exchange)
    requires Valid(a) && Valid(t)
    ensures Valid(r.attacker) && Valid(r.target)
    ensures r.attacker == if Abs(a.x - t.x) <= HIT_RANGE then a.(hitDealt := true) else a
  {
    if Abs(a.x - t.x) > HIT_RANGE then Exchange(a, t, [])
    else
      var a' := a.(hitDealt := true);
      match hit
      case Grapple =>
        if CanBeGrabbed(t) then Exchange(a', SetState(t, Held), []) else Exchange(a', t, [])
      case Strike(d) =>
        if CanBeHit(t) then
          var finisher := t.health - 1 <= 0;
          var hurt := TakeDamage(t, d);
          var dir := PushDirection(a.x, hurt.x);
          var force := if finisher then FINISHER_KNOCKBACK_FORCE else KNOCKBACK_FORCE;
          Exchange(a', hurt.(vx := hurt.vx + Push(a.x, hurt.x, force)), PunchEffects(a, d, dir, finisher, multiplayer))
        else Exchange(a', t, [])
  }

  /** Out of range an attack changes nothing and is tried again on a later tick. */
  lemma MissOutOfRange(a: Fighter, t: Fighter, hit: HitType, multiplayer: bool)
    requires Valid(a) && Valid(t) && Abs(a.x - t.x) > HIT_RANGE
    ensures CheckHit(a, t, hit, multiplayer) == Exchange(a, t, [])
  {
  }

  /** A grab in range holds a grabbable target and has no side effects; otherwise the target is untouched. */
  lemma GrabRule(a: Fighter, t: Fighter, multiplayer: bool)
    requires Valid(a) && Valid(t)
    ensures var r := CheckHit(a, t, Grapple, multiplayer);
            && r.effects == []
            && r.target == (if Abs(a.x - t.x) <= HIT_RANGE && CanBeGrabbed(t) then SetState(t, Held) else t)
  {
  }

  /**
   * A punch in range on a vulnerable target costs it one point of health,
   * sends it into its reaction (or its fall), pushes it away from the
   * attacker, shakes the camera and plays the hit sound; blood flies for a
   * high punch only. A punch that does not land leaves the target as it was.
   */
  lemma StrikeRule(a: Fighter, t: Fighter, d: Damage, multiplayer: bool)
    requires Valid(a) && Valid(t)
    ensures var r := CheckHit(a, t, Strike(d), multiplayer);
            if Abs(a.x - t.x) <= HIT_RANGE && CanBeHit(t) then
              var finisher := t.health - 1 <= 0;
              var force := if finisher then FINISHER_KNOCKBACK_FORCE else KNOCKBACK_FORCE;
              var dir := PushDirection(a.x, t.x);
              && r.target == TakeDamage(t, d).(vx := t.vx + Push(a.x, t.x, force))
              && r.effects == [Shake, HitSound(d)]
                              + (if d == High then [BloodBurst(dir, finisher)] else [])
                              + (if multiplayer then [SendHit(d, !a.isPlayer1)] else [])
            else r.target == t && r.effects == []
  {
  }

  /** A fighter in down is never moved out of down by an attack. */
  lemma HitLeavesDownDown(a: Fighter, t: Fighter, hit: HitType, multiplayer: bool)
    requires Valid(a) && Valid(t) && t.state == Down
    ensures CheckHit(a, t, hit, multiplayer).target.state == Down
  {
  }

  /** A HIT message goes out exactly for a landed punch in a networked match, never for a grab. */
  lemma HitMessageRule(a: Fighter, t: Fighter, hit: HitType, multiplayer: bool, d: Damage, p1: bool)
    requires Valid(a) && Valid(t)
    ensures SendHit(d, p1) in CheckHit(a, t, hit, multiplayer).effects <==>
              && multiplayer && hit == Strike(d) && p1 == !a.isPlayer1
              && Abs(a.x - t.x) <= HIT_RANGE && CanBeHit(t)
  {
  }

  /** A grab on a fighter in down finds it grabbable, spends the hit, and changes nothing else. */
  lemma GrabOnDownChangesNothing(a: Fighter, t: Fighter, multiplayer: bool)
    requires Valid(a) && Valid(t) && t.state == Down && !t.animLocked
    requires Abs(a.x - t.x) <= HIT_RANGE
    ensures CanBeGrabbed(t)
    ensures CheckHit(a, t, Grapple, multiplayer) == Exchange(a.(hitDealt := true), t, [])
  {
  }

  /**
   * Move by the current velocity, apply friction, and clamp to the arena;
   * at an edge an outward velocity is reversed and scaled by the bounce
   * factor.
   */
  function ApplyPhysics(f: Fighter): (r: Fighter)
    ensures ARENA_LEFT <= r.x <= ARENA_RIGHT
    ensures r == f.(x := r.x, vx := r.vx)
    ensures ARENA_LEFT <= f.x + f.vx <= ARENA_RIGHT ==> r.x == f.x + f.vx && r.vx == f.vx * FRICTION
    ensures f.x + f.vx < ARENA_LEFT ==>
              r.x == ARENA_LEFT && r.vx == (if f.vx * FRICTION < 0.0 then Bounce(f.vx * FRICTION) else f.vx * FRICTION)
    ensures f.x + f.vx > ARENA_RIGHT ==>
              r.x == ARENA_RIGHT && r.vx == (if f.vx * FRICTION > 0.0 then Bounce(f.vx * FRICTION) else f.vx * FRICTION)
  {
    var x1 := f.x + f.vx;
    var v1 := f.vx * FRICTION;
    var x2 := if x1 < ARENA_LEFT then ARENA_LEFT else x1;
    var v2 := if x1 < ARENA_LEFT && v1 < 0.0 then Bounce(v1) else v1;
    var x3 := if x2 > ARENA_RIGHT then ARENA_RIGHT else x2;
    var v3 := if x2 > ARENA_RIGHT && v2 > 0.0 then Bounce(v2) else v2;
    f.(x := x3, vx := v3)
  }

  /**
   * Keep at least a hitbox width from the opponent and face it. A fighter
   * that is down or falling, or has no opponent, is left alone. A fighter
   * that is too close is placed exactly one hitbox width away on its own
   * side (to the right when both stand on the same spot) and stopped.
   */
  function CheckCollisions(f: Fighter, opponentX: Option<real>): (r: Fighter)
    ensures opponentX == None || f.state == Down || f.state == Falling ==> r == f
    ensures opponentX.Some? && f.state != Down && f.state != Falling ==>
              var ox := opponentX.value;
              && Abs(r.x - ox) >= HITBOX_WIDTH
              && r.facingRight == (r.x < ox)
              && (Abs(f.x - ox) < HITBOX_WIDTH ==> Abs(r.x - ox) == HITBOX_WIDTH && r.vx == 0.0 && (f.x < ox <==> r.x < ox))
              && (Abs(f.x - ox) >= HITBOX_WIDTH ==> r.x == f.x && r.vx == f.vx)
              && r == f.(x := r.x, vx := r.vx, facingRight := r.facingRight)
  {
    if opponentX == None || f.state == Down || f.state == Falling then f
    else
      var ox := opponentX.value;
      var pushed :=
        if Abs(f.x - ox) < HITBOX_WIDTH then
          f.(x := if f.x < ox then ox - HITBOX_WIDTH else ox + HITBOX_WIDTH, vx := 0.0)
        else f;
      pushed.(facingRight := pushed.x < ox)
  }

  /** Fighters pushed apart to the minimum separation are still within reach of each other's attacks. */
  lemma SeparationWithinReach(f: Fighter, ox: real)
    requires f.state != Down && f.state != Falling && Abs(f.x - ox) < HITBOX_WIDTH
    ensures Abs(CheckCollisions(f, Some(ox)).x - ox) <= HIT_RANGE
  {
  }

  /** The separation rule is applied after the arena clamp, so it can leave a fighter outside the arena. */
  lemma SeparationCanLeaveArena(f: Fighter)
    requires f.state == Ready && f.x == ARENA_LEFT
    ensures CheckCollisions(f, Some(ARENA_LEFT + 20.0)).x < ARENA_LEFT
  {
  }

  /** A fighter that may act this tick: not in a one-shot animation, not held, falling, down or won. */
  predicate FreeToAct(f: Fighter)
  {
    !(f.animLocked || f.state == Held || f.state == Falling || f.state == Down || f.state == Win)
  }

  /**
   * Apply the sampled intents: left and right nudge the velocity, then the
   * high punch, low punch and grab requests are tried in that order. A
   * fighter that is not free to act ignores its intents.
   */
  function HandleInput(f: Fighter, intents: Intents): (r: Fighter)
    requires Valid(f)
    ensures Valid(r)
    ensures !FreeToAct(f) ==> r == f
    ensures FreeToAct(f) ==>
              && r.vx == f.vx - (if intents.left then MOVE_SPEED else 0.0) + (if intents.right then MOVE_SPEED else 0.0)
              && SameBody(f, r)
  {
    if !FreeToAct(f) then f
    else
      var v := f.vx - (if intents.left then MOVE_SPEED else 0.0) + (if intents.right then MOVE_SPEED else 0.0);
      var moved := f.(vx := v);
      var f1 := if intents.high then SetState(moved, HighPunch) else moved;
      var f2 := if intents.low then SetState(f1, LowPunch) else f1;
      if intents.grab then SetState(f2, Grab) else f2
  }

  /**
   * The last requested attack wins: a grab overrides a low punch, which
   * overrides a high punch, and with no attack requested the state stays.
   * Opposite directions cancel.
   */
  lemma LastAttackWins(f: Fighter, intents: Intents)
    requires Valid(f) && FreeToAct(f)
    ensures HandleInput(f, intents).state ==
              if intents.grab then Grab
              else if intents.low then LowPunch
              else if intents.high then HighPunch
              else f.state
    ensures intents.left == intents.right && !(intents.high || intents.low || intents.grab) ==> HandleInput(f, intents) == f
  {
    var v := f.vx - (if intents.left then MOVE_SPEED else 0.0) + (if intents.right then MOVE_SPEED else 0.0);
    if intents.left == intents.right {
      assert v == f.vx;
    }
  }

  /** The payload a fighter broadcasts about itself. */
  function GetSyncState(f: Fighter): (p: SyncPayload)
    ensures p.x == f.x && p.y == f.y && p.vx == f.vx && p.state == f.state
    ensures p.facingRight == f.facingRight && p.health == f.health
  {
    SyncPayload(f.x, f.y, f.vx, f.state, f.facingRight, f.health)
  }

  /**
   * Overwrite a mirrored fighter with a received payload; the state is
   * entered only when it differs, so a mirror in down stays down and a
   * mirror entering win stops.
   */
  function SyncFromNetwork(f: Fighter, p: SyncPayload): (r: Fighter)
    requires Valid(f)
    ensures Valid(r)
    ensures r.x == p.x && r.y == p.y && r.facingRight == p.facingRight && r.health == p.health
    ensures r.state == if f.state == Down then Down else p.state
    ensures r.vx == if f.state != Down && f.state != p.state && p.state == Win then 0.0 else p.vx
  {
    var copied := f.(x := p.x, y := p.y, vx := p.vx, facingRight := p.facingRight, health := p.health);
    if f.state != p.state then SetState(copied, p.state) else copied
  }

  /** Sending a fighter's state and mirroring it reproduces that fighter's position, facing, health and, unless the mirror is down, state. */
  lemma SyncRoundTrip(mirror: Fighter, f: Fighter)
    requires Valid(mirror)
    ensures var r := SyncFromNetwork(mirror, GetSyncState(f));
            && r.x == f.x && r.y == f.y && r.facingRight == f.facingRight && r.health == f.health
            && (mirror.state != Down ==> r.state == f.state)
            && (f.state != Win || mirror.state == Win ==> r.vx == f.vx)
  {
  }

  function SyncAll(f: Fighter, ps: seq<SyncPayload>): (r: Fighter)
    requires Valid(f)
    ensures Valid(r)
    decreases |ps|
  {
    if ps == [] then f else SyncAll(SyncFromNetwork(f, ps[0]), ps[1..])
  }

  /**
   * After a series of payloads a mirror holds the last payload's position,
   * facing and health; its state too, unless it was felled on the way, and
   * its velocity too, unless the last payload enters win.
   */
  lemma {:induction false} SyncAllKeepsLast(f: Fighter, ps: seq<SyncPayload>)
    requires Valid(f) && |ps| > 0
    requires f.state != Down
    requires forall i :: 0 <= i < |ps| - 1 ==> ps[i].state != Down
    ensures var r := SyncAll(f, ps);
            var last := ps[|ps| - 1];
            && r.x == last.x && r.y == last.y && r.facingRight == last.facingRight && r.health == last.health
            && r.state == last.state
            && (last.state != Win ==> r.vx == last.vx)
    decreases |ps|
  {
    var g := SyncFromNetwork(f, ps[0]);
    if |ps| > 1 {
      assert g.state == ps[0].state;
      assert forall i :: 0 <= i < |ps[1..]| - 1 ==> ps[1..][i] == ps[i + 1];
      SyncAllKeepsLast(g, ps[1..]);
    } else {
      assert ps[1..] == [];
    }
  }

  /** What the replay buffer records of a fighter: position, state, frame, facing, health, visibility. */
  function GetSnapshot(f: Fighter): (s: PlayerSnapshot)
    requires Valid(f)
    ensures 0 <= s.frameIndex < |Anim(s.state).frames|
    ensures s.x == f.x && s.y == f.y && s.state == f.state && s.frameIndex == Cursor(f).frame
    ensures s.facingRight == f.facingRight && s.health == f.health && s.visible == f.visible
  {
    PlayerSnapshot(f.x, f.y, f.state, Cursor(f).frame, f.facingRight, f.health, f.visible)
  }

  /** A cursor moved to a recorded frame (unless it is already there) and paused. */
  function ShowFrame(s: AnimationState, c: FrameCursor, k: int): (r: FrameCursor)
    requires CursorOk(s, c)
    ensures CursorOk(s, r) && !r.playing
    ensures 0 <= k < FrameCount(s) ==> r.frame == k
  {
    (if c.frame != k then GoToFrame(s, c, k) else c).(playing := false)
  }

  /**
   * Show a recorded snapshot: copy position, facing, health and visibility,
   * switch to the recorded state without entering it (flags, lock and
   * velocity are kept), move that state's animation to the recorded frame
   * and pause it.
   */
  function SetFromSnapshot(f: Fighter, snap: PlayerSnapshot): (r: Fighter)
    requires Valid(f)
    ensures Valid(r)
    ensures r.x == snap.x && r.y == snap.y && r.facingRight == snap.facingRight
    ensures r.health == snap.health && r.visible == snap.visible && r.state == snap.state
    ensures !Cursor(r).playing
    ensures r.vx == f.vx && r.animLocked == f.animLocked && r.hitDealt == f.hitDealt && r.glovesDropped == f.glovesDropped
  {
    f.(x := snap.x, y := snap.y, facingRight := snap.facingRight, health := snap.health,
       visible := snap.visible, state := snap.state,
       cursors := f.cursors[snap.state := ShowFrame(snap.state, f.cursors[snap.state], snap.frameIndex)])
  }

  /** Showing a fighter's own snapshot on any fighter reproduces that snapshot exactly. */
  lemma SnapshotRoundTrip(g: Fighter, f: Fighter)
    requires Valid(g) && Valid(f)
    ensures GetSnapshot(SetFromSnapshot(g, GetSnapshot(f))) == GetSnapshot(f)
  {
  }

  /**
   * Showing a fighter's snapshot on any fighter restores what the snapshot
   * records of it: position, state, the frame of that state's animation,
   * facing, health and visibility.
   */
  lemma SnapshotRestores(g: Fighter, f: Fighter)
    requires Valid(g) && Valid(f)
    ensures var r := SetFromSnapshot(g, GetSnapshot(f));
            && r.x == f.x && r.y == f.y && r.state == f.state && Cursor(r).frame == Cursor(f).frame
            && r.facingRight == f.facingRight && r.health == f.health && r.visible == f.visible
  {
    var s := GetSnapshot(f);
    assert 0 <= s.frameIndex < FrameCount(s.state);
  }

  /** Showing the same snapshot a second time leaves the fighter as the first showing left it. */
  lemma ShowTwice(f: Fighter, s: PlayerSnapshot)
    requires Valid(f)
    ensures SetFromSnapshot(SetFromSnapshot(f, s), s) == SetFromSnapshot(f, s)
  {
  }

  /** Let the animation clock of the current state run for `delta` milliseconds. */
  function Animate(f: Fighter, delta: real): (r: Fighter)
    requires Valid(f)
    ensures Valid(r)
    ensures r == f.(cursors := r.cursors)
    ensures Cursor(r) == Advance(f.state, Cursor(f), delta)
  {
    f.(cursors := f.cursors[f.state := Advance(f.state, Cursor(f), delta)])
  }

  /** A paused animation (as left by a replay snapshot) does not advance. */
  lemma PausedStaysPut(f: Fighter, snap: PlayerSnapshot, delta: real)
    requires Valid(f)
    ensures var shown := SetFromSnapshot(f, snap);
            Animate(shown, delta) == shown
  {
    var shown := SetFromSnapshot(f, snap);
    assert shown.cursors[shown.state := Cursor(shown)] == shown.cursors;
  }

  /** The fighter, its opponent if it has one, and the side effects after one step. */
  datatype Step = Step(self: Fighter, opponent: Option<Fighter>, effects: seq<Effect>)

  predicate ValidPair(f: Fighter, opp: Option<Fighter>)
  {
    Valid(f) && (opp.Some? ==> Valid(opp.value))
  }

  /** The state's animation has run out and the table names a successor. */
  predicate Completed(f: Fighter)
    requires Valid(f)
  {
    Cursor(f).done && !Anim(f.state).loop && Anim(f.state).next.Some?
  }

  /** The hit frame of the current state is showing and this instance's hit is unspent. */
  predicate AtHitFrame(f: Fighter)
    requires Valid(f)
  {
    Anim(f.state).hitFrame == Some(Cursor(f).frame) && !f.hitDealt
  }

  /** A finished one-shot animation enters the table's successor and releases the lock. */
  function Complete(f: Fighter): (r: Fighter)
    requires Valid(f)
    ensures Valid(r)
    ensures Completed(f) ==> r.state == Anim(f.state).next.value && !r.animLocked
    ensures !Completed(f) ==> r == f
  {
    if Completed(f) then SetState(f, Anim(f.state).next.value).(animLocked := false) else f
  }

  /** The event announcing dropped gloves, 20 px behind the fighter and 60 px below its origin. */
  function DropGloves(f: Fighter): (e: Effect)
    ensures e.GlovesDropped? && e.isPlayer1 == f.isPlayer1 && e.y == f.y + 60.0
    ensures Abs(e.x - f.x) == 20.0 && (e.x < f.x <==> f.isPlayer1)
  {
    GlovesDropped(f.x + (if f.isPlayer1 then -20.0 else 20.0), f.y + 60.0, f.isPlayer1)
  }

  /**
   * The per-tick animation rules, read against the state and frame at the
   * start of the tick: a finished one-shot animation enters its successor
   * and unlocks; at the drop frame the gloves are dropped once; at the hit
   * frame a local fighter with an opponent evaluates its attack, once.
   */
  function UpdateAnimationLogic(f: Fighter, opp: Option<Fighter>, multiplayer: bool): (r: Step)
    requires ValidPair(f, opp)
    ensures ValidPair(r.self, r.opponent) && (r.opponent.Some? <==> opp.Some?)
    ensures !(f.isLocal && AtHitFrame(f) && opp.Some?) ==> r.opponent == opp
    ensures f.state == Down ==> r.self.state == Down
    ensures opp.Some? && opp.value.state == Down ==> r.opponent.value.state == Down
  {
    var def := Anim(f.state);
    var k := Cursor(f).frame;
    var f1 := Complete(f);
    var dropping := def.dropFrame == Some(k) && !f1.glovesDropped;
    var f2 := if dropping then f1.(glovesDropped := true) else f1;
    var drops := if dropping then [DropGloves(f1)] else [];
    if f2.isLocal && def.hitFrame == Some(k) && !f2.hitDealt && opp.Some? then
      var x := CheckHit(f2, opp.value, def.hitType.value, multiplayer);
      Step(x.attacker, Some(x.target), drops + x.effects)
    else Step(f2, opp, drops)
  }

  /**
   * A finished one-shot animation moves the fighter to the table's
   * successor, unlocked, and that tick drops nothing and hits nothing:
   * a finished animation is on its last frame, which is never a hit or
   * drop frame.
   */
  lemma CompletionFollowsTable(f: Fighter, opp: Option<Fighter>, multiplayer: bool)
    requires ValidPair(f, opp) && Cursor(f).done
    ensures var r := UpdateAnimationLogic(f, opp, multiplayer);
            && r.self.state == Anim(f.state).next.value
            && !r.self.animLocked
            && r.opponent == opp
            && r.effects == []
  {
    var def := Anim(f.state);
    assert !def.loop && Cursor(f).frame == |def.frames| - 1;
    assert def.hitFrame != Some(Cursor(f).frame);
    assert def.dropFrame != Some(Cursor(f).frame);
    Successors(f.state);
  }

  /** The gloves drop at most once per state instance: a second tick on the drop frame emits nothing. */
  lemma GlovesDropOnce(f: Fighter, opp: Option<Fighter>, multiplayer: bool)
    requires ValidPair(f, opp) && !Cursor(f).done && f.state == ThrowGloves
    ensures var r := UpdateAnimationLogic(f, opp, multiplayer);
            && (r.effects != [] <==> Cursor(f).frame == 3 && !f.glovesDropped)
            && r.self.glovesDropped == (f.glovesDropped || Cursor(f).frame == 3)
            && r.self.state == ThrowGloves
            && UpdateAnimationLogic(r.self, r.opponent, multiplayer).effects == []
  {
    DropFrames(f.state);
    HitFrames(f.state);
  }

  /**
   * The hit is evaluated at most once per state instance: after a tick at
   * the hit frame in range, the hit is spent, and a further tick in the same
   * state leaves the opponent untouched. Out of range the fighter is
   * unchanged and tries again.
   */
  lemma HitEvaluatedOnce(f: Fighter, t: Fighter, multiplayer: bool)
    requires ValidPair(f, Some(t)) && !Cursor(f).done && f.isLocal && AtHitFrame(f)
    ensures var r := UpdateAnimationLogic(f, Some(t), multiplayer);
            && (Abs(f.x - t.x) <= HIT_RANGE ==>
                  (r.self.hitDealt && r.self.state == f.state
                   && UpdateAnimationLogic(r.self, r.opponent, multiplayer).opponent == r.opponent))
            && (Abs(f.x - t.x) > HIT_RANGE ==> r.self == f && r.opponent == Some(t))
  {
    DropFrames(f.state);
    HitFrames(f.state);
    var r := UpdateAnimationLogic(f, Some(t), multiplayer);
    if Abs(f.x - t.x) <= HIT_RANGE {
      assert r.self == f.(hitDealt := true);
      assert !AtHitFrame(r.self);
    }
  }

  /**
   * One pre-update tick of a fighter: nothing while the match replays;
   * otherwise a local fighter takes its input, moves and keeps its
   * distance, and then every fighter runs the animation rules.
   */
  function PreUpdate(f: Fighter, opp: Option<Fighter>, replaying: bool, intents: Intents, multiplayer: bool): (r: Step)
    requires ValidPair(f, opp)
    ensures ValidPair(r.self, r.opponent) && (r.opponent.Some? <==> opp.Some?)
    ensures replaying ==> r == Step(f, opp, [])
    ensures !f.isLocal ==> r.opponent == opp
    ensures f.state == Down ==> r.self.state == Down
    ensures opp.Some? && opp.value.state == Down ==> r.opponent.value.state == Down
  {
    if replaying then Step(f, opp, [])
    else
      var moved :=
        if f.isLocal then
          CheckCollisions(ApplyPhysics(HandleInput(f, intents)), if opp.Some? then Some(opp.value.x) else None)
        else f;
      UpdateAnimationLogic(moved, opp, multiplayer)
  }

  /** A fighter in down stays in down whatever is requested of it, whatever hits it and whatever its mirror receives. */
  lemma DownIsTerminal(f: Fighter, a: Fighter, hit: HitType, d: Damage, p: SyncPayload, delta: real)
    requires ValidPair(f, Some(a)) && f.state == Down
    ensures SetState(f, p.state).state == Down
    ensures TakeDamage(f, d).state == Down
    ensures CheckHit(a, f, hit, false).target.state == Down
    ensures SyncFromNetwork(f, p).state == Down
    ensures Animate(f, delta).state == Down
  {
  }

  /** A fighter entering the match: constructed, then sent into its glove-throwing intro. */
  function Spawn(isPlayer1: bool, isLocal: bool, x: real, y: real): (f: Fighter)
    ensures Valid(f)
    ensures f.state == ThrowGloves && f.health == MAX_HEALTH && f.animLocked
    ensures f.x == x && f.y == y && f.vx == 0.0 && f.facingRight == isPlayer1 && f.isPlayer1 == isPlayer1 && f.isLocal == isLocal
    ensures Cursor(f) == Rewind(ThrowGloves)
  {
    SetState(Fresh(isPlayer1, isLocal, x, y), ThrowGloves)
  }

  /** A high punch landing in range on a full-health fighter in ready: 4 health left, reacting high, pushed away. */
  lemma HighPunchScenario(a: Fighter, t: Fighter)
    requires ValidPair(a, Some(t)) && a.isLocal && a.state == HighPunch && Cursor(a).frame == 1 && !Cursor(a).done && !a.hitDealt
    requires t.state == Ready && t.health == 5 && a.x < t.x <= a.x + HIT_RANGE
    ensures var r := UpdateAnimationLogic(a, Some(t), false);
            && r.opponent.value.health == 4
            && r.opponent.value.state == HitHigh
            && r.opponent.value.vx == t.vx + KNOCKBACK_FORCE
            && r.self.hitDealt
  {
    HitFrames(HighPunch);
    DropFrames(HighPunch);
  }

  /** A punch on a fighter with one point of health left fells it with the finisher knockback. */
  lemma FinisherScenario(a: Fighter, t: Fighter, d: Damage)
    requires ValidPair(a, Some(t)) && CanBeHit(t) && t.health == 1 && Abs(a.x - t.x) <= HIT_RANGE
    ensures var r := CheckHit(a, t, Strike(d), false);
            && r.target.health == 0 && r.target.state == Falling
            && r.target.vx == t.vx + Push(a.x, t.x, FINISHER_KNOCKBACK_FORCE)
  {
    StrikeRule(a, t, d, false);
  }
}
