/**
 * A fighter as an object whose fields change in place, as the match driver,
 * the network handlers and the replay player see it. Every method is
 * specified by the function of the same name in module Fighters, applied to
 * the fighter's fields before the call (`View()`), so every property proved
 * there holds of these methods.
 */
module Players {
  import opened Types
  import opened Animations
  import Fighters

  class Player {
    const isPlayer1: bool
    var isLocal: bool
    var health: int
    var state: AnimationState
    var opponent: Player?
    var animLocked: bool
    var hitDealt: bool
    var glovesDropped: bool
    var x: real
    var y: real
    var vx: real
    var facingRight: bool
    var visible: bool
    /** One animation per state, each with its own playback position. */
    var cursors: map<AnimationState, FrameCursor>

    /** The fighter's fields as a value. */
    function View(): Fighters.Fighter
      reads this
    {
      Fighters.Fighter(isPlayer1, isLocal, health, state, animLocked, hitDealt, glovesDropped,
                       x, y, vx, facingRight, visible, cursors)
    }

    /** The opponent's fields as a value, if there is an opponent. */
    function OpponentView(): Option<Fighters.Fighter>
      reads this, opponent
    {
      if opponent == null then None else Some(opponent.View())
    }

    ghost predicate Valid()
      reads this
    {
      Fighters.CursorsOk(cursors) && opponent != this
    }

    /** The opponent, when there is one, is a valid fighter other than this one. */
    ghost predicate ValidWithOpponent()
      reads this, opponent
    {
      Valid() && (opponent != null ==> opponent.Valid())
    }

    /**
     * A fighter at (x0, y0) with no opponent yet, locally controlled, that
     * has entered its glove-throwing intro.
     */
    constructor (x0: real, y0: real, isPlayer1: bool)
      ensures Valid() && opponent == null
      ensures View() == Fighters.Spawn(isPlayer1, true, x0, y0)
    {
      var initial := Fighters.Fresh(isPlayer1, true, x0, y0);
      this.isPlayer1 := isPlayer1;
      isLocal := true;
      health := Fighters.MAX_HEALTH;
      state := Idle;
      opponent := null;
      animLocked := true;
      hitDealt := false;
      glovesDropped := false;
      x, y, vx := x0, y0, 0.0;
      facingRight := isPlayer1;
      visible := true;
      cursors := initial.cursors;
      new;
      SetState(ThrowGloves);
    }

    method SetState(s: AnimationState)
      requires Valid()
      modifies this
      ensures Valid() && opponent == old(opponent)
      ensures View() == Fighters.SetState(old(View()), s)
    {
      if state == Down {
        return;
      }
      if state == s {
        return;
      }
      ghost var before := View();
      state := s;
      hitDealt := false;
      glovesDropped := false;
      if s == Win {
        vx := 0.0;
      }
      animLocked := !Loops(s);
      var start := Rewind(s);
      var c := if s == Win then GoToFrame(s, start, if isPlayer1 then 3 else 7) else start;
      cursors := cursors[s := c];
      assert View() == before.(state := s, hitDealt := false, glovesDropped := false, vx := vx,
                               animLocked := !Loops(s), cursors := before.cursors[s := c]);
    }

    method TakeDamage(d: Damage)
      requires Valid()
      modifies this
      ensures Valid() && opponent == old(opponent)
      ensures View() == Fighters.TakeDamage(old(View()), d)
    {
      health := health - 1;
      if health <= 0 {
        SetState(Falling);
      } else {
        SetState(if d == High then HitHigh else HitLow);
      }
    }

    /**
     * Evaluate this fighter's attack against its opponent: in range the hit
     * is spent, and a grab or a punch lands when the opponent is open to it.
     */
    method CheckHit(hit: HitType, multiplayer: bool) returns (effects: seq<Fighters.Effect>)
      requires ValidWithOpponent()
      modifies this, opponent
      ensures ValidWithOpponent() && opponent == old(opponent)
      ensures opponent != null ==> opponent.opponent == old(opponent.opponent)
      ensures old(opponent) == null ==> View() == old(View()) && effects == []
      ensures old(opponent) != null ==>
                var r := Fighters.CheckHit(old(View()), old(opponent.View()), hit, multiplayer);
                View() == r.attacker && opponent.View() == r.target && effects == r.effects
    {
      effects := [];
      var opp := opponent;
      if opp == null {
        return;
      }
      if Fighters.Abs(x - opp.x) <= HIT_RANGE {
        hitDealt := true;
        match hit
        case Grapple =>
          if Fighters.CanBeGrabbed(opp.View()) {
            opp.SetState(Held);
          }
        case Strike(d) =>
          if Fighters.CanBeHit(opp.View()) {
            effects := LandPunch(opp, d, multiplayer);
          }
      }
    }

    /**
     * A punch that lands on `opp`: one point of damage, a knockback away
     * from this fighter (the finisher force when it fells the opponent), and
     * the shake, sound, blood and network side effects.
     */
    method LandPunch(opp: Player, d: Damage, multiplayer: bool) returns (effects: seq<Fighters.Effect>)
      requires opp.Valid() && opp != this
      modifies opp
      ensures opp.Valid() && opp.opponent == old(opp.opponent)
      ensures var force := if old(opp.health) - 1 <= 0 then Fighters.FINISHER_KNOCKBACK_FORCE else KNOCKBACK_FORCE;
              opp.View() == Fighters.TakeDamage(old(opp.View()), d).(vx := old(opp.vx) + Fighters.Push(x, old(opp.x), force))
      ensures effects == Fighters.PunchEffects(View(), d, Fighters.PushDirection(x, old(opp.x)), old(opp.health) - 1 <= 0, multiplayer)
    {
      var isFinisher := opp.health - 1 <= 0;
      opp.TakeDamage(d);
      var dir := Fighters.PushDirection(x, opp.x);
      var force := if isFinisher then Fighters.FINISHER_KNOCKBACK_FORCE else KNOCKBACK_FORCE;
      opp.vx := opp.vx + Fighters.Push(x, opp.x, force);
      effects := Fighters.PunchEffects(View(), d, dir, isFinisher, multiplayer);
    }

    method ApplyPhysics()
      requires Valid()
      modifies this
      ensures Valid() && opponent == old(opponent)
      ensures View() == Fighters.ApplyPhysics(old(View()))
    {
      x := x + vx;
      vx := vx * FRICTION;
      if x < Fighters.ARENA_LEFT {
        x := Fighters.ARENA_LEFT;
        if vx < 0.0 {
          vx := Fighters.Bounce(vx);
        }
      }
      if x > Fighters.ARENA_RIGHT {
        x := Fighters.ARENA_RIGHT;
        if vx > 0.0 {
          vx := Fighters.Bounce(vx);
        }
      }
    }

    method CheckCollisions()
      requires ValidWithOpponent()
      modifies this
      ensures ValidWithOpponent() && opponent == old(opponent)
      ensures View() == Fighters.CheckCollisions(old(View()), if opponent == null then None else Some(opponent.x))
    {
      var opp := opponent;
      if opp == null || state == Down || state == Falling {
        return;
      }
      var minDist := HITBOX_WIDTH;
      if Fighters.Abs(x - opp.x) < minDist {
        if x < opp.x {
          x := opp.x - minDist;
        } else {
          x := opp.x + minDist;
        }
        vx := 0.0;
      }
      facingRight := x < opp.x;
    }

    method HandleInput(intents: Fighters.Intents)
      requires Valid()
      modifies this
      ensures Valid() && opponent == old(opponent)
      ensures View() == Fighters.HandleInput(old(View()), intents)
    {
      if animLocked || state == Held || state == Falling || state == Down || state == Win {
        return;
      }
      if intents.left {
        vx := vx - MOVE_SPEED;
      }
      if intents.right {
        vx := vx + MOVE_SPEED;
      }
      if intents.high {
        SetState(HighPunch);
      }
      if intents.low {
        SetState(LowPunch);
      }
      if intents.grab {
        SetState(Grab);
      }
    }

    method SyncFromNetwork(p: SyncPayload)
      requires Valid()
      modifies this
      ensures Valid() && opponent == old(opponent)
      ensures View() == Fighters.SyncFromNetwork(old(View()), p)
    {
      x := p.x;
      y := p.y;
      vx := p.vx;
      facingRight := p.facingRight;
      health := p.health;
      if state != p.state {
        SetState(p.state);
      }
    }

    method SetFromSnapshot(snap: PlayerSnapshot)
      requires Valid()
      modifies this
      ensures Valid() && opponent == old(opponent)
      ensures View() == Fighters.SetFromSnapshot(old(View()), snap)
    {
      // The recorded state is taken over without being entered.
      var c := Fighters.ShowFrame(snap.state, cursors[snap.state], snap.frameIndex);
      x, y, facingRight, health, visible, state, cursors :=
        snap.x, snap.y, snap.facingRight, snap.health, snap.visible, snap.state, cursors[snap.state := c];
    }

    /** The animation clock of the current state runs for `delta` milliseconds. */
    method Animate(delta: real)
      requires Valid()
      modifies this
      ensures Valid() && opponent == old(opponent)
      ensures View() == Fighters.Animate(old(View()), delta)
    {
      cursors := cursors[state := Advance(state, cursors[state], delta)];
    }

    /** A finished one-shot animation enters its successor and releases the lock. */
    method FinishAnimation()
      requires Valid()
      modifies this
      ensures Valid() && opponent == old(opponent)
      ensures View() == Fighters.Complete(old(View()))
    {
      var def := Anim(state);
      if cursors[state].done && !def.loop && def.next.Some? {
        SetState(def.next.value);
        animLocked := false;
      }
    }

    method UpdateAnimationLogic(multiplayer: bool) returns (effects: seq<Fighters.Effect>)
      requires ValidWithOpponent()
      modifies this, opponent
      ensures ValidWithOpponent() && opponent == old(opponent)
      ensures opponent != null ==> opponent.opponent == old(opponent.opponent)
      ensures var r := Fighters.UpdateAnimationLogic(old(View()), old(OpponentView()), multiplayer);
              View() == r.self && OpponentView() == r.opponent && effects == r.effects
    {
      var def := Anim(state);
      var k := cursors[state].frame;
      FinishAnimation();
      effects := [];
      if def.dropFrame == Some(k) && !glovesDropped {
        effects := [Fighters.DropGloves(View())];
        glovesDropped := true;
      }
      if isLocal && def.hitFrame == Some(k) && !hitDealt && opponent != null {
        var hitEffects := CheckHit(def.hitType.value, multiplayer);
        effects := effects + hitEffects;
      }
    }

    /** The fighter's part of a tick, before the match's own update. */
    method PreUpdate(replaying: bool, intents: Fighters.Intents, multiplayer: bool) returns (effects: seq<Fighters.Effect>)
      requires ValidWithOpponent()
      modifies this, opponent
      ensures ValidWithOpponent() && opponent == old(opponent)
      ensures opponent != null ==> opponent.opponent == old(opponent.opponent)
      ensures var r := Fighters.PreUpdate(old(View()), old(OpponentView()), replaying, intents, multiplayer);
              View() == r.self && OpponentView() == r.opponent && effects == r.effects
    {
      if replaying {
        effects := [];
        return;
      }
      if isLocal {
        HandleInput(intents);
        ApplyPhysics();
        CheckCollisions();
      }
      effects := UpdateAnimationLogic(multiplayer);
    }
  }
}
