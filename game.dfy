/**
 * The match driver: who controls which fighter, the game-over verdict and
 * the win animation, the KO clock, the handling of messages from the peer,
 * and the per-tick dispatch between live play and replay. The rules are
 * pure functions with lemmas over whole runs of ticks; the `HockeyGame`
 * class holds the match's fields and updates them as the driver does.
 */
module Game {
  import opened Types
  import opened Animations
  import Fighters
  import Players
  import Replay

  // ---------------------------------------------------------------------
  // Roles

  /**
   * Which fighters this peer drives, as (player 1, player 2). On a network
   * link exactly one fighter is local, player 1 on the host and player 2 on
   * the client; without a link both are driven from this keyboard.
   */
  function LocalControl(networked: bool, isHost: bool): (r: (bool, bool))
    ensures !networked ==> r.0 && r.1
    ensures networked ==> r.0 != r.1 && (r.0 <==> isHost)
  {
    if !networked then (true, true)
    else if isHost then (true, false)
    else (false, true)
  }

  function Controls(c: (bool, bool), s: Side): bool
  {
    if s == Player1 then c.0 else c.1
  }

  /** The fighter whose state this peer broadcasts every tick. */
  function Broadcast(isHost: bool): Side
  {
    if isHost then Player1 else Player2
  }

  /** The fighter that inbound SYNC messages are applied to. */
  function SyncTarget(isHost: bool): Side
  {
    if isHost then Player2 else Player1
  }

  /**
   * A peer broadcasts a fighter it drives and mirrors one it does not;
   * what one peer broadcasts is exactly what the other mirrors; and every
   * fighter is driven by exactly one of the two peers.
   */
  lemma SyncRoles(isHost: bool, s: Side)
    ensures Broadcast(isHost) != SyncTarget(isHost)
    ensures Controls(LocalControl(true, isHost), Broadcast(isHost))
    ensures !Controls(LocalControl(true, isHost), SyncTarget(isHost))
    ensures SyncTarget(isHost) == Broadcast(!isHost)
    ensures Controls(LocalControl(true, isHost), s) != Controls(LocalControl(true, !isHost), s)
  {
  }

  // ---------------------------------------------------------------------
  // Verdict and KO clock

  /** The outcome fields of a match: over or not, who won (if anyone), and whether the winner has entered win. */
  datatype Verdict = Verdict(isGameOver: bool, winner: Option<Side>, winTriggered: bool)

  /** A verdict after a check, and the fighter sent into win by that check, if any. */
  datatype Judgement = Judgement(verdict: Verdict, crowned: Option<Side>)

  predicate Beaten(s: AnimationState)
  {
    s == Down || s == Falling
  }

  /**
   * The game-over check of one live tick, given both fighters' states and
   * the KO clock. A running match ends as soon as a fighter is down or
   * falling, player 1 being looked at first; the winner of an ended match
   * is never revisited. A winner is sent into win once, when the KO clock
   * has passed one second.
   */
  function Judge(v: Verdict, s1: AnimationState, s2: AnimationState, koTimer: real): (r: Judgement)
    ensures v.isGameOver ==> r.verdict.isGameOver && r.verdict.winner == v.winner
    ensures !v.isGameOver ==> (r.verdict.isGameOver <==> Beaten(s1) || Beaten(s2))
    ensures !v.isGameOver && Beaten(s1) ==> r.verdict.winner == Some(Player2)
    ensures !v.isGameOver && !Beaten(s1) && Beaten(s2) ==> r.verdict.winner == Some(Player1)
    ensures !r.verdict.isGameOver ==> r.verdict == v && r.crowned == None
    ensures r.crowned.Some? <==> !v.winTriggered && r.verdict.winner.Some? && r.verdict.isGameOver && koTimer > 1000.0
    ensures r.crowned.Some? ==> r.crowned == r.verdict.winner
    ensures r.verdict.winTriggered <==> v.winTriggered || r.crowned.Some?
  {
    var ended :=
      if v.isGameOver then v
      else if Beaten(s1) then v.(isGameOver := true, winner := Some(Player2))
      else if Beaten(s2) then v.(isGameOver := true, winner := Some(Player1))
      else v;
    if ended.isGameOver && !ended.winTriggered && ended.winner.Some? && koTimer > 1000.0 then
      Judgement(ended.(winTriggered := true), ended.winner)
    else
      Judgement(ended, None)
  }

  /**
   * The KO clock: it runs only while the match is over with a winner and
   * the dropped gloves have landed.
   */
  function KoTimer(koTimer: real, glovesLanded: bool, v: Verdict, delta: real): (t: real)
    ensures delta >= 0.0 ==> t >= koTimer
    ensures !glovesLanded || !v.isGameOver || v.winner == None ==> t == koTimer
    ensures glovesLanded && v.isGameOver && v.winner.Some? ==> t == koTimer + delta
  {
    if glovesLanded && v.isGameOver && v.winner.Some? then koTimer + delta else koTimer
  }

  /** The outcome fields together with the KO clock and the gloves-landed flag. */
  datatype Match = Match(verdict: Verdict, koTimer: real, glovesLanded: bool)

  /** What a live tick looks at: both fighters' states and the tick's length. */
  datatype Observation = Observation(s1: AnimationState, s2: AnimationState, delta: real)

  /** One live tick of the match rules: the game-over check, then the KO clock. */
  function LiveStep(m: Match, o: Observation): Judgement
  {
    Judge(m.verdict, o.s1, o.s2, m.koTimer)
  }

  function Next(m: Match, o: Observation): Match
  {
    var j := LiveStep(m, o);
    Match(j.verdict, KoTimer(m.koTimer, m.glovesLanded, j.verdict, o.delta), m.glovesLanded)
  }

  /** The match after a run of live ticks. */
  function Run(m: Match, obs: seq<Observation>): Match
    decreases |obs|
  {
    if obs == [] then m else Run(Next(m, obs[0]), obs[1..])
  }

  /** How many fighters a run of live ticks sends into win. */
  function Crownings(m: Match, obs: seq<Observation>): nat
    decreases |obs|
  {
    if obs == [] then 0
    else (if LiveStep(m, obs[0]).crowned.Some? then 1 else 0) + Crownings(Next(m, obs[0]), obs[1..])
  }

  /** Once the match is over, no run of ticks reopens it or changes its winner. */
  lemma {:induction false} WinnerIsFinal(m: Match, obs: seq<Observation>)
    requires m.verdict.isGameOver
    ensures Run(m, obs).verdict.isGameOver
    ensures Run(m, obs).verdict.winner == m.verdict.winner
    decreases |obs|
  {
    if obs != [] {
      WinnerIsFinal(Next(m, obs[0]), obs[1..]);
    }
  }

  /**
   * The win animation is triggered at most once: a run crowns exactly one
   * fighter if it turns `winTriggered` on, and none otherwise; and once on,
   * `winTriggered` stays on.
   */
  lemma {:induction false} CrownedAtMostOnce(m: Match, obs: seq<Observation>)
    ensures m.verdict.winTriggered ==> Run(m, obs).verdict.winTriggered
    ensures Crownings(m, obs) == if Run(m, obs).verdict.winTriggered && !m.verdict.winTriggered then 1 else 0
    decreases |obs|
  {
    if obs != [] {
      CrownedAtMostOnce(Next(m, obs[0]), obs[1..]);
    }
  }

  /**
   * A match that ended without a winner (the peer disconnected) stays as
   * it is: no winner is ever named, nobody is crowned and the KO clock
   * does not run.
   */
  lemma {:induction false} NoWinnerNoClock(m: Match, obs: seq<Observation>)
    requires m.verdict.isGameOver && m.verdict.winner == None
    ensures Run(m, obs) == m
    ensures Crownings(m, obs) == 0
    decreases |obs|
  {
    if obs != [] {
      assert Next(m, obs[0]) == m;
      NoWinnerNoClock(m, obs[1..]);
    }
  }

  /**
   * Until the dropped gloves land the KO clock stands still, so a match
   * whose clock has not passed one second crowns nobody, whoever falls.
   */
  lemma {:induction false} GlovesFirst(m: Match, obs: seq<Observation>)
    requires !m.glovesLanded && m.koTimer <= 1000.0 && !m.verdict.winTriggered
    ensures Run(m, obs).koTimer == m.koTimer
    ensures !Run(m, obs).verdict.winTriggered
    ensures Crownings(m, obs) == 0
    decreases |obs|
  {
    if obs != [] {
      GlovesFirst(Next(m, obs[0]), obs[1..]);
    }
  }

  /** With ticks of non-negative length the KO clock never runs back. */
  lemma {:induction false} ClockNeverRunsBack(m: Match, obs: seq<Observation>)
    requires forall i :: 0 <= i < |obs| ==> obs[i].delta >= 0.0
    ensures Run(m, obs).koTimer >= m.koTimer
    decreases |obs|
  {
    if obs != [] {
      assert forall i :: 0 <= i < |obs[1..]| ==> obs[1..][i] == obs[i + 1];
      ClockNeverRunsBack(Next(m, obs[0]), obs[1..]);
    }
  }

  // ---------------------------------------------------------------------
  // Hits received from the peer

  /**
   * An inbound HIT applied to its victim: the damage of a hit, with no
   * check that the victim is open to one, and the ordinary knockback away
   * from the other fighter, whether or not the hit fells the victim.
   */
  function ReceiveHit(victim: Fighters.Fighter, attackerX: real, d: Damage): (r: Fighters.Fighter)
    requires Fighters.Valid(victim)
    ensures Fighters.Valid(r)
    ensures r.health == victim.health - 1
    ensures r.state == Fighters.TakeDamage(victim, d).state
    ensures r.vx == victim.vx + Fighters.Push(attackerX, victim.x, KNOCKBACK_FORCE)
    ensures r.x == victim.x && r.y == victim.y
  {
    var hurt := Fighters.TakeDamage(victim, d);
    hurt.(vx := hurt.vx + Fighters.Push(attackerX, hurt.x, KNOCKBACK_FORCE))
  }

  /**
   * The receiving peer does not check vulnerability: a fighter that no
   * local punch could hurt (in its intro, reeling, or falling) still loses
   * a point of health, and health goes below zero if it was already spent.
   */
  lemma ReceivedHitIgnoresVulnerability(victim: Fighters.Fighter, attackerX: real, d: Damage)
    requires Fighters.Valid(victim) && !Fighters.CanBeHit(victim) && victim.state != Down
    ensures ReceiveHit(victim, attackerX, d).health == victim.health - 1
    ensures victim.health <= 0 ==> ReceiveHit(victim, attackerX, d).health < 0
    ensures ReceiveHit(victim, attackerX, d).state == Falling || ReceiveHit(victim, attackerX, d).state == HitHigh || ReceiveHit(victim, attackerX, d).state == HitLow
  {
  }

  /**
   * A punch that lands on the attacker's peer and does not fell the
   * target produces one HIT message naming the target, and applying that
   * message on the other peer reproduces the target exactly as the
   * attacker's peer left it.
   */
  lemma ReceivedHitMirrorsLocalHit(a: Fighters.Fighter, t: Fighters.Fighter, d: Damage)
    requires Fighters.ValidPair(a, Some(t)) && a.isPlayer1 != t.isPlayer1
    requires Fighters.CanBeHit(t) && Fighters.Abs(a.x - t.x) <= HIT_RANGE && t.health - 1 > 0
    ensures HitMessages(Fighters.CheckHit(a, t, Strike(d), true).effects) == [Hit(d, t.isPlayer1)]
    ensures ReceiveHit(t, a.x, d) == Fighters.CheckHit(a, t, Strike(d), true).target
  {
    Fighters.StrikeRule(a, t, d, true);
    var dir := Fighters.PushDirection(a.x, t.x);
    assert Fighters.CheckHit(a, t, Strike(d), true).effects == Fighters.PunchEffects(a, d, dir, false, true);
    PunchRequests(a, d, dir, false, true);
  }

  /**
   * For a finishing punch the two peers disagree on the knockback: the
   * attacker's peer uses the finisher force, the receiving peer the
   * ordinary one. Everything else about the target agrees.
   */
  lemma ReceivedFinisherUsesOrdinaryForce(a: Fighters.Fighter, t: Fighters.Fighter, d: Damage)
    requires Fighters.ValidPair(a, Some(t))
    requires Fighters.CanBeHit(t) && Fighters.Abs(a.x - t.x) <= HIT_RANGE && t.health - 1 <= 0
    ensures var local := Fighters.CheckHit(a, t, Strike(d), true).target;
            && local.vx == t.vx + Fighters.Push(a.x, t.x, Fighters.FINISHER_KNOCKBACK_FORCE)
            && ReceiveHit(t, a.x, d) == local.(vx := t.vx + Fighters.Push(a.x, t.x, KNOCKBACK_FORCE))
  {
    Fighters.StrikeRule(a, t, d, true);
  }

  // ---------------------------------------------------------------------
  // Side effects a fighter asks of the match

  /** The hit sounds among a fighter's side effects, in order. */
  function HitSounds(effects: seq<Fighters.Effect>): (r: seq<Damage>)
    ensures |r| <= |effects|
    decreases |effects|
  {
    if effects == [] then []
    else (if effects[0].HitSound? then [effects[0].kind] else []) + HitSounds(effects[1..])
  }

  /** The HIT messages a fighter's side effects ask to send, in order. */
  function HitMessages(effects: seq<Fighters.Effect>): (r: seq<NetworkMessage>)
    ensures |r| <= |effects|
    decreases |effects|
  {
    if effects == [] then []
    else (if effects[0].SendHit? then [Hit(effects[0].kind, effects[0].targetP1)] else []) + HitMessages(effects[1..])
  }

  /**
   * A landed punch asks the match for exactly one hit sound, of its own
   * kind, and, in a networked match only, exactly one HIT message naming
   * the attacker's opponent.
   */
  lemma PunchRequests(a: Fighters.Fighter, d: Damage, dir: real, finisher: bool, multiplayer: bool)
    ensures HitSounds(Fighters.PunchEffects(a, d, dir, finisher, multiplayer)) == [d]
    ensures HitMessages(Fighters.PunchEffects(a, d, dir, finisher, multiplayer)) ==
              if multiplayer then [Hit(d, !a.isPlayer1)] else []
  {
    var noise := [Fighters.Shake, Fighters.HitSound(d)];
    var blood := if d == High then [Fighters.BloodBurst(dir, finisher)] else [];
    var message := if multiplayer then [Fighters.SendHit(d, !a.isPlayer1)] else [];
    assert Fighters.PunchEffects(a, d, dir, finisher, multiplayer) == noise + blood + message;
    assert noise == [Fighters.Shake] + [Fighters.HitSound(d)];
    Single(Fighters.Shake);
    Single(Fighters.HitSound(d));
    HitMessagesAppend([Fighters.Shake], [Fighters.HitSound(d)]);
    HitSoundsAppend([Fighters.Shake], [Fighters.HitSound(d)]);
    if d == High {
      Single(Fighters.BloodBurst(dir, finisher));
    }
    if multiplayer {
      Single(Fighters.SendHit(d, !a.isPlayer1));
    }
    assert HitMessages(noise) == [] && HitSounds(noise) == [d];
    assert HitMessages(blood) == [] && HitSounds(blood) == [];
    HitMessagesAppend(noise, blood);
    HitSoundsAppend(noise, blood);
    assert HitMessages(noise + blood) == [] && HitSounds(noise + blood) == [d];
    HitMessagesAppend(noise + blood, message);
    HitSoundsAppend(noise + blood, message);
  }

  lemma Single(e: Fighters.Effect)
    ensures HitSounds([e]) == if e.HitSound? then [e.kind] else []
    ensures HitMessages([e]) == if e.SendHit? then [Hit(e.kind, e.targetP1)] else []
  {
    assert [e][1..] == [];
  }

  lemma {:induction false} HitMessagesAppend(e1: seq<Fighters.Effect>, e2: seq<Fighters.Effect>)
    ensures HitMessages(e1 + e2) == HitMessages(e1) + HitMessages(e2)
    decreases |e1|
  {
    if e1 == [] {
      assert e1 + e2 == e2;
    } else {
      assert (e1 + e2)[0] == e1[0];
      assert (e1 + e2)[1..] == e1[1..] + e2;
      HitMessagesAppend(e1[1..], e2);
      var head := (if e1[0].SendHit? then [Hit(e1[0].kind, e1[0].targetP1)] else []);
      assert HitMessages(e1 + e2) == head + HitMessages(e1[1..] + e2);
      assert HitMessages(e1) == head + HitMessages(e1[1..]);
    }
  }

  lemma {:induction false} HitSoundsAppend(e1: seq<Fighters.Effect>, e2: seq<Fighters.Effect>)
    ensures HitSounds(e1 + e2) == HitSounds(e1) + HitSounds(e2)
    decreases |e1|
  {
    if e1 == [] {
      assert e1 + e2 == e2;
    } else {
      assert (e1 + e2)[0] == e1[0];
      assert (e1 + e2)[1..] == e1[1..] + e2;
      HitSoundsAppend(e1[1..], e2);
      var head := (if e1[0].HitSound? then [e1[0].kind] else []);
      assert HitSounds(e1 + e2) == head + HitSounds(e1[1..] + e2);
      assert HitSounds(e1) == head + HitSounds(e1[1..]);
    }
  }

  // ---------------------------------------------------------------------
  // The match

  /** Two distinct valid fighters, player 1 and player 2, each the other's opponent. */
  ghost predicate Linked(p1: Players.Player, p2: Players.Player)
    reads p1, p2
  {
    && p1 != p2
    && p1.Valid() && p2.Valid()
    && p1.opponent == p2 && p2.opponent == p1
    && p1.isPlayer1 && !p2.isPlayer1
  }

  /** A replay with nothing recorded, queued or drawn, not playing, at the first frame and normal speed. */
  ghost predicate Cleared(r: Replay.ReplayManager)
    reads r
  {
    !r.isReplaying && r.buffer == [] && r.index == 0 && r.speed == 1 && r.pending == [] && r.pool == []
  }

  /** Two fighters as a reset spawns them, with control by role. */
  ghost predicate Spawned(p1: Players.Player, p2: Players.Player, networked: bool, isHost: bool)
    reads p1, p2
  {
    && (p1.isLocal, p2.isLocal) == LocalControl(networked, isHost)
    && p1.View() == Fighters.Spawn(true, p1.isLocal, 250.0, 250.0)
    && p2.View() == Fighters.Spawn(false, p2.isLocal, 550.0, 250.0)
  }

  /**
   * Two new fighters on the centre line, player 1 at x = 250 and player 2
   * at x = 550, each the other's opponent, with control by role.
   */
  method SpawnPair(networked: bool, isHost: bool) returns (p1: Players.Player, p2: Players.Player)
    ensures fresh(p1) && fresh(p2)
    ensures Linked(p1, p2) && Spawned(p1, p2, networked, isHost)
  {
    var centerY := 400.0 / 2.0 + 50.0;
    p1 := new Players.Player(250.0, centerY, true);
    p2 := new Players.Player(550.0, centerY, false);
    var control := LocalControl(networked, isHost);
    SpawnControl(true, control.0, 250.0, 250.0);
    SpawnControl(false, control.1, 550.0, 250.0);
    p1.isLocal := control.0;
    p2.isLocal := control.1;
    p1.opponent := p2;
    p2.opponent := p1;
  }

  /** Handing a spawned fighter to the network changes nothing but its control flag. */
  lemma SpawnControl(isPlayer1: bool, isLocal: bool, x: real, y: real)
    ensures Fighters.Spawn(isPlayer1, isLocal, x, y) == Fighters.Spawn(isPlayer1, true, x, y).(isLocal := isLocal)
  {
  }

  /**
   * A match between two fighters, with its replay recorder, its link to
   * the peer (as an outbox of messages) and the sounds the device has
   * played. Live camera motion is not modelled; the camera changes only
   * when a replay frame is shown or the match is reset.
   */
  class HockeyGame {
    var player1: Players.Player
    var player2: Players.Player
    /** The replay fields of the match: buffer, cursor, speed, sound queue and handle pool. */
    const replay: Replay.ReplayManager
    var isGameOver: bool
    var winner: Option<Side>
    /** Milliseconds since the KO, counted once the gloves have landed. */
    var koTimer: real
    var glovesLanded: bool
    var winTriggered: bool
    /** Whether a network link is attached, and this peer's role on it. */
    var networked: bool
    var isHost: bool
    var opponentDisconnected: bool
    var camera: Camera
    /** Messages handed to the network link, oldest first. */
    var outbox: seq<NetworkMessage>
    /** Hit sounds the device has played, live and in replay, oldest first. */
    var audio: seq<Damage>

    /** Linked fighters, a valid replay, a winner only in a match that is over, and a crowning only with a winner. */
    ghost predicate Valid()
      reads this, player1, player2, replay
    {
      && Linked(player1, player2) && replay.Valid()
      && (winner.Some? ==> isGameOver)
      && (winTriggered ==> winner.Some?)
    }

    function Standing(): Match
      reads this
    {
      Match(Verdict(isGameOver, winner, winTriggered), koTimer, glovesLanded)
    }

    /** The link to the peer, and what has been sent and played. */
    function Session(): (bool, bool, bool, seq<NetworkMessage>, seq<Damage>)
      reads this
    {
      (networked, isHost, opponentDisconnected, outbox, audio)
    }

    function Seat(s: Side): Players.Player
      reads this
    {
      if s == Player1 then player1 else player2
    }

    /**
     * The state right after a reset: a running match without a winner and
     * with the KO clock at zero, an empty replay at normal speed, two
     * freshly spawned fighters at x = 250 and x = 550 on the centre line
     * whose control follows the role, and the camera at rest.
     */
    ghost predicate FreshMatch()
      reads this, player1, player2, replay
    {
      && Standing() == Match(Verdict(false, None, false), 0.0, false)
      && Cleared(replay)
      && Spawned(player1, player2, networked, isHost)
      && camera == Camera(400.0, 200.0, 1.0)
    }

    /** A match set up with or without a link to a peer, and reset. */
    constructor (networked: bool, isHost: bool)
      ensures Valid() && FreshMatch()
      ensures this.networked == networked && this.isHost == isHost
      ensures !opponentDisconnected && outbox == [] && audio == []
    {
      player1 := new Players.Player(250.0, 250.0, true);
      player2 := new Players.Player(550.0, 250.0, false);
      replay := new Replay.ReplayManager();
      isGameOver, winner, koTimer, glovesLanded, winTriggered := false, None, 0.0, false, false;
      this.networked := networked;
      this.isHost := isHost;
      opponentDisconnected := false;
      camera := Camera(400.0, 200.0, 1.0);
      outbox, audio := [], [];
      new;
      Reset();
    }

    /**
     * Start the match over: clear the outcome and the KO clock, empty the
     * replay, spawn two new fighters linked to each other with control
     * by role, and put the camera back. The disconnect flag survives.
     */
    method Reset()
      modifies this, replay
      ensures Valid() && FreshMatch()
      ensures fresh(player1) && fresh(player2)
      ensures networked == old(networked) && isHost == old(isHost)
      ensures opponentDisconnected == old(opponentDisconnected)
      ensures outbox == old(outbox) && audio == old(audio)
    {
      var p1, p2 := SpawnPair(networked, isHost);
      replay.Reset();
      ClearOutcome(p1, p2);
    }

    /** The outcome fields, the KO clock and the camera of a new match, with the given fighters. */
    method ClearOutcome(p1: Players.Player, p2: Players.Player)
      modifies this
      ensures Standing() == Match(Verdict(false, None, false), 0.0, false)
      ensures camera == Camera(400.0, 200.0, 1.0) && player1 == p1 && player2 == p2
      ensures networked == old(networked) && isHost == old(isHost)
      ensures opponentDisconnected == old(opponentDisconnected)
      ensures outbox == old(outbox) && audio == old(audio)
    {
      isGameOver, winner, koTimer, glovesLanded, winTriggered := false, None, 0.0, false, false;
      camera, player1, player2 := Camera(400.0, 200.0, 1.0), p1, p2;
    }

    /** The peer went away: the match is over, without a winner if none was named. */
    method OnDisconnect()
      requires Valid()
      modifies this
      ensures Valid()
      ensures opponentDisconnected && isGameOver
      ensures Standing() == old(Standing()).(verdict := old(Standing()).verdict.(isGameOver := true))
      ensures player1 == old(player1) && player2 == old(player2) && camera == old(camera)
      ensures networked == old(networked) && isHost == old(isHost)
      ensures outbox == old(outbox) && audio == old(audio)
    {
      opponentDisconnected := true;
      isGameOver := true;
    }

    /** The dropped gloves touched the ice. */
    method OnGlovesLanded()
      requires Valid()
      modifies this
      ensures Valid()
      ensures Standing() == old(Standing()).(glovesLanded := true)
      ensures player1 == old(player1) && player2 == old(player2) && camera == old(camera)
      ensures Session() == old(Session())
    {
      glovesLanded := true;
    }

    /** Tell the peer that a fighter was hit; without a link nothing is sent. */
    method SendHit(d: Damage, targetP1: bool)
      modifies this
      ensures outbox == old(outbox) + if networked then [Hit(d, targetP1)] else []
      ensures Standing() == old(Standing()) && player1 == old(player1) && player2 == old(player2)
      ensures networked == old(networked) && isHost == old(isHost) && opponentDisconnected == old(opponentDisconnected)
      ensures camera == old(camera) && audio == old(audio)
    {
      if networked {
        outbox := outbox + [Hit(d, targetP1)];
      }
    }

    /** Send the state of the fighter this peer drives; without a link nothing is sent. */
    method BroadcastState()
      modifies this
      ensures outbox == old(outbox) +
                if networked then [Sync(Fighters.GetSyncState(Seat(Broadcast(isHost)).View()))] else []
      ensures Standing() == old(Standing()) && player1 == old(player1) && player2 == old(player2)
      ensures networked == old(networked) && isHost == old(isHost) && opponentDisconnected == old(opponentDisconnected)
      ensures camera == old(camera) && audio == old(audio)
    {
      var local := if isHost then player1 else player2;
      if networked {
        outbox := outbox + [Sync(Fighters.GetSyncState(local.View()))];
      }
    }

    /** Reset, and ask the peer to reset too. */
    method RestartGame()
      modifies this, replay
      ensures Valid() && FreshMatch()
      ensures fresh(player1) && fresh(player2)
      ensures networked == old(networked) && isHost == old(isHost)
      ensures opponentDisconnected == old(opponentDisconnected)
      ensures outbox == old(outbox) + if networked then [Restart] else []
      ensures audio == old(audio)
    {
      // The message is queued before the reset; the reset leaves the outbox alone.
      if networked {
        outbox := outbox + [Restart];
      }
      Reset();
    }

    /** Play a hit sound and queue it for the next replay capture; during a replay nothing happens. */
    method PlayHitSound(d: Damage)
      requires Valid()
      modifies this, replay
      ensures Valid()
      ensures !replay.isReplaying ==> audio == old(audio) + [d] && replay.pending == old(replay.pending) + [d]
      ensures replay.isReplaying ==> audio == old(audio) && replay.pending == old(replay.pending)
      ensures replay.isReplaying == old(replay.isReplaying) && replay.buffer == old(replay.buffer)
      ensures replay.index == old(replay.index) && replay.speed == old(replay.speed) && replay.pool == old(replay.pool)
      ensures Standing() == old(Standing()) && player1 == old(player1) && player2 == old(player2)
      ensures networked == old(networked) && isHost == old(isHost) && opponentDisconnected == old(opponentDisconnected)
      ensures camera == old(camera) && outbox == old(outbox)
    {
      if !replay.isReplaying {
        audio := audio + [d];
      }
      replay.RecordSound(d);
    }

    /**
     * Everything a fighter's requests leave alone: the outcome, the
     * fighters, the link, the camera and the replay apart from its sound
     * queue.
     */
    function Untouched(): (Match, Players.Player, Players.Player, (bool, bool, bool), Camera, (bool, seq<GameSnapshot>, int, int, seq<Replay.Handle>))
      reads this, replay
    {
      (Standing(), player1, player2, (networked, isHost, opponentDisconnected), camera,
       (replay.isReplaying, replay.buffer, replay.index, replay.speed, replay.pool))
    }

    /** Carry out one request of a fighter: a hit sound is played, a HIT message sent, anything else belongs to the scene. */
    method ApplyEffect(e: Fighters.Effect)
      requires Valid()
      modifies this, replay
      ensures Valid() && Untouched() == old(Untouched())
      ensures !replay.isReplaying ==> audio == old(audio) + HitSounds([e]) && replay.pending == old(replay.pending) + HitSounds([e])
      ensures replay.isReplaying ==> audio == old(audio) && replay.pending == old(replay.pending)
      ensures outbox == old(outbox) + if networked then HitMessages([e]) else []
    {
      Single(e);
      match e
      case HitSound(d) => PlayHitSound(d);
      case SendHit(d, targetP1) => SendHit(d, targetP1);
      case _ =>
    }

    /**
     * Carry out what a fighter asked of the match during its tick, in
     * order: hit sounds are played (and queued for the replay), HIT
     * messages are sent. Shakes, blood and dropped gloves belong to the
     * scene and are not modelled.
     */
    method ApplyEffects(effects: seq<Fighters.Effect>)
      requires Valid()
      modifies this, replay
      ensures Valid() && Untouched() == old(Untouched())
      ensures !replay.isReplaying ==> audio == old(audio) + HitSounds(effects) && replay.pending == old(replay.pending) + HitSounds(effects)
      ensures replay.isReplaying ==> audio == old(audio) && replay.pending == old(replay.pending)
      ensures outbox == old(outbox) + if networked then HitMessages(effects) else []
    {
      for i := 0 to |effects|
        invariant Valid() && Untouched() == old(Untouched())
        invariant !replay.isReplaying ==> audio == old(audio) + HitSounds(effects[..i]) && replay.pending == old(replay.pending) + HitSounds(effects[..i])
        invariant replay.isReplaying ==> audio == old(audio) && replay.pending == old(replay.pending)
        invariant outbox == old(outbox) + if networked then HitMessages(effects[..i]) else []
      {
        assert effects[..i + 1] == effects[..i] + [effects[i]];
        HitSoundsAppend(effects[..i], [effects[i]]);
        HitMessagesAppend(effects[..i], [effects[i]]);
        ApplyEffect(effects[i]);
      }
      assert effects[..|effects|] == effects;
    }

    /**
     * The game-over check of a live tick: a running match ends when a
     * fighter is down or falling, player 1 first; once the KO clock has
     * passed one second the winner enters win, once. See `Judge`.
     */
    method CheckGameOver()
      requires Valid()
      modifies this, player1, player2
      ensures Valid()
      ensures var j := Judge(old(Standing()).verdict, old(player1.state), old(player2.state), old(koTimer));
              && Standing() == old(Standing()).(verdict := j.verdict)
              && player1.View() == (if j.crowned == Some(Player1) then Fighters.SetState(old(player1.View()), Win) else old(player1.View()))
              && player2.View() == (if j.crowned == Some(Player2) then Fighters.SetState(old(player2.View()), Win) else old(player2.View()))
      ensures player1 == old(player1) && player2 == old(player2) && camera == old(camera)
      ensures Session() == old(Session())
    {
      var over, w, crowned := isGameOver, winner, winTriggered;
      if !over {
        if player1.state == Down || player1.state == Falling {
          over, w := true, Some(Player2);
        } else if player2.state == Down || player2.state == Falling {
          over, w := true, Some(Player1);
        }
      }
      var crown: Option<Side> := None;
      if over && !crowned && w.Some? && koTimer > 1000.0 {
        crowned, crown := true, w;
      }
      SetVerdict(Verdict(over, w, crowned));
      if crown == Some(Player1) {
        player1.SetState(Win);
      } else if crown == Some(Player2) {
        player2.SetState(Win);
      }
    }

    /** Record the outcome of a game-over check. */
    method SetVerdict(v: Verdict)
      modifies this
      ensures Standing() == old(Standing()).(verdict := v)
      ensures player1 == old(player1) && player2 == old(player2) && camera == old(camera)
      ensures Session() == old(Session())
    {
      isGameOver, winner, winTriggered := v.isGameOver, v.winner, v.winTriggered;
    }

    /** An inbound SYNC: the fighter this peer mirrors takes the payload. */
    method OnSync(p: SyncPayload)
      requires Valid()
      modifies player1, player2
      ensures Valid()
      ensures Seat(SyncTarget(isHost)).View() == Fighters.SyncFromNetwork(old(Seat(SyncTarget(isHost)).View()), p)
      ensures Seat(Broadcast(isHost)).View() == old(Seat(Broadcast(isHost)).View())
    {
      var target := if isHost then player2 else player1;
      target.SyncFromNetwork(p);
    }

    /**
     * An inbound HIT: the named fighter takes the damage and the ordinary
     * knockback away from the other one (see `ReceiveHit`), and the hit
     * sound is played.
     */
    method OnHit(d: Damage, targetP1: bool)
      requires Valid()
      modifies this, replay, player1, player2
      ensures Valid()
      ensures targetP1 ==> player1.View() == ReceiveHit(old(player1.View()), old(player2.x), d) && player2.View() == old(player2.View())
      ensures !targetP1 ==> player2.View() == ReceiveHit(old(player2.View()), old(player1.x), d) && player1.View() == old(player1.View())
      ensures !replay.isReplaying ==> audio == old(audio) + [d] && replay.pending == old(replay.pending) + [d]
      ensures replay.isReplaying ==> audio == old(audio) && replay.pending == old(replay.pending)
      ensures Untouched() == old(Untouched()) && outbox == old(outbox)
    {
      var victim := if targetP1 then player1 else player2;
      var attacker := if targetP1 then player2 else player1;
      Knock(victim, attacker.x, d);
      PlayHitSound(d);
    }

    /** The victim of a received hit takes the damage and the ordinary knockback away from the attacker at `attackerX`. */
    static method Knock(victim: Players.Player, attackerX: real, d: Damage)
      requires victim.Valid()
      modifies victim
      ensures victim.Valid() && victim.opponent == old(victim.opponent)
      ensures victim.View() == ReceiveHit(old(victim.View()), attackerX, d)
    {
      victim.TakeDamage(d);
      victim.vx := victim.vx + Fighters.Push(attackerX, victim.x, KNOCKBACK_FORCE);
    }

    /**
     * Join a network session: the role is fixed, the disconnect flag is
     * cleared and the match is reset with control by role.
     */
    method SetupNetwork(isHost: bool)
      modifies this, replay
      ensures Valid() && FreshMatch()
      ensures networked && this.isHost == isHost && !opponentDisconnected
      ensures outbox == old(outbox) && audio == old(audio)
    {
      networked, this.isHost, opponentDisconnected := true, isHost, false;
      Reset();
    }

    /**
     * An inbound message: a SYNC is mirrored onto the remote fighter, a HIT
     * is received (see `OnHit`), a RESTART resets the match; anything else
     * is ignored.
     */
    method OnMessage(msg: NetworkMessage)
      requires Valid()
      modifies this, replay, player1, player2
      ensures Valid()
      ensures msg.Sync? ==>
                && Seat(SyncTarget(isHost)).View() == Fighters.SyncFromNetwork(old(Seat(SyncTarget(isHost)).View()), msg.payload)
                && Seat(Broadcast(isHost)).View() == old(Seat(Broadcast(isHost)).View())
                && Untouched() == old(Untouched()) && outbox == old(outbox) && audio == old(audio)
      ensures msg.Hit? && msg.targetP1 ==>
                player1.View() == ReceiveHit(old(player1.View()), old(player2.x), msg.damageType)
                && player2.View() == old(player2.View())
      ensures msg.Hit? && !msg.targetP1 ==>
                player2.View() == ReceiveHit(old(player2.View()), old(player1.x), msg.damageType)
                && player1.View() == old(player1.View())
      ensures msg.Hit? ==> Untouched() == old(Untouched()) && outbox == old(outbox)
      ensures msg.Restart? ==> FreshMatch() && Session() == old(Session())
      ensures msg.Unrecognized? ==>
                && Untouched() == old(Untouched()) && outbox == old(outbox) && audio == old(audio)
                && player1.View() == old(player1.View()) && player2.View() == old(player2.View())
    {
      match msg
      case Sync(p) => OnSync(p);
      case Hit(d, targetP1) => OnHit(d, targetP1);
      case Restart => Reset();
      case Unrecognized =>
    }

    /**
     * The part of the camera follow that the match rules depend on: the KO
     * clock runs once the gloves have landed and the match is over with a
     * winner. Zoom, pan and shake are not modelled.
     */
    method UpdateCamera(delta: real)
      modifies this
      ensures Standing() == old(Standing()).(koTimer := KoTimer(old(koTimer), glovesLanded, old(Standing()).verdict, delta))
      ensures player1 == old(player1) && player2 == old(player2) && camera == old(camera)
      ensures Session() == old(Session())
    {
      if !glovesLanded {
      } else if isGameOver && winner.Some? {
        koTimer := koTimer + delta;
      }
    }

    /**
     * A live tick after the fighters have moved: capture a replay frame,
     * run the game-over check, advance the KO clock, and send the local
     * fighter's state when a link is attached.
     */
    method LiveUpdate(delta: real, entities: seq<EntitySnapshot>)
      requires Valid()
      modifies this, replay, player1, player2
      ensures Valid()
      ensures var o := Observation(old(player1.state), old(player2.state), delta);
              && Standing() == Next(old(Standing()), o)
              && player1.View() == (if LiveStep(old(Standing()), o).crowned == Some(Player1) then Fighters.SetState(old(player1.View()), Win) else old(player1.View()))
              && player2.View() == (if LiveStep(old(Standing()), o).crowned == Some(Player2) then Fighters.SetState(old(player2.View()), Win) else old(player2.View()))
      ensures old(isGameOver && koTimer > 5000.0) ==> replay.buffer == old(replay.buffer) && replay.pending == old(replay.pending)
      ensures !old(isGameOver && koTimer > 5000.0) ==>
                && replay.buffer == old(replay.buffer) + [Replay.Capture(old(player1.View()), old(player2.View()), camera, entities, old(replay.pending))]
                && replay.pending == []
      ensures replay.isReplaying == old(replay.isReplaying) && replay.index == old(replay.index)
      ensures replay.speed == old(replay.speed) && replay.pool == old(replay.pool)
      ensures outbox == old(outbox) + if networked then [Sync(Fighters.GetSyncState(Seat(Broadcast(isHost)).View()))] else []
      ensures player1 == old(player1) && player2 == old(player2) && camera == old(camera)
      ensures networked == old(networked) && isHost == old(isHost) && opponentDisconnected == old(opponentDisconnected)
      ensures audio == old(audio)
    {
      replay.RecordFrame(isGameOver, koTimer, player1, player2, camera, entities);
      Officiate(delta);
      if networked {
        BroadcastState();
      }
    }

    /** The match rules of a live tick: the game-over check, then the KO clock. */
    method Officiate(delta: real)
      requires Valid()
      modifies this, player1, player2
      ensures Valid()
      ensures var o := Observation(old(player1.state), old(player2.state), delta);
              && Standing() == Next(old(Standing()), o)
              && player1.View() == (if LiveStep(old(Standing()), o).crowned == Some(Player1) then Fighters.SetState(old(player1.View()), Win) else old(player1.View()))
              && player2.View() == (if LiveStep(old(Standing()), o).crowned == Some(Player2) then Fighters.SetState(old(player2.View()), Win) else old(player2.View()))
      ensures player1 == old(player1) && player2 == old(player2) && camera == old(camera)
      ensures Session() == old(Session())
    {
      CheckGameOver();
      UpdateCamera(delta);
    }

    /**
     * A replay tick: the cursor moves (see `Replay.Tick`), the sounds of
     * the frames passed over are played, and the frame under the cursor is
     * shown, camera included.
     */
    method ReplayUpdate()
      requires Valid()
      modifies this, replay, player1, player2
      ensures Valid()
      ensures Standing() == old(Standing()) && player1 == old(player1) && player2 == old(player2)
      ensures networked == old(networked) && isHost == old(isHost) && opponentDisconnected == old(opponentDisconnected)
      ensures outbox == old(outbox)
      ensures replay.isReplaying == old(replay.isReplaying) && replay.buffer == old(replay.buffer) && replay.pending == old(replay.pending)
      ensures old(replay.buffer) == [] ==>
                && audio == old(audio) && camera == old(camera)
                && replay.index == old(replay.index) && replay.speed == old(replay.speed) && replay.pool == old(replay.pool)
                && player1.View() == old(player1.View()) && player2.View() == old(player2.View())
      ensures old(replay.buffer) != [] ==>
                var t := Replay.Tick(replay.buffer, Replay.Playhead(old(replay.index), old(replay.speed)));
                var frame := replay.buffer[replay.index];
                && Replay.Playhead(replay.index, replay.speed) == t.head
                && audio == old(audio) + t.sounds
                && camera == frame.camera
                && player1.View() == Fighters.SetFromSnapshot(old(player1.View()), frame.p1)
                && player2.View() == Fighters.SetFromSnapshot(old(player2.View()), frame.p2)
                && replay.pool == Replay.PoolAfter(old(replay.pool), frame.entities)
    {
      var sounds, shown := replay.Update(player1, player2);
      Hear(sounds, shown);
    }

    /** Play the given sounds and move the camera to a shown frame's camera, if any. */
    method Hear(sounds: seq<Damage>, shown: Option<Camera>)
      modifies this
      ensures audio == old(audio) + sounds
      ensures camera == if shown.Some? then shown.value else old(camera)
      ensures Standing() == old(Standing()) && player1 == old(player1) && player2 == old(player2)
      ensures networked == old(networked) && isHost == old(isHost) && opponentDisconnected == old(opponentDisconnected)
      ensures outbox == old(outbox)
    {
      audio := audio + sounds;
      Point(shown);
    }

    /** Move the camera to a shown frame's camera, if any. */
    method Point(shown: Option<Camera>)
      modifies this
      ensures camera == if shown.Some? then shown.value else old(camera)
      ensures Standing() == old(Standing()) && player1 == old(player1) && player2 == old(player2)
      ensures Session() == old(Session())
    {
      if shown.Some? {
        camera := shown.value;
      }
    }

    /**
     * The tick handler after the fighters' own updates. Replay mode and
     * live mode exclude each other: while replaying only the replay
     * advances (nothing is recorded, judged, clocked or sent); otherwise
     * the replay cursor is left alone and no recorded sound is played.
     */
    method HandlePostUpdate(delta: real, entities: seq<EntitySnapshot>)
      requires Valid()
      modifies this, replay, player1, player2
      ensures Valid()
      ensures replay.isReplaying == old(replay.isReplaying)
      ensures player1 == old(player1) && player2 == old(player2)
      ensures old(replay.isReplaying) ==>
                && Standing() == old(Standing()) && outbox == old(outbox)
                && replay.buffer == old(replay.buffer) && replay.pending == old(replay.pending)
      ensures old(replay.isReplaying) ==>
                && networked == old(networked) && isHost == old(isHost) && opponentDisconnected == old(opponentDisconnected)
      ensures old(replay.isReplaying) && old(replay.buffer) == [] ==>
                && audio == old(audio) && camera == old(camera)
                && replay.index == old(replay.index) && replay.speed == old(replay.speed) && replay.pool == old(replay.pool)
                && player1.View() == old(player1.View()) && player2.View() == old(player2.View())
      ensures old(replay.isReplaying) && old(replay.buffer) != [] ==>
                var t := Replay.Tick(replay.buffer, Replay.Playhead(old(replay.index), old(replay.speed)));
                var frame := replay.buffer[replay.index];
                && Replay.Playhead(replay.index, replay.speed) == t.head
                && audio == old(audio) + t.sounds
                && camera == frame.camera
                && player1.View() == Fighters.SetFromSnapshot(old(player1.View()), frame.p1)
                && player2.View() == Fighters.SetFromSnapshot(old(player2.View()), frame.p2)
                && replay.pool == Replay.PoolAfter(old(replay.pool), frame.entities)
      ensures !old(replay.isReplaying) ==>
                && Standing() == Next(old(Standing()), Observation(old(player1.state), old(player2.state), delta))
                && replay.index == old(replay.index) && replay.speed == old(replay.speed)
                && audio == old(audio) && camera == old(camera)
      ensures !old(replay.isReplaying) ==>
                var o := Observation(old(player1.state), old(player2.state), delta);
                && player1.View() == (if LiveStep(old(Standing()), o).crowned == Some(Player1) then Fighters.SetState(old(player1.View()), Win) else old(player1.View()))
                && player2.View() == (if LiveStep(old(Standing()), o).crowned == Some(Player2) then Fighters.SetState(old(player2.View()), Win) else old(player2.View()))
      ensures !old(replay.isReplaying) && old(isGameOver && koTimer > 5000.0) ==>
                replay.buffer == old(replay.buffer) && replay.pending == old(replay.pending)
      ensures !old(replay.isReplaying) && !old(isGameOver && koTimer > 5000.0) ==>
                && replay.buffer == old(replay.buffer) + [Replay.Capture(old(player1.View()), old(player2.View()), camera, entities, old(replay.pending))]
                && replay.pending == []
      ensures !old(replay.isReplaying) ==>
                && replay.pool == old(replay.pool)
                && outbox == old(outbox) + (if networked then [Sync(Fighters.GetSyncState(Seat(Broadcast(isHost)).View()))] else [])
                && networked == old(networked) && isHost == old(isHost) && opponentDisconnected == old(opponentDisconnected)
    {
      if replay.isReplaying {
        ReplayUpdate();
      } else {
        LiveUpdate(delta, entities);
      }
    }

    /**
     * Enter or leave replay mode. Entering rewinds to the first frame at
     * normal speed; leaving shows the last recorded frame and its camera.
     */
    method ToggleReplay(enable: bool)
      requires Valid()
      modifies this, replay, player1, player2
      ensures Valid()
      ensures replay.isReplaying == enable
      ensures Standing() == old(Standing()) && player1 == old(player1) && player2 == old(player2)
      ensures Session() == old(Session())
      ensures replay.buffer == old(replay.buffer) && replay.pending == old(replay.pending)
      ensures enable ==>
                && replay.index == 0 && replay.speed == 1 && camera == old(camera) && replay.pool == old(replay.pool)
                && player1.View() == old(player1.View()) && player2.View() == old(player2.View())
      ensures !enable ==> replay.index == old(replay.index) && replay.speed == old(replay.speed)
      ensures !enable && old(replay.buffer) == [] ==>
                && camera == old(camera) && replay.pool == old(replay.pool)
                && player1.View() == old(player1.View()) && player2.View() == old(player2.View())
      ensures !enable && old(replay.buffer) != [] ==>
                var last := replay.buffer[|replay.buffer| - 1];
                && camera == last.camera
                && player1.View() == Fighters.SetFromSnapshot(old(player1.View()), last.p1)
                && player2.View() == Fighters.SetFromSnapshot(old(player2.View()), last.p2)
                && replay.pool == Replay.PoolAfter(old(replay.pool), last.entities)
    {
      var shown := replay.ToggleReplay(enable, player1, player2);
      Point(shown);
    }

    /** The playback speed chosen in the replay controls; the cursor is left alone. */
    method SetPlaybackSpeed(speed: int)
      requires Valid()
      modifies replay
      ensures Valid() && replay.speed == speed
      ensures replay.isReplaying == old(replay.isReplaying) && replay.buffer == old(replay.buffer)
      ensures replay.index == old(replay.index) && replay.pending == old(replay.pending) && replay.pool == old(replay.pool)
    {
      replay.SetPlaybackSpeed(speed);
    }

    /** Move the replay cursor to a fraction of the recording; on an empty recording nothing happens. */
    method SeekTo(p: real)
      requires Valid()
      modifies replay
      ensures Valid()
      ensures replay.buffer == [] ==> replay.index == old(replay.index)
      ensures replay.buffer != [] ==> replay.index == Replay.SeekIndex(p, |replay.buffer|)
      ensures replay.isReplaying == old(replay.isReplaying) && replay.buffer == old(replay.buffer)
      ensures replay.speed == old(replay.speed) && replay.pending == old(replay.pending) && replay.pool == old(replay.pool)
    {
      replay.SeekTo(p);
    }
  }
}
