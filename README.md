# Enforcer: fighters, replay and match driver in Dafny

Enforcer is a two-player hockey-fight game. Each fighter runs a small state
machine (idle, ready, throw_gloves, the three attacks, the two hit
reactions, held, falling, down, win). A static animation table drives that
machine: frames, per-frame durations, loop flag, successor state, hit frame
and glove-drop frame. A match driver does five jobs:
- it decides the game over and crowns the winner once a KO clock has run;
- it sends and receives SYNC, HIT and RESTART messages between two peers;
- it records every live tick into a replay buffer;
- it plays the buffer back with a clamped integer cursor, a signed speed and
  the recorded hit sounds;
- it draws the recorded blood and glove entities with a pool of reusable
  handles.

The project models that core in six modules:

- `Types` (types.dfy): the shared datatypes. These are animation states,
  damage kinds, hit types, the SYNC payload, the player and entity
  snapshots, the game snapshot and the network messages.
- `Animations` (animations.dfy): the animation table as a total function
  `Anim` over the states, with the tuning constants. It also holds an
  explicit per-state frame cursor, which stands in for the rendering
  library's animation player.
- `Fighters` (fighter.dfy): a fighter as a value, with one pure function per
  fighter operation and the lemmas that state the fight rules.
- `Players` (player.dfy): the fighter as a class whose fields change in
  place. Each method is proved to leave the fields equal to the pure function
  of the same name, applied to the fields before the call.
- `Replay` (replay.dfy): the replay cursor, the sound and seek rules, the
  handle pool as pure functions with their lemmas, and the `ReplayManager`
  class proved against them.
- `Game` (game.dfy): the match rules as pure functions over runs of ticks,
  and the `HockeyGame` class. That class holds the outcome fields, both
  fighters, the replay recorder, the link to the peer as an outbox of
  messages, and the sounds played.

The game object carries its own copy of the replay recorder and player
(game/HockeyGame.ts:276-418). That copy is the one the running game uses. It
behaves as the stand-alone recorder in game/ReplayManager.ts does, apart from
two details:
- its frame display has no check for a missing fighter (the game always has
  both after a reset);
- its replayed sounds use a fixed volume.

Both copies are modelled by the one `Replay.ReplayManager` class, which the
`HockeyGame` class holds as its `replay` field.

Where the design notes of the system and its code disagree, the model follows
the code:
- The set of fighters open to a punch is idle, ready, held and the three
  attacks. The hit reactions are not in it.
- An attack in range marks the hit as spent whether or not it lands.
- A SYNC message overwrites health, so health can rise.
- A received HIT damages its victim without any vulnerability check.
- The playback speed is stored as given, not clamped.
- Game snapshots carry the hit sounds queued since the previous capture.
  The code writes them, although the shared type declaration does not list
  them.

## Model

| member | source | states |
|---|---|---|
| Animations.Anim | constants.ts:77-145 | Every state has as many durations as frames, at least one frame and positive durations. Exactly idle, ready, down and win loop, and exactly the one-shot states have a successor. A hit type goes with every hit frame. Hit and drop frames are never the last frame. |
| Animations.Successors | constants.ts:80-139 | Every one-shot state's successor is ready, except falling, whose successor is down; down has no successor. |
| Animations.SuccessorsSettle | constants.ts:77-145 | A successor state always loops, so following successors settles after one step. |
| Animations.HitFrames | constants.ts:87-110 | Only high_punch (frame 1, high), low_punch (frame 1, low) and grab (frame 0, grab) have a hit frame. |
| Animations.DropFrames | constants.ts:80-86 | Only throw_gloves drops its gloves, at frame 3 of its 5 frames. |
| Animations.Rewind | game/Player.ts:258-266 | Restarting an animation puts it at frame 0, not done, playing. |
| Animations.GoToFrame | game/Player.ts:261-264 | Jumping to a frame inside the animation starts that frame; an index outside it changes nothing. |
| Animations.Advance | constants.ts:77-145 | A tick keeps the cursor on a frame of its state. A paused or finished cursor stays put. The cursor moves at most one frame forward, or wraps to 0. Only a one-shot animation on its last frame can finish. |
| Animations.OneShotFinishes | constants.ts:77-145 | A one-shot animation ticked with ticks at least as long as its longest frame finishes on its last frame after exactly as many ticks as it has frames left. |
| Fighters.Fresh | game/Player.ts:8-39 | A new fighter has full health and is idle, locked, with no hit spent and no gloves dropped. It stands at its start position at rest, facing right exactly when it is player 1. |
| Fighters.Spawn | game/Player.ts:86 | A fighter entering the match is in throw_gloves with full health, locked, at rest at its start position, with the animation at its first frame. |
| Fighters.SetState | game/Player.ts:243-268 | Down is absorbing, and requesting the current state changes nothing. Otherwise the state is entered with both one-shot flags cleared and locked exactly when it does not loop. Win zeroes the velocity. The animation restarts at frame 0, or for win at frame 3 for player 1 and 7 for player 2. Position, health and identity are unchanged. |
| Fighters.DownIsAbsorbing | game/Player.ts:244 | No series of state requests moves a fighter out of down. |
| Fighters.TakeDamage | game/Player.ts:429-436 | Health drops by exactly one. The fighter enters falling when health reaches 0, otherwise the reaction matching the damage (down stays down). Position and velocity are unchanged. |
| Fighters.CanBeHit | game/Player.ts:424-427 | A fighter is open to a punch exactly when it is in idle, ready, held, high_punch, low_punch or grab. |
| Fighters.CheckHit | game/Player.ts:375-418 | The attacker's hit is spent exactly when the target is within hit range. Both fighters stay valid. |
| Fighters.MissOutOfRange | game/Player.ts:377-378 | Out of range an attack changes neither fighter and requests nothing, so it is tried again on the next tick. |
| Fighters.GrabbableAfterEntry | game/Player.ts:420-422 | A fighter that has just entered a state can be grabbed exactly when that state loops. |
| Fighters.GrabRule | game/Player.ts:384-388 | A grab in range on a grabbable target puts it in held. Otherwise the target is unchanged, and a grab never requests any effect. |
| Fighters.StrikeRule | game/Player.ts:389-413 | A punch in range on a vulnerable target makes it take the damage and pushes it away from the attacker, with the finisher force when its health minus one is at most 0. The camera shake and the hit sound are requested. Blood flies only for a high punch. A HIT for the other side is sent only in a networked match. Otherwise the target is unchanged and nothing is requested. |
| Fighters.HitLeavesDownDown | game/Player.ts:375-418 | An attack never moves its target out of down. |
| Fighters.HitMessageRule | game/Player.ts:414-416 | A HIT message is requested exactly when all of these hold: a networked match, a punch, in range, a vulnerable target, and the other side named as victim. |
| Fighters.GrabOnDownChangesNothing | game/Player.ts:420-422 | An unlocked fighter in down is grabbable, yet a grab on it only spends the attacker's hit. |
| Fighters.ApplyPhysics | game/Player.ts:321-337 | After moving and friction, the position lies in the arena [100, 700]. Inside the arena it is exactly position plus velocity, with velocity times friction. At an edge an outward velocity is reversed and scaled by the bounce factor. Nothing else changes. |
| Fighters.CheckCollisions | game/Player.ts:339-352 | The fighter is unchanged without an opponent or when down or falling. Otherwise it ends at least the hitbox width from the opponent, facing it. When it was too close, it is pushed to exactly that width on its own side, at rest. Nothing else changes. |
| Fighters.SeparationWithinReach | constants.ts:42-43 | Fighters pushed apart to the minimum separation are still within hit range of each other. |
| Fighters.SeparationCanLeaveArena | game/Player.ts:339-352 | The separation push is not clamped: a fighter at the left edge pushed by a close opponent ends outside the arena. |
| Fighters.HandleInput | game/Player.ts:270-319 | A locked fighter, or one held, falling, down or in win, ignores its intents. A free fighter's velocity loses the move speed for left and gains it for right, so the two cancel, and its position, health and facing are unchanged. |
| Fighters.LastAttackWins | game/Player.ts:314-318 | With several attack intents at once, the last request wins (grab over low over high). Opposite or no movement and no attack leaves the fighter unchanged. |
| Fighters.SyncFromNetwork | game/Player.ts:193-202 | Position, facing and health are copied from the payload. The state is entered only when it differs, so a mirror in down stays down. The velocity is copied, except that entering win zeroes it. |
| Fighters.SyncRoundTrip | game/Player.ts:182-202 | A mirror that takes a fighter's SYNC payload shows the fighter's position, facing and health, and its state unless the mirror is down. |
| Fighters.SyncAllKeepsLast | game/Player.ts:193-202 | After a stream of SYNC payloads that never says down, the mirror shows the last payload's position, facing, health and state. |
| Fighters.GetSnapshot | game/Player.ts:204-216 | The snapshot records the fighter's position, state, current frame, facing, health and visibility. The frame index is a frame of that state. |
| Fighters.SnapshotRestores | game/Player.ts:204-241 | Showing a fighter's snapshot on any fighter restores its position, state, current frame, facing, health and visibility. |
| Fighters.GetSyncState | game/Player.ts:182-191 | The payload carries the fighter's position, velocity, state, facing and health. |
| Fighters.SetFromSnapshot | game/Player.ts:218-241 | Position, facing, health, visibility and state are taken from the snapshot, and the animation is paused. Velocity and the lock and one-shot flags are unchanged. |
| Fighters.ShowFrame | game/Player.ts:233-240 | The shown cursor stays on a frame of its state and is paused. A recorded frame inside the animation is the one shown. |
| Fighters.SnapshotRoundTrip | game/Player.ts:204-241 | Applying a fighter's snapshot to any fighter and taking its snapshot again gives the same snapshot. |
| Fighters.ShowTwice | game/Player.ts:218-241 | Showing the same snapshot twice leaves the fighter exactly as showing it once. A paused replay re-applying its frame every tick therefore changes no fighter. |
| Fighters.Animate | game/Player.ts:109-125 | Only the current state's animation advances, as `Advance` says. |
| Fighters.PausedStaysPut | game/Player.ts:239 | A fighter shown from a snapshot is paused, so later ticks leave it as it is. |
| Fighters.Complete | game/Player.ts:360-365 | A finished one-shot animation with a successor moves the fighter to the table's successor state and releases the animation lock. Otherwise the fighter is unchanged. The result stays valid. |
| Fighters.DropGloves | game/Player.ts:438-444 | The dropped gloves land 60 px below the fighter and 20 px behind it: to the left for player 1, to the right for player 2. |
| Fighters.UpdateAnimationLogic | game/Player.ts:354-373 | Both fighters stay valid. The opponent is touched only by a local fighter at its hit frame. Down stays down, its own and its opponent's. |
| Fighters.CompletionFollowsTable | game/Player.ts:360-365 | A finished one-shot animation enters the table's successor, unlocked, and that tick neither drops gloves nor hits. |
| Fighters.GlovesDropOnce | game/Player.ts:366-369 | The gloves are dropped at frame 3 of throw_gloves once. A second tick on that frame requests nothing. |
| Fighters.HitEvaluatedOnce | game/Player.ts:370-379 | In range at the hit frame, the hit is spent, and a further tick in the same state leaves the opponent alone. Out of range nothing changes. |
| Fighters.PreUpdate | game/Player.ts:109-125 | While replaying a fighter does nothing. A remote fighter never changes its opponent. Down survives a full live tick, of the fighter itself or of its opponent. |
| Fighters.DownIsTerminal | game/Player.ts:244 | Down survives state requests, damage, attacks, SYNC payloads and animation ticks. |
| Fighters.HighPunchScenario | game/Player.ts:389-413 | A high punch landing on a full-health fighter in ready leaves it with 4 health, reacting high, pushed by the ordinary force. |
| Fighters.FinisherScenario | game/Player.ts:389-396 | A punch on a fighter with one health point left fells it with the finisher force. |
| Players.Player.constructor | game/Player.ts:30-86 | A new fighter object equals `Fighters.Spawn` at its start position, without an opponent: the constructor's fields (lines 30-39) followed by the entry into throw_gloves at the end of `onInitialize` (line 86). |
| Players.Player.SetState | game/Player.ts:243-268 | The fields after the call equal `Fighters.SetState` of the fields before. |
| Players.Player.TakeDamage | game/Player.ts:429-436 | The fields after the call equal `Fighters.TakeDamage` of the fields before. |
| Players.Player.CheckHit | game/Player.ts:375-418 | The attacker and opponent fields equal `Fighters.CheckHit` of both before, and the effects returned are the ones it requests. |
| Players.Player.LandPunch | game/Player.ts:389-413 | The opponent takes the damage and the push (finisher force when its health minus one is at most 0), and the punch effects are returned. |
| Players.Player.ApplyPhysics | game/Player.ts:321-337 | The fields after the call equal `Fighters.ApplyPhysics` of the fields before. |
| Players.Player.CheckCollisions | game/Player.ts:339-352 | The fields after the call equal `Fighters.CheckCollisions` against the opponent's position. |
| Players.Player.HandleInput | game/Player.ts:270-319 | The fields after the call equal `Fighters.HandleInput` of the fields before. |
| Players.Player.SyncFromNetwork | game/Player.ts:193-202 | The fields after the call equal `Fighters.SyncFromNetwork` of the fields before. |
| Players.Player.SetFromSnapshot | game/Player.ts:218-241 | The fields after the call equal `Fighters.SetFromSnapshot` of the fields before. |
| Players.Player.Animate | game/Player.ts:109-125 | The fields after the call equal `Fighters.Animate` of the fields before. |
| Players.Player.FinishAnimation | game/Player.ts:360-365 | The fields after the call equal `Fighters.Complete` of the fields before: the table's successor, unlocked, once the animation has finished, and otherwise no change. |
| Players.Player.UpdateAnimationLogic | game/Player.ts:354-373 | Both fighters' fields and the effects returned equal `Fighters.UpdateAnimationLogic` of both before. |
| Players.Player.PreUpdate | game/Player.ts:109-125 | Both fighters' fields and the effects returned equal `Fighters.PreUpdate` of both before. |
| Replay.Tick | game/ReplayManager.ts:122-151 | The cursor stays in the buffer. Reaching or passing the last frame stops there at speed 0, and going below frame 0 stops at 0 at speed 0. Otherwise the cursor moves by exactly the speed, forwards or backwards, and keeps it. A forward move that is not stopped plays the sounds of every frame after the old position up to the new one, in order, and a reverse move, a pause or a stop at the last frame plays none. |
| Replay.Play | game/ReplayManager.ts:122-157 | Any number of ticks keeps the cursor inside the buffer. |
| Replay.PausedStaysPut | game/ReplayManager.ts:126-156 | At speed 0 the cursor never moves and no sound plays, however many ticks run. The frame re-applied each tick changes neither fighter (`Fighters.ShowTwice`) nor the entity pool (`Replay.PoolReapply`). |
| Replay.ForwardTick | game/ReplayManager.ts:125-151 | At normal speed short of the end, a tick moves one frame and plays exactly that frame's sounds. |
| Replay.ForwardPlay | game/ReplayManager.ts:125-151 | k ticks at normal speed short of the end move k frames and play exactly those frames' sounds in order. |
| Replay.LastStep | game/ReplayManager.ts:128-131 | A step onto the last frame stops playback and plays nothing, and stays stopped. |
| Replay.ForwardPlayToEnd | game/ReplayManager.ts:125-151 | Playing forward past the end stops at the last frame. Every sound from the start position up to the frame before the last plays once, and the last frame's sounds never play. |
| Replay.ReverseIsSilent | game/ReplayManager.ts:137-151 | Playing backward or paused never plays a sound and never turns forward. |
| Replay.SeekIndex | game/ReplayManager.ts:72-75 | Seeking selects the floor of the limited fraction times the last index. Seeking to 1 or beyond selects the last frame, and to 0 or below the first. |
| Replay.Progress | game/HockeyGame.ts:533-534 | The progress shown is 0 for an empty buffer and lies in [0, 1) for a cursor in the buffer. |
| Replay.SeekToProgress | game/HockeyGame.ts:298-301 | Seeking to the progress shown for frame i > 0 selects frame i - 1, because progress divides by the length and seeking scales by the last index. |
| Replay.PoolAfter | game/ReplayManager.ts:167-199 | The pool grows to the entity count and never shrinks. Handle k shows entity k, and exactly the first entity-count handles are visible, the rest hidden. |
| Replay.PoolReapply | game/ReplayManager.ts:167-199 | Showing the same frame again leaves the pool unchanged. |
| Replay.PoolHighWater | game/ReplayManager.ts:174-178 | After several frames the pool is at least as long as it was and as every frame's entity list. |
| Replay.Capture | game/ReplayManager.ts:104-112 | A captured frame holds each fighter's own snapshot, player 1's and player 2's, and carries the camera, the entities and the queued sounds. |
| Replay.CollectSounds | game/ReplayManager.ts:140-150 | The loop gathers exactly the sounds of the frames in the range, in order. |
| Replay.ReplayManager.constructor | game/ReplayManager.ts:13-20 | A new recorder is not replaying and has an empty buffer, pool and queue, at index 0 and speed 1. |
| Replay.ReplayManager.Reset | game/ReplayManager.ts:41-48 | Reset leaves the recorder not replaying, with an empty buffer, pool and queue, at index 0 and speed 1. |
| Replay.ReplayManager.SetPlaybackSpeed | game/ReplayManager.ts:68-70 | The speed is stored as given, and nothing else changes. |
| Replay.ReplayManager.SeekTo | game/ReplayManager.ts:72-75 | On a non-empty buffer the cursor goes to `SeekIndex`, and on an empty one nothing changes. The speed is left alone. |
| Replay.ReplayManager.RecordSound | game/ReplayManager.ts:116-120 | A sound is queued only while not replaying. |
| Replay.ReplayManager.RecordFrame | game/ReplayManager.ts:77-114 | Exactly one captured frame carrying the queued sounds is appended, and the queue is emptied. Nothing is appended after more than five seconds of game over, or with a fighter missing. |
| Replay.ReplayManager.ApplySnapshot | game/ReplayManager.ts:159-199 | Both fighters take their recorded snapshot, the frame's camera is returned, and the pool becomes `PoolAfter` of the frame's entities. With a fighter missing nothing happens. |
| Replay.ReplayManager.ShowEntities | game/ReplayManager.ts:167-199 | The handle loops leave the pool equal to `PoolAfter`. |
| Replay.ReplayManager.ToggleReplay | game/ReplayManager.ts:50-66 | Entering rewinds to frame 0 at speed 1 and touches no fighter. Leaving shows the last recorded frame, if any. The buffer and queue are unchanged. |
| Replay.ReplayManager.Update | game/ReplayManager.ts:122-157 | On an empty buffer nothing changes. Otherwise cursor, speed and sounds are exactly `Tick`, and the frame under the new cursor is shown. At speed 0 a repeated call shows the same frame again, which changes nothing (`Replay.PausedStaysPut`, `Fighters.ShowTwice`, `Replay.PoolReapply`). |
| Game.LocalControl | game/HockeyGame.ts:241-254 | Without a link both fighters are local. With a link exactly one is, player 1 on the host. |
| Game.SyncRoles | game/HockeyGame.ts:129-134 | Each peer broadcasts the fighter it drives and applies SYNC to the other, so each fighter is driven by exactly one peer. |
| Game.Judge | game/HockeyGame.ts:508-529 | A running match ends exactly when a fighter is down or falling, with player 1 looked at first. The winner of an ended match never changes. The winner is crowned exactly when not yet crowned, with a winner, and the KO clock past 1000. |
| Game.KoTimer | game/HockeyGame.ts:432-437 | The KO clock grows by the tick length exactly when the gloves have landed and the match is over with a winner. Otherwise it stands still. |
| Game.WinnerIsFinal | game/HockeyGame.ts:509-517 | Once the match is over, no run of ticks reopens it or changes its winner. |
| Game.CrownedAtMostOnce | game/HockeyGame.ts:519-528 | A run of ticks crowns a winner at most once, and exactly when the crowned flag turns on. |
| Game.NoWinnerNoClock | game/HockeyGame.ts:167-172 | A match ended by a disconnect, without a winner, never changes again, and its KO clock never runs. |
| Game.GlovesFirst | game/HockeyGame.ts:432-437 | Until the gloves land, the KO clock stands still and nobody is crowned. |
| Game.ClockNeverRunsBack | game/HockeyGame.ts:436-437 | With ticks of non-negative length the KO clock never decreases. |
| Game.ReceiveHit | game/HockeyGame.ts:135-147 | A received hit costs one health point with the reaction of `TakeDamage`, and adds the ordinary knockback away from the other fighter. |
| Game.ReceivedHitIgnoresVulnerability | game/HockeyGame.ts:143 | A received hit damages even a fighter that is not open to a punch. |
| Game.ReceivedHitMirrorsLocalHit | game/HockeyGame.ts:135-147 | A non-finishing punch that lands locally sends one HIT. Applying that HIT on the other peer gives its victim exactly what the attacking peer computed. |
| Game.ReceivedFinisherUsesOrdinaryForce | game/HockeyGame.ts:145-146 | On a finisher, the receiving peer pushes with the ordinary force where the attacking peer used the finisher force. |
| Game.PunchRequests | game/Player.ts:389-416 | A landed punch requests its hit sound once, and its HIT exactly in a networked match. |
| Game.SpawnPair | game/HockeyGame.ts:236-257 | Two new fighters at (250, 250) and (550, 250), opponents of each other, with control by role. |
| Game.HockeyGame.constructor | game/HockeyGame.ts:122-174 | A match is set up with or without a link, then reset. |
| Game.HockeyGame.Reset | game/HockeyGame.ts:211-257 | Reset does five things. It clears the outcome, the KO clock and the gloves flag. It empties the replay at index 0 and speed 1. It spawns two new linked fighters with control by role. It puts the camera at (400, 200) with zoom 1. It keeps the disconnect flag. |
| Game.HockeyGame.SetupNetwork | game/HockeyGame.ts:122-126 | Joining a session fixes the role, clears the disconnect flag and resets. |
| Game.HockeyGame.OnDisconnect | game/HockeyGame.ts:167-172 | The disconnect flag is set and the match is over. The winner and the other fields are unchanged. |
| Game.HockeyGame.OnGlovesLanded | game/HockeyGame.ts:72-74 | Only the gloves-landed flag changes. |
| Game.HockeyGame.SendHit | game/HockeyGame.ts:177-184 | A HIT is queued only with a link. |
| Game.HockeyGame.BroadcastState | game/HockeyGame.ts:186-196 | The SYNC of the fighter this peer drives is queued only with a link. |
| Game.HockeyGame.RestartGame | game/HockeyGame.ts:198-204 | The match is reset, and a RESTART is queued exactly with a link. |
| Game.HockeyGame.PlayHitSound | game/HockeyGame.ts:111-119 | Only while not replaying, a sound is played and queued for the next capture. |
| Game.HockeyGame.ApplyEffects | game/Player.ts:389-416 | A fighter's requests are carried out in order. The hit sounds played and queued are exactly those requested, and the HITs sent are exactly those requested when a link exists. Nothing else changes. |
| Game.HockeyGame.CheckGameOver | game/HockeyGame.ts:508-529 | The outcome fields become `Judge` of the old ones, and exactly the crowned fighter enters win. |
| Game.HockeyGame.OnSync | game/HockeyGame.ts:129-134 | The SYNC goes to the fighter this peer mirrors, and the one it drives is untouched. |
| Game.HockeyGame.OnHit | game/HockeyGame.ts:135-161 | The named victim becomes `ReceiveHit` of itself against the other fighter's position, the other fighter is untouched, and the hit sound is played. |
| Game.HockeyGame.OnMessage | game/HockeyGame.ts:128-165 | SYNC goes to the mirror, HIT applies damage without checks, and RESTART resets. An unrecognised message changes nothing. |
| Game.HockeyGame.UpdateCamera | game/HockeyGame.ts:422-438 | The KO clock becomes `KoTimer` of the old one, and nothing else the model holds changes. |
| Game.HockeyGame.LiveUpdate | game/HockeyGame.ts:54-62 | A live tick has four effects. A frame is captured unless the match has been over for more than five seconds. The outcome and clock become `Next` of the old ones. Only the crowned fighter enters win. The local fighter's SYNC is queued when a link exists. |
| Game.HockeyGame.ReplayUpdate | game/HockeyGame.ts:343-417 | Cursor and speed are exactly `Tick`, and the sounds passed over are played. The frame under the cursor is shown: both fighters, the camera, and its blood and glove entities in the handle pool (`Replay.PoolAfter`). On an empty recording nothing changes. The outcome and the outbox are unchanged. |
| Game.HockeyGame.HandlePostUpdate | game/HockeyGame.ts:51-65 | While replaying, nothing is recorded, judged, clocked or sent. The cursor moves by `Tick`, the sounds passed over are played, and the frame under the cursor is shown with its camera and entities. Otherwise the replay cursor, speed and pool are untouched and no recorded sound is played. A frame is appended and the sound queue emptied, unless the match ended more than five seconds ago. The outcome follows `Next`, and the crowned fighter enters win. With a link, the local fighter's SYNC is queued. |
| Game.HockeyGame.ToggleReplay | game/HockeyGame.ts:276-292 | Entering rewinds to frame 0 at speed 1 and shows nothing new. Leaving keeps the cursor and speed. If anything was recorded, leaving shows the last frame: both fighters, its camera and its entities. With nothing recorded, leaving changes no fighter, the camera or the pool. The outcome and the outbox are unchanged. |
| Game.HockeyGame.SetPlaybackSpeed | game/HockeyGame.ts:294-296 | The speed is stored as given, and the cursor is untouched. |
| Game.HockeyGame.SeekTo | game/HockeyGame.ts:298-301 | On a non-empty buffer the cursor goes to `SeekIndex`, and on an empty one nothing changes. |

## Left out

- Rendering and asset loading: sprite sheets, the star indicator, graphics flipping (`updateGraphics`), the health bars, the rink, the nets and the resource table. None of it bears on the game state.
- The interface layer (the React application and its menus) and the published status object. Only the replay progress value is modelled (`Replay.Progress`). The state labels, the delayed game-over flag and the connection status are presentation.
- The network transport: sent messages are appended to an `outbox` sequence, and received messages are passed to `OnMessage`. There is no ordering, loss or connection setup.
- The live camera follow (target, zoom, lerp, clamping) and the camera shake use random numbers and floating-point easing. Only the KO clock, which the match rules depend on, is modelled; during a live tick the camera stays as it was. Shake, blood bursts and dropped gloves are effects a fighter requests and the match ignores.
- Blood particles and gloves are random float physics. The recorded entities are passed in as a parameter of the live tick, and gloves landing is the `OnGlovesLanded` event.
- The computer opponent (`handleAIInput`) is driven by random numbers and timers.
- The keyboard mapping is input I/O. A fighter receives its five intents as booleans.
- Audio playback and its volume: played sounds are appended to an `audio` sequence.
- The order in which the rendering library runs the fighters' pre-update and the match's post-update handler is not modelled. The animation clock advances only through the explicit `Animate` calls.
- Numbers are exact reals rather than floating point. The replay cursor and the playback speed are integers, because every writer produces integers.
- `FINISHER_KNOCKBACK_FORCE` and `BOUNCE_FACTOR` are declared without values. game/Player.ts:3 imports both from constants.ts, but constants.ts does not define either, so the source gives them no value.
- The animation player belongs to the rendering library, whose code is not part of this model. `Animations.Advance` and `Animations.GoToFrame` are modelled assumptions about it, not behaviour taken from the source: a one-shot animation is done only after its last frame's duration has run out, one tick moves at most one frame, an out-of-range `goToFrame` is ignored, and `goToFrame` clears the done flag.
- Entering replay mode also kills the live blood and glove actors in the scene. Scene actors are not modelled.
- Replay.ReplayManager.Update: the two replay copies differ in the volume of replayed sounds, which is not modelled.
- Game.HockeyGame.RestartGame: the RESTART message is queued before the reset rather than after it. The reset does not touch the outbox, so the state after the call is the same.
- Game.HockeyGame.constructor: the engine's own setup (`start`, the loader, `setupGame`) is not modelled. A match object is built already reset, with or without a link.
