/**
 * The replay recorder and player. While a match is live, every tick is
 * captured as a snapshot (both fighters, the camera, the transient blood and
 * glove entities, and the hit sounds queued since the previous capture) and
 * appended to an append-only buffer. In replay mode an integer cursor moves
 * through the buffer at a signed playback speed, is clamped to the buffer
 * (stopping playback at either end), replays the hit sounds of the frames a
 * forward move passes over, and shows the frame under the cursor, drawing
 * its entities with a pool of reusable handles.
 *
 * The pure functions state the rules; the `ReplayManager` class keeps the
 * same data in fields and is proved against them.
 */
module Replay {
  import opened Types
  import Fighters
  import Players

  function Max(a: int, b: int): int { if a < b then b else a }

  // ---------------------------------------------------------------------
  // Cursor and sounds

  /** The cursor position (a buffer index) and the signed playback speed, in frames per tick. */
  datatype Playhead = Playhead(index: int, speed: int)

  /** The outcome of one playback tick: where the cursor ends up, and the sounds played on the way. */
  datatype Playback = Playback(head: Playhead, sounds: seq<Damage>)

  /** The hit sounds recorded in frames lo .. hi-1, in frame order. */
  function Sounds(buffer: seq<GameSnapshot>, lo: int, hi: int): seq<Damage>
    requires 0 <= lo <= hi <= |buffer|
    decreases hi - lo
  {
    if lo == hi then [] else buffer[lo].sounds + Sounds(buffer, lo + 1, hi)
  }

  /**
   * One tick of playback on a non-empty buffer. The cursor moves by the
   * speed; reaching or passing the last frame stops there with speed 0, and
   * going below the first frame stops at frame 0 with speed 0. When the
   * cursor moved forward without being stopped, the sounds of every frame
   * after the old position up to and including the new one are played in
   * order; a backward move, a pause, and a move that is stopped at an end
   * play nothing.
   */
  function Tick(buffer: seq<GameSnapshot>, h: Playhead): (r: Playback)
    requires 0 <= h.index < |buffer|
    ensures 0 <= r.head.index < |buffer|
    ensures h.index + h.speed >= |buffer| - 1 ==> r.head == Playhead(|buffer| - 1, 0)
    ensures h.index + h.speed < 0 ==> r.head == Playhead(0, 0)
    ensures 0 <= h.index + h.speed < |buffer| - 1 ==> r.head == Playhead(h.index + h.speed, h.speed)
    ensures r.head.speed > 0 ==> r.sounds == Sounds(buffer, h.index + 1, r.head.index + 1)
    ensures h.speed > 0 && h.index + h.speed < |buffer| - 1 ==> r.sounds == Sounds(buffer, h.index + 1, h.index + h.speed + 1)
    ensures h.speed <= 0 ==> r.sounds == []
    ensures r.head.index == |buffer| - 1 ==> r.sounds == []
  {
    var n := |buffer|;
    var moved := h.index + h.speed;
    if moved >= n - 1 then Playback(Playhead(n - 1, 0), [])
    else if moved < 0 then Playback(Playhead(0, 0), [])
    else if h.speed > 0 then Playback(Playhead(moved, h.speed), Sounds(buffer, h.index + 1, moved + 1))
    else Playback(Playhead(moved, h.speed), [])
  }

  /** `k` ticks of playback, with the sounds of all of them in order. */
  function Play(buffer: seq<GameSnapshot>, h: Playhead, k: nat): (r: Playback)
    requires 0 <= h.index < |buffer|
    ensures 0 <= r.head.index < |buffer|
    decreases k
  {
    if k == 0 then Playback(h, [])
    else
      var t := Tick(buffer, h);
      var rest := Play(buffer, t.head, k - 1);
      Playback(rest.head, t.sounds + rest.sounds)
  }

  /** Appending the next frame's sounds extends the range by one frame. */
  lemma {:induction false} SoundsSnoc(buffer: seq<GameSnapshot>, lo: int, hi: int)
    requires 0 <= lo <= hi < |buffer|
    ensures Sounds(buffer, lo, hi + 1) == Sounds(buffer, lo, hi) + buffer[hi].sounds
    decreases hi - lo
  {
    if lo < hi {
      SoundsSnoc(buffer, lo + 1, hi);
    }
  }

  /** A paused cursor inside the buffer stays where it is and plays nothing, however often it ticks. */
  lemma {:induction false} PausedStaysPut(buffer: seq<GameSnapshot>, i: int, k: nat)
    requires 0 <= i < |buffer|
    ensures Play(buffer, Playhead(i, 0), k) == Playback(Playhead(i, 0), [])
    decreases k
  {
    if k > 0 {
      PausedStaysPut(buffer, i, k - 1);
    }
  }

  /** A tick at normal speed short of the last frame enters the next frame and plays its sounds. */
  lemma ForwardTick(buffer: seq<GameSnapshot>, j: int)
    requires 0 <= j && j + 1 < |buffer| - 1
    ensures Tick(buffer, Playhead(j, 1)) == Playback(Playhead(j + 1, 1), buffer[j + 1].sounds)
  {
    assert Sounds(buffer, j + 1, j + 2) == buffer[j + 1].sounds + Sounds(buffer, j + 2, j + 2);
  }

  /**
   * Playing forward at normal speed from frame i moves one frame per tick
   * and plays each frame's sounds, in order, as it is entered.
   */
  lemma {:induction false} ForwardPlay(buffer: seq<GameSnapshot>, i: int, k: nat)
    requires 0 <= i && i + k < |buffer| - 1
    ensures Play(buffer, Playhead(i, 1), k) == Playback(Playhead(i + k, 1), Sounds(buffer, i + 1, i + k + 1))
    decreases k
  {
    if k > 0 {
      ForwardTick(buffer, i);
      ForwardPlay(buffer, i + 1, k - 1);
    }
  }

  /** From the frame before the last, forward play enters the last frame, stops, and stays there silently. */
  lemma LastStep(buffer: seq<GameSnapshot>, k: nat)
    requires |buffer| >= 2 && k >= 1
    ensures Play(buffer, Playhead(|buffer| - 2, 1), k) == Playback(Playhead(|buffer| - 1, 0), [])
  {
    var n := |buffer|;
    var t := Tick(buffer, Playhead(n - 2, 1));
    assert t == Playback(Playhead(n - 1, 0), []);
    PausedStaysPut(buffer, n - 1, k - 1);
  }

  /**
   * Once forward play at normal speed reaches the last frame, playback
   * stops there, and the sounds played are those of the frames after the
   * starting one and before the last. The last frame is entered by a
   * stopped move, so its sounds are never played.
   */
  lemma {:induction false} ForwardPlayToEnd(buffer: seq<GameSnapshot>, i: int, k: nat)
    requires 0 <= i < |buffer| - 1 && i + k >= |buffer| - 1
    ensures Play(buffer, Playhead(i, 1), k) == Playback(Playhead(|buffer| - 1, 0), Sounds(buffer, i + 1, |buffer| - 1))
    decreases k
  {
    var n := |buffer|;
    if i + 1 < n - 1 {
      ForwardTick(buffer, i);
      ForwardPlayToEnd(buffer, i + 1, k - 1);
      var rest := Play(buffer, Playhead(i + 1, 1), k - 1);
      assert Play(buffer, Playhead(i, 1), k) == Playback(rest.head, buffer[i + 1].sounds + rest.sounds);
    } else {
      LastStep(buffer, k);
    }
  }

  /** Playing backwards (or not at all) never plays a sound, and the speed never turns positive. */
  lemma {:induction false} ReverseIsSilent(buffer: seq<GameSnapshot>, h: Playhead, k: nat)
    requires 0 <= h.index < |buffer| && h.speed <= 0
    ensures Play(buffer, h, k).sounds == []
    ensures Play(buffer, h, k).head.speed <= 0
    decreases k
  {
    if k > 0 {
      var t := Tick(buffer, h);
      ReverseIsSilent(buffer, t.head, k - 1);
    }
  }

  // ---------------------------------------------------------------------
  // Seeking and progress

  /** The requested fraction, limited to [0, 1]. */
  function Clamp01(p: real): real
  {
    if p < 0.0 then 0.0 else if p > 1.0 then 1.0 else p
  }

  /**
   * The frame a seek to fraction `p` selects in a buffer of n frames: the
   * floor of the limited fraction of the last index. Seeking to 1 or beyond
   * selects the last frame, to 0 or below the first.
   */
  function SeekIndex(p: real, n: nat): (k: int)
    requires n > 0
    ensures 0 <= k < n
    ensures k as real <= Clamp01(p) * (n - 1) as real < k as real + 1.0
    ensures p >= 1.0 ==> k == n - 1
    ensures p <= 0.0 ==> k == 0
  {
    ScaledFraction(Clamp01(p), n - 1);
    (Clamp01(p) * (n - 1) as real).Floor
  }

  /** A fraction of m lies between 0 and m. */
  lemma {:induction false} ScaledFraction(c: real, m: nat)
    requires 0.0 <= c <= 1.0
    ensures 0.0 <= c * m as real <= m as real
    decreases m
  {
    if m > 0 {
      ScaledFraction(c, m - 1);
      assert c * m as real == c * (m - 1) as real + c;
    }
  }

  /** The replay progress shown to the player: cursor over buffer length, 0 for an empty buffer. */
  function Progress(index: int, n: nat): (p: real)
    ensures n == 0 ==> p == 0.0
    ensures 0 <= index < n ==> 0.0 <= p < 1.0
  {
    if n > 0 then index as real / n as real else 0.0
  }

  /**
   * Progress divides by the buffer length while seeking scales by the last
   * index, so seeking to the progress shown for frame i > 0 selects frame
   * i - 1, and the progress never reaches 1.
   */
  lemma SeekToProgress(i: int, n: nat)
    requires 0 <= i < n
    ensures SeekIndex(Progress(i, n), n) == if i == 0 then 0 else i - 1
  {
    var p := Progress(i, n);
    var fn := n as real;
    assert p * fn == i as real;
    assert p * (n - 1) as real == i as real - p by {
      assert p * (n - 1) as real == p * fn - p;
    }
    if i > 0 {
      assert 0.0 < p <= 1.0;
      var k := SeekIndex(p, n);
      assert (i - 1) as real <= i as real - p < i as real;
    }
  }

  // ---------------------------------------------------------------------
  // Entity handles

  /** What a pooled handle draws: nothing yet, a blood square of a colour, or one fighter's gloves. */
  datatype Look = Blank | BloodLook(color: string) | GloveLook(isPlayer1: bool)

  /** One reusable drawing handle of the replay pool. */
  datatype Handle = Handle(x: real, y: real, z: int, scale: real, visible: bool, look: Look)

  /** A handle as created when the pool is too short; every field is overwritten before it is drawn. */
  const NewHandle: Handle := Handle(0.0, 0.0, 0, 1.0, true, Blank)

  function LookOf(kind: EntityKind): Look
  {
    match kind
    case Blood(color) => BloodLook(color)
    case Glove(isPlayer1) => GloveLook(isPlayer1)
  }

  /** A handle showing a recorded entity. */
  function Show(e: EntitySnapshot): Handle
  {
    Handle(e.x, e.y, e.zIndex, e.scale, true, LookOf(e.kind))
  }

  /**
   * The pool after showing a frame's entities: handle k shows entity k,
   * the pool grows to the entity count when it is shorter and never
   * shrinks, and every handle past the entity count is hidden, so exactly
   * the first |entities| handles are visible.
   */
  function PoolAfter(pool: seq<Handle>, entities: seq<EntitySnapshot>): (r: seq<Handle>)
    ensures |r| == Max(|pool|, |entities|)
    ensures forall k :: 0 <= k < |entities| ==> r[k] == Show(entities[k])
    ensures forall k :: |entities| <= k < |r| ==> r[k] == pool[k].(visible := false)
    ensures forall k :: 0 <= k < |r| ==> (r[k].visible <==> k < |entities|)
  {
    seq(Max(|pool|, |entities|), k requires 0 <= k < Max(|pool|, |entities|) =>
      if k < |entities| then Show(entities[k]) else pool[k].(visible := false))
  }

  /** Showing the same frame again leaves the pool as it is. */
  lemma PoolReapply(pool: seq<Handle>, entities: seq<EntitySnapshot>)
    ensures PoolAfter(PoolAfter(pool, entities), entities) == PoolAfter(pool, entities)
  {
  }

  /** The pool only ever grows to the largest entity count shown since it was emptied. */
  lemma {:induction false} PoolHighWater(pool: seq<Handle>, frames: seq<seq<EntitySnapshot>>)
    ensures |PoolAfterAll(pool, frames)| >= |pool|
    ensures forall i :: 0 <= i < |frames| ==> |PoolAfterAll(pool, frames)| >= |frames[i]|
    decreases |frames|
  {
    if frames != [] {
      var next := PoolAfter(pool, frames[0]);
      PoolHighWater(next, frames[1..]);
      forall i | 1 <= i < |frames|
        ensures |PoolAfterAll(pool, frames)| >= |frames[i]|
      {
        assert frames[i] == frames[1..][i - 1];
      }
    }
  }

  /** The pool after showing several frames in turn. */
  function PoolAfterAll(pool: seq<Handle>, frames: seq<seq<EntitySnapshot>>): seq<Handle>
    decreases |frames|
  {
    if frames == [] then pool else PoolAfterAll(PoolAfter(pool, frames[0]), frames[1..])
  }

  // ---------------------------------------------------------------------
  // The recorder and player

  /** A snapshot of the current tick. */
  function Capture(p1: Fighters.Fighter, p2: Fighters.Fighter, camera: Camera,
                   entities: seq<EntitySnapshot>, sounds: seq<Damage>): (s: GameSnapshot)
    requires Fighters.Valid(p1) && Fighters.Valid(p2)
    ensures s.p1 == Fighters.GetSnapshot(p1) && s.p2 == Fighters.GetSnapshot(p2)
    ensures s.sounds == sounds && s.entities == entities && s.camera == camera
  {
    GameSnapshot(Fighters.GetSnapshot(p1), Fighters.GetSnapshot(p2), camera, entities, sounds)
  }

  /** Gather the sounds of frames lo..hi-1, oldest first, frame by frame. */
  method CollectSounds(buffer: seq<GameSnapshot>, lo: int, hi: int) returns (sounds: seq<Damage>)
    requires 0 <= lo <= hi <= |buffer|
    ensures sounds == Sounds(buffer, lo, hi)
  {
    sounds := [];
    var i := lo;
    while i < hi
      invariant lo <= i <= hi
      invariant sounds == Sounds(buffer, lo, i)
    {
      SoundsSnoc(buffer, lo, i);
      sounds := sounds + buffer[i].sounds;
      i := i + 1;
    }
  }

  /** Both fighters are present, valid and distinct, or at least one is missing. */
  ghost predicate PlayersOk(p1: Players.Player?, p2: Players.Player?)
    reads p1, p2
  {
    && (p1 != null ==> p1.Valid())
    && (p2 != null ==> p2.Valid())
    && (p1 != null && p2 != null ==> p1 != p2)
  }

  class ReplayManager {
    var isReplaying: bool
    /** Every captured tick, oldest first; only appended to, until reset. */
    var buffer: seq<GameSnapshot>
    var index: int
    var speed: int
    /** Hit sounds heard since the last capture. */
    var pending: seq<Damage>
    var pool: seq<Handle>

    /** The cursor is a frame of the buffer, or 0 while the buffer is empty. */
    ghost predicate Valid()
      reads this
    {
      0 <= index && (index < |buffer| || index == 0)
    }

    constructor ()
      ensures Valid()
      ensures !isReplaying && buffer == [] && index == 0 && speed == 1 && pending == [] && pool == []
    {
      isReplaying := false;
      buffer := [];
      index := 0;
      speed := 1;
      pending := [];
      pool := [];
    }

    /** Leave replay mode and forget the recording, the pool and the queued sounds. */
    method Reset()
      modifies this
      ensures Valid()
      ensures !isReplaying && buffer == [] && index == 0 && speed == 1 && pending == [] && pool == []
    {
      isReplaying := false;
      buffer := [];
      index := 0;
      speed := 1;
      pool := [];
      pending := [];
    }

    method SetPlaybackSpeed(s: int)
      requires Valid()
      modifies this
      ensures Valid()
      ensures speed == s
      ensures isReplaying == old(isReplaying) && buffer == old(buffer) && index == old(index)
      ensures pending == old(pending) && pool == old(pool)
    {
      speed := s;
    }

    /** Move the cursor to a fraction of the recording; the speed is kept. Nothing happens on an empty buffer. */
    method SeekTo(p: real)
      requires Valid()
      modifies this
      ensures Valid()
      ensures |buffer| == 0 ==> index == old(index)
      ensures |buffer| > 0 ==> index == SeekIndex(p, |buffer|)
      ensures isReplaying == old(isReplaying) && buffer == old(buffer) && speed == old(speed)
      ensures pending == old(pending) && pool == old(pool)
    {
      if |buffer| == 0 {
        return;
      }
      index := SeekIndex(p, |buffer|);
    }

    /** Queue a hit sound for the next capture; sounds heard while replaying are not recorded. */
    method RecordSound(d: Damage)
      modifies this
      ensures pending == if old(isReplaying) then old(pending) else old(pending) + [d]
      ensures isReplaying == old(isReplaying) && buffer == old(buffer) && index == old(index)
      ensures speed == old(speed) && pool == old(pool)
    {
      if !isReplaying {
        pending := pending + [d];
      }
    }

    /**
     * Capture the current tick: both fighters, the camera, the entities and
     * a copy of the queued sounds, which are then cleared. Nothing is
     * captured once the game has been over for more than five seconds, or
     * while a fighter is missing.
     */
    method RecordFrame(isGameOver: bool, koTimer: real, p1: Players.Player?, p2: Players.Player?,
                       camera: Camera, entities: seq<EntitySnapshot>)
      requires Valid() && PlayersOk(p1, p2)
      modifies this
      ensures Valid()
      ensures (isGameOver && koTimer > 5000.0) || p1 == null || p2 == null ==>
                buffer == old(buffer) && pending == old(pending)
      ensures !((isGameOver && koTimer > 5000.0) || p1 == null || p2 == null) ==>
                && buffer == old(buffer) + [Capture(p1.View(), p2.View(), camera, entities, old(pending))]
                && pending == []
      ensures isReplaying == old(isReplaying) && index == old(index) && speed == old(speed) && pool == old(pool)
    {
      if isGameOver && koTimer > 5000.0 {
        return;
      }
      if p1 == null || p2 == null {
        return;
      }
      buffer := buffer + [GameSnapshot(Fighters.GetSnapshot(p1.View()), Fighters.GetSnapshot(p2.View()),
                                       camera, entities, pending)];
      pending := [];
    }

    /**
     * Show a recorded frame: both fighters take their recorded snapshot,
     * the camera is moved, and the frame's entities are drawn. Nothing
     * happens while a fighter is missing. The camera to use is returned.
     */
    method ApplySnapshot(frame: GameSnapshot, p1: Players.Player?, p2: Players.Player?) returns (camera: Option<Camera>)
      requires PlayersOk(p1, p2)
      modifies this, p1, p2
      ensures PlayersOk(p1, p2)
      ensures isReplaying == old(isReplaying) && buffer == old(buffer) && index == old(index)
      ensures speed == old(speed) && pending == old(pending)
      ensures p1 != null ==> p1.opponent == old(p1.opponent)
      ensures p2 != null ==> p2.opponent == old(p2.opponent)
      ensures p1 == null || p2 == null ==>
                camera == None && pool == old(pool)
                && (p1 != null ==> p1.View() == old(p1.View()))
                && (p2 != null ==> p2.View() == old(p2.View()))
      ensures p1 != null && p2 != null ==>
                && p1.View() == Fighters.SetFromSnapshot(old(p1.View()), frame.p1)
                && p2.View() == Fighters.SetFromSnapshot(old(p2.View()), frame.p2)
                && camera == Some(frame.camera)
                && pool == PoolAfter(old(pool), frame.entities)
    {
      camera := None;
      if p1 == null || p2 == null {
        return;
      }
      p1.SetFromSnapshot(frame.p1);
      p2.SetFromSnapshot(frame.p2);
      camera := Some(frame.camera);
      ShowEntities(frame.entities);
    }

    /** Draw a frame's entities with the pool, adding handles as needed and hiding the unused ones. */
    method ShowEntities(entities: seq<EntitySnapshot>)
      modifies this
      ensures pool == PoolAfter(old(pool), entities)
      ensures isReplaying == old(isReplaying) && buffer == old(buffer) && index == old(index)
      ensures speed == old(speed) && pending == old(pending)
    {
      var poolIndex := 0;
      for i := 0 to |entities|
        invariant poolIndex == i
        invariant |pool| == Max(|old(pool)|, i)
        invariant forall k :: 0 <= k < i ==> pool[k] == Show(entities[k])
        invariant forall k :: i <= k < |pool| ==> pool[k] == old(pool)[k]
        invariant isReplaying == old(isReplaying) && buffer == old(buffer) && index == old(index)
        invariant speed == old(speed) && pending == old(pending)
      {
        if poolIndex >= |pool| {
          pool := pool + [NewHandle];
        }
        pool := pool[poolIndex := Show(entities[i])];
        poolIndex := poolIndex + 1;
      }
      var j := poolIndex;
      while j < |pool|
        invariant |entities| <= j <= |pool| == Max(|old(pool)|, |entities|)
        invariant forall k :: 0 <= k < |entities| ==> pool[k] == Show(entities[k])
        invariant forall k :: |entities| <= k < j ==> pool[k] == old(pool)[k].(visible := false)
        invariant forall k :: j <= k < |pool| ==> pool[k] == old(pool)[k]
        invariant isReplaying == old(isReplaying) && buffer == old(buffer) && index == old(index)
        invariant speed == old(speed) && pending == old(pending)
      {
        pool := pool[j := pool[j].(visible := false)];
        j := j + 1;
      }
    }

    /**
     * Enter or leave replay mode. Entering starts playback from the first
     * frame at normal speed; leaving shows the last recorded frame, which
     * is the live state the match was in.
     */
    method ToggleReplay(enable: bool, p1: Players.Player?, p2: Players.Player?) returns (camera: Option<Camera>)
      requires Valid() && PlayersOk(p1, p2)
      modifies this, p1, p2
      ensures Valid() && PlayersOk(p1, p2)
      ensures isReplaying == enable && buffer == old(buffer) && pending == old(pending)
      ensures p1 != null ==> p1.opponent == old(p1.opponent)
      ensures p2 != null ==> p2.opponent == old(p2.opponent)
      ensures enable ==> index == 0 && speed == 1 && pool == old(pool) && camera == None
      ensures enable ==> (p1 != null ==> p1.View() == old(p1.View())) && (p2 != null ==> p2.View() == old(p2.View()))
      ensures !enable ==> index == old(index) && speed == old(speed)
      ensures !enable && old(buffer) == [] ==>
                camera == None && pool == old(pool)
                && (p1 != null ==> p1.View() == old(p1.View())) && (p2 != null ==> p2.View() == old(p2.View()))
      ensures !enable && old(buffer) != [] && p1 != null && p2 != null ==>
                var last := buffer[|buffer| - 1];
                && p1.View() == Fighters.SetFromSnapshot(old(p1.View()), last.p1)
                && p2.View() == Fighters.SetFromSnapshot(old(p2.View()), last.p2)
                && camera == Some(last.camera)
                && pool == PoolAfter(old(pool), last.entities)
    {
      camera := None;
      isReplaying := enable;
      if enable {
        index := 0;
        speed := 1;
      } else if |buffer| > 0 {
        camera := ApplySnapshot(buffer[|buffer| - 1], p1, p2);
      }
    }

    /**
     * One replay tick (see `Tick`): move the cursor, clamp it, return the
     * sounds of the frames passed over, and show the frame under the
     * cursor. Nothing happens on an empty buffer.
     */
    method Update(p1: Players.Player?, p2: Players.Player?) returns (sounds: seq<Damage>, camera: Option<Camera>)
      requires Valid() && PlayersOk(p1, p2)
      modifies this, p1, p2
      ensures Valid() && PlayersOk(p1, p2)
      ensures isReplaying == old(isReplaying) && buffer == old(buffer) && pending == old(pending)
      ensures p1 != null ==> p1.opponent == old(p1.opponent)
      ensures p2 != null ==> p2.opponent == old(p2.opponent)
      ensures old(buffer) == [] ==>
                && index == old(index) && speed == old(speed) && pool == old(pool)
                && sounds == [] && camera == None
                && (p1 != null ==> p1.View() == old(p1.View())) && (p2 != null ==> p2.View() == old(p2.View()))
      ensures old(buffer) != [] ==>
                var t := Tick(buffer, Playhead(old(index), old(speed)));
                && Playhead(index, speed) == t.head
                && sounds == t.sounds
      ensures old(buffer) != [] && p1 != null && p2 != null ==>
                && p1.View() == Fighters.SetFromSnapshot(old(p1.View()), buffer[index].p1)
                && p2.View() == Fighters.SetFromSnapshot(old(p2.View()), buffer[index].p2)
                && camera == Some(buffer[index].camera)
                && pool == PoolAfter(old(pool), buffer[index].entities)
    {
      sounds := [];
      camera := None;
      if |buffer| == 0 {
        return;
      }
      var prev := index;
      index := index + speed;
      if index >= |buffer| - 1 {
        index := |buffer| - 1;
        speed := 0;
      }
      if index < 0 {
        index := 0;
        speed := 0;
      }
      var current := index;
      if speed > 0 && current > prev {
        sounds := CollectSounds(buffer, prev + 1, current + 1);
      }
      camera := ApplySnapshot(buffer[current], p1, p2);
    }
  }
}
