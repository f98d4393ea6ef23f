/**
 * The game object: the gun cooldown and its radial volley, the partition of
 * the level's entity objects at setup, enemy spawning from timer events,
 * the bullet/enemy and player/enemy collision passes, and the main loop's
 * `running` flag with the fixed order of the steps in one tick.
 */
module GameModel {
  import opened Wrappers
  import opened Geometry
  import opened PlayerModel

  // ---------------------------------------------------------------------
  // Gun cooldown
  // ---------------------------------------------------------------------

  /** Milliseconds that must pass between two volleys. */
  const GunCooldown: int := 500

  /** The gun's two fields: whether it may fire, and when it last fired
      (in milliseconds of the game clock). */
  datatype Gun = Gun(canShoot: bool, shootTime: int)

  /** `gun_timer`: re-arms the gun once the cooldown has passed since the
      last volley; it never disarms it and never moves the shot time. */
  function CooldownStep(g: Gun, now: int): (r: Gun)
    ensures r.shootTime == g.shootTime
    ensures r.canShoot <==> g.canShoot || now - g.shootTime >= GunCooldown
  {
    if !g.canShoot && now - g.shootTime >= GunCooldown then g.(canShoot := true) else g
  }

  /** `gun_shoot`: an armed gun fires (the second component says whether)
      and is disarmed with the shot time set to `now`; a disarmed gun is
      left as it is and fires nothing. */
  function ShootStep(g: Gun, now: int): (r: (Gun, bool))
    ensures r.1 <==> g.canShoot
    ensures r.1 ==> !r.0.canShoot && r.0.shootTime == now
    ensures !r.1 ==> r.0 == g
  {
    if g.canShoot then (Gun(false, now), true) else (g, false)
  }

  /** The gun part of one tick: `gun_timer` and then `gun_shoot`. Because
      the timer runs first, the gun fires in the very tick in which the
      cooldown has elapsed (or when it was armed already), and only then;
      either way the gun is disarmed at the end of the tick. */
  function GunTick(g: Gun, now: int): (r: (Gun, bool))
    ensures r.1 <==> g.canShoot || now - g.shootTime >= GunCooldown
    ensures !r.0.canShoot
    ensures r.1 ==> r.0.shootTime == now
    ensures !r.1 ==> r.0 == g
  {
    ShootStep(CooldownStep(g, now), now)
  }

  /** The gun after successive ticks with clock readings `times`, starting
      from `g`. */
  function GunAfter(g: Gun, times: seq<int>): (r: Gun)
    ensures times != [] ==> !r.canShoot
    decreases |times|
  {
    if times == [] then g
    else GunTick(GunAfter(g, times[..|times| - 1]), times[|times| - 1]).0
  }

  /** The clock readings, among those of successive ticks, at which a
      volley is fired, starting from gun state `g`. A run without volleys
      leaves the gun as it was; otherwise the gun's shot time is that of the
      last volley. */
  function Volleys(g: Gun, times: seq<int>): (fired: seq<int>)
    ensures |fired| <= |times|
    ensures forall k :: 0 <= k < |fired| ==> fired[k] in times
    ensures fired == [] ==> GunAfter(g, times) == g
    ensures fired != [] ==> GunAfter(g, times).shootTime == fired[|fired| - 1]
    decreases |times|
  {
    if times == [] then []
    else
      var prefix := times[..|times| - 1];
      var t := times[|times| - 1];
      var rest := Volleys(g, prefix);
      assert forall k :: 0 <= k < |rest| ==> rest[k] in times;
      rest + (if GunTick(GunAfter(g, prefix), t).1 then [t] else [])
  }

  /** Successive volleys are at least the cooldown apart, whatever the
      clock readings; and the first volley from a disarmed gun comes a full
      cooldown after its last shot. */
  lemma {:induction false} VolleysAreSpaced(g: Gun, times: seq<int>)
    ensures var fired := Volleys(g, times);
            forall k :: 0 <= k < |fired| - 1 ==> fired[k + 1] - fired[k] >= GunCooldown
    ensures var fired := Volleys(g, times);
            |fired| > 0 && !g.canShoot ==> fired[0] - g.shootTime >= GunCooldown
    decreases |times|
  {
    if times != [] {
      var prefix := times[..|times| - 1];
      var t := times[|times| - 1];
      VolleysAreSpaced(g, prefix);
      var rest := Volleys(g, prefix);
      var before := GunAfter(g, prefix);
      if GunTick(before, t).1 {
        assert Volleys(g, times) == rest + [t];
        if rest != [] {
          assert prefix != [];
          assert t - rest[|rest| - 1] >= GunCooldown;
        }
      } else {
        assert Volleys(g, times) == rest;
      }
    }
  }

  /** A new game starts armed, so it fires in its first tick. */
  lemma {:induction false} FirstTickFires(times: seq<int>)
    requires times != []
    ensures Volleys(Gun(true, 0), times) != [] && Volleys(Gun(true, 0), times)[0] == times[0]
    decreases |times|
  {
    if |times| > 1 {
      var prefix := times[..|times| - 1];
      FirstTickFires(prefix);
    } else {
      assert times[..0] == [];
    }
  }

  // ---------------------------------------------------------------------
  // Radial volley
  // ---------------------------------------------------------------------

  function Sign(v: int): int {
    if v > 0 then 1 else if v < 0 then -1 else 0
  }

  /** The next of the eight king moves clockwise on screen (y grows
      downward): a turn by 45 degrees. */
  function Turn45(d: Dir): Dir {
    Dir(Sign(d.x - d.y), Sign(d.x + d.y))
  }

  /** The eight volley directions: pairwise distinct, exactly the non-zero
      unit steps, each 45 degrees on from the one before. */
  function VolleyDirections(): (ds: seq<Dir>)
    ensures |ds| == 8
    ensures forall i, j :: 0 <= i < j < |ds| ==> ds[i] != ds[j]
    ensures forall d :: d in ds <==> IsUnitStep(d) && d != Dir(0, 0)
    ensures forall i :: 0 <= i < |ds| ==> ds[(i + 1) % |ds|] == Turn45(ds[i])
  {
    [Dir(1, 0), Dir(1, 1), Dir(0, 1), Dir(-1, 1),
     Dir(-1, 0), Dir(-1, -1), Dir(0, -1), Dir(1, -1)]
  }

  /** A bullet as it is created: where it starts and which way it flies. */
  datatype Bullet = Bullet(pos: Point, dir: Dir)

  /** One bullet per volley direction, all starting at `center`. */
  function Volley(center: Point): (bs: seq<Bullet>)
    ensures |bs| == |VolleyDirections()|
    ensures forall i :: 0 <= i < |bs| ==> bs[i] == Bullet(center, VolleyDirections()[i])
  {
    seq(|VolleyDirections()|, i requires 0 <= i < |VolleyDirections()| =>
      Bullet(center, VolleyDirections()[i]))
  }

  // ---------------------------------------------------------------------
  // Setup: the Entities layer
  // ---------------------------------------------------------------------

  /** An object of the level's 'Entities' layer. */
  datatype MapObject = MapObject(name: string, x: real, y: real)

  const PlayerName: string := "Player"

  /** The positions appended to `spawn_positions`: those of every object
      not named 'Player', in layer order. */
  function NonPlayerPositions(objs: seq<MapObject>): (ps: seq<Point>)
    ensures |ps| <= |objs|
    ensures forall p :: p in ps ==>
              exists i :: 0 <= i < |objs| && objs[i].name != PlayerName && Point(objs[i].x, objs[i].y) == p
  {
    if objs == [] then []
    else
      var last := objs[|objs| - 1];
      var rest := NonPlayerPositions(objs[..|objs| - 1]);
      assert forall i :: 0 <= i < |objs| - 1 ==> objs[..|objs| - 1][i] == objs[i];
      if last.name == PlayerName then rest else rest + [Point(last.x, last.y)]
  }

  /** Filtering respects concatenation, so positions keep the layer order. */
  lemma {:induction false} NonPlayerPositionsAppend(a: seq<MapObject>, b: seq<MapObject>)
    ensures NonPlayerPositions(a + b) == NonPlayerPositions(a) + NonPlayerPositions(b)
    decreases |b|
  {
    if b != [] {
      var b' := b[..|b| - 1];
      assert (a + b)[..|a + b| - 1] == a + b';
      var last := b[|b| - 1];
      assert (a + b)[|a + b| - 1] == last;
      NonPlayerPositionsAppend(a, b');
      var tail := if last.name == PlayerName then [] else [Point(last.x, last.y)];
      assert NonPlayerPositions(a + b) == NonPlayerPositions(a + b') + tail;
      assert NonPlayerPositions(b) == NonPlayerPositions(b') + tail;
    } else {
      assert a + b == a;
    }
  }

  /** The indices of the objects that are not the player. */
  function NonPlayerIndices(objs: seq<MapObject>): set<nat> {
    set i: nat | i < |objs| && objs[i].name != PlayerName
  }

  /** One position is appended per non-player object. */
  lemma {:induction false} NonPlayerCount(objs: seq<MapObject>)
    ensures |NonPlayerPositions(objs)| == |NonPlayerIndices(objs)|
    decreases |objs|
  {
    if objs != [] {
      var n := |objs| - 1;
      var prefix := objs[..n];
      NonPlayerCount(prefix);
      assert forall i :: 0 <= i < n ==> prefix[i] == objs[i];
      if objs[n].name == PlayerName {
        assert NonPlayerIndices(objs) == NonPlayerIndices(prefix);
      } else {
        assert NonPlayerIndices(objs) == NonPlayerIndices(prefix) + {n};
      }
    }
  }

  /** Where the player is created: the last object named 'Player' (each one
      creates a player and the last assignment wins), or None. */
  function LastPlayerPosition(objs: seq<MapObject>): (r: Option<Point>)
    ensures r.None? <==> forall i :: 0 <= i < |objs| ==> objs[i].name != PlayerName
    ensures r.Some? ==>
              exists i :: 0 <= i < |objs| && objs[i].name == PlayerName && Point(objs[i].x, objs[i].y) == r.value
                          && forall j :: i < j < |objs| ==> objs[j].name != PlayerName
  {
    match LastPlayerIndex(objs)
    case None => None
    case Some(i) => Some(Point(objs[i].x, objs[i].y))
  }

  /** The index of the last object named 'Player', if any. */
  function LastPlayerIndex(objs: seq<MapObject>): (r: Option<nat>)
    ensures r.None? <==> forall i :: 0 <= i < |objs| ==> objs[i].name != PlayerName
    ensures r.Some? ==> r.value < |objs| && objs[r.value].name == PlayerName &&
                        forall j :: r.value < j < |objs| ==> objs[j].name != PlayerName
  {
    if objs == [] then None
    else
      var n := |objs| - 1;
      var prefix := objs[..n];
      assert forall i :: 0 <= i < n ==> prefix[i] == objs[i];
      if objs[n].name == PlayerName then Some(n) else LastPlayerIndex(prefix)
  }

  // ---------------------------------------------------------------------
  // Enemies and events
  // ---------------------------------------------------------------------

  /** An enemy as it is spawned: its position and its animation set. */
  datatype Enemy = Enemy(pos: Point, kind: string)

  /** The events one tick consumes. The enemy timer carries the outcome of
      the two random choices: an index into the spawn positions and one into
      the enemy kinds. */
  datatype Event = Quit | EnemyTimer(posPick: nat, kindPick: nat) | OtherEvent

  /** Every random choice is within its list (so neither list is empty when
      a timer event arrives). */
  predicate PicksValid(events: seq<Event>, positions: seq<Point>, kinds: seq<string>) {
    forall i :: 0 <= i < |events| && events[i].EnemyTimer? ==>
      events[i].posPick < |positions| && events[i].kindPick < |kinds|
  }

  /** The number of enemy timer events. */
  function TimerCount(events: seq<Event>): nat
    decreases |events|
  {
    if events == [] then 0
    else TimerCount(events[..|events| - 1]) + (if events[|events| - 1].EnemyTimer? then 1 else 0)
  }

  /** `TimerCount` is the number of indices holding a timer event. */
  lemma {:induction false} TimerCountCountsTimerEvents(events: seq<Event>)
    ensures TimerCount(events) == |set i: nat | i < |events| && events[i].EnemyTimer?|
    decreases |events|
  {
    if events != [] {
      var n := |events| - 1;
      var prefix := events[..n];
      TimerCountCountsTimerEvents(prefix);
      var before := set i: nat | i < |prefix| && prefix[i].EnemyTimer?;
      var after := set i: nat | i < |events| && events[i].EnemyTimer?;
      if events[n].EnemyTimer? {
        assert after == before + {n};
      } else {
        assert after == before;
      }
    }
  }

  /** The enemies the timer events of one tick create, in event order:
      exactly one per timer event, on the spawn position and of the kind
      that event picked. */
  function Spawned(events: seq<Event>, positions: seq<Point>, kinds: seq<string>): (es: seq<Enemy>)
    requires PicksValid(events, positions, kinds)
    ensures |es| == TimerCount(events)
    ensures forall i :: 0 <= i < |events| && events[i].EnemyTimer? ==>
              Enemy(positions[events[i].posPick], kinds[events[i].kindPick]) in es
    ensures forall k :: 0 <= k < |es| ==> es[k].pos in positions && es[k].kind in kinds
    decreases |events|
  {
    if events == [] then []
    else
      var n := |events| - 1;
      var prefix := events[..n];
      assert forall i :: 0 <= i < |prefix| ==> prefix[i] == events[i];
      var rest := Spawned(prefix, positions, kinds);
      match events[n]
      case EnemyTimer(p, k) => rest + [Enemy(positions[p], kinds[k])]
      case _ => rest
  }

  /** The enemy of the i-th event, when it is a timer event, is spawned in
      the order of the timer events: it comes after one enemy per earlier
      timer event. */
  lemma {:induction false} SpawnedInTimerOrder(events: seq<Event>, positions: seq<Point>,
                                               kinds: seq<string>, i: nat)
    requires PicksValid(events, positions, kinds)
    requires i < |events| && events[i].EnemyTimer?
    ensures TimerCount(events[..i]) < |Spawned(events, positions, kinds)|
    ensures Spawned(events, positions, kinds)[TimerCount(events[..i])] ==
            Enemy(positions[events[i].posPick], kinds[events[i].kindPick])
    decreases |events|
  {
    var n := |events| - 1;
    var prefix := events[..n];
    assert forall k :: 0 <= k < |prefix| ==> prefix[k] == events[k];
    if i < n {
      SpawnedInTimerOrder(prefix, positions, kinds, i);
      assert prefix[..i] == events[..i];
    } else {
      assert events[..i] == prefix;
    }
  }

  /** Handling one more event appends at most that event's enemy. */
  lemma SpawnedNextEvent(events: seq<Event>, i: nat, positions: seq<Point>, kinds: seq<string>)
    requires i < |events| && PicksValid(events, positions, kinds)
    ensures PicksValid(events[..i], positions, kinds) && PicksValid(events[..i + 1], positions, kinds)
    ensures Spawned(events[..i + 1], positions, kinds) ==
            Spawned(events[..i], positions, kinds) +
            (if events[i].EnemyTimer?
             then [Enemy(positions[events[i].posPick], kinds[events[i].kindPick])] else [])
  {
    assert events[..i + 1][..i] == events[..i];
  }

  // ---------------------------------------------------------------------
  // Bullet/enemy collision
  // ---------------------------------------------------------------------

  /** The pixel-mask test of one collision pass is a parameter: `hits(i, j)`
      says whether the i-th sprite of the bullet group overlaps the j-th
      sprite of the enemy group. Keyed by place in the groups, every sprite
      gets its own verdict, even when two sprites carry equal data. */
  type MaskTest = (nat, nat) -> bool

  /** Whether the i-th bullet hits one of the enemies. */
  predicate HitsAny(i: nat, enemies: seq<Enemy>, hits: MaskTest) {
    exists j :: 0 <= j < |enemies| && hits(i, j)
  }

  /** The bullets left after the pass, in their order: those that hit no
      enemy. */
  function Survivors(bullets: seq<Bullet>, enemies: seq<Enemy>, hits: MaskTest): (kept: seq<Bullet>)
    ensures |kept| <= |bullets|
    ensures forall k :: 0 <= k < |kept| ==> kept[k] in bullets
    decreases |bullets|
  {
    if bullets == [] then []
    else
      var n := |bullets| - 1;
      var rest := Survivors(bullets[..n], enemies, hits);
      assert forall k :: 0 <= k < |rest| ==> rest[k] in bullets;
      if HitsAny(n, enemies, hits) then rest else rest + [bullets[n]]
  }

  /** The indices below `n` of the bullets that hit nothing. */
  function MissedBefore(n: nat, enemies: seq<Enemy>, hits: MaskTest): set<nat> {
    set i: nat | i < n && !HitsAny(i, enemies, hits)
  }

  lemma MissedBeforeNext(n: nat, enemies: seq<Enemy>, hits: MaskTest)
    ensures |MissedBefore(n + 1, enemies, hits)| ==
            |MissedBefore(n, enemies, hits)| + (if HitsAny(n, enemies, hits) then 0 else 1)
  {
    if HitsAny(n, enemies, hits) {
      assert MissedBefore(n + 1, enemies, hits) == MissedBefore(n, enemies, hits);
    } else {
      assert MissedBefore(n + 1, enemies, hits) == MissedBefore(n, enemies, hits) + {n};
    }
  }

  /** As many bullets survive as hit nothing ... */
  lemma {:induction false} SurvivorsCount(bullets: seq<Bullet>, enemies: seq<Enemy>, hits: MaskTest)
    ensures |Survivors(bullets, enemies, hits)| == |MissedBefore(|bullets|, enemies, hits)|
    decreases |bullets|
  {
    if bullets != [] {
      var n := |bullets| - 1;
      SurvivorsCount(bullets[..n], enemies, hits);
      MissedBeforeNext(n, enemies, hits);
    }
  }

  /** ... and the k-th bullet, when it hits nothing, survives right after the
      bullets before it that hit nothing. With `SurvivorsCount` this pins the
      survivors down exactly: the bullets that hit nothing, in their order. */
  lemma {:induction false} SurvivorsKeepMisses(bullets: seq<Bullet>, enemies: seq<Enemy>,
                                               hits: MaskTest, k: nat)
    requires k < |bullets| && !HitsAny(k, enemies, hits)
    ensures |MissedBefore(k, enemies, hits)| < |Survivors(bullets, enemies, hits)|
    ensures Survivors(bullets, enemies, hits)[|MissedBefore(k, enemies, hits)|] == bullets[k]
    decreases |bullets|
  {
    var n := |bullets| - 1;
    if k < n {
      SurvivorsKeepMisses(bullets[..n], enemies, hits, k);
    } else {
      SurvivorsCount(bullets[..n], enemies, hits);
    }
  }

  /** Whether one of the first `n` bullets hits the j-th enemy. */
  predicate HitByOneOf(n: nat, j: nat, hits: MaskTest) {
    exists i :: 0 <= i < n && hits(i, j)
  }

  /** The indices of the enemies destroyed by the pass: every enemy some
      bullet hits is among them ... */
  function HitEnemies(bullets: seq<Bullet>, enemies: seq<Enemy>, hits: MaskTest): (r: set<nat>)
    ensures forall j :: j in r ==> j < |enemies|
    ensures forall i, j :: 0 <= i < |bullets| && 0 <= j < |enemies| && hits(i, j) ==> j in r
  {
    set j: nat | j < |enemies| && HitByOneOf(|bullets|, j, hits)
  }

  /** ... and only those: an enemy is destroyed only when a bullet hits it. */
  lemma OnlyHitEnemiesDestroyed(bullets: seq<Bullet>, enemies: seq<Enemy>, hits: MaskTest, j: nat)
    requires j in HitEnemies(bullets, enemies, hits)
    ensures exists i :: 0 <= i < |bullets| && hits(i, j)
  {
  }

  /** Processing one more bullet destroys the enemies it hits. */
  lemma HitEnemiesSnoc(bullets: seq<Bullet>, b: Bullet, enemies: seq<Enemy>, hits: MaskTest)
    ensures HitEnemies(bullets + [b], enemies, hits) ==
            HitEnemies(bullets, enemies, hits) + (set j: nat | j < |enemies| && hits(|bullets|, j))
  {
  }

  /** Two bullets or two enemies with equal data still get their own
      verdicts: a bullet touching only the first of two look-alike enemies
      destroys only that one, and of two look-alike bullets only the one that
      hit is removed. */
  lemma LookAlikesGetOwnVerdicts(b: Bullet, e: Enemy, hits: MaskTest)
    requires forall i, j :: hits(i, j) <==> i == 0 && j == 0
    ensures HitEnemies([b], [e, e], hits) == {0}
    ensures Survivors([b, b], [e], hits) == [b]
  {
    assert hits(0, 0);
    assert HitByOneOf(1, 0, hits);
    assert HitsAny(0, [e], hits);
    assert [b, b][..1] == [b];
  }

  /** The pixel-mask test between an enemy and the player is a parameter
      `hitsPlayer`; the group touches the player when one of its enemies
      does. */
  function TouchesPlayer(enemies: seq<Enemy>, hitsPlayer: Enemy -> bool): (b: bool)
    ensures b <==> exists e :: e in enemies && hitsPlayer(e)
  {
    exists j :: 0 <= j < |enemies| && hitsPlayer(enemies[j])
  }

  // ---------------------------------------------------------------------
  // The game object
  // ---------------------------------------------------------------------

  /** What one tick of the main loop consumes: the queued events, the clock
      reading in milliseconds, the sampled keys, the frame time, the
      diagonal step of the player's move, and the bullet/enemy mask test. */
  datatype TickInput = TickInput(events: seq<Event>, now: int, keys: Keys, dt: real,
                                 diagonalStep: real, hits: MaskTest)

  // Folds over the inputs of successive ticks, which `run` is specified by.

  /** The clock readings of successive ticks. */
  function Nows(inputs: seq<TickInput>): seq<int>
  {
    seq(|inputs|, k requires 0 <= k < |inputs| => inputs[k].now)
  }

  /** The enemies spawned over the first `n` ticks, in tick order; each
      stands on a spawn position and has a registered kind. */
  function AllSpawned(inputs: seq<TickInput>, n: nat, positions: seq<Point>, kinds: seq<string>): (es: seq<Enemy>)
    requires n <= |inputs|
    requires forall k :: 0 <= k < |inputs| ==> PicksValid(inputs[k].events, positions, kinds)
    ensures forall k :: 0 <= k < |es| ==> es[k].pos in positions && es[k].kind in kinds
  {
    if n == 0 then []
    else AllSpawned(inputs, n - 1, positions, kinds) + Spawned(inputs[n - 1].events, positions, kinds)
  }

  /** Whether one of the first `n` ticks carried a QUIT event. */
  predicate QuitWithin(inputs: seq<TickInput>, n: nat)
    requires n <= |inputs|
  {
    n > 0 && (QuitWithin(inputs, n - 1) || Quit in inputs[n - 1].events)
  }

  /** ... that is, some tick among the first `n` carried one. */
  lemma {:induction false} QuitWithinMeansSomeTickQuit(inputs: seq<TickInput>, n: nat)
    requires n <= |inputs|
    ensures QuitWithin(inputs, n) <==> exists k :: 0 <= k < n && Quit in inputs[k].events
  {
    if n > 0 {
      QuitWithinMeansSomeTickQuit(inputs, n - 1);
    }
  }

  /** A QUIT among the first `a` ticks is also among the first `b >= a`. */
  lemma {:induction false} QuitWithinGrows(inputs: seq<TickInput>, a: nat, b: nat)
    requires a <= b <= |inputs| && QuitWithin(inputs, a)
    ensures QuitWithin(inputs, b)
    decreases b
  {
    if a < b {
      QuitWithinGrows(inputs, a, b - 1);
    }
  }

  /** The tick count `Run` promises when it started running and stopped is
      unique: the tick that carried the first QUIT. */
  lemma StopTickIsFirstQuit(inputs: seq<TickInput>, n: nat, m: nat)
    requires 0 < n <= |inputs| && QuitWithin(inputs, n) && !QuitWithin(inputs, n - 1)
    requires 0 < m <= |inputs| && QuitWithin(inputs, m) && !QuitWithin(inputs, m - 1)
    ensures n == m
  {
    if n < m {
      QuitWithinGrows(inputs, n, m - 1);
    } else if m < n {
      QuitWithinGrows(inputs, m, n - 1);
    }
  }

  /** One more tick extends the gun fold by that tick's clock reading. */
  lemma GunAfterNextTick(inputs: seq<TickInput>, n: nat, g: Gun)
    requires n < |inputs|
    ensures Nows(inputs[..n + 1]) == Nows(inputs[..n]) + [inputs[n].now]
    ensures GunAfter(g, Nows(inputs[..n + 1])) == GunTick(GunAfter(g, Nows(inputs[..n])), inputs[n].now).0
  {
    assert inputs[..n + 1][..n] == inputs[..n];
    assert Nows(inputs[..n + 1])[..n] == Nows(inputs[..n]);
  }

  /** Appending is associative (stated once so that loop proofs need not
      rediscover it). */
  lemma AppendAssoc<T>(a: seq<T>, b: seq<T>, c: seq<T>)
    ensures (a + b) + c == a + (b + c)
  {
  }

  class Game {
    var running: bool
    var canShoot: bool
    var shootTime: int
    var spawnPositions: seq<Point>
    var player: Player?
    /** The bullet group. */
    var bullets: seq<Bullet>
    /** The enemy group; enemies marked destroyed stay in it. */
    var enemies: seq<Enemy>
    /** Indices into `enemies` of those marked destroyed. */
    var destroyed: set<nat>
    /** The registered enemy animation sets. */
    const enemyKinds: seq<string>
    /** The rectangles of the collision sprites built from the map. */
    const obstacles: seq<Rect>

    function GunState(): Gun
      reads this
    {
      Gun(canShoot, shootTime)
    }

    ghost predicate Valid()
      reads this, player
    {
      player != null ==> player.Valid()
    }

    /** A running, armed game with empty groups, set up from the level's
        entity objects. */
    constructor (entities: seq<MapObject>, obstacles: seq<Rect>, enemyKinds: seq<string>,
                 imageW: Size, imageH: Size, frames: map<Facing, seq<Frame>>)
      requires HitboxShrinkW <= imageW && HitboxShrinkH <= imageH
      requires FramesLoaded(frames)
      ensures Valid()
      ensures running && canShoot && shootTime == 0
      ensures bullets == [] && enemies == [] && destroyed == {}
      ensures this.obstacles == obstacles && this.enemyKinds == enemyKinds
      ensures spawnPositions == NonPlayerPositions(entities)
      ensures match LastPlayerPosition(entities)
              case None => player == null
              case Some(p) => player != null && player.rect.Center() == p && player.obstacles == obstacles
    {
      running := true;
      canShoot := true;
      shootTime := 0;
      spawnPositions := [];
      player := null;
      bullets := [];
      enemies := [];
      destroyed := {};
      this.enemyKinds := enemyKinds;
      this.obstacles := obstacles;
      new;
      Setup(entities, imageW, imageH, frames);
    }

    /** `setup`, for the Entities layer: the object named 'Player' becomes the
        player and every other object's position is appended to the spawn
        positions. */
    method Setup(entities: seq<MapObject>, imageW: Size, imageH: Size, frames: map<Facing, seq<Frame>>)
      requires Valid()
      requires HitboxShrinkW <= imageW && HitboxShrinkH <= imageH
      requires FramesLoaded(frames)
      modifies this`player, this`spawnPositions
      ensures Valid()
      ensures spawnPositions == old(spawnPositions) + NonPlayerPositions(entities)
      ensures match LastPlayerPosition(entities)
              case None => player == old(player)
              case Some(p) => player != null && fresh(player) &&
                              player.rect.Center() == p && player.obstacles == obstacles
    {
      var i := 0;
      while i < |entities|
        invariant 0 <= i <= |entities|
        invariant Valid()
        invariant spawnPositions == old(spawnPositions) + NonPlayerPositions(entities[..i])
        invariant match LastPlayerPosition(entities[..i])
                  case None => player == old(player)
                  case Some(p) => player != null && fresh(player) &&
                                  player.rect.Center() == p && player.obstacles == obstacles
      {
        var obj := entities[i];
        assert entities[..i + 1][..i] == entities[..i];
        if obj.name == PlayerName {
          player := new Player(Point(obj.x, obj.y), imageW, imageH, frames, obstacles);
        } else {
          AppendAssoc(old(spawnPositions), NonPlayerPositions(entities[..i]), [Point(obj.x, obj.y)]);
          spawnPositions := spawnPositions + [Point(obj.x, obj.y)];
        }
        i := i + 1;
      }
      assert entities[..i] == entities;
    }

    /** `gun_timer`. */
    method GunTimer(now: int)
      modifies this`canShoot
      ensures GunState() == CooldownStep(old(GunState()), now)
    {
      if !canShoot {
        if now - shootTime >= GunCooldown {
          canShoot := true;
        }
      }
    }

    /** `gun_shoot`: when armed, one bullet per volley direction from the
        player's centre, then disarm and record the shot time. */
    method GunShoot(now: int)
      requires player != null
      modifies this`canShoot, this`shootTime, this`bullets
      ensures GunState() == ShootStep(old(GunState()), now).0
      ensures bullets == old(bullets) + (if old(canShoot) then Volley(player.rect.Center()) else [])
    {
      if canShoot {
        var center := player.rect.Center();
        var dirs := VolleyDirections();
        for k := 0 to |dirs|
          invariant bullets == old(bullets) + Volley(center)[..k]
        {
          assert Volley(center)[..k + 1] == Volley(center)[..k] + [Bullet(center, dirs[k])];
          bullets := bullets + [Bullet(center, dirs[k])];
        }
        assert Volley(center)[..|dirs|] == Volley(center);
        canShoot := false;
        shootTime := now;
      }
    }

    /** The event loop of one tick: QUIT clears `running`; each enemy timer
        event spawns one enemy at the chosen spawn position. */
    method ProcessEvents(events: seq<Event>)
      requires PicksValid(events, spawnPositions, enemyKinds)
      modifies this`running, this`enemies
      ensures running == (old(running) && Quit !in events)
      ensures enemies == old(enemies) + Spawned(events, spawnPositions, enemyKinds)
    {
      var i := 0;
      while i < |events|
        invariant 0 <= i <= |events|
        invariant running == (old(running) && Quit !in events[..i])
        invariant enemies == old(enemies) + Spawned(events[..i], spawnPositions, enemyKinds)
      {
        SpawnedNextEvent(events, i, spawnPositions, enemyKinds);
        assert events[..i + 1][..i] == events[..i];
        var event := events[i];
        if event == Quit {
          running := false;
        }
        if event.EnemyTimer? {
          var spawned := Enemy(spawnPositions[event.posPick], enemyKinds[event.kindPick]);
          AppendAssoc(old(enemies), Spawned(events[..i], spawnPositions, enemyKinds), [spawned]);
          enemies := enemies + [spawned];
        }
        i := i + 1;
      }
      assert events[..i] == events;
    }

    /** `bullet_collision`: every bullet that hits an enemy destroys each
        enemy it hits and is removed; the other bullets stay. */
    method BulletCollision(hits: MaskTest)
      modifies this`bullets, this`destroyed
      ensures bullets == Survivors(old(bullets), enemies, hits)
      ensures destroyed == old(destroyed) + HitEnemies(old(bullets), enemies, hits)
    {
      var all := bullets;
      var kept := [];
      var i := 0;
      while i < |all|
        invariant 0 <= i <= |all|
        invariant kept == Survivors(all[..i], enemies, hits)
        invariant destroyed == old(destroyed) + HitEnemies(all[..i], enemies, hits)
      {
        var b := all[i];
        ghost var before := destroyed;
        var collided := false;
        var j := 0;
        while j < |enemies|
          invariant 0 <= j <= |enemies|
          invariant collided <==> exists k :: 0 <= k < j && hits(i, k)
          invariant destroyed == before + (set k: nat | k < j && hits(i, k))
        {
          if hits(i, j) {
            destroyed := destroyed + {j};
            collided := true;
          }
          j := j + 1;
        }
        if !collided {
          kept := kept + [b];
        }
        assert all[..i + 1] == all[..i] + [b];
        assert all[..i + 1][..i] == all[..i];
        HitEnemiesSnoc(all[..i], b, enemies, hits);
        i := i + 1;
      }
      assert all[..i] == all;
      bullets := kept;
    }

    /** `player_collision`: the game stops when any enemy touches the player. */
    method PlayerCollision(hitsPlayer: Enemy -> bool)
      modifies this`running
      ensures running == (old(running) && !TouchesPlayer(enemies, hitsPlayer))
    {
      if TouchesPlayer(enemies, hitsPlayer) {
        running := false;
      }
    }

    /** One pass of the main loop: events, gun timer, gun, the player's
        update, bullet collision. (The player collision check is disabled in
        the loop.) */
    method Tick(input: TickInput)
      requires player != null && Valid()
      requires PicksValid(input.events, spawnPositions, enemyKinds)
      modifies this, player
      ensures player == old(player) && Valid()
      ensures spawnPositions == old(spawnPositions)
      ensures running == (old(running) && Quit !in input.events)
      ensures enemies == old(enemies) + Spawned(input.events, spawnPositions, enemyKinds)
      ensures GunState() == GunTick(old(GunState()), input.now).0
      ensures var shot := if GunTick(old(GunState()), input.now).1
                          then Volley(old(player.rect).Center()) else [];
              bullets == Survivors(old(bullets) + shot, enemies, input.hits) &&
              destroyed == old(destroyed) + HitEnemies(old(bullets) + shot, enemies, input.hits)
      ensures player.direction == KeyDirection(input.keys)
      ensures player.hitbox == MoveHitbox(old(player.hitbox), player.direction,
                                          Displacement(player.direction, Speed * input.dt, input.diagonalStep),
                                          player.obstacles)
      ensures player.rect.Center() == player.hitbox.Center()
      ensures player.rect.w == old(player.rect.w) && player.rect.h == old(player.rect.h)
      ensures player.state == NextFacing(old(player.state), player.direction)
      ensures player.frameIndex == NextFrameIndex(old(player.frameIndex), player.direction, input.dt)
      ensures SelectFrame(player.frames, player.state, player.frameIndex) == Some(player.image)
    {
      ProcessEvents(input.events);
      GunTimer(input.now);
      GunShoot(input.now);
      player.Update(input.keys, input.dt, input.diagonalStep);
      BulletCollision(input.hits);
    }

    /** `Tick` again, with only the part of its contract that `Run` tracks:
        the player object, the spawn positions, the running flag, the gun,
        the enemy group and the destroyed marks. It is no separate operation
        of the game; it keeps the rest of `Tick`'s postcondition out of
        `Run`'s proof. */
    method RunIteration(input: TickInput)
      requires player != null && Valid()
      requires PicksValid(input.events, spawnPositions, enemyKinds)
      modifies this, player
      ensures player == old(player) && Valid()
      ensures spawnPositions == old(spawnPositions)
      ensures running == (old(running) && Quit !in input.events)
      ensures GunState() == GunTick(old(GunState()), input.now).0
      ensures enemies == old(enemies) + Spawned(input.events, spawnPositions, enemyKinds)
      ensures old(destroyed) <= destroyed
    {
      Tick(input);
    }

    /** `run`: ticks while `running` holds, over the inputs of successive
        ticks; returns how many ticks ran. Only QUIT clears `running`, and
        once it is clear no further tick runs. The gun ends in the state the
        ticks' clock readings lead to, and the enemies spawned are appended in
        tick order. */
    method Run(inputs: seq<TickInput>) returns (ticks: nat)
      requires player != null && Valid()
      requires forall k :: 0 <= k < |inputs| ==> PicksValid(inputs[k].events, spawnPositions, enemyKinds)
      modifies this, player
      ensures player == old(player) && Valid()
      ensures spawnPositions == old(spawnPositions)
      ensures ticks <= |inputs|
      ensures running == (old(running) && !QuitWithin(inputs, ticks))
      ensures ticks < |inputs| ==> !running
      ensures !old(running) ==> ticks == 0
      ensures 0 < ticks && !running ==> Quit in inputs[ticks - 1].events
      ensures 0 < ticks ==> !QuitWithin(inputs, ticks - 1)
      ensures GunState() == GunAfter(old(GunState()), Nows(inputs[..ticks]))
      ensures var fired := Volleys(old(GunState()), Nows(inputs[..ticks]));
              (fired == [] ==> GunState() == old(GunState())) &&
              (fired != [] ==> !canShoot && shootTime == fired[|fired| - 1])
      ensures enemies == old(enemies) + AllSpawned(inputs, ticks, spawnPositions, enemyKinds)
      ensures old(destroyed) <= destroyed
    {
      ticks := 0;
      ghost var gun0 := GunState();
      ghost var positions := spawnPositions;
      while running && ticks < |inputs|
        invariant 0 <= ticks <= |inputs|
        invariant player == old(player) && Valid()
        invariant spawnPositions == positions
        invariant running == (old(running) && !QuitWithin(inputs, ticks))
        invariant !old(running) ==> ticks == 0
        invariant 0 < ticks && !running ==> Quit in inputs[ticks - 1].events
        invariant 0 < ticks ==> !QuitWithin(inputs, ticks - 1)
        invariant GunState() == GunAfter(gun0, Nows(inputs[..ticks]))
        invariant enemies == old(enemies) + AllSpawned(inputs, ticks, positions, enemyKinds)
        invariant old(destroyed) <= destroyed
        decreases |inputs| - ticks
      {
        GunAfterNextTick(inputs, ticks, gun0);
        ghost var spawnedNow := Spawned(inputs[ticks].events, positions, enemyKinds);
        RunIteration(inputs[ticks]);
        AppendAssoc(old(enemies), AllSpawned(inputs, ticks, positions, enemyKinds), spawnedNow);
        ticks := ticks + 1;
      }
    }
  }
}
