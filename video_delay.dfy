/**
 * Frame-delay bookkeeping of the video delayer (src/lib/videoDelay.ts).
 *
 * A `DelayedVideoInstance` copies frames of a playing video into GPU
 * textures, holds each back with a timer, and draws the held-back frame on
 * an overlay canvas. Only the bookkeeping is modelled: texture handles are
 * numbers, the WebGL context is a flag plus the set of deleted handles, the
 * two animation-frame loops are the methods `RenderTick` and `CaptureTick`,
 * and a timer firing is a call of `FireTimeout` (or `Cleanup` for the one
 * that stop schedules). `performance.now()` readings are parameters.
 *
 * The record `Instance` and the step functions `After…` specify each event;
 * the class `DelayedVideoInstance` keeps the source's fields and is proved
 * to follow them. `Inv` is what every step preserves: a bounded pool of
 * spare textures, disjoint from the ones in use, and every live frame
 * holding its own texture, which is in use and not deleted.
 */
module VideoDelay {
  import opened Wrappers

  /** `DEFAULT_VIDEO_DELAY_MS`. */
  const DefaultVideoDelayMs: real := 5000.0

  /** `TEXTURE_POOL_SIZE`: the most spare textures kept for reuse. */
  const PoolSize: nat := 4

  /** A WebGL texture, by handle. */
  type Texture = nat

  /** A `setTimeout` id. */
  type TimerId = nat

  /** `FrameData`: a captured frame and when it was captured. */
  datatype Frame = Frame(texture: Texture, timestamp: real)

  /** A pending promotion timer: the frame it will promote and the delay it was armed with. */
  datatype Promotion = Promotion(frame: Frame, delayMs: real)

  // ---------------------------------------------------------------------
  // The texture pool
  // ---------------------------------------------------------------------

  /**
   * `availableTextures` (a stack), `usedTextures`, and of the WebGL context
   * the next handle `createTexture` hands out and the handles deleted so far.
   */
  datatype Pool = Pool(available: seq<Texture>, used: set<Texture>, nextHandle: nat, deleted: set<Texture>)

  predicate NoDup<T(==)>(s: seq<T>) {
    forall i, j :: 0 <= i < j < |s| ==> s[i] != s[j]
  }

  /**
   * At most `PoolSize` spare textures, none twice, none in use; every handle
   * was created and none of them is deleted.
   */
  predicate PoolOk(p: Pool) {
    && |p.available| <= PoolSize
    && NoDup(p.available)
    && (forall i :: 0 <= i < |p.available| ==>
          p.available[i] !in p.used && p.available[i] < p.nextHandle && p.available[i] !in p.deleted)
    && (forall t :: t in p.used ==> t < p.nextHandle && t !in p.deleted)
    && (forall t :: t in p.deleted ==> t < p.nextHandle)
  }

  /** `createTextures` on a fresh context: handles 0 to 3 pushed in order. */
  function InitialPool(): Pool {
    Pool([0, 1, 2, 3], {}, PoolSize, {})
  }

  /** `getTexture`: pop a spare texture, or create one; either way it is now in use. */
  function Acquire(p: Pool): (Pool, Texture) {
    if |p.available| > 0 then
      var t := p.available[|p.available| - 1];
      (p.(available := p.available[..|p.available| - 1], used := p.used + {t}), t)
    else
      (p.(used := p.used + {p.nextHandle}, nextHandle := p.nextHandle + 1), p.nextHandle)
  }

  /**
   * `returnTexture`: a handle not in use is ignored; otherwise it stops being
   * in use and is kept as a spare if there is room, else deleted (when a
   * context is there to delete it).
   */
  function Release(p: Pool, t: Texture, hasGl: bool): Pool {
    if t !in p.used then p
    else if |p.available| < PoolSize then p.(used := p.used - {t}, available := p.available + [t])
    else if hasGl then p.(used := p.used - {t}, deleted := p.deleted + {t})
    else p.(used := p.used - {t})
  }

  lemma InitialPoolOk()
    ensures PoolOk(InitialPool())
    ensures |InitialPool().available| == PoolSize && InitialPool().used == {}
  {
  }

  /** The texture `getTexture` returns was not in use, is now, and is not deleted; the pool stays sound. */
  lemma AcquireOk(p: Pool)
    requires PoolOk(p)
    ensures var (q, t) := Acquire(p);
            PoolOk(q) && t !in p.used && q.used == p.used + {t} && t !in q.deleted &&
            q.deleted == p.deleted && |q.available| <= |p.available|
  {
    var (q, t) := Acquire(p);
    if |p.available| > 0 {
      assert t == p.available[|p.available| - 1];
      assert t < p.nextHandle && t !in p.deleted;
      forall i | 0 <= i < |q.available|
        ensures q.available[i] != t
      {
        assert q.available[i] == p.available[i];
      }
    }
  }

  /** `returnTexture` keeps the pool sound: the handle leaves the used set and the spares stay at most four. */
  lemma ReleaseOk(p: Pool, t: Texture, hasGl: bool)
    requires PoolOk(p)
    ensures var q := Release(p, t, hasGl);
            PoolOk(q) && q.used == p.used - {t} && q.nextHandle == p.nextHandle &&
            (t !in p.used ==> q == p) &&
            (forall u :: u in q.deleted && u !in p.deleted ==> u == t)
  {
    var q := Release(p, t, hasGl);
    if t in p.used && |p.available| < PoolSize {
      forall i, j | 0 <= i < j < |q.available|
        ensures q.available[i] != q.available[j]
      {
        if j == |p.available| {
          assert q.available[j] == t;
          assert q.available[i] == p.available[i];
        }
      }
    }
  }

  /** Taking a spare texture and giving it back restores the pool. */
  lemma AcquireReleaseRoundTrip(p: Pool, hasGl: bool)
    requires PoolOk(p) && |p.available| > 0
    ensures Release(Acquire(p).0, Acquire(p).1, hasGl) == p
  {
    var (q, t) := Acquire(p);
    assert t !in p.used;
    assert q.available + [t] == p.available;
  }

  // ---------------------------------------------------------------------
  // Timers
  // ---------------------------------------------------------------------

  /** `ids.filter((x) => x !== id)`. */
  function Without(ids: seq<TimerId>, id: TimerId): (r: seq<TimerId>)
    ensures forall x :: x in r <==> x in ids && x != id
  {
    if ids == [] then []
    else (if ids[0] == id then [] else [ids[0]]) + Without(ids[1..], id)
  }

  /** Filtering keeps the order of what it keeps, so it cannot introduce duplicates. */
  lemma {:induction false} WithoutNoDup(ids: seq<TimerId>, id: TimerId)
    requires NoDup(ids)
    ensures NoDup(Without(ids, id))
  {
    if ids != [] {
      assert NoDup(ids[1..]) by {
        forall i, j | 0 <= i < j < |ids[1..]| ensures ids[1..][i] != ids[1..][j] {
          assert ids[1..][i] == ids[i + 1] && ids[1..][j] == ids[j + 1];
        }
      }
      WithoutNoDup(ids[1..], id);
      var rest := Without(ids[1..], id);
      assert ids[0] !in ids[1..];
      assert ids[0] !in rest;
    }
  }

  function MaxReal(x: real, y: real): real {
    if x >= y then x else y
  }

  /**
   * The promotion timer's delay: `Math.max(0, delay - (now - timestamp) - 2)`,
   * the part of the target delay not already spent since capture, less 2 ms.
   */
  function PromotionDelay(delay: real, now: real, timestamp: real): (d: real)
    ensures d >= 0.0
  {
    MaxReal(0.0, delay - (now - timestamp) - 2.0)
  }

  /**
   * Unless the frame is already too old, its promotion timer fires 2 ms before
   * the frame is `delay` old; a frame that old is promoted at once.
   */
  lemma PromotionDue(delay: real, now: real, timestamp: real)
    ensures now - timestamp <= delay - 2.0 ==> now + PromotionDelay(delay, now, timestamp) == timestamp + delay - 2.0
    ensures now - timestamp >= delay - 2.0 ==> PromotionDelay(delay, now, timestamp) == 0.0
    ensures PromotionDelay(delay, now, timestamp) <= MaxReal(0.0, delay - 2.0) || now < timestamp
  {
  }

  // ---------------------------------------------------------------------
  // One instance
  // ---------------------------------------------------------------------

  /**
   * The fields of one `DelayedVideoInstance` that the logic reads or writes.
   * `looping` says whether the constructor got a context and started the two
   * loops and the visibility listener; `cleanups` counts armed GL cleanup
   * timers; `drawn` lists the textures drawn, oldest first.
   */
  datatype Instance = Instance(
    active: bool,
    looping: bool,
    hasGl: bool,
    pool: Pool,
    initialFrame: Option<Frame>,
    currentFrame: Option<Frame>,
    delayedFrame: Option<Frame>,
    lastDrawnTimestamp: real,
    startTime: real,
    pendingTimeouts: seq<TimerId>,
    timers: map<TimerId, Promotion>,
    nextTimer: nat,
    visibleTab: bool,
    tabWasHidden: bool,
    cleanups: nat,
    drawn: seq<Texture>)

  function FrameTextures(f: Option<Frame>): set<Texture> {
    if f.Some? then {f.value.texture} else {}
  }

  ghost function TimerTextures(m: map<TimerId, Promotion>): set<Texture> {
    set id | id in m :: m[id].frame.texture
  }

  /** The textures the instance still needs: the frame shown during warm-up, the delayed frame, and every frame awaiting promotion. */
  ghost function Live(s: Instance): set<Texture> {
    FrameTextures(s.initialFrame) + FrameTextures(s.delayedFrame) + TimerTextures(s.timers)
  }

  /** No two live frames share a texture. */
  ghost predicate FramesDistinct(s: Instance) {
    && (s.initialFrame.Some? && s.delayedFrame.Some? ==> s.initialFrame.value.texture != s.delayedFrame.value.texture)
    && (forall id :: id in s.timers ==> s.timers[id].frame.texture !in FrameTextures(s.initialFrame) + FrameTextures(s.delayedFrame))
    && (forall i, j :: i in s.timers && j in s.timers && i != j ==> s.timers[i].frame.texture != s.timers[j].frame.texture)
  }

  /** What every event preserves. */
  ghost predicate Inv(s: Instance) {
    && PoolOk(s.pool)
    && Live(s) <= s.pool.used
    && FramesDistinct(s)
    && (s.active ==> NoDup(s.pendingTimeouts) && (forall id :: id in s.pendingTimeouts <==> id in s.timers))
    && (!s.active ==> s.pendingTimeouts == [] && s.timers == map[])
    && (forall id :: id in s.timers ==> id < s.nextTimer)
    && (s.active && s.looping ==> s.hasGl)
    && (s.cleanups > 0 ==> !s.active)
    && (s.currentFrame.Some? ==> s.currentFrame.value.texture < s.pool.nextHandle)
  }

  /** No leak: the textures in use are exactly the live frames' textures. */
  ghost predicate Tight(s: Instance) {
    s.pool.used == Live(s)
  }

  /** `drawFrame`: nothing happens without a context or for a deleted texture. */
  function AfterDraw(s: Instance, t: Texture): Instance {
    if s.hasGl && t !in s.pool.deleted then s.(drawn := s.drawn + [t]) else s
  }

  /** `captureInitialFrame`: with a context and a video that has data, grab a texture, remember it as the first frame and draw it. */
  function AfterInitialCapture(s: Instance, ready: bool, now: real): Instance {
    if !ready || !s.hasGl then s
    else
      var (p, t) := Acquire(s.pool);
      AfterDraw(s.(pool := p, initialFrame := Some(Frame(t, now))), t)
  }

  /** The new instance: `startTime` is `now`; without a context the constructor stops right there. */
  function Created(now: real, hasGl: bool, ready: bool, hidden: bool): Instance {
    var s := Instance(true, hasGl, hasGl, Pool([], {}, 0, {}), None, None, None, 0.0, now,
                      [], map[], 0, !hidden, false, 0, []);
    if !hasGl then s else AfterInitialCapture(s.(pool := InitialPool()), ready, now)
  }

  /** One run of the render loop at time `now`. */
  function AfterRender(s: Instance, delay: real, now: real): Instance {
    if !s.active || !s.visibleTab then s
    else if now - s.startTime < delay + 17.0 then
      if s.initialFrame.Some? then AfterDraw(s, s.initialFrame.value.texture) else s
    else if s.delayedFrame.Some? && s.delayedFrame.value.timestamp > s.lastDrawnTimestamp - 34.0 then
      AfterDraw(s, s.delayedFrame.value.texture).(lastDrawnTimestamp := s.delayedFrame.value.timestamp)
    else s
  }

  /** Back from a hidden tab: the first frame is replaced by a fresh one and the warm-up restarts. */
  function AfterReset(s: Instance, now: real): Instance {
    var p := if s.initialFrame.Some? then Release(s.pool, s.initialFrame.value.texture, s.hasGl) else s.pool;
    var (q, t) := Acquire(p);
    s.(tabWasHidden := false, pool := q, initialFrame := Some(Frame(t, now)), startTime := now)
  }

  /**
   * `captureFrame`: without data or context there is no frame; otherwise a
   * texture is taken, and if the upload throws the frame is lost but the
   * texture stays in use.
   */
  function Captured(s: Instance, ready: bool, throws: bool, now: real): (Instance, Option<Frame>) {
    if !ready || !s.hasGl then (s, None)
    else
      var (p, t) := Acquire(s.pool);
      (s.(pool := p), if throws then None else Some(Frame(t, now)))
  }

  /** `scheduleFrameDelay`: arm a fresh timer that will promote `f`. */
  function AfterSchedule(s: Instance, f: Frame, delay: real, now: real): Instance {
    s.(timers := s.timers[s.nextTimer := Promotion(f, PromotionDelay(delay, now, f.timestamp))],
       pendingTimeouts := s.pendingTimeouts + [s.nextTimer],
       nextTimer := s.nextTimer + 1)
  }

  /**
   * One run of the capture loop: `now` is when the frame is read,
   * `scheduleNow` when its promotion delay is computed.
   */
  function AfterCapture(s: Instance, delay: real, now: real, scheduleNow: real,
                        paused: bool, ended: bool, ready: bool, throws: bool): Instance
  {
    if !s.active || !s.visibleTab || paused || ended then s
    else
      var s1 := if s.tabWasHidden then AfterReset(s, now) else s;
      var (s2, f) := Captured(s1, ready, throws, now);
      if f.None? then s2 else AfterSchedule(s2.(currentFrame := f), f.value, delay, scheduleNow)
  }

  /**
   * Promotion timer `id` fires: a cancelled or spent timer does nothing;
   * otherwise the id leaves `pendingTimeouts`, the old delayed frame's
   * texture goes back to the pool and the timer's frame becomes the delayed frame.
   */
  function AfterFire(s: Instance, id: TimerId): Instance {
    if id !in s.timers then s
    else
      var f := s.timers[id].frame;
      var s1 := s.(timers := s.timers - {id});
      if !s1.active then s1
      else
        var p := if s.delayedFrame.Some? then Release(s.pool, s.delayedFrame.value.texture, s.hasGl) else s.pool;
        s1.(pendingTimeouts := Without(s.pendingTimeouts, id), pool := p, delayedFrame := Some(f))
  }

  /** The `visibilitychange` listener, present from a successful constructor until stop. */
  function AfterVisibility(s: Instance, hidden: bool): Instance {
    if !s.looping || !s.active then s
    else s.(visibleTab := !hidden, tabWasHidden := hidden || s.tabWasHidden)
  }

  /** `stop`: deactivate, cancel every pending promotion, arm the GL cleanup. */
  function AfterStop(s: Instance): Instance {
    s.(active := false, pendingTimeouts := [], timers := map[], cleanups := s.cleanups + 1)
  }

  function Elements(ts: seq<Texture>): set<Texture> {
    set i | 0 <= i < |ts| :: ts[i]
  }

  /** The GL cleanup timer: delete every texture the instance knows and drop the context. */
  function AfterCleanup(s: Instance): Instance
    requires s.cleanups > 0
  {
    var s1 := s.(cleanups := s.cleanups - 1);
    if !s1.hasGl then s1
    else
      s1.(pool := Pool([], {}, s.pool.nextHandle, s.pool.deleted + Known(s.currentFrame, s.delayedFrame, s.initialFrame, s.pool.available, s.pool.used)),
          currentFrame := None, delayedFrame := None, initialFrame := None, hasGl := false)
  }

  /** Every texture the instance still knows: its frames', the pool's and those in use. */
  function Known(current: Option<Frame>, delayed: Option<Frame>, initial: Option<Frame>,
                 available: seq<Texture>, used: set<Texture>): set<Texture> {
    FrameTextures(current) + FrameTextures(delayed) + FrameTextures(initial) + Elements(available) + used
  }


  /** The instance the GL cleanup leaves when there is a context, field by field. */
  lemma CleanupModel(s: Instance, r: Instance)
    requires s.cleanups > 0 && s.hasGl
    requires r.cleanups == s.cleanups - 1 && !r.hasGl
    requires r.pool == Pool([], {}, s.pool.nextHandle, s.pool.deleted + Known(s.currentFrame, s.delayedFrame, s.initialFrame, s.pool.available, s.pool.used))
    requires r.currentFrame.None? && r.delayedFrame.None? && r.initialFrame.None?
    requires r.active == s.active && r.looping == s.looping && r.lastDrawnTimestamp == s.lastDrawnTimestamp
    requires r.startTime == s.startTime && r.pendingTimeouts == s.pendingTimeouts && r.timers == s.timers
    requires r.nextTimer == s.nextTimer && r.visibleTab == s.visibleTab && r.tabWasHidden == s.tabWasHidden
    requires r.drawn == s.drawn
    ensures r == AfterCleanup(s)
  {
  }

  // ---------------------------------------------------------------------
  // What the events preserve
  // ---------------------------------------------------------------------

  lemma TimerTexturesUpdate(m: map<TimerId, Promotion>, id: TimerId, pr: Promotion)
    requires id !in m
    ensures TimerTextures(m[id := pr]) == TimerTextures(m) + {pr.frame.texture}
  {
    var m2 := m[id := pr];
    forall t | t in TimerTextures(m2) ensures t in TimerTextures(m) + {pr.frame.texture} {
      var k :| k in m2 && m2[k].frame.texture == t;
      if k != id {
        assert m[k].frame.texture == t;
      }
    }
    forall t | t in TimerTextures(m) ensures t in TimerTextures(m2) {
      var k :| k in m && m[k].frame.texture == t;
      assert m2[k] == m[k];
    }
    assert m2[id].frame.texture == pr.frame.texture;
  }

  lemma TimerTexturesRemove(m: map<TimerId, Promotion>, id: TimerId)
    requires id in m
    requires forall i, j :: i in m && j in m && i != j ==> m[i].frame.texture != m[j].frame.texture
    ensures TimerTextures(m - {id}) == TimerTextures(m) - {m[id].frame.texture}
  {
    var m2 := m - {id};
    forall t | t in TimerTextures(m2) ensures t in TimerTextures(m) - {m[id].frame.texture} {
      var k :| k in m2 && m2[k].frame.texture == t;
      assert m[k].frame.texture == t;
    }
    forall t | t in TimerTextures(m) - {m[id].frame.texture} ensures t in TimerTextures(m2) {
      var k :| k in m && m[k].frame.texture == t;
      assert k != id;
      assert m2[k] == m[k];
    }
  }

  /** A new instance is sound and leaks nothing; with a context its pool starts as the four textures of `createTextures`. */
  lemma CreatedOk(now: real, hasGl: bool, ready: bool, hidden: bool)
    ensures var s := Created(now, hasGl, ready, hidden);
            Inv(s) && Tight(s) && s.active && s.startTime == now && s.timers == map[] &&
            (hasGl && !ready ==> s.pool == InitialPool() && s.initialFrame == None && s.drawn == []) &&
            (hasGl && ready ==> s.pool.available == [0, 1, 2] && s.pool.used == {3} &&
                                s.initialFrame == Some(Frame(3, now)) && s.drawn == [3])
  {
    var s := Created(now, hasGl, ready, hidden);
    if hasGl {
      InitialPoolOk();
      AcquireOk(InitialPool());
      assert InitialPool().available[..3] == [0, 1, 2];
    }
  }

  /** The first frame is replaced by a texture no other live frame holds. */
  lemma ResetOk(s: Instance, now: real)
    requires Inv(s) && s.active
    ensures var r := AfterReset(s, now);
            Inv(r) && r.active == s.active && r.timers == s.timers && r.delayedFrame == s.delayedFrame &&
            (Tight(s) ==> Tight(r))
  {
    var p := if s.initialFrame.Some? then Release(s.pool, s.initialFrame.value.texture, s.hasGl) else s.pool;
    if s.initialFrame.Some? {
      ReleaseOk(s.pool, s.initialFrame.value.texture, s.hasGl);
    }
    var rest := FrameTextures(s.delayedFrame) + TimerTextures(s.timers);
    assert rest <= p.used;
    AcquireOk(p);
    var (q, t) := Acquire(p);
    assert Live(AfterReset(s, now)) == {t} + rest;
  }

  /** Arming a promotion for a texture in use that no live frame holds. */
  lemma ScheduleOk(s: Instance, f: Frame, delay: real, now: real)
    requires Inv(s) && s.active
    requires f.texture in s.pool.used && f.texture !in Live(s)
    ensures var r := AfterSchedule(s, f, delay, now);
            Inv(r) && Live(r) == Live(s) + {f.texture} && r.pool == s.pool
  {
    var r := AfterSchedule(s, f, delay, now);
    TimerTexturesUpdate(s.timers, s.nextTimer, Promotion(f, PromotionDelay(delay, now, f.timestamp)));
    assert s.nextTimer !in s.pendingTimeouts;
    assert NoDup(r.pendingTimeouts) by {
      forall i, j | 0 <= i < j < |r.pendingTimeouts| ensures r.pendingTimeouts[i] != r.pendingTimeouts[j] {
        if j == |s.pendingTimeouts| {
          assert r.pendingTimeouts[i] in s.pendingTimeouts;
        } else {
          assert r.pendingTimeouts[i] == s.pendingTimeouts[i] && r.pendingTimeouts[j] == s.pendingTimeouts[j];
        }
      }
    }
  }

  /** `captureFrame` hands back, if anything, a frame whose texture is in use and held by no live frame. */
  lemma CapturedOk(s: Instance, ready: bool, throws: bool, now: real)
    requires Inv(s)
    ensures var (r, f) := Captured(s, ready, throws, now);
            Inv(r) && Live(r) == Live(s) && r.active == s.active && r.timers == s.timers &&
            (f.Some? ==> f.value.texture in r.pool.used && f.value.texture !in Live(r) && f.value.timestamp == now) &&
            (f.None? && !(ready && s.hasGl && throws) ==> r == s) &&
            (f.Some? ==> r.pool.used == s.pool.used + {f.value.texture})
  {
    if ready && s.hasGl {
      AcquireOk(s.pool);
    }
  }

  /**
   * One run of the capture loop keeps the instance sound, and leaks no
   * texture unless the upload of the captured frame throws.
   */
  lemma CaptureOk(s: Instance, delay: real, now: real, scheduleNow: real,
                  paused: bool, ended: bool, ready: bool, throws: bool)
    requires Inv(s)
    ensures var r := AfterCapture(s, delay, now, scheduleNow, paused, ended, ready, throws);
            Inv(r) && (Tight(s) && !throws ==> Tight(r))
  {
    if s.active && s.visibleTab && !paused && !ended {
      var s1 := if s.tabWasHidden then AfterReset(s, now) else s;
      if s.tabWasHidden {
        ResetOk(s, now);
      }
      CapturedOk(s1, ready, throws, now);
      var (s2, f) := Captured(s1, ready, throws, now);
      if f.Some? {
        assert Live(s2.(currentFrame := f)) == Live(s2);
        ScheduleOk(s2.(currentFrame := f), f.value, delay, scheduleNow);
      }
    }
  }

  /** The state a live promotion timer leaves, given the pool after the old delayed frame is returned. */
  lemma PromotedOk(s: Instance, id: TimerId, p: Pool, r: Instance)
    requires Inv(s) && id in s.timers
    requires PoolOk(p) && p.used == s.pool.used - FrameTextures(s.delayedFrame) && p.nextHandle == s.pool.nextHandle
    requires r == s.(timers := s.timers - {id}, pendingTimeouts := Without(s.pendingTimeouts, id),
                     pool := p, delayedFrame := Some(s.timers[id].frame))
    ensures Inv(r) && Live(r) == Live(s) - FrameTextures(s.delayedFrame)
  {
    assert s.active;
    PromotedFrames(s, id, r);
    assert NoDup(r.pendingTimeouts) by {
      WithoutNoDup(s.pendingTimeouts, id);
    }
  }

  /** The promoted frame leaves the timers for `delayedFrame`, which drops its old texture from the live set. */
  lemma PromotedFrames(s: Instance, id: TimerId, r: Instance)
    requires Inv(s) && id in s.timers
    requires r.timers == s.timers - {id} && r.delayedFrame == Some(s.timers[id].frame) && r.initialFrame == s.initialFrame
    ensures Live(r) == Live(s) - FrameTextures(s.delayedFrame) && FramesDistinct(r)
  {
    TimerTexturesRemove(s.timers, id);
  }

  /**
   * A promotion that fires moves its frame into `delayedFrame`, takes its id
   * out of `pendingTimeouts`, and returns the previous delayed frame's texture
   * to the pool; the instance stays sound and leaks nothing new.
   */
  lemma FireOk(s: Instance, id: TimerId)
    requires Inv(s)
    ensures var r := AfterFire(s, id);
            Inv(r) && (Tight(s) ==> Tight(r)) &&
            (id in s.timers ==>
               r.delayedFrame == Some(s.timers[id].frame) && id !in r.timers && id !in r.pendingTimeouts &&
               (s.delayedFrame.Some? ==> s.delayedFrame.value.texture !in r.pool.used))
  {
    if id in s.timers {
      assert s.active;
      var p := if s.delayedFrame.Some? then Release(s.pool, s.delayedFrame.value.texture, s.hasGl) else s.pool;
      assert PoolOk(p) && p.used == s.pool.used - FrameTextures(s.delayedFrame) && p.nextHandle == s.pool.nextHandle by {
        if s.delayedFrame.Some? {
          ReleaseOk(s.pool, s.delayedFrame.value.texture, s.hasGl);
        }
      }
      PromotedOk(s, id, p, AfterFire(s, id));
    }
  }

  /** The visibility listener only touches the two visibility flags. */
  lemma VisibilityOk(s: Instance, hidden: bool)
    requires Inv(s)
    ensures var r := AfterVisibility(s, hidden);
            Inv(r) && Live(r) == Live(s) && r.pool == s.pool &&
            (s.looping && s.active ==> r.visibleTab == !hidden && (hidden ==> r.tabWasHidden))
  {
    InvIgnoresDisplay(s, AfterVisibility(s, hidden));
  }

  /**
   * After `stop` no promotion is pending, and a promotion timer firing
   * afterwards changes nothing.
   */
  lemma StopOk(s: Instance, id: TimerId)
    requires Inv(s)
    ensures var r := AfterStop(s);
            Inv(r) && !r.active && r.pendingTimeouts == [] && r.timers == map[] &&
            Live(r) <= Live(s) && AfterFire(r, id) == r
  {
    var r := AfterStop(s);
    assert TimerTextures(r.timers) == {};
  }

  /** The GL cleanup deletes every texture the instance still knows and leaves nothing in use. */
  lemma CleanupOk(s: Instance)
    requires Inv(s) && s.cleanups > 0
    ensures var r := AfterCleanup(s);
            Inv(r) && r.cleanups == s.cleanups - 1 &&
            (s.hasGl ==> Tight(r) && r.pool.used == {} && r.pool.available == [] && s.pool.used <= r.pool.deleted &&
                         (forall i :: 0 <= i < |s.pool.available| ==> s.pool.available[i] in r.pool.deleted))
  {
    var r := AfterCleanup(s);
    assert TimerTextures(r.timers) == {};
    if s.hasGl {
      assert s.pool.used <= r.pool.deleted;
    }
  }

  /** `Inv` does not depend on what was drawn, when, or on the visibility flags. */
  lemma InvIgnoresDisplay(s: Instance, r: Instance)
    requires Inv(s)
    requires r.active == s.active && r.looping == s.looping && r.hasGl == s.hasGl && r.pool == s.pool
    requires r.initialFrame == s.initialFrame && r.currentFrame == s.currentFrame && r.delayedFrame == s.delayedFrame
    requires r.pendingTimeouts == s.pendingTimeouts && r.timers == s.timers && r.nextTimer == s.nextTimer
    requires r.cleanups == s.cleanups
    ensures Inv(r)
  {
    assert Live(r) == Live(s);
  }

  /** During warm-up the render loop draws the first frame and nothing else, and `lastDrawnTimestamp` is untouched. */
  lemma RenderWarmUp(s: Instance, delay: real, now: real)
    requires Inv(s) && s.looping && s.active && s.visibleTab
    requires now - s.startTime < delay + 17.0
    ensures var r := AfterRender(s, delay, now);
            r.drawn == s.drawn + (if s.initialFrame.Some? then [s.initialFrame.value.texture] else []) &&
            r.lastDrawnTimestamp == s.lastDrawnTimestamp && r == s.(drawn := r.drawn)
  {
    if s.initialFrame.Some? {
      assert s.initialFrame.value.texture in Live(s);
    }
  }

  /**
   * After warm-up the delayed frame is drawn exactly when it is less than
   * 34 ms older than the last frame drawn, which then becomes the last drawn;
   * so `lastDrawnTimestamp` never drops by 34 ms or more in one step.
   */
  lemma RenderAfterWarmUp(s: Instance, delay: real, now: real)
    requires Inv(s) && s.looping && s.active && s.visibleTab
    requires now - s.startTime >= delay + 17.0
    ensures var r := AfterRender(s, delay, now);
            var shown := s.delayedFrame.Some? && s.delayedFrame.value.timestamp > s.lastDrawnTimestamp - 34.0;
            (shown ==> r.drawn == s.drawn + [s.delayedFrame.value.texture] &&
                       r.lastDrawnTimestamp == s.delayedFrame.value.timestamp) &&
            (!shown ==> r == s) &&
            r.lastDrawnTimestamp > s.lastDrawnTimestamp - 34.0
  {
    if s.delayedFrame.Some? {
      assert s.delayedFrame.value.texture in Live(s);
    }
  }

  /** The render loop changes only the draw log and `lastDrawnTimestamp`. */
  lemma RenderOk(s: Instance, delay: real, now: real)
    requires Inv(s)
    ensures var r := AfterRender(s, delay, now);
            Inv(r) && r.pool == s.pool && r.timers == s.timers && r.pendingTimeouts == s.pendingTimeouts &&
            r.initialFrame == s.initialFrame && r.delayedFrame == s.delayedFrame && r.active == s.active
  {
    var r := AfterRender(s, delay, now);
    assert r == s.(drawn := r.drawn, lastDrawnTimestamp := r.lastDrawnTimestamp);
    InvIgnoresDisplay(s, r);
  }

  // ---------------------------------------------------------------------
  // The class
  // ---------------------------------------------------------------------

  /** `DelayedVideoInstance`: one delayed video. */
  class DelayedVideoInstance {
    const delay: real
    /** Whether the constructor got a context and started the loops and listeners. */
    const looping: bool
    var active: bool
    /** `gl !== null`. */
    var hasGl: bool
    var availableTextures: seq<Texture>
    var usedTextures: set<Texture>
    /** The context's next `createTexture` handle and the handles it has deleted. */
    var nextHandle: nat
    var deletedTextures: set<Texture>
    var initialFrame: Option<Frame>
    var currentFrame: Option<Frame>
    var delayedFrame: Option<Frame>
    var lastDrawnTimestamp: real
    var startTime: real
    var pendingTimeouts: seq<TimerId>
    /** The armed `setTimeout` promotions, and the next id `setTimeout` returns. */
    var timers: map<TimerId, Promotion>
    var nextTimer: nat
    var visibleTab: bool
    var tabWasHidden: bool
    /** Armed GL cleanup timers. */
    var cleanups: nat
    /** Every texture drawn to the canvas, oldest first. */
    var drawn: seq<Texture>

    ghost function Model(): Instance
      reads this
    {
      Instance(active, looping, hasGl, Pool(availableTextures, usedTextures, nextHandle, deletedTextures),
               initialFrame, currentFrame, delayedFrame, lastDrawnTimestamp, startTime,
               pendingTimeouts, timers, nextTimer, visibleTab, tabWasHidden, cleanups, drawn)
    }

    ghost predicate Valid()
      reads this
    {
      Inv(Model())
    }

    /**
     * `new DelayedVideoInstance(video, delay)`: `now` is `performance.now()`,
     * `hasGl` whether a WebGL context was obtained, `ready` whether the video
     * has current data (`readyState >= 2`), `hidden` is `document.hidden`.
     */
    constructor (delay: real, now: real, hasGl: bool, ready: bool, hidden: bool)
      ensures Valid() && Tight(Model())
      ensures Model() == Created(now, hasGl, ready, hidden) && this.delay == delay
    {
      this.delay := delay;
      looping := hasGl;
      active := true;
      this.hasGl := hasGl;
      availableTextures, usedTextures, nextHandle, deletedTextures := [], {}, 0, {};
      initialFrame, currentFrame, delayedFrame := None, None, None;
      lastDrawnTimestamp, startTime := 0.0, now;
      pendingTimeouts, timers, nextTimer := [], map[], 0;
      visibleTab, tabWasHidden := !hidden, false;
      cleanups, drawn := 0, [];
      new;
      if hasGl {
        CreateTextures();
        CaptureInitialFrame(ready, now);
      }
      CreatedOk(now, hasGl, ready, hidden);
    }

    /** `createTextures`: four fresh textures on the spare stack. */
    method CreateTextures()
      requires availableTextures == [] && usedTextures == {} && nextHandle == 0 && deletedTextures == {}
      modifies this
      ensures Model() == old(Model()).(pool := InitialPool())
    {
      var i := 0;
      while i < PoolSize
        invariant 0 <= i <= PoolSize
        invariant availableTextures == seq(i, k => k) && nextHandle == i
        invariant Model() == old(Model()).(pool := Pool(availableTextures, {}, nextHandle, {}))
      {
        var tex := nextHandle;
        nextHandle := nextHandle + 1;
        availableTextures := availableTextures + [tex];
        i := i + 1;
      }
      assert availableTextures == [0, 1, 2, 3];
    }

    /** `getTexture`. */
    method GetTexture() returns (tex: Texture)
      modifies this
      ensures Model() == old(Model()).(pool := Acquire(old(Model()).pool).0)
      ensures tex == Acquire(old(Model()).pool).1
    {
      if |availableTextures| > 0 {
        tex := availableTextures[|availableTextures| - 1];
        availableTextures := availableTextures[..|availableTextures| - 1];
        usedTextures := usedTextures + {tex};
        return;
      }
      tex := nextHandle;
      nextHandle := nextHandle + 1;
      usedTextures := usedTextures + {tex};
    }

    /** `returnTexture`. */
    method ReturnTexture(tex: Texture)
      modifies this
      ensures Model() == old(Model()).(pool := Release(old(Model()).pool, tex, hasGl))
    {
      if tex !in usedTextures {
        return;
      }
      usedTextures := usedTextures - {tex};
      if |availableTextures| < PoolSize {
        availableTextures := availableTextures + [tex];
      } else if hasGl {
        deletedTextures := deletedTextures + {tex};
      }
    }

    /** `drawFrame`. */
    method DrawFrame(tex: Texture)
      modifies this
      ensures Model() == AfterDraw(old(Model()), tex)
    {
      if !hasGl || tex in deletedTextures {
        return;
      }
      drawn := drawn + [tex];
    }

    /** `captureInitialFrame`. */
    method CaptureInitialFrame(ready: bool, now: real)
      modifies this
      ensures Model() == AfterInitialCapture(old(Model()), ready, now)
    {
      if !ready || !hasGl {
        return;
      }
      var tex := GetTexture();
      initialFrame := Some(Frame(tex, now));
      DrawFrame(tex);
    }

    /** One run of the render loop at `now`. */
    method RenderTick(now: real)
      requires Valid() && looping
      modifies this
      ensures Valid() && Model() == AfterRender(old(Model()), delay, now)
    {
      RenderOk(Model(), delay, now);
      if !active || !visibleTab {
        return;
      }
      if now - startTime < delay + 17.0 {
        if initialFrame.Some? {
          DrawFrame(initialFrame.value.texture);
        }
      } else if delayedFrame.Some? && delayedFrame.value.timestamp > lastDrawnTimestamp - 34.0 {
        DrawFrame(delayedFrame.value.texture);
        lastDrawnTimestamp := delayedFrame.value.timestamp;
      }
    }

    /** `captureFrame`: `throws` says whether uploading the video frame into the texture throws. */
    method CaptureFrame(ready: bool, throws: bool, now: real) returns (frame: Option<Frame>)
      modifies this
      ensures (Model(), frame) == Captured(old(Model()), ready, throws, now)
    {
      if !ready || !hasGl {
        return None;
      }
      var tex := GetTexture();
      if throws {
        return None;
      }
      return Some(Frame(tex, now));
    }

    /** `scheduleFrameDelay`: arm the promotion of `frame`; `now` is read when the delay is computed. */
    method ScheduleFrameDelay(frame: Frame, now: real)
      modifies this
      ensures Model() == AfterSchedule(old(Model()), frame, delay, now)
    {
      var adjustedDelay := delay - (now - frame.timestamp) - 2.0;
      var timeoutId := nextTimer;
      nextTimer := nextTimer + 1;
      timers := timers[timeoutId := Promotion(frame, MaxReal(0.0, adjustedDelay))];
      pendingTimeouts := pendingTimeouts + [timeoutId];
    }

    /** Back from a hidden tab: a fresh first frame, and the warm-up starts again. */
    method ResetInitialFrame(now: real)
      modifies this
      ensures Model() == AfterReset(old(Model()), now)
    {
      tabWasHidden := false;
      if initialFrame.Some? {
        ReturnTexture(initialFrame.value.texture);
      }
      var tex := GetTexture();
      initialFrame := Some(Frame(tex, now));
      startTime := now;
    }

    /** One run of the capture loop; `now` is when the frame is read. */
    method CaptureTick(now: real, scheduleNow: real, paused: bool, ended: bool, ready: bool, throws: bool)
      requires Valid() && looping
      modifies this
      ensures Valid() && Model() == AfterCapture(old(Model()), delay, now, scheduleNow, paused, ended, ready, throws)
      ensures Tight(old(Model())) && !throws ==> Tight(Model())
    {
      ghost var s0 := Model();
      CaptureOk(s0, delay, now, scheduleNow, paused, ended, ready, throws);
      if !active {
        return;
      }
      if !visibleTab || paused || ended {
        return;
      }
      if tabWasHidden {
        ResetInitialFrame(now);
      }
      var frame := CaptureFrame(ready, throws, now);
      if frame.None? {
        return;
      }
      currentFrame := frame;
      ScheduleFrameDelay(frame.value, scheduleNow);
    }

    /**
     * Promotion timer `id` fires. A timer that `stop` cancelled never fires,
     * so one that does finds the instance active and the source's `active`
     * guard at this point is never taken.
     */
    method FireTimeout(id: TimerId)
      requires Valid()
      modifies this
      ensures Valid() && Model() == AfterFire(old(Model()), id)
    {
      FireOk(Model(), id);
      if id !in timers {
        return;
      }
      Promote(id);
    }

    /** The body of a live promotion timer. */
    method Promote(id: TimerId)
      requires id in timers && active
      modifies this
      ensures Model() == AfterFire(old(Model()), id)
    {
      var frame := timers[id].frame;
      timers := timers - {id};
      pendingTimeouts := Without(pendingTimeouts, id);
      if delayedFrame.Some? {
        ReturnTexture(delayedFrame.value.texture);
      }
      delayedFrame := Some(frame);
    }

    /** The `visibilitychange` listener; `hidden` is `document.hidden`. */
    method OnVisibilityChange(hidden: bool)
      requires Valid()
      modifies this
      ensures Valid() && Model() == AfterVisibility(old(Model()), hidden)
    {
      VisibilityOk(Model(), hidden);
      if !looping || !active {
        return;
      }
      visibleTab := !hidden;
      if !visibleTab {
        tabWasHidden := true;
      }
    }

    /** `stop`. */
    method Stop()
      modifies this
      ensures Model() == AfterStop(old(Model()))
      ensures old(Valid()) ==> Valid()
    {
      if Valid() {
        StopOk(Model(), 0);
      }
      active := false;
      pendingTimeouts := [];
      timers := map[];
      cleanups := cleanups + 1;
    }

    /** The GL cleanup timer that `stop` arms. */
    method Cleanup()
      requires Valid() && cleanups > 0
      modifies this
      ensures Valid() && Model() == AfterCleanup(old(Model()))
    {
      ghost var s := Model();
      DeleteTextures();
      CleanupOk(s);
      if s.hasGl {
        CleanupModel(s, Model());
      } else {
        assert Model() == s.(cleanups := s.cleanups - 1);
      }
    }

    /** The body of the cleanup timer, as far as textures and the context go. */
    method DeleteTextures()
      requires cleanups > 0
      modifies this`cleanups, this`deletedTextures, this`availableTextures, this`usedTextures
      modifies this`currentFrame, this`delayedFrame, this`initialFrame, this`hasGl
      ensures cleanups == old(cleanups) - 1
      ensures !old(hasGl) ==>
                !hasGl && deletedTextures == old(deletedTextures) && availableTextures == old(availableTextures) &&
                usedTextures == old(usedTextures) && currentFrame == old(currentFrame) &&
                delayedFrame == old(delayedFrame) && initialFrame == old(initialFrame)
      ensures old(hasGl) ==>
                deletedTextures == old(deletedTextures) + Known(old(currentFrame), old(delayedFrame), old(initialFrame), old(availableTextures), old(usedTextures)) &&
                availableTextures == [] && usedTextures == {} && !hasGl &&
                currentFrame.None? && delayedFrame.None? && initialFrame.None?
    {
      if !hasGl {
        cleanups := cleanups - 1;
        return;
      }
      var gone := Known(currentFrame, delayedFrame, initialFrame, availableTextures, usedTextures);
      cleanups, deletedTextures, availableTextures, usedTextures := cleanups - 1, deletedTextures + gone, [], {};
      currentFrame, delayedFrame, initialFrame, hasGl := None, None, None, false;
    }
  }

  /** A `<video>` element, by identity. */
  type VideoId = nat

  /**
   * `VideoDelayer`: one instance per delayed video and one pending frame
   * callback per video waiting for its first frame. `listening` holds the
   * videos that got `play`/`loadstart` listeners; the source never removes them.
   */
  class VideoDelayer {
    /** Whether videos offer `requestVideoFrameCallback`. */
    const frameCallbacksSupported: bool
    var instances: map<VideoId, DelayedVideoInstance>
    var callbacks: map<VideoId, nat>
    /** The next id `requestVideoFrameCallback` returns. */
    var nextCallback: nat
    /** Whether the mutation observer is connected. */
    var observing: bool
    var active: bool
    var delayMs: real
    var listening: set<VideoId>

    /**
     * No instance while inactive, no video both delayed and waiting for a
     * frame, and every instance a distinct running object. Each instance
     * keeps its own `Valid` through its own methods.
     */
    ghost predicate Valid()
      reads this, instances.Values
    {
      && (!active ==> instances == map[])
      && instances.Keys !! callbacks.Keys
      && (forall v :: v in instances ==> instances[v].active)
      && (forall v, w :: v in instances && w in instances && v != w ==> instances[v] != instances[w])
      && (forall v :: v in callbacks ==> callbacks[v] < nextCallback)
    }

    constructor (frameCallbacksSupported: bool)
      ensures Valid() && !active && delayMs == DefaultVideoDelayMs
      ensures instances == map[] && callbacks == map[] && listening == {} && !observing
      ensures this.frameCallbacksSupported == frameCallbacksSupported
    {
      this.frameCallbacksSupported := frameCallbacksSupported;
      instances, callbacks, nextCallback := map[], map[], 0;
      observing, active, delayMs, listening := false, false, DefaultVideoDelayMs, {};
    }

    /** The `setup` closure: ask for a callback on the video's next frame. */
    method Setup(v: VideoId)
      requires Valid() && v !in instances
      modifies this
      ensures Valid()
      ensures callbacks == if frameCallbacksSupported then old(callbacks)[v := old(nextCallback)] else old(callbacks)
      ensures instances == old(instances) && active == old(active) && listening == old(listening)
      ensures observing == old(observing) && delayMs == old(delayMs)
    {
      if !frameCallbacksSupported {
        return;
      }
      var callbackId := nextCallback;
      nextCallback := nextCallback + 1;
      callbacks := callbacks[v := callbackId];
    }

    /** `waitForFrame`: a video already delayed or waiting, or any video while inactive, is left alone. */
    method WaitForFrame(v: VideoId)
      requires Valid()
      modifies this
      ensures Valid()
      ensures instances == old(instances) && active == old(active) && observing == old(observing) && delayMs == old(delayMs)
      ensures v in old(instances) || v in old(callbacks) || !active ==>
                callbacks == old(callbacks) && listening == old(listening)
      ensures !(v in old(instances) || v in old(callbacks) || !active) ==>
                listening == old(listening) + {v} &&
                callbacks == if frameCallbacksSupported then old(callbacks)[v := old(nextCallback)] else old(callbacks)
      ensures active && frameCallbacksSupported ==> v in instances || v in callbacks
      ensures forall w :: w in old(callbacks) ==> w in callbacks && callbacks[w] == old(callbacks)[w]
      ensures forall w :: w in callbacks ==> w in old(callbacks) || w == v
    {
      if v in instances || v in callbacks || !active {
        return;
      }
      Setup(v);
      listening := listening + {v};
    }

    /** `start`: keep the delay unless one is given; `videos` are the page's `<video>` elements. */
    method Start(delay: Option<real>, videos: seq<VideoId>)
      requires Valid()
      modifies this
      ensures Valid() && active && observing
      ensures delayMs == delay.GetOr(old(delayMs))
      ensures instances == old(instances)
      ensures forall v :: v in old(callbacks) ==> v in callbacks && callbacks[v] == old(callbacks)[v]
      ensures forall v :: v in videos && frameCallbacksSupported ==> v in instances || v in callbacks
      ensures forall v :: v in callbacks ==> v in old(callbacks) || v in videos
      ensures old(listening) <= listening && forall v :: v in listening ==> v in old(listening) || v in videos
      ensures forall v :: v in videos ==> v in instances || v in callbacks || v in listening
    {
      if delay.Some? {
        delayMs := delay.value;
      }
      active := true;
      var i := 0;
      while i < |videos|
        invariant 0 <= i <= |videos|
        invariant Valid() && active && delayMs == delay.GetOr(old(delayMs)) && instances == old(instances)
        invariant observing == old(observing)
        invariant forall v :: v in old(callbacks) ==> v in callbacks && callbacks[v] == old(callbacks)[v]
        invariant forall k :: 0 <= k < i && frameCallbacksSupported ==> videos[k] in instances || videos[k] in callbacks
        invariant forall v :: v in callbacks ==> v in old(callbacks) || v in videos[..i]
        invariant old(listening) <= listening && forall v :: v in listening ==> v in old(listening) || v in videos[..i]
        invariant forall k :: 0 <= k < i ==> videos[k] in instances || videos[k] in callbacks || videos[k] in listening
      {
        WaitForFrame(videos[i]);
        i := i + 1;
      }
      observing := true;
    }

    /** The mutation observer: `videos` are the `<video>` elements among (or inside) the added nodes. */
    method OnVideosAdded(videos: seq<VideoId>)
      requires Valid()
      modifies this
      ensures Valid() && instances == old(instances) && active == old(active)
      ensures observing == old(observing) && delayMs == old(delayMs)
      ensures !old(observing) ==> callbacks == old(callbacks) && listening == old(listening)
      ensures forall v :: v in old(callbacks) ==> v in callbacks && callbacks[v] == old(callbacks)[v]
      ensures forall v :: v in callbacks ==> v in old(callbacks) || v in videos
      ensures old(listening) <= listening && forall v :: v in listening ==> v in old(listening) || v in videos
      ensures observing && active ==>
                forall v :: v in videos ==> v in instances || v in callbacks || v in listening
      ensures observing && active && frameCallbacksSupported ==>
                forall v :: v in videos ==> v in instances || v in callbacks
    {
      if !observing {
        return;
      }
      var i := 0;
      while i < |videos|
        invariant 0 <= i <= |videos|
        invariant Valid() && instances == old(instances) && active == old(active)
        invariant observing == old(observing) && delayMs == old(delayMs)
        invariant forall v :: v in old(callbacks) ==> v in callbacks && callbacks[v] == old(callbacks)[v]
        invariant forall v :: v in callbacks ==> v in old(callbacks) || v in videos[..i]
        invariant old(listening) <= listening && forall v :: v in listening ==> v in old(listening) || v in videos[..i]
        invariant active ==> forall k :: 0 <= k < i ==> videos[k] in instances || videos[k] in callbacks || videos[k] in listening
        invariant active && frameCallbacksSupported ==> forall k :: 0 <= k < i ==> videos[k] in instances || videos[k] in callbacks
      {
        WaitForFrame(videos[i]);
        i := i + 1;
      }
    }

    /** `delayVideo`: at most one instance per video, and none while inactive. */
    method DelayVideo(v: VideoId, now: real, hasGl: bool, ready: bool, hidden: bool)
      requires Valid() && v !in callbacks
      modifies this
      ensures Valid() && callbacks == old(callbacks) && active == old(active)
      ensures delayMs == old(delayMs) && listening == old(listening) && observing == old(observing)
      ensures nextCallback == old(nextCallback)
      ensures v in old(instances) || !active ==> instances == old(instances)
      ensures !(v in old(instances) || !active) ==>
                v in instances && instances == old(instances)[v := instances[v]] && fresh(instances[v]) &&
                instances[v].delay == delayMs && instances[v].Model() == Created(now, hasGl, ready, hidden)
    {
      if v in instances || !active {
        return;
      }
      var instance := new DelayedVideoInstance(delayMs, now, hasGl, ready, hidden);
      instances := instances[v := instance];
    }

    /**
     * The frame callback registered for `v` fires (a cancelled one never
     * does); `paused` is `video.paused`, the rest is passed to the new instance.
     */
    method OnFrameCallback(v: VideoId, paused: bool, now: real, hasGl: bool, ready: bool, hidden: bool)
      requires Valid()
      modifies this
      ensures Valid() && active == old(active)
      ensures v !in old(callbacks) ==> instances == old(instances) && callbacks == old(callbacks)
      ensures v in old(callbacks) ==> callbacks == old(callbacks) - {v}
      ensures v in old(callbacks) && !paused && active ==>
                v in instances && fresh(instances[v]) && instances == old(instances)[v := instances[v]] &&
                instances[v].delay == delayMs && instances[v].Model() == Created(now, hasGl, ready, hidden)
      ensures paused || !active ==> instances == old(instances)
      ensures delayMs == old(delayMs) && listening == old(listening) && observing == old(observing)
      ensures nextCallback == old(nextCallback)
    {
      if v !in callbacks {
        return;
      }
      callbacks := callbacks - {v};
      if paused || !active {
        return;
      }
      DelayVideo(v, now, hasGl, ready, hidden);
    }

    /** The `play`/`loadstart` listener, which stays attached after `stop`. */
    method OnPlay(v: VideoId, paused: bool)
      requires Valid()
      modifies this
      ensures Valid() && instances == old(instances) && active == old(active)
      ensures v in listening && !paused && v !in old(callbacks) && v !in instances ==>
                callbacks == if frameCallbacksSupported then old(callbacks)[v := old(nextCallback)] else old(callbacks)
      ensures !(v in listening && !paused && v !in old(callbacks) && v !in instances) ==> callbacks == old(callbacks)
      ensures delayMs == old(delayMs) && listening == old(listening) && observing == old(observing)
    {
      if v !in listening {
        return;
      }
      if !paused && v !in callbacks && v !in instances {
        Setup(v);
      }
    }

    /** `stop`: cancel every frame callback, disconnect the observer, stop and drop every instance. */
    method Stop()
      requires Valid()
      modifies this, instances.Values
      ensures Valid() && !active && !observing
      ensures instances == map[] && callbacks == map[]
      ensures delayMs == old(delayMs) && listening == old(listening)
      ensures forall v :: v in old(instances) ==>
                !old(instances)[v].active && old(instances)[v].pendingTimeouts == [] && old(instances)[v].timers == map[]
    {
      active := false;
      callbacks := map[];
      observing := false;
      var todo := instances.Keys;
      while todo != {}
        invariant todo <= instances.Keys && instances == old(instances)
        invariant forall v, w :: v in instances && w in instances && v != w ==> instances[v] != instances[w]
        invariant forall v :: v in instances && v !in todo ==>
                    !instances[v].active && instances[v].pendingTimeouts == [] && instances[v].timers == map[]
        invariant !active && !observing && callbacks == map[]
        invariant delayMs == old(delayMs) && listening == old(listening)
        decreases |todo|
      {
        var v :| v in todo;
        instances[v].Stop();
        todo := todo - {v};
      }
      instances := map[];
    }
  }
}
