/** What the animation controller of Assignment5 promises, stated about
    `AnimationSpec.Next` (and so, through `Controller.Step`'s contract, about
    every frame of the render loop). */
module AnimationProperties {
  import opened Geometry
  import opened AnimationSpec

  /** The animator clock the switch reads: a hotkey has just reset it to zero. */
  function EffectiveTime(f: Frame): real {
    if Hotkey(f.keys) == None then f.animTime else 0.0
  }

  function EffectiveTime2(f: Frame): real {
    if Hotkey(f.keys) == None then f.animTime2 else 0.0
  }

  function WithoutHotkeys(k: Keys): Keys {
    k.(hot1 := false, hot2 := false, hot3 := false, hot4 := false, hot5 := false)
  }

  /** From IDLE, any held arrow starts the idle-to-walk blend from zero, whatever
      J, K or T say; the character turns and takes one step. */
  lemma IdleArrowEntersWalk(s: Snapshot, f: Frame, normalize: Vec3 -> Vec3)
    requires s.state == Idle && AnyArrow(f.keys)
    ensures var r := Next(s, f, normalize);
      && r.state == IdleWalk && r.blend == 0.0
      && r.rotation == ArrowRotation(f.keys, s.rotation)
      && r.position == Add(s.position, Scale(normalize(IdleDirection(f.keys)), MoveSpeed * f.deltaTime))
      && r.animator == Animator(IdleClip, Some(WalkClip), EffectiveTime(f), 0.0, 0.0)
  {
  }

  /** Without arrows, J beats K beats T; with none of them the state, the
      accumulator, the position and the rotation are unchanged. */
  lemma IdleActionPriority(s: Snapshot, f: Frame, normalize: Vec3 -> Vec3)
    requires s.state == Idle && !AnyArrow(f.keys)
    ensures var r := Next(s, f, normalize); var k := f.keys;
      && r.state == (if k.punch then IdlePunch else if k.kick then IdleKick else if k.talk then IdleTalk else Idle)
      && r.blend == (if k.punch || k.kick || k.talk then 0.0 else s.blend)
      && r.position == s.position && r.rotation == s.rotation
  {
  }

  /** The arrow rotation is the angle of the last held key when UP (180), DOWN
      (0), LEFT (-90) and RIGHT (90) are checked in that order. */
  function LastHeld(tests: seq<(bool, real)>, current: real): real {
    if tests == [] then current
    else LastHeld(tests[1..], if tests[0].0 then tests[0].1 else current)
  }

  lemma ArrowRotationIsLastHeld(k: Keys, rotation: real)
    ensures ArrowRotation(k, rotation)
      == LastHeld([(k.up, 180.0), (k.down, 0.0), (k.left, -90.0), (k.right, 90.0)], rotation)
  {
    var tests: seq<(bool, real)> := [(k.up, 180.0), (k.down, 0.0), (k.left, -90.0), (k.right, 90.0)];
    assert tests[1..] == [(k.down, 0.0), (k.left, -90.0), (k.right, 90.0)];
    assert tests[1..][1..] == [(k.left, -90.0), (k.right, 90.0)];
    assert tests[1..][1..][1..] == [(k.right, 90.0)];
    assert tests[1..][1..][1..][1..] == [];
    var r1 := if k.up then 180.0 else rotation;
    var r2 := if k.down then 0.0 else r1;
    var r3 := if k.left then -90.0 else r2;
    var r4 := if k.right then 90.0 else r3;
    assert LastHeld(tests, rotation) == LastHeld(tests[1..], r1);
    assert LastHeld(tests[1..], r1) == LastHeld(tests[1..][1..], r2);
    assert LastHeld(tests[1..][1..], r2) == LastHeld(tests[1..][1..][1..], r3);
    assert LastHeld(tests[1..][1..][1..], r3) == LastHeld(tests[1..][1..][1..][1..], r4) == r4;
  }

  /** A blending state that is not held by its gate advances the accumulator
      modulo one and, past 0.9, resets it and moves to its fixed successor. */
  lemma BlendingStateAdvances(s: Snapshot, f: Frame, normalize: Vec3 -> Vec3)
    requires IsEntering(s.state) || (IsGated(s.state) && EffectiveTime(f) > Hold(s.state))
    ensures var r := Next(s, f, normalize); var b := FmodOne(s.blend + BlendRate);
      && (b > CommitThreshold ==> r.state == Edge(s.state).successor && r.blend == 0.0)
      && (b <= CommitThreshold ==> r.state == s.state && r.blend == b)
      && r.position == s.position && r.rotation == s.rotation
  {
  }

  /** The successor table of the blending states. */
  lemma Successors()
    ensures Edge(IdleWalk).successor == Walk && Edge(WalkIdle).successor == Idle
    ensures Edge(IdlePunch).successor == PunchIdle && Edge(PunchIdle).successor == Idle
    ensures Edge(IdleKick).successor == KickIdle && Edge(KickIdle).successor == Idle
    ensures Edge(IdleTalk).successor == TalkIdle && Edge(TalkIdle).successor == Idle
  {
  }

  /** PUNCH_IDLE, KICK_IDLE and TALK_IDLE wait, untouched, until the animator
      clock passes 0.7, 1.0 and 3.0. */
  lemma GateHolds(s: Snapshot, f: Frame, normalize: Vec3 -> Vec3)
    requires IsGated(s.state) && EffectiveTime(f) <= Hold(s.state)
    ensures var r := Next(s, f, normalize);
      r.state == s.state && r.blend == s.blend && r.position == s.position && r.rotation == s.rotation
  {
  }

  /** Every commit plays the target clip alone, from the time the secondary
      clock had reached, with zero blend. */
  lemma CommitRestartsTarget(s: Snapshot, f: Frame, normalize: Vec3 -> Vec3)
    requires IsBlending(s.state)
    requires Next(s, f, normalize).state != s.state
    ensures var r := Next(s, f, normalize);
      && r.state == Edge(s.state).successor && r.blend == 0.0
      && r.animator == Animator(Edge(s.state).target, None, EffectiveTime2(f), 0.0, 0.0)
  {
  }

  /** In WALK the state becomes WALK_IDLE, with the accumulator reset, exactly
      when no arrow is held; the position never changes. */
  lemma WalkExitsExactlyWithoutArrows(s: Snapshot, f: Frame, normalize: Vec3 -> Vec3)
    requires s.state == Walk
    ensures var r := Next(s, f, normalize);
      && (r.state == WalkIdle <==> !AnyArrow(f.keys))
      && (r.state == Walk <==> AnyArrow(f.keys))
      && r.blend == (if AnyArrow(f.keys) then s.blend else 0.0)
      && r.position == s.position
      && r.rotation == ArrowRotation(f.keys, s.rotation)
  {
  }

  /** Outside the gated states, hotkeys only replace the animator's request:
      state, accumulator, position and rotation are those of the same frame
      without hotkeys. */
  lemma HotkeysOnlyTouchAnimator(s: Snapshot, f: Frame, normalize: Vec3 -> Vec3)
    requires !IsGated(s.state)
    ensures var r := Next(s, f, normalize);
      var q := Next(s, f.(keys := WithoutHotkeys(f.keys)), normalize);
      r.state == q.state && r.blend == q.blend && r.position == q.position && r.rotation == q.rotation
  {
  }

  /** In a gated state a hotkey resets the clock the gate reads, so the state
      stays put that frame even past its hold time. */
  lemma HotkeyKeepsGateClosed(s: Snapshot, f: Frame, normalize: Vec3 -> Vec3)
    requires IsGated(s.state) && Hotkey(f.keys) != None
    ensures var r := Next(s, f, normalize);
      r.state == s.state && r.blend == s.blend
      && r.animator == AfterHotkeys(s.animator, f.keys)
  {
  }

  /** One frame keeps the accumulator in [0, 1). */
  lemma NextKeepsBlendInRange(s: Snapshot, f: Frame, normalize: Vec3 -> Vec3)
    requires 0.0 <= s.blend < 1.0
    ensures 0.0 <= Next(s, f, normalize).blend < 1.0
  {
  }

  /** Any run of frames keeps the accumulator in [0, 1). */
  lemma {:induction false} RunKeepsBlendInRange(s: Snapshot, frames: seq<Frame>, normalize: Vec3 -> Vec3)
    requires 0.0 <= s.blend < 1.0
    ensures 0.0 <= Run(s, frames, normalize).blend < 1.0
    decreases |frames|
  {
    if frames != [] {
      NextKeepsBlendInRange(s, frames[0], normalize);
      RunKeepsBlendInRange(Next(s, frames[0], normalize), frames[1..], normalize);
    }
  }

  /** An entering blend that has taken `n` steps holds `n * 0.055`: it stays
      for 16 frames and commits on exactly its 17th, whatever the keys do. */
  lemma {:induction false} EnteringBlendCommitsOnSeventeenthFrame(
    s: Snapshot, n: nat, frames: seq<Frame>, normalize: Vec3 -> Vec3)
    requires IsEntering(s.state)
    requires n < 17 && s.blend == n as real * BlendRate
    requires n + |frames| <= 17
    ensures var r := Run(s, frames, normalize);
      if n + |frames| < 17 then r.state == s.state && r.blend == (n + |frames|) as real * BlendRate
      else r.state == Edge(s.state).successor && r.blend == 0.0
    decreases |frames|
  {
    if frames != [] {
      var t := Next(s, frames[0], normalize);
      assert 0.0 <= s.blend + BlendRate < 1.0;
      BlendingStateAdvances(s, frames[0], normalize);
      if n + 1 < 17 {
        assert t.state == s.state && t.blend == (n + 1) as real * BlendRate;
        EnteringBlendCommitsOnSeventeenthFrame(t, n + 1, frames[1..], normalize);
      } else {
        assert |frames| == 1;
        assert t.state == Edge(s.state).successor && t.blend == 0.0;
        assert frames[1..] == [];
      }
    }
  }
}
