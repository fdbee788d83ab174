/** The render loop's character state of Assignment5 as an object: the
    variables `charState`, `blendAmount`, `characterPosition`,
    `characterRotation` and the animator, updated in place once per frame by
    `Step`, which follows the source's `switch (charState)` branch by branch.
    Its contract ties every frame to `AnimationSpec.Next`. */
module AnimationController {
  import opened Geometry
  import opened AnimationSpec

  class Controller {
    var state: AnimState
    var blend: real
    var position: Vec3
    var rotation: real
    var animator: Animator

    function Snap(): Snapshot
      reads this
    {
      Snapshot(state, blend, position, rotation, animator)
    }

    /** The blend accumulator stays in [0, 1). */
    ghost predicate Valid()
      reads this
    {
      0.0 <= blend < 1.0
    }

    constructor ()
      ensures Valid() && Snap() == Initial
    {
      state := Idle;
      blend := 0.0;
      position := Zero;
      rotation := 0.0;
      animator := Animator(IdleClip, None, 0.0, 0.0, 0.0);
    }

    /** The blend block shared by every blending state: add the rate, wrap
        modulo one, play the cross-fade, and commit past the threshold. */
    method Blend(source: Clip, target: Clip, successor: AnimState)
      requires Valid()
      modifies this
      ensures Valid()
      ensures Snap() == BlendStep(old(Snap()), BlendEdge(source, target, successor))
    {
      blend := blend + BlendRate;
      blend := FmodOne(blend);
      animator := Animator(source, Some(target), animator.time, animator.time2, blend);
      if blend > CommitThreshold {
        blend := 0.0;
        var startTime := animator.time2;
        animator := Animator(target, None, startTime, 0.0, blend);
        state := successor;
      }
    }

    /** Lines 137-146: each held hotkey 1..5 restarts its clip alone. */
    method Hotkeys(keys: Keys)
      modifies this`animator
      ensures animator == AfterHotkeys(old(animator), keys)
    {
      if keys.hot1 { animator := Animator(IdleClip, None, 0.0, 0.0, 0.0); }
      if keys.hot2 { animator := Animator(WalkClip, None, 0.0, 0.0, 0.0); }
      if keys.hot3 { animator := Animator(PunchClip, None, 0.0, 0.0, 0.0); }
      if keys.hot4 { animator := Animator(KickClip, None, 0.0, 0.0, 0.0); }
      if keys.hot5 { animator := Animator(TalkClip, None, 0.0, 0.0, 0.0); }
    }

    /** `case IDLE`. */
    method IdleBranch(keys: Keys, deltaTime: real, normalize: Vec3 -> Vec3)
      requires Valid()
      modifies this
      ensures Valid()
      ensures Snap() == IdleStep(old(Snap()), keys, deltaTime, normalize)
    {
      if keys.up || keys.down || keys.left || keys.right {
        blend := 0.0;
        animator := Animator(IdleClip, Some(WalkClip), animator.time, 0.0, blend);
        var isMoving := false;
        var moveDirection := Zero;
        if keys.up { moveDirection := moveDirection.(z := 1.0); rotation := 180.0; isMoving := true; }
        if keys.down { moveDirection := moveDirection.(z := -1.0); rotation := 0.0; isMoving := true; }
        if keys.left { moveDirection := moveDirection.(x := 1.0); rotation := -90.0; isMoving := true; }
        if keys.right { moveDirection := moveDirection.(x := -1.0); rotation := 90.0; isMoving := true; }
        assert moveDirection == IdleDirection(keys);
        if isMoving && moveDirection != Zero {
          moveDirection := normalize(moveDirection);
          position := Add(position, Scale(moveDirection, MoveSpeed * deltaTime));
        }
        // The source's exit test here is dead: isMoving is true, and the
        // state it sets is overwritten right after it in any case.
        var nextState, nextBlend := state, blend;
        if !isMoving {
          nextBlend, nextState := 0.0, WalkIdle;
        }
        nextState := IdleWalk;
        state, blend := nextState, nextBlend;
      } else if keys.punch {
        blend := 0.0;
        animator := Animator(IdleClip, Some(PunchClip), animator.time, 0.0, blend);
        state := IdlePunch;
      } else if keys.kick {
        blend := 0.0;
        animator := Animator(IdleClip, Some(KickClip), animator.time, 0.0, blend);
        state := IdleKick;
      } else if keys.talk {
        blend := 0.0;
        animator := Animator(IdleClip, Some(TalkClip), animator.time, 0.0, blend);
        state := IdleTalk;
      }
    }

    /** `case WALK`: every direction component it assigns is zero. */
    method WalkBranch(keys: Keys, deltaTime: real, normalize: Vec3 -> Vec3)
      requires Valid()
      modifies this
      ensures Valid()
      ensures Snap() == WalkStep(old(Snap()), keys)
    {
      animator := Animator(WalkClip, None, animator.time, animator.time2, blend);
      var isMoving := false;
      var moveDirection := Zero;
      if keys.up { moveDirection := moveDirection.(z := 0.0); rotation := 180.0; isMoving := true; }
      if keys.down { moveDirection := moveDirection.(z := 0.0); rotation := 0.0; isMoving := true; }
      if keys.left { moveDirection := moveDirection.(x := 0.0); rotation := -90.0; isMoving := true; }
      if keys.right { moveDirection := moveDirection.(x := 0.0); rotation := 90.0; isMoving := true; }
      // Every component assigned above is zero, so this never moves.
      var moved := position;
      if isMoving && moveDirection != Zero {
        moveDirection := normalize(moveDirection);
        moved := Add(moved, Scale(moveDirection, MoveSpeed * deltaTime));
      }
      position := moved;
      if !isMoving {
        blend := 0.0;
        state := WalkIdle;
      }
    }

    /** One pass of the render loop. `animTime` and `animTime2` are the
        animator's clocks as the previous frame's `UpdateAnimation` left them;
        `normalize` is `glm::normalize`. */
    method Step(keys: Keys, animTime: real, animTime2: real, deltaTime: real, normalize: Vec3 -> Vec3)
      requires Valid()
      modifies this
      ensures Valid()
      ensures Snap() == Next(old(Snap()), Frame(keys, animTime, animTime2, deltaTime), normalize)
    {
      animator := animator.(time := animTime, time2 := animTime2);
      Hotkeys(keys);
      match state
      case Idle => IdleBranch(keys, deltaTime, normalize);
      case IdleWalk => Blend(IdleClip, WalkClip, Walk);
      case Walk => WalkBranch(keys, deltaTime, normalize);
      case WalkIdle => Blend(WalkClip, IdleClip, Idle);
      case IdlePunch => Blend(IdleClip, PunchClip, PunchIdle);
      case PunchIdle =>
        if animator.time > PunchHold {
          Blend(PunchClip, IdleClip, Idle);
        }
      case IdleKick => Blend(IdleClip, KickClip, KickIdle);
      case KickIdle =>
        if animator.time > KickHold {
          Blend(KickClip, IdleClip, Idle);
        }
      case IdleTalk => Blend(IdleClip, TalkClip, TalkIdle);
      case TalkIdle =>
        if animator.time > TalkHold {
          Blend(TalkClip, IdleClip, Idle);
        }
    }
  }
}
