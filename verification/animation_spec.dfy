/** The character-animation controller of Assignment5 as a pure transition
    function: one call of `Next` is one pass of the render loop through the
    hotkey overrides and the `switch (charState)`.

    The blend logic that the source writes out once per state is stated here
    once, table-driven: every blending state has a `BlendEdge` (the clip it
    blends from, the clip it blends to, the state it commits to) and possibly a
    time gate. `AnimationController.Controller.Step` is the source's switch,
    proved equal to `Next`. */
module AnimationSpec {
  import opened Geometry

  /** `enum AnimState` (IDLE = 1, ... WALK = 10 in the source). */
  datatype AnimState =
    | Idle | IdlePunch | PunchIdle | IdleKick | KickIdle
    | IdleTalk | TalkIdle | IdleWalk | WalkIdle | Walk

  /** The clips the state machine plays (the run clip is loaded but never played). */
  datatype Clip = IdleClip | WalkClip | PunchClip | KickClip | TalkClip

  datatype Option<T> = None | Some(value: T)

  /** What the animator holds after `PlayAnimation(primary, secondary, time, time2, blend)`:
      the two clips, their clocks `m_CurrentTime` / `m_CurrentTime2`, and the blend weight.
      A NULL secondary clip is `None`. */
  datatype Animator = Animator(primary: Clip, secondary: Option<Clip>, time: real, time2: real, blend: real)

  /** The keys the loop polls in one frame (true = GLFW_PRESS). */
  datatype Keys = Keys(
    up: bool, down: bool, left: bool, right: bool,
    punch: bool, kick: bool, talk: bool,      // J, K, T
    hot1: bool, hot2: bool, hot3: bool, hot4: bool, hot5: bool)

  /** Everything one frame of the controller reads and writes. */
  datatype Snapshot = Snapshot(state: AnimState, blend: real, position: Vec3, rotation: real, animator: Animator)

  /** One frame's inputs: the keys and the animator clocks left by the previous
      frame's `UpdateAnimation`, and the frame time. */
  datatype Frame = Frame(keys: Keys, animTime: real, animTime2: real, deltaTime: real)

  const BlendRate: real := 0.055
  const CommitThreshold: real := 0.9
  const MoveSpeed: real := 2.0
  const PunchHold: real := 0.7
  const KickHold: real := 1.0
  const TalkHold: real := 3.0

  /** `Animator animator(&idleAnimation)`, `charState = IDLE`, `blendAmount = 0`. */
  const Initial: Snapshot :=
    Snapshot(Idle, 0.0, Zero, 0.0, Animator(IdleClip, None, 0.0, 0.0, 0.0))

  predicate AnyArrow(k: Keys) {
    k.up || k.down || k.left || k.right
  }

  /** The clip a hotkey forces, if any: keys 1..5 are checked in order, so the last held wins. */
  function Hotkey(k: Keys): (c: Option<Clip>)
    ensures c == None <==> !(k.hot1 || k.hot2 || k.hot3 || k.hot4 || k.hot5)
    ensures k.hot5 ==> c == Some(TalkClip)
    ensures !k.hot5 && k.hot4 ==> c == Some(KickClip)
    ensures !k.hot5 && !k.hot4 && k.hot3 ==> c == Some(PunchClip)
    ensures !k.hot5 && !k.hot4 && !k.hot3 && k.hot2 ==> c == Some(WalkClip)
    ensures !k.hot5 && !k.hot4 && !k.hot3 && !k.hot2 && k.hot1 ==> c == Some(IdleClip)
    ensures c == Some(IdleClip) ==> k.hot1 && !k.hot2 && !k.hot3 && !k.hot4 && !k.hot5
  {
    if k.hot5 then Some(TalkClip)
    else if k.hot4 then Some(KickClip)
    else if k.hot3 then Some(PunchClip)
    else if k.hot2 then Some(WalkClip)
    else if k.hot1 then Some(IdleClip)
    else None
  }

  /** A hotkey cuts to its clip alone, at time zero, with zero blend. */
  function AfterHotkeys(a: Animator, k: Keys): (r: Animator)
    ensures Hotkey(k) == None ==> r == a
    ensures Hotkey(k) != None ==> r.primary == Hotkey(k).value
    ensures Hotkey(k) != None ==> r.secondary == None && r.time == 0.0 && r.time2 == 0.0 && r.blend == 0.0
  {
    match Hotkey(k)
    case None => a
    case Some(c) => Animator(c, None, 0.0, 0.0, 0.0)
  }

  /** The rotation after the arrow checks: the last held key in the order
      UP, DOWN, LEFT, RIGHT decides; with none held the rotation is kept. */
  function ArrowRotation(k: Keys, rotation: real): real {
    if k.right then 90.0
    else if k.left then -90.0
    else if k.down then 0.0
    else if k.up then 180.0
    else rotation
  }

  /** The (unnormalised) `moveDirection` the IDLE branch builds. */
  function IdleDirection(k: Keys): (d: Vec3)
    ensures AnyArrow(k) ==> d != Zero
    ensures d.y == 0.0
  {
    Vec3(if k.right then -1.0 else if k.left then 1.0 else 0.0,
         0.0,
         if k.down then -1.0 else if k.up then 1.0 else 0.0)
  }

  /** A blending state: the clip it blends from, the clip it blends to, and
      the state it commits to. */
  datatype BlendEdge = BlendEdge(source: Clip, target: Clip, successor: AnimState)

  predicate IsBlending(s: AnimState) {
    s != Idle && s != Walk
  }

  /** The states that blend as soon as they are entered. */
  predicate IsEntering(s: AnimState) {
    s == IdleWalk || s == WalkIdle || s == IdlePunch || s == IdleKick || s == IdleTalk
  }

  function Edge(s: AnimState): BlendEdge
    requires IsBlending(s)
  {
    match s
    case IdleWalk => BlendEdge(IdleClip, WalkClip, Walk)
    case WalkIdle => BlendEdge(WalkClip, IdleClip, Idle)
    case IdlePunch => BlendEdge(IdleClip, PunchClip, PunchIdle)
    case PunchIdle => BlendEdge(PunchClip, IdleClip, Idle)
    case IdleKick => BlendEdge(IdleClip, KickClip, KickIdle)
    case KickIdle => BlendEdge(KickClip, IdleClip, Idle)
    case IdleTalk => BlendEdge(IdleClip, TalkClip, TalkIdle)
    case TalkIdle => BlendEdge(TalkClip, IdleClip, Idle)
  }

  /** The exit states that wait for the action clip to play out. */
  predicate IsGated(s: AnimState) {
    s == PunchIdle || s == KickIdle || s == TalkIdle
  }

  /** The animator time a gated state must exceed before it blends at all. */
  function Hold(s: AnimState): real
    requires IsGated(s)
  {
    match s
    case PunchIdle => PunchHold
    case KickIdle => KickHold
    case TalkIdle => TalkHold
  }

  /** A gated state: untouched until the animator clock passes `hold`, then one blend step. */
  function GatedStep(s: Snapshot, hold: real): Snapshot
    requires IsGated(s.state)
  {
    if s.animator.time > hold then BlendStep(s, Edge(s.state)) else s
  }

  /** One blend step along edge `e`: advance the accumulator modulo one; past
      the threshold, commit: the target clip plays alone from the time the
      secondary clock had reached. */
  function BlendStep(s: Snapshot, e: BlendEdge): Snapshot {
    var b := FmodOne(s.blend + BlendRate);
    if b > CommitThreshold then
      s.(state := e.successor, blend := 0.0,
         animator := Animator(e.target, None, s.animator.time2, 0.0, 0.0))
    else
      s.(blend := b,
         animator := Animator(e.source, Some(e.target), s.animator.time, s.animator.time2, b))
  }

  /** The IDLE branch: arrows first (towards walking, moving one step), then J, K, T. */
  function IdleStep(s: Snapshot, k: Keys, deltaTime: real, normalize: Vec3 -> Vec3): Snapshot {
    if AnyArrow(k) then
      s.(state := IdleWalk, blend := 0.0,
         animator := Animator(IdleClip, Some(WalkClip), s.animator.time, 0.0, 0.0),
         rotation := ArrowRotation(k, s.rotation),
         position := Add(s.position, Scale(normalize(IdleDirection(k)), MoveSpeed * deltaTime)))
    else if k.punch then
      s.(state := IdlePunch, blend := 0.0,
         animator := Animator(IdleClip, Some(PunchClip), s.animator.time, 0.0, 0.0))
    else if k.kick then
      s.(state := IdleKick, blend := 0.0,
         animator := Animator(IdleClip, Some(KickClip), s.animator.time, 0.0, 0.0))
    else if k.talk then
      s.(state := IdleTalk, blend := 0.0,
         animator := Animator(IdleClip, Some(TalkClip), s.animator.time, 0.0, 0.0))
    else
      s
  }

  /** The WALK branch: keep playing the walk clip, turn with the arrows, and
      leave for WALK_IDLE once no arrow is held. The position is not moved. */
  function WalkStep(s: Snapshot, k: Keys): Snapshot {
    var w := s.(animator := Animator(WalkClip, None, s.animator.time, s.animator.time2, s.blend),
                rotation := ArrowRotation(k, s.rotation));
    if AnyArrow(k) then w else w.(state := WalkIdle, blend := 0.0)
  }

  /** One frame: the animator clocks come from the previous frame, the hotkeys
      override the animator, then the current state's branch runs. */
  function Next(s: Snapshot, f: Frame, normalize: Vec3 -> Vec3): Snapshot {
    var anim := AfterHotkeys(s.animator.(time := f.animTime, time2 := f.animTime2), f.keys);
    var s1 := s.(animator := anim);
    match s.state
    case Idle => IdleStep(s1, f.keys, f.deltaTime, normalize)
    case Walk => WalkStep(s1, f.keys)
    case PunchIdle => GatedStep(s1, PunchHold)
    case KickIdle => GatedStep(s1, KickHold)
    case TalkIdle => GatedStep(s1, TalkHold)
    case _ => BlendStep(s1, Edge(s.state))
  }

  /** A run of frames. */
  function Run(s: Snapshot, frames: seq<Frame>, normalize: Vec3 -> Vec3): Snapshot
    decreases |frames|
  {
    if frames == [] then s else Run(Next(s, frames[0], normalize), frames[1..], normalize)
  }
}
