/** display/animation.py, scheduling part: `AnimationGroup` (the cadence of one speed) and
    `AnimationManager` (the key -> animation and speed -> group registries and one pass of the
    `_run_animations` loop). The loop's wall-clock pacing and thread are not modelled: one pass
    is `Tick(frameCount)`. */
module DisplayScheduler {
  import opened Common
  import Registry
  import Numeric
  import RT = RenderTypes
  import opened DisplayAnimation

  type Speed = Registry.Speed

  // ================================================================ cadence

  /** `round(1 / (ANIMATION_REFRESH_RATE * speed))` with the 60 fps refresh rate: `round(60 / speed)`,
      ties to even. */
  function FramesPerUpdate(speed: Speed): int {
    Numeric.RoundHalfEven(60, speed)
  }

  /** `FramesPerUpdate(speed) * speed` is within half a `speed` of 60. */
  lemma FramesPerUpdateNearest(speed: Speed)
    ensures var n := FramesPerUpdate(speed);
      2 * (60 - n * speed) <= speed && 2 * (n * speed - 60) <= speed
  {
    Numeric.RoundHalfEvenNearest(60, speed);
  }

  /** `should_update(frame_count)`. */
  predicate Due(lastUpdate: int, frameCount: int, speed: Speed) {
    frameCount - lastUpdate >= FramesPerUpdate(speed)
  }

  /** The speeds the sign uses: 60 fps is due every pass, the 10 fps startup every 6th, the 6 fps
      blink every 10th. */
  lemma FramesPerUpdateValues()
    ensures FramesPerUpdate(60) == 1 && FramesPerUpdate(10) == 6 && FramesPerUpdate(6) == 10
  {
    var a := FramesPerUpdate(60);
    if a > 1 { Numeric.MulAtLeast(a - 1, 60); } else if a < 1 { Numeric.MulAtLeast(1 - a, 60); }
    var b := FramesPerUpdate(10);
    if b > 6 { Numeric.MulAtLeast(b - 6, 10); } else if b < 6 { Numeric.MulAtLeast(6 - b, 10); }
    var c := FramesPerUpdate(6);
    if c > 10 { Numeric.MulAtLeast(c - 10, 6); } else if c < 10 { Numeric.MulAtLeast(10 - c, 6); }
  }

  /** Below speed 120 a group waits at least one pass between services; from 120 on (`round(0.5)`
      is 0) the count is 0 and the group is due on every pass. */
  lemma FramesPerUpdateRange(speed: Speed)
    ensures speed >= 120 <==> FramesPerUpdate(speed) == 0
    ensures FramesPerUpdate(speed) >= 0
  {
    if speed > 60 {
      Numeric.DivUnique(60, speed, 0, 60);
    } else {
      SlowSpeedsWait(speed);
    }
  }

  /** Up to 60 fps the quotient `60 // speed` is already at least 1. */
  lemma SlowSpeedsWait(speed: Speed)
    requires speed <= 60
    ensures FramesPerUpdate(speed) >= 1
  {
    var q, m := 60 / speed, 60 % speed;
    assert 60 == q * speed + m;
    assert q * speed > 0;
  }

  /** A group's `last_update` after the pass at `frameCount` (when no animation raises). */
  function Serve(lastUpdate: int, frameCount: int, speed: Speed): int {
    if Due(lastUpdate, frameCount, speed) then frameCount else lastUpdate
  }

  /** How many of the `n` passes at `frameCount, frameCount + 1, ...` service the group. */
  function Services(lastUpdate: int, frameCount: int, n: nat, speed: Speed): nat
    decreases n
  {
    if n == 0 then 0
    else (if Due(lastUpdate, frameCount, speed) then 1 else 0)
         + Services(Serve(lastUpdate, frameCount, speed), frameCount + 1, n - 1, speed)
  }

  /** After a service at `t`, the passes before `t + FramesPerUpdate` leave the group alone. */
  lemma {:induction false} Quiet(t: int, m: int, r: nat, rest: nat, speed: Speed)
    requires 1 <= m && m + r <= FramesPerUpdate(speed)
    ensures Services(t, t + m, r + rest, speed) == Services(t, t + m + r, rest, speed)
    decreases r
  {
    if r > 0 {
      assert !Due(t, t + m, speed);
      Quiet(t, m + 1, r - 1, rest, speed);
    }
  }

  /** A group that is due is serviced exactly once in every `FramesPerUpdate` consecutive passes. */
  lemma {:induction false} ServiceRate(lastUpdate: int, frameCount: int, q: nat, speed: Speed)
    requires FramesPerUpdate(speed) >= 1 && Due(lastUpdate, frameCount, speed)
    ensures Services(lastUpdate, frameCount, q * FramesPerUpdate(speed), speed) == q
    decreases q
  {
    var k := FramesPerUpdate(speed);
    if q > 0 {
      var rest := (q - 1) * k;
      MulPred(q, k);
      Quiet(frameCount, 1, k - 1, rest, speed);
      ServiceRate(frameCount, frameCount + k, q - 1, speed);
      assert Services(lastUpdate, frameCount, 1 + ((k - 1) + rest), speed)
          == 1 + Services(frameCount, frameCount + 1, (k - 1) + rest, speed);
    }
  }

  lemma MulPred(q: nat, k: int)
    requires q > 0
    ensures q * k == 1 + ((k - 1) + (q - 1) * k)
  {
  }

  /** The meaning of `speed` as frames per second: at the 60 passes per second of the loop, a due
      group of speed 60, 10 or 6 is serviced exactly `speed` times in every 60 passes. */
  lemma SpeedIsFramesPerSecond(lastUpdate: int, frameCount: int, speed: Speed)
    requires speed == 60 || speed == 10 || speed == 6
    requires Due(lastUpdate, frameCount, speed)
    ensures Services(lastUpdate, frameCount, 60, speed) == speed
  {
    FramesPerUpdateValues();
    ServiceRate(lastUpdate, frameCount, speed, speed);
  }

  /** `AnimationGroup`: the keys of the animations of one speed and the pass it last serviced. */
  class AnimationGroup {
    const speed: Speed
    const framesPerUpdate: int := FramesPerUpdate(speed)
    var keys: seq<string>
    var lastUpdate: int

    function View(): Registry.GroupView
      reads this
    {
      Registry.GroupView(keys, lastUpdate)
    }

    constructor(speed: Speed)
      ensures this.speed == speed && framesPerUpdate == FramesPerUpdate(speed)
      ensures View() == Registry.GroupView([], 0)
    {
      this.speed := speed;
      keys := [];
      lastUpdate := 0;
    }

    /** `add_animation(key)`: appends, even when the key is already a member. */
    method AddKey(key: string)
      modifies this
      ensures View() == Registry.AddKey(old(View()), key)
    {
      keys := keys + [key];
    }

    /** `remove_animation(key)`: drops the first entry of the key, if any. */
    method RemoveKey(key: string)
      modifies this
      ensures View() == Registry.RemoveKey(old(View()), key)
    {
      if key in keys {
        keys := Registry.RemoveFirst(keys, key);
      }
    }

    /** `is_empty()`. */
    function IsEmpty(): (b: bool)
      reads this
      ensures b <==> keys == []
    {
      |keys| == 0
    }

    /** `should_update(frame_count)`. */
    function ShouldUpdate(frameCount: int): (b: bool)
      reads this
      ensures b <==> Due(lastUpdate, frameCount, speed)
    {
      frameCount - lastUpdate >= framesPerUpdate
    }
  }

  // ================================================================ one pass of the loop

  /** What one pass has done so far: the messages it put on the queue, `update_count`,
      `completed_keys`, the animations' generator states, the groups (with their stamps), and
      whether an exception escaped (which ends the loop's thread). */
  datatype TickAcc = TickAcc(
    msgs: seq<RT.RenderMessage>,
    frames: nat,
    completed: seq<string>,
    plays: map<Animation, PlayState>,
    groups: map<Speed, Registry.GroupView>,
    crashed: bool)

  /** One key of a due group: a key with no animation is completed; otherwise the animation's
      `get_next_frame()` either raises, or yields a frame message (when the frame is not `None`)
      and completes the key (when `is_complete`). */
  function KeyStep(anims: map<string, Animation>, acc: TickAcc, key: string): (r: TickAcc)
    requires anims.Values <= acc.plays.Keys
    ensures r.plays.Keys == acc.plays.Keys && r.groups == acc.groups
    ensures acc.crashed ==> r == acc
  {
    if acc.crashed then acc
    else if key !in anims then acc.(completed := acc.completed + [key])
    else
      var a := anims[key];
      var p := Play(a.timeline, a.loop, acc.plays[a]);
      var plays := acc.plays[a := p.1];
      match p.0
      case Raised => acc.(plays := plays, crashed := true)
      case Produced(f, complete) =>
        acc.(msgs := acc.msgs + (if f.Some? then [RT.Frame(f.value.bbox, f.value.image)] else []),
             frames := acc.frames + (if f.Some? then 1 else 0),
             completed := acc.completed + (if complete then [key] else []),
             plays := plays)
  }

  /** The keys of a group, in list order. */
  function RunKeys(anims: map<string, Animation>, acc: TickAcc, keys: seq<string>): (r: TickAcc)
    requires anims.Values <= acc.plays.Keys
    ensures r.plays.Keys == acc.plays.Keys && r.groups == acc.groups
    ensures acc.crashed ==> r == acc
    decreases |keys|
  {
    if keys == [] then acc else RunKeys(anims, KeyStep(anims, acc, keys[0]), keys[1..])
  }

  /** One group: if it is due, its keys in order, then `last_update := frame_count` unless a key raised. */
  function GroupStep(anims: map<string, Animation>, frameCount: int, acc: TickAcc, s: Speed): (r: TickAcc)
    requires anims.Values <= acc.plays.Keys && s in acc.groups
    ensures r.plays.Keys == acc.plays.Keys && r.groups.Keys == acc.groups.Keys
    ensures forall t :: t in r.groups ==> r.groups[t].keys == acc.groups[t].keys
    ensures forall t :: t in acc.groups && t != s ==> r.groups[t] == acc.groups[t]
    ensures r.groups[s] == acc.groups[s]
      || (Due(acc.groups[s].lastUpdate, frameCount, s) && r.groups[s] == acc.groups[s].(lastUpdate := frameCount))
    ensures !r.crashed ==> r.groups[s].lastUpdate == Serve(acc.groups[s].lastUpdate, frameCount, s)
    ensures acc.crashed ==> r == acc
  {
    if acc.crashed || !Due(acc.groups[s].lastUpdate, frameCount, s) then acc
    else
      var r := RunKeys(anims, acc, acc.groups[s].keys);
      if r.crashed then r else r.(groups := r.groups[s := r.groups[s].(lastUpdate := frameCount)])
  }

  /** The groups, in dictionary order. */
  function RunGroups(anims: map<string, Animation>, frameCount: int, acc: TickAcc, order: seq<Speed>): (r: TickAcc)
    requires anims.Values <= acc.plays.Keys && forall s :: s in order ==> s in acc.groups
    ensures r.plays.Keys == acc.plays.Keys && r.groups.Keys == acc.groups.Keys
    ensures forall t :: t in r.groups ==> r.groups[t].keys == acc.groups[t].keys
    ensures acc.crashed ==> r == acc
    decreases |order|
  {
    if order == [] then acc
    else RunGroups(anims, frameCount, GroupStep(anims, frameCount, acc, order[0]), order[1..])
  }

  /** One whole pass over a registry view, from the animations' states `plays`. */
  function TickSpec(anims: map<string, Animation>, v: Registry.View, plays: map<Animation, PlayState>, frameCount: int): (r: TickAcc)
    requires anims.Values <= plays.Keys && forall s :: s in v.order ==> s in v.groups
    ensures r.plays.Keys == plays.Keys && r.groups.Keys == v.groups.Keys
    ensures forall t :: t in r.groups ==> r.groups[t].keys == v.groups[t].keys
  {
    RunGroups(anims, frameCount, TickAcc([], 0, [], plays, v.groups, false), v.order)
  }

  /** `for key in completed_keys: remove_animation(key)`. */
  function RemoveEach(v: Registry.View, keys: seq<string>): (r: Registry.View)
    requires Registry.WellFormed(v)
    ensures Registry.WellFormed(r)
    decreases |keys|
  {
    if keys == [] then v
    else
      Registry.RemoveWellFormed(v, keys[0]);
      RemoveEach(Registry.Remove(v, keys[0]), keys[1..])
  }

  /** Stamping `last_update`s keeps the registry invariant: it only depends on the member lists. */
  lemma RestampWellFormed(v: Registry.View, groups: map<Speed, Registry.GroupView>)
    requires Registry.WellFormed(v) && groups.Keys == v.groups.Keys
    requires forall t :: t in groups ==> groups[t].keys == v.groups[t].keys
    ensures Registry.WellFormed(v.(groups := groups))
  {
  }

  // ---------------------------------------------------------------- properties of a pass

  /** What a pass has put on the queue so far is one `Frame` message per counted update. */
  ghost predicate FramesOnly(acc: TickAcc) {
    |acc.msgs| == acc.frames && forall i :: 0 <= i < |acc.msgs| ==> acc.msgs[i].Frame?
  }

  lemma {:induction false} RunKeysFramesOnly(anims: map<string, Animation>, acc: TickAcc, keys: seq<string>)
    requires anims.Values <= acc.plays.Keys && FramesOnly(acc)
    ensures FramesOnly(RunKeys(anims, acc, keys))
    decreases |keys|
  {
    if keys != [] {
      RunKeysFramesOnly(anims, KeyStep(anims, acc, keys[0]), keys[1..]);
    }
  }

  lemma {:induction false} RunGroupsFramesOnly(anims: map<string, Animation>, fc: int, acc: TickAcc, order: seq<Speed>)
    requires anims.Values <= acc.plays.Keys && (forall s :: s in order ==> s in acc.groups) && FramesOnly(acc)
    ensures FramesOnly(RunGroups(anims, fc, acc, order))
    decreases |order|
  {
    if order != [] {
      var s := order[0];
      if !acc.crashed && Due(acc.groups[s].lastUpdate, fc, s) {
        RunKeysFramesOnly(anims, acc, acc.groups[s].keys);
      }
      RunGroupsFramesOnly(anims, fc, GroupStep(anims, fc, acc, s), order[1..]);
    }
  }

  /** A pass emits only `Frame` messages, exactly one per frame counted in `update_count`. */
  lemma TickEmitsFrames(anims: map<string, Animation>, v: Registry.View, plays: map<Animation, PlayState>, fc: int)
    requires anims.Values <= plays.Keys && forall s :: s in v.order ==> s in v.groups
    ensures var r := TickSpec(anims, v, plays, fc);
      |r.msgs| == r.frames && forall i :: 0 <= i < |r.msgs| ==> r.msgs[i].Frame?
  {
    RunGroupsFramesOnly(anims, fc, TickAcc([], 0, [], plays, v.groups, false), v.order);
  }

  /** Over a group's keys, the completed list only grows, and a key without an animation is completed. */
  lemma {:induction false} RunKeysCompletes(anims: map<string, Animation>, acc: TickAcc, keys: seq<string>)
    requires anims.Values <= acc.plays.Keys
    ensures var r := RunKeys(anims, acc, keys);
      && acc.completed <= r.completed
      && (!r.crashed ==> forall k :: k in keys && k !in anims ==> k in r.completed)
    decreases |keys|
  {
    if keys != [] {
      var a1 := KeyStep(anims, acc, keys[0]);
      RunKeysCompletes(anims, a1, keys[1..]);
      var r := RunKeys(anims, acc, keys);
      assert acc.completed <= a1.completed;
      if !r.crashed && keys[0] !in anims {
        assert keys[0] in a1.completed;
      }
    }
  }

  /** Over the groups, a group outside `order` is untouched. */
  lemma {:induction false} RunGroupsLeaves(anims: map<string, Animation>, fc: int, acc: TickAcc, order: seq<Speed>)
    requires anims.Values <= acc.plays.Keys && (forall s :: s in order ==> s in acc.groups)
    ensures var r := RunGroups(anims, fc, acc, order);
      forall t :: t in acc.groups && t !in order ==> r.groups[t] == acc.groups[t]
    decreases |order|
  {
    if order != [] {
      var a1 := GroupStep(anims, fc, acc, order[0]);
      assert forall t :: t in order[1..] ==> t in order;
      RunGroupsLeaves(anims, fc, a1, order[1..]);
    }
  }

  /** Over the groups, a group in `order` is either untouched or was due and is stamped with the
      pass's `frame_count`. */
  lemma {:induction false} RunGroupsStampsOrKeeps(anims: map<string, Animation>, fc: int, acc: TickAcc, order: seq<Speed>)
    requires anims.Values <= acc.plays.Keys && (forall s :: s in order ==> s in acc.groups)
    requires Registry.NoDup(order)
    ensures var r := RunGroups(anims, fc, acc, order);
      forall t :: t in order ==> (r.groups[t] == acc.groups[t]
        || (Due(acc.groups[t].lastUpdate, fc, t) && r.groups[t] == acc.groups[t].(lastUpdate := fc)))
    decreases |order|
  {
    if order != [] {
      var s := order[0];
      Registry.NoDupTail(order);
      var a1 := GroupStep(anims, fc, acc, s);
      RunGroupsLeaves(anims, fc, a1, order[1..]);
      RunGroupsStampsOrKeeps(anims, fc, a1, order[1..]);
      var r := RunGroups(anims, fc, a1, order[1..]);
      assert RunGroups(anims, fc, acc, order) == r;
      forall t | t in order
        ensures r.groups[t] == acc.groups[t]
          || (Due(acc.groups[t].lastUpdate, fc, t) && r.groups[t] == acc.groups[t].(lastUpdate := fc))
      {
        if t == s {
          assert r.groups[s] == a1.groups[s];
        } else {
          assert t in order[1..] && a1.groups[t] == acc.groups[t];
        }
      }
    }
  }

  /** If no animation raises, every group in `order` gets `Serve` of its old stamp: exactly the due
      groups are stamped. */
  lemma {:induction false} RunGroupsServes(anims: map<string, Animation>, fc: int, acc: TickAcc, order: seq<Speed>)
    requires anims.Values <= acc.plays.Keys && (forall s :: s in order ==> s in acc.groups)
    requires Registry.NoDup(order)
    ensures var r := RunGroups(anims, fc, acc, order);
      !r.crashed ==> forall t :: t in order ==> r.groups[t].lastUpdate == Serve(acc.groups[t].lastUpdate, fc, t)
    decreases |order|
  {
    if order != [] {
      var s := order[0];
      Registry.NoDupTail(order);
      var a1 := GroupStep(anims, fc, acc, s);
      RunGroupsLeaves(anims, fc, a1, order[1..]);
      RunGroupsServes(anims, fc, a1, order[1..]);
      var r := RunGroups(anims, fc, a1, order[1..]);
      assert RunGroups(anims, fc, acc, order) == r;
      if !r.crashed {
        assert !a1.crashed;
        forall t | t in order
          ensures r.groups[t].lastUpdate == Serve(acc.groups[t].lastUpdate, fc, t)
        {
          if t == s {
            assert r.groups[s] == a1.groups[s];
          } else {
            assert t in order[1..] && a1.groups[t] == acc.groups[t];
          }
        }
      }
    }
  }

  /** Over the groups, the completed list only grows, and if no animation raises, every key of a
      due group that has no animation is completed. */
  lemma {:induction false} RunGroupsCompletes(anims: map<string, Animation>, fc: int, acc: TickAcc, order: seq<Speed>)
    requires anims.Values <= acc.plays.Keys && (forall s :: s in order ==> s in acc.groups)
    ensures var r := RunGroups(anims, fc, acc, order);
      && acc.completed <= r.completed
      && (!r.crashed ==> forall t, k ::
            (t in order && Due(acc.groups[t].lastUpdate, fc, t) && k in acc.groups[t].keys && k !in anims)
            ==> k in r.completed)
    decreases |order|
  {
    if order != [] {
      var s := order[0];
      var a1 := GroupStep(anims, fc, acc, s);
      assert forall t :: t in order[1..] ==> t in order;
      RunGroupsCompletes(anims, fc, a1, order[1..]);
      var r := RunGroups(anims, fc, a1, order[1..]);
      assert RunGroups(anims, fc, acc, order) == r;
      var due := !acc.crashed && Due(acc.groups[s].lastUpdate, fc, s);
      if due {
        RunKeysCompletes(anims, acc, acc.groups[s].keys);
      }
      assert acc.completed <= a1.completed;
      if !r.crashed {
        assert !a1.crashed;
        forall t, k | t in order && Due(acc.groups[t].lastUpdate, fc, t) && k in acc.groups[t].keys && k !in anims
          ensures k in r.completed
        {
          if t == s {
            assert k in a1.completed;
            assert a1.completed <= r.completed;
          } else {
            assert t in order[1..] && a1.groups[t] == acc.groups[t];
          }
        }
      }
    }
  }

  /** The stamping rule of a pass: `last_update` changes only for groups that were due, and, when no
      animation raises, every due group is stamped with the pass's `frame_count` and every key of a
      due group that has no animation is completed. */
  lemma TickStampsDueGroups(anims: map<string, Animation>, v: Registry.View, plays: map<Animation, PlayState>, fc: int)
    requires anims.Values <= plays.Keys && Registry.WellFormed(v)
    ensures var r := TickSpec(anims, v, plays, fc);
      && (forall t :: t in v.groups ==> (r.groups[t] == v.groups[t]
            || (Due(v.groups[t].lastUpdate, fc, t) && r.groups[t] == v.groups[t].(lastUpdate := fc))))
      && (!r.crashed ==> forall t :: t in v.groups ==> r.groups[t].lastUpdate == Serve(v.groups[t].lastUpdate, fc, t))
      && (!r.crashed ==> forall t, k ::
            (t in v.groups && Due(v.groups[t].lastUpdate, fc, t) && k in v.groups[t].keys && k !in anims)
            ==> k in r.completed)
  {
    var acc := TickAcc([], 0, [], plays, v.groups, false);
    RunGroupsStampsOrKeeps(anims, fc, acc, v.order);
    RunGroupsServes(anims, fc, acc, v.order);
    RunGroupsCompletes(anims, fc, acc, v.order);
  }

  /** After the removals every completed key is unregistered, and every other key is as before. */
  lemma {:induction false} RemoveEachUnregisters(v: Registry.View, keys: seq<string>)
    requires Registry.WellFormed(v)
    ensures forall k :: k in keys ==> !Registry.IsRunning(RemoveEach(v, keys), k)
    ensures forall k :: k !in keys ==> (Registry.IsRunning(RemoveEach(v, keys), k) <==> Registry.IsRunning(v, k))
    decreases |keys|
  {
    if keys != [] {
      Registry.RemoveWellFormed(v, keys[0]);
      var w := Registry.Remove(v, keys[0]);
      RemoveEachUnregisters(w, keys[1..]);
      if Registry.IsRunning(v, keys[0]) {
        Registry.RemoveUnregisters(v, keys[0]);
      }
      assert forall k :: k in keys ==> k == keys[0] || k in keys[1..];
    }
  }

  /** A key entered twice in a due group advances its animation twice in one pass. */
  lemma DuplicateEntryAdvancesTwice(anims: map<string, Animation>, acc: TickAcc, key: string)
    requires anims.Values <= acc.plays.Keys && key in anims && !acc.crashed
    ensures var a := anims[key]; var tl := a.timeline;
      var once := Play(tl, a.loop, acc.plays[a]);
      var r := RunKeys(anims, acc, [key, key]);
      once.0.Produced? ==> r.plays[a] == Play(tl, a.loop, once.1).1
  {
    var a1 := KeyStep(anims, acc, key);
    assert RunKeys(anims, acc, [key, key]) == RunKeys(anims, a1, [key]);
    assert [key, key][1..] == [key];
  }

  // ================================================================ the manager

  /** `AnimationManager`: `animations` (key -> animation), `animation_groups` (speed -> group,
      in dictionary order `groupOrder`) and the render queue it feeds. The groups are held as
      values: each is reached only through this dictionary, so updating the entry is updating
      the group. */
  class AnimationManager {
    var animations: map<string, Animation>
    var groupOrder: seq<Speed>
    var groups: map<Speed, Registry.GroupView>
    var queue: seq<RT.RenderMessage>

    /** The two dictionaries as a registry value. */
    function Reg(): Registry.View
      reads this
    {
      Registry.View(SpeedMap(animations), groupOrder, groups)
    }

    /** The generator state of every registered animation. */
    ghost function Plays(): map<Animation, PlayState>
      reads this, animations.Values
    {
      map a | a in animations.Values :: a.State()
    }

    ghost predicate Valid()
      reads this
    {
      Registry.WellFormed(Reg())
    }

    constructor()
      ensures Valid() && Reg() == Registry.Empty && queue == []
    {
      animations := map[];
      groupOrder := [];
      groups := map[];
      queue := [];
      SpeedMapEmpty();
    }

    /** `add_animation(key, animation)`. */
    method AddAnimation(key: string, animation: Animation)
      requires Valid()
      modifies this
      ensures Reg() == Registry.Add(old(Reg()), key, animation.speed)
      ensures animations == old(animations)[key := animation] && queue == old(queue)
      ensures Valid()
    {
      Registry.AddWellFormed(Reg(), key, animation.speed);
      AddFields(animations, groupOrder, groups, key, animation);
      var s := animation.speed;
      animations := animations[key := animation];
      if s !in groups {
        groups := groups[s := Registry.GroupView([], 0)];
        groupOrder := groupOrder + [s];
      }
      groups := groups[s := Registry.AddKey(groups[s], key)];
    }

    /** `add_animations(animations)`: the entries in dictionary order. */
    method AddAnimations(entries: seq<(string, Animation)>)
      requires Valid()
      modifies this
      ensures Valid() && queue == old(queue)
      ensures animations == PutAll(old(animations), entries)
      ensures Reg() == Registry.AddAll(old(Reg()), SpeedsOf(entries))
    {
      var i := 0;
      while i < |entries|
        invariant 0 <= i <= |entries|
        invariant Valid() && queue == old(queue)
        invariant animations == PutAll(old(animations), entries[..i])
        invariant Registry.AddAll(old(Reg()), SpeedsOf(entries)) == Registry.AddAll(Reg(), SpeedsOf(entries[i..]))
      {
        var (key, animation) := entries[i];
        AddAllStep(Reg(), entries, i);
        PutAllStep(old(animations), entries, i);
        AddAnimation(key, animation);
        i := i + 1;
      }
      assert entries[..i] == entries;
    }

    /** `remove_animation(key)`. */
    method RemoveAnimation(key: string)
      requires Valid()
      modifies this
      ensures Reg() == Registry.Remove(old(Reg()), key)
      ensures animations == old(animations) - {key} && queue == old(queue)
      ensures Valid()
    {
      Registry.RemoveWellFormed(Reg(), key);
      if key in animations {
        RemoveFields(animations, groupOrder, groups, key);
        var s := animations[key].speed;
        var group := Registry.RemoveKey(groups[s], key);
        if group.keys == [] {
          groups := groups - {s};
          groupOrder := Registry.RemoveFirst(groupOrder, s);
        } else {
          groups := groups[s := group];
        }
        animations := animations - {key};
      } else {
        MapRemoveAbsent(animations, key);
      }
    }

    /** `get_animation(key)`. */
    method GetAnimation(key: string) returns (r: Option<Animation>)
      ensures r.Some? <==> key in animations
      ensures r.Some? ==> r.value == animations[key]
    {
      r := if key in animations then Some(animations[key]) else None;
    }

    /** `is_animation_running(key)`. */
    function IsAnimationRunning(key: string): (b: bool)
      reads this
      ensures b <==> Registry.IsRunning(Reg(), key)
    {
      key in animations
    }

    /** `clear()` (the thread restart around it is not modelled). */
    method Clear()
      modifies this
      ensures Valid() && Reg() == Registry.Empty && queue == old(queue)
    {
      animations := map[];
      groups := map[];
      groupOrder := [];
      SpeedMapEmpty();
    }

    /** One pass of `_run_animations` at `frameCount`: the due groups in dictionary order, the keys
        of each in list order; a `Swap` after the frames if there were any; then the completed keys
        are removed. If an animation raises, the exception ends the pass there (and the loop's
        thread): nothing after it happens. Without an exception the next pass is at `frameCount + 1`. */
    method Tick(frameCount: int) returns (crashed: bool, next: int)
      requires Valid()
      modifies this, animations.Values
      ensures var r := TickSpec(old(animations), old(Reg()), old(Plays()), frameCount);
        && crashed == r.crashed
        && queue == old(queue) + r.msgs + (if !crashed && r.frames > 0 then [RT.Swap] else [])
        && (forall a :: a in old(animations.Values) ==> a.State() == r.plays[a])
        && (crashed ==> Reg() == old(Reg()).(groups := r.groups) && next == frameCount)
        && (!crashed ==> Reg() == RemoveEach(old(Reg()).(groups := r.groups), r.completed) && next == frameCount + 1)
        && Valid()
    {
      ghost var v0 := Reg();
      ghost var p0 := Plays();
      MirrorsAtStart();
      var updateCount, completed, raised, acc := ServeGroups(frameCount, p0);
      assert queue == old(queue) + acc.msgs && groups == acc.groups;
      RestampWellFormed(v0, acc.groups);
      assert Reg() == v0.(groups := acc.groups);
      if raised {
        crashed, next := true, frameCount;
        return;
      }
      EndPass(updateCount, completed);
      crashed, next := false, frameCount + 1;
    }

    /** Before a pass the manager mirrors an empty pass from the animations' current states. */
    lemma MirrorsAtStart()
      ensures Mirrors(queue, TickAcc([], 0, [], Plays(), groups, false), [])
    {
    }

    /** The end of a pass that did not raise: one `Swap` if any frame was queued, then every
        completed key is removed. */
    method EndPass(updateCount: nat, completed: seq<string>)
      requires Valid()
      modifies this
      ensures queue == old(queue) + (if updateCount > 0 then [RT.Swap] else [])
      ensures Reg() == RemoveEach(old(Reg()), completed) && Valid()
      ensures unchanged(old(animations.Values))
    {
      if updateCount > 0 {
        queue := queue + [RT.Swap];
      }
      RemoveAnimations(completed);
    }

    /** The manager's state is what the pass specification `acc` says so far: the queue holds `q0`
        followed by the pass's messages, the completed keys and the group stamps are the pass's, and
        every animation's generator is where the pass left it. */
    ghost predicate Mirrors(q0: seq<RT.RenderMessage>, acc: TickAcc, completed: seq<string>)
      reads this, animations.Values
    {
      && animations.Values <= acc.plays.Keys
      && queue == q0 + acc.msgs && completed == acc.completed && groups == acc.groups
      && forall a :: a in animations.Values ==> PlayState(a.gen, a.current) == acc.plays[a]
    }

    /** The outer loop of a pass: every group that `should_update`, in dictionary order, is served
        and then stamped with `frameCount`. Stops at the first animation that raises. */
    method ServeGroups(frameCount: int, ghost plays0: map<Animation, PlayState>) returns (updateCount: nat, completed: seq<string>, raised: bool, ghost acc: TickAcc)
      requires forall s :: s in groupOrder ==> s in groups
      requires Mirrors(queue, TickAcc([], 0, [], plays0, groups, false), [])
      modifies this`queue, this`groups, animations.Values
      ensures acc == RunGroups(animations, frameCount, TickAcc([], 0, [], plays0, old(groups), false), old(groupOrder))
      ensures raised == acc.crashed
      ensures Mirrors(old(queue), acc, completed) && (!raised ==> updateCount == acc.frames)
    {
      acc := TickAcc([], 0, [], plays0, groups, false);
      ghost var spec := RunGroups(animations, frameCount, acc, groupOrder);
      completed, updateCount, raised := [], 0, false;
      var order := groupOrder;
      var i := 0;
      while i < |order| && !raised
        invariant GroupsLoop(frameCount, spec, order, i, old(queue), acc, completed, updateCount, raised)
      {
        updateCount, completed, raised, acc := ServeGroupAt(frameCount, spec, order, i, old(queue), acc, updateCount, completed);
        i := i + 1;
      }
      RunGroupsDone(animations, frameCount, acc, order[i..]);
    }

    /** The invariant of the outer loop after `i` groups of `order`: the rest of the pass is what
        remains of `spec`. */
    ghost predicate GroupsLoop(frameCount: int, spec: TickAcc, order: seq<Speed>, i: nat, q0: seq<RT.RenderMessage>, acc: TickAcc,
                               completed: seq<string>, updateCount: nat, raised: bool)
      reads this, animations.Values
    {
      && i <= |order| && (forall s :: s in order ==> s in acc.groups)
      && Tracks(q0, acc, completed, updateCount, raised)
      && spec == RunGroups(animations, frameCount, acc, order[i..])
    }

    /** The body of the outer loop: group `i` of `order`. */
    method ServeGroupAt(frameCount: int, ghost spec: TickAcc, order: seq<Speed>, i: nat, ghost q0: seq<RT.RenderMessage>, ghost acc0: TickAcc,
                        updateCount0: nat, completed0: seq<string>)
      returns (updateCount: nat, completed: seq<string>, raised: bool, ghost acc: TickAcc)
      requires i < |order| && GroupsLoop(frameCount, spec, order, i, q0, acc0, completed0, updateCount0, false)
      modifies this`queue, this`groups, animations.Values
      ensures GroupsLoop(frameCount, spec, order, i + 1, q0, acc, completed, updateCount, raised)
    {
      RunGroupsUnfold(animations, frameCount, acc0, order, i);
      updateCount, completed, raised, acc := ServeGroup(frameCount, order[i], q0, acc0, updateCount0, completed0);
    }


    /** One group of the outer loop: if it `should_update`, its keys, then `last_update := frame_count`. */
    method ServeGroup(frameCount: int, s: Speed, ghost q0: seq<RT.RenderMessage>, ghost acc0: TickAcc, updateCount0: nat, completed0: seq<string>)
      returns (updateCount: nat, completed: seq<string>, raised: bool, ghost acc: TickAcc)
      requires !acc0.crashed && s in acc0.groups && Mirrors(q0, acc0, completed0) && updateCount0 == acc0.frames
      modifies this`queue, this`groups, animations.Values
      ensures acc == GroupStep(animations, frameCount, acc0, s) && raised == acc.crashed
      ensures Mirrors(q0, acc, completed) && (!raised ==> updateCount == acc.frames)
    {
      acc, updateCount, completed, raised := acc0, updateCount0, completed0, false;
      if frameCount - groups[s].lastUpdate >= FramesPerUpdate(s) {
        updateCount, completed, raised, acc := ServeKeys(groups[s].keys, q0, acc0, updateCount0, completed0);
        if raised {
          return;
        }
        groups := groups[s := groups[s].(lastUpdate := frameCount)];
        acc := acc.(groups := groups);
      }
    }

    /** The inner loop of a pass: the keys of one due group, in list order. */
    method ServeKeys(keys: seq<string>, ghost q0: seq<RT.RenderMessage>, ghost acc0: TickAcc, updateCount0: nat, completed0: seq<string>)
      returns (updateCount: nat, completed: seq<string>, raised: bool, ghost acc: TickAcc)
      requires !acc0.crashed && Mirrors(q0, acc0, completed0) && updateCount0 == acc0.frames
      modifies this`queue, animations.Values
      ensures acc == RunKeys(animations, acc0, keys) && raised == acc.crashed
      ensures Mirrors(q0, acc, completed) && (!raised ==> updateCount == acc.frames)
    {
      acc, updateCount, completed, raised := acc0, updateCount0, completed0, false;
      var j := 0;
      while j < |keys| && !raised
        invariant 0 <= j <= |keys| && Tracks(q0, acc, completed, updateCount, raised)
        invariant RunKeys(animations, acc0, keys) == RunKeys(animations, acc, keys[j..])
      {
        updateCount, completed, raised, acc := ServeKeyAt(keys, j, q0, acc, updateCount, completed);
        j := j + 1;
      }
      RunKeysDone(animations, acc, keys[j..]);
    }

    /** What the loops keep: the manager mirrors `acc`, `raised` says whether it raised, and
        `update_count` counts its frames. */
    ghost predicate Tracks(q0: seq<RT.RenderMessage>, acc: TickAcc, completed: seq<string>, updateCount: nat, raised: bool)
      reads this, animations.Values
    {
      raised == acc.crashed && Mirrors(q0, acc, completed) && (!raised ==> updateCount == acc.frames)
    }

    /** The body of the inner loop: key `j` of `keys`. */
    method ServeKeyAt(keys: seq<string>, j: nat, ghost q0: seq<RT.RenderMessage>, ghost acc0: TickAcc, updateCount0: nat, completed0: seq<string>)
      returns (updateCount: nat, completed: seq<string>, raised: bool, ghost acc: TickAcc)
      requires j < |keys| && !acc0.crashed && Tracks(q0, acc0, completed0, updateCount0, false)
      modifies this`queue, animations.Values
      ensures Tracks(q0, acc, completed, updateCount, raised)
      ensures RunKeys(animations, acc0, keys[j..]) == RunKeys(animations, acc, keys[j + 1..])
    {
      RunKeysUnfold(animations, acc0, keys, j);
      updateCount, completed, raised, acc := ServeKey(keys[j], q0, acc0, updateCount0, completed0);
    }

    /** One key of a due group: a key whose animation is gone is completed; otherwise
        `get_next_frame()` either raises, or puts its frame (if any) on the queue and completes
        the key when the animation is done. */
    method ServeKey(key: string, ghost q0: seq<RT.RenderMessage>, ghost acc0: TickAcc, updateCount0: nat, completed0: seq<string>)
      returns (updateCount: nat, completed: seq<string>, raised: bool, ghost acc: TickAcc)
      requires !acc0.crashed && Mirrors(q0, acc0, completed0) && updateCount0 == acc0.frames
      modifies this`queue, animations.Values
      ensures acc == KeyStep(animations, acc0, key) && raised == acc.crashed
      ensures Mirrors(q0, acc, completed) && (!raised ==> updateCount == acc.frames)
    {
      acc, updateCount, completed, raised := KeyStep(animations, acc0, key), updateCount0, completed0, false;
      var found := GetAnimation(key);
      if found.None? {
        completed := completed + [key];
      } else {
        var a := found.value;
        var step := a.GetNextFrame();
        if step.Raised? {
          raised := true;
          return;
        }
        if step.frame.Some? {
          queue := queue + [RT.Frame(step.frame.value.bbox, step.frame.value.image)];
          updateCount := updateCount + 1;
        }
        if step.complete {
          completed := completed + [key];
        }
      }
    }

    /** `for key in completed_keys: remove_animation(key)`. */
    method RemoveAnimations(keys: seq<string>)
      requires Valid()
      modifies this
      ensures Reg() == RemoveEach(old(Reg()), keys) && queue == old(queue)
      ensures Valid()
    {
      var k := 0;
      while k < |keys|
        invariant 0 <= k <= |keys|
        invariant Valid() && queue == old(queue)
        invariant RemoveEach(old(Reg()), keys) == RemoveEach(Reg(), keys[k..])
      {
        assert keys[k..] == [keys[k]] + keys[k + 1..];
        RemoveAnimation(keys[k]);
        k := k + 1;
      }
    }
  }

  lemma RunKeysDone(anims: map<string, Animation>, acc: TickAcc, rest: seq<string>)
    requires anims.Values <= acc.plays.Keys && (acc.crashed || rest == [])
    ensures RunKeys(anims, acc, rest) == acc
  {
  }

  lemma RunGroupsDone(anims: map<string, Animation>, fc: int, acc: TickAcc, rest: seq<Speed>)
    requires anims.Values <= acc.plays.Keys && (forall s :: s in rest ==> s in acc.groups) && (acc.crashed || rest == [])
    ensures RunGroups(anims, fc, acc, rest) == acc
  {
  }

  lemma RunKeysUnfold(anims: map<string, Animation>, acc: TickAcc, keys: seq<string>, j: nat)
    requires anims.Values <= acc.plays.Keys && j < |keys|
    ensures RunKeys(anims, acc, keys[j..]) == RunKeys(anims, KeyStep(anims, acc, keys[j]), keys[j + 1..])
  {
    assert keys[j..][1..] == keys[j + 1..];
  }

  lemma RunGroupsUnfold(anims: map<string, Animation>, fc: int, acc: TickAcc, order: seq<Speed>, i: nat)
    requires anims.Values <= acc.plays.Keys && i < |order| && forall s :: s in order ==> s in acc.groups
    ensures RunGroups(anims, fc, acc, order[i..]) == RunGroups(anims, fc, GroupStep(anims, fc, acc, order[i]), order[i + 1..])
  {
    assert order[i..][1..] == order[i + 1..];
  }

  /** `animations` seen through each animation's speed. */
  function SpeedMap(animations: map<string, Animation>): (r: map<string, Speed>)
    ensures r.Keys == animations.Keys
    ensures forall k :: k in r ==> r[k] == animations[k].speed
  {
    map k | k in animations :: animations[k].speed
  }

  /** The dictionary updates of `add_animation` are the registry's `Add`. */
  lemma AddFields(anims: map<string, Animation>, order: seq<Speed>, groups: map<Speed, Registry.GroupView>,
                  key: string, a: Animation)
    ensures var s := a.speed;
      var created := if s in groups then groups else groups[s := Registry.GroupView([], 0)];
      Registry.Add(Registry.View(SpeedMap(anims), order, groups), key, s)
        == Registry.View(SpeedMap(anims[key := a]), if s in groups then order else order + [s],
                         created[s := Registry.AddKey(created[s], key)])
  {
    SpeedMapPut(anims, key, a);
    assert [] + [key] == [key];
  }

  /** The dictionary updates of `remove_animation` for a registered key are the registry's `Remove`. */
  lemma RemoveFields(anims: map<string, Animation>, order: seq<Speed>, groups: map<Speed, Registry.GroupView>, key: string)
    requires Registry.WellFormed(Registry.View(SpeedMap(anims), order, groups)) && key in anims
    ensures var s := anims[key].speed; s in groups
    ensures var s := anims[key].speed; var g := Registry.RemoveKey(groups[s], key);
      Registry.Remove(Registry.View(SpeedMap(anims), order, groups), key)
        == if g.keys == [] then Registry.View(SpeedMap(anims - {key}), Registry.RemoveFirst(order, s), groups - {s})
           else Registry.View(SpeedMap(anims - {key}), order, groups[s := g])
  {
    SpeedMapRemove(anims, key);
  }

  lemma MapRemoveAbsent<K, V>(m: map<K, V>, key: K)
    requires key !in m
    ensures m - {key} == m
  {
  }

  lemma SpeedMapEmpty()
    ensures SpeedMap(map[]) == map[]
  {
  }

  lemma SpeedMapPut(m: map<string, Animation>, key: string, a: Animation)
    ensures SpeedMap(m[key := a]) == SpeedMap(m)[key := a.speed]
  {
  }

  lemma SpeedMapRemove(m: map<string, Animation>, key: string)
    ensures SpeedMap(m - {key}) == SpeedMap(m) - {key}
  {
  }

  /** `animations[key] = animation` for each entry in order. */
  function PutAll(m: map<string, Animation>, entries: seq<(string, Animation)>): (r: map<string, Animation>)
    ensures forall k :: k in r <==> k in m || exists i :: 0 <= i < |entries| && entries[i].0 == k
    decreases |entries|
  {
    if entries == [] then m else PutAll(m, entries[..|entries| - 1])[entries[|entries| - 1].0 := entries[|entries| - 1].1]
  }

  /** One more entry of `add_animations` is one more assignment. */
  lemma PutAllStep(m: map<string, Animation>, entries: seq<(string, Animation)>, i: nat)
    requires i < |entries|
    ensures PutAll(m, entries[..i + 1]) == PutAll(m, entries[..i])[entries[i].0 := entries[i].1]
  {
    assert entries[..i + 1][..i] == entries[..i];
  }

  /** One more entry of `add_animations` is one more `add_animation`. */
  lemma AddAllStep(v: Registry.View, entries: seq<(string, Animation)>, i: nat)
    requires i < |entries|
    ensures Registry.AddAll(v, SpeedsOf(entries[i..]))
      == Registry.AddAll(Registry.Add(v, entries[i].0, entries[i].1.speed), SpeedsOf(entries[i + 1..]))
  {
    assert SpeedsOf(entries[i..])[1..] == SpeedsOf(entries[i + 1..]);
  }

  /** The (key, speed) pairs the registry sees. */
  function SpeedsOf(entries: seq<(string, Animation)>): (r: seq<(string, Speed)>)
    ensures |r| == |entries| && forall i :: 0 <= i < |r| ==> r[i] == (entries[i].0, entries[i].1.speed)
  {
    seq(|entries|, i requires 0 <= i < |entries| => (entries[i].0, entries[i].1.speed))
  }
}
