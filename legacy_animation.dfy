/** animation.py: the earlier, list-based animation scheduler. Every animation renders all of its
    frames when it is built, and `next_frame` walks them with a wrapping index. Groups wait
    `floor(60 / speed)` passes. The loop's thread and pacing are not modelled: one pass is
    `Tick(frameCount)`. */
module LegacyAnimation {
  import opened Common
  import Registry
  import Numeric
  import RT = RenderTypes

  type Speed = Registry.Speed

  /** A precomputed frame: the box it is drawn in and the image. */
  datatype Frame = Frame(bbox: Rect, image: RT.Image)

  // ================================================================ playback

  /** The index `cur` is a valid position in `frames` (0 when there are none). */
  predicate Fits(frames: seq<Frame>, cur: nat) {
    frames == [] || cur < |frames|
  }

  /** `get_current_frame()`. */
  function CurrentAt(frames: seq<Frame>, cur: nat): (f: Option<Frame>)
    requires Fits(frames, cur)
  {
    if frames == [] then None else Some(frames[cur])
  }

  /** `(i + 1) % len(frames)` for an index `i` in range: the next index, 0 after the last. */
  function Succ(cur: nat, n: nat): (r: nat)
    requires cur < n
    ensures r < n
  {
    if cur + 1 == n then 0 else cur + 1
  }

  /** `Succ` is the remainder the source computes. */
  lemma SuccIsMod(cur: nat, n: nat)
    requires cur < n
    ensures (cur + 1) % n == Succ(cur, n)
  {
    if cur + 1 == n {
      Numeric.DivUnique(cur + 1, n, 1, 0);
    } else {
      Numeric.DivUnique(cur + 1, n, 0, cur + 1);
    }
  }

  /** `advance_frame()`: the index moves on, wrapping to 0; the result says whether a non-looping
      animation is back at its start. */
  function Advance(frames: seq<Frame>, loop: bool, cur: nat): (r: (bool, nat))
    requires Fits(frames, cur)
    ensures Fits(frames, r.1)
    ensures frames != [] ==> (r.1 == 0 <==> cur == |frames| - 1)
    ensures frames != [] && cur < |frames| - 1 ==> r.1 == cur + 1
    ensures r.0 <==> frames != [] && !loop && r.1 == 0
  {
    if frames == [] then (false, cur)
    else
      var n := Succ(cur, |frames|);
      (!loop && n == 0, n)
  }

  /** `next_frame()`: the frame at the index, whether the animation is complete, the new index. */
  function Next(frames: seq<Frame>, loop: bool, cur: nat): (r: (Option<Frame>, bool, nat))
    requires Fits(frames, cur)
    ensures Fits(frames, r.2)
  {
    if frames == [] then (None, false, cur)
    else
      var n := Succ(cur, |frames|);
      (Some(frames[cur]), !loop && n == 0, n)
  }

  /** `next_frame()` is `get_current_frame()` followed by `advance_frame()`. */
  lemma NextIsCurrentThenAdvance(frames: seq<Frame>, loop: bool, cur: nat)
    requires Fits(frames, cur)
    ensures var r := Next(frames, loop, cur);
      r.0 == CurrentAt(frames, cur) && (r.1, r.2) == Advance(frames, loop, cur)
  {
  }

  /** The index after `k` calls of `next_frame()`. */
  function IndexAfter(frames: seq<Frame>, loop: bool, cur: nat, k: nat): (r: nat)
    requires Fits(frames, cur)
    ensures Fits(frames, r)
    decreases k
  {
    if k == 0 then cur else IndexAfter(frames, loop, Next(frames, loop, cur).2, k - 1)
  }

  /** From the start, `k` calls of `next_frame()` leave the index at `k % n`. */
  lemma {:induction false} IndexFromStart(frames: seq<Frame>, loop: bool, k: nat)
    requires frames != []
    ensures IndexAfter(frames, loop, 0, k) == k % |frames|
    decreases k
  {
    if k > 0 {
      IndexFromStart(frames, loop, k - 1);
      IndexAfterLast(frames, loop, 0, k);
      Numeric.ModNext(k - 1, |frames|);
    }
  }

  /** From the start, the `k`-th call (counting from 0) returns frame `k % n`, and is the one that
      completes a non-looping animation exactly when `k + 1` is a multiple of `n`: a non-looping
      animation of `n` frames completes on its `n`-th call, and a looping one never does. */
  lemma NextFromStart(frames: seq<Frame>, loop: bool, k: nat)
    requires frames != []
    ensures var r := Next(frames, loop, IndexAfter(frames, loop, 0, k));
      r.0 == Some(frames[k % |frames|]) && (r.1 <==> !loop && (k + 1) % |frames| == 0)
  {
    IndexFromStart(frames, loop, k);
    Numeric.ModNext(k, |frames|);
  }

  lemma {:induction false} IndexAfterLast(frames: seq<Frame>, loop: bool, cur: nat, k: nat)
    requires Fits(frames, cur) && k > 0
    ensures IndexAfter(frames, loop, cur, k) == Next(frames, loop, IndexAfter(frames, loop, cur, k - 1)).2
    decreases k
  {
    if k > 1 {
      IndexAfterLast(frames, loop, Next(frames, loop, cur).2, k - 1);
    }
  }

  /** `next_frame()` on an animation without frames returns `(None, False)` and changes nothing. */
  lemma NoFramesNeverComplete(loop: bool, cur: nat)
    ensures Next([], loop, cur) == (None, false, cur)
  {
  }

  // ================================================================ text scroll

  /** The text `TextScrollAnimation` renders: four spaces are appended unless the text is empty
      or already ends in a space. */
  function PadText(text: string): (t: string)
  {
    if |text| > 0 && text[|text| - 1] != ' ' then text + "    " else text
  }

  /** The padded text is empty or ends in a space, starts with the given text, and padding it
      again changes nothing. */
  lemma PadTextProperties(text: string)
    ensures var t := PadText(text);
      && (t == [] || t[|t| - 1] == ' ')
      && t[..|text|] == text
      && |t| - |text| in {0, 4}
      && PadText(t) == t
  {
  }

  /** `int(max(self.bbox.w, self.text_width()))`, the number of frames (`range` of a negative
      bound is empty). */
  function ScrollCount(boxWidth: int, textWidth: int): nat {
    var d := if boxWidth >= textWidth then boxWidth else textWidth;
    if d > 0 then d else 0
  }

  /** `render_frames()` of `TextScrollAnimation`: frame `i` draws the text at `(-i, 0)` and again
      at `(-i + text_width, 0)`. The source's `text_width()` is PIL's fractional `textlength`; the
      caller passes its floor here, so the second copy's x is truncated to a whole pixel. */
  method RenderScrollFrames(bbox: Rect, text: string, textWidth: int) returns (frames: seq<Frame>)
    ensures |frames| == ScrollCount(bbox.w, textWidth)
    ensures forall i :: 0 <= i < |frames| ==> frames[i] == Frame(bbox, RT.TextImage(text, -i, 0, Some(textWidth - i)))
  {
    frames := [];
    var delta := ScrollCount(bbox.w, textWidth);
    for i := 0 to delta
      invariant |frames| == i
      invariant forall j :: 0 <= j < i ==> frames[j] == Frame(bbox, RT.TextImage(text, -j, 0, Some(textWidth - j)))
    {
      frames := frames + [Frame(bbox, RT.TextImage(text, -i, 0, Some(textWidth - i)))];
    }
  }

  /** A looping scroll of text at least as wide as its box joins up: one step after the last frame
      the second copy of the text would be at x = 0, which is where frame 0 draws the first copy. */
  lemma ScrollJoinsUp(bbox: Rect, text: string, textWidth: int, frames: seq<Frame>)
    requires textWidth >= bbox.w && textWidth > 0
    requires |frames| == ScrollCount(bbox.w, textWidth)
    requires forall i :: 0 <= i < |frames| ==> frames[i] == Frame(bbox, RT.TextImage(text, -i, 0, Some(textWidth - i)))
    ensures frames != [] && frames[0].image.x == 0
    ensures frames[|frames| - 1].image.wrapX == Some(1)
  {
  }

  // ================================================================ animations

  /** `Animation`: the frames rendered at construction and the index of the next one. */
  class Animation {
    const bbox: Rect
    const speed: Speed
    const loop: bool
    const frames: seq<Frame>
    var currentFrame: nat

    ghost predicate Valid()
      reads this
    {
      Fits(frames, currentFrame)
    }

    /** `TextScrollAnimation(bbox, speed, loop, text, ...)`; `textWidth` is the rendered width of
        the padded text. */
    constructor TextScroll(bbox: Rect, speed: Speed, loop: bool, text: string, textWidth: int)
      ensures Valid() && currentFrame == 0
      ensures this.bbox == bbox && this.speed == speed && this.loop == loop
      ensures |frames| == ScrollCount(bbox.w, textWidth)
      ensures forall i :: 0 <= i < |frames| ==>
        frames[i] == Frame(bbox, RT.TextImage(PadText(text), -i, 0, Some(textWidth - i)))
    {
      this.bbox := bbox;
      this.speed := speed;
      this.loop := loop;
      var rendered := RenderScrollFrames(bbox, PadText(text), textWidth);
      frames := rendered;
      currentFrame := 0;
    }

    /** `advance_frame()`. */
    method AdvanceFrame() returns (complete: bool)
      requires Valid()
      modifies this
      ensures Valid() && (complete, currentFrame) == Advance(frames, loop, old(currentFrame))
    {
      if |frames| == 0 {
        return false;
      }
      SuccIsMod(currentFrame, |frames|);
      currentFrame := (currentFrame + 1) % |frames|;
      complete := !loop && currentFrame == 0;
    }

    /** `get_current_frame()`. */
    function GetCurrentFrame(): (f: Option<Frame>)
      reads this
      requires Valid()
      ensures f.None? <==> frames == []
      ensures f.Some? ==> f.value == frames[currentFrame]
    {
      if |frames| == 0 then None else Some(frames[currentFrame])
    }

    /** `next_frame()`. */
    method NextFrame() returns (frame: Option<Frame>, complete: bool)
      requires Valid()
      modifies this
      ensures Valid() && (frame, complete, currentFrame) == Next(frames, loop, old(currentFrame))
    {
      if |frames| == 0 {
        return None, false;
      }
      frame := Some(frames[currentFrame]);
      SuccIsMod(currentFrame, |frames|);
      currentFrame := (currentFrame + 1) % |frames|;
      complete := !loop && currentFrame == 0;
    }
  }

  // ================================================================ cadence

  /** `math.floor(60 / speed)`. */
  function FramesPerUpdate(speed: Speed): nat {
    60 / speed
  }

  /** `FramesPerUpdate(speed)` is the largest `n` with `n * speed <= 60`. */
  lemma FramesPerUpdateFloor(speed: Speed)
    ensures var n := FramesPerUpdate(speed);
      n * speed <= 60 < (n + 1) * speed
  {
    var q, m := 60 / speed, 60 % speed;
    assert 60 == q * speed + m;
    assert (q + 1) * speed == q * speed + speed;
  }

  /** `should_update(frame_count)`. */
  predicate Due(lastUpdate: int, frameCount: int, speed: Speed) {
    frameCount - lastUpdate >= FramesPerUpdate(speed)
  }

  /** At the speeds the sign uses the floor agrees with the rounding of the later version; at 40 it
      does not: `floor(1.5)` is 1 but `round(1.5)` is 2. */
  lemma FramesPerUpdateValues()
    ensures FramesPerUpdate(60) == 1 && FramesPerUpdate(10) == 6 && FramesPerUpdate(6) == 10
    ensures FramesPerUpdate(40) == 1 && Numeric.RoundHalfEven(60, 40) == 2
  {
    Numeric.DivUnique(60, 60, 1, 0);
    Numeric.DivUnique(60, 10, 6, 0);
    Numeric.DivUnique(60, 6, 10, 0);
    Numeric.DivUnique(60, 40, 1, 20);
  }

  /** `AnimationGroup`: the keys of the animations of one speed and the pass it last serviced. */
  class AnimationGroup {
    const speed: Speed
    var keys: seq<string>
    var lastUpdate: int

    function View(): Registry.GroupView
      reads this
    {
      Registry.GroupView(keys, lastUpdate)
    }

    constructor(speed: Speed)
      ensures this.speed == speed && View() == Registry.GroupView([], 0)
    {
      this.speed := speed;
      keys := [];
      lastUpdate := 0;
    }

    /** `add_animation(key)`: appends, even when the key is already a member. */
    method AddKey(key: string)
      modifies this
      ensures View() == Registry.AddKey(old(View()), key)
    {
      keys := keys + [key];
    }

    /** `remove_animation(key)`: drops the first entry of the key, if any. */
    method RemoveKey(key: string)
      modifies this
      ensures View() == Registry.RemoveKey(old(View()), key)
    {
      if key in keys {
        keys := Registry.RemoveFirst(keys, key);
      }
    }

    /** `is_empty()`. */
    function IsEmpty(): (b: bool)
      reads this
      ensures b <==> keys == []
    {
      |keys| == 0
    }

    /** `should_update(frame_count)`. */
    function ShouldUpdate(frameCount: int): (b: bool)
      reads this
      ensures b <==> frameCount - lastUpdate >= 60 / speed
    {
      frameCount - lastUpdate >= FramesPerUpdate(speed)
    }
  }

  // ================================================================ one pass of the loop

  /** What one pass has done so far: the messages put on the queue, `update_count`,
      `completed_keys`, every animation's index, the groups (with their stamps), and whether an
      exception escaped (which ends the loop's thread). */
  datatype TickAcc = TickAcc(
    msgs: seq<RT.RenderMessage>,
    frames: nat,
    completed: seq<string>,
    plays: map<Animation, nat>,
    groups: map<Speed, Registry.GroupView>,
    crashed: bool)

  /** One key of a due group. `get_animation(key)` is `None` for a key without an animation, and
      calling `next_frame()` on it raises `AttributeError`; an index outside the frames would raise
      `IndexError`. Otherwise the frame, if any, is queued and the key is completed when the
      animation is. */
  ghost function KeyStep(anims: map<string, Animation>, acc: TickAcc, key: string): (r: TickAcc)
    requires anims.Values <= acc.plays.Keys
    ensures r.plays.Keys == acc.plays.Keys && r.groups == acc.groups
    ensures acc.crashed ==> r == acc
  {
    if acc.crashed then acc
    else if key !in anims then acc.(crashed := true)
    else if !Fits(anims[key].frames, acc.plays[anims[key]]) then acc.(crashed := true)
    else
      var a := anims[key];
      var step := Next(a.frames, a.loop, acc.plays[a]);
      acc.(msgs := acc.msgs + (if step.0.Some? then [RT.Frame(step.0.value.bbox, step.0.value.image)] else []),
           frames := acc.frames + (if step.0.Some? then 1 else 0),
           completed := acc.completed + (if step.1 then [key] else []),
           plays := acc.plays[a := step.2])
  }

  /** The keys of a group, in list order. */
  ghost function RunKeys(anims: map<string, Animation>, acc: TickAcc, keys: seq<string>): (r: TickAcc)
    requires anims.Values <= acc.plays.Keys
    ensures r.plays.Keys == acc.plays.Keys && r.groups == acc.groups
    ensures acc.crashed ==> r == acc
    decreases |keys|
  {
    if keys == [] then acc else RunKeys(anims, KeyStep(anims, acc, keys[0]), keys[1..])
  }

  /** One group: if it is due, its keys in order, then `last_update := frame_count` unless a key raised. */
  ghost function GroupStep(anims: map<string, Animation>, frameCount: int, acc: TickAcc, s: Speed): (r: TickAcc)
    requires anims.Values <= acc.plays.Keys && s in acc.groups
    ensures r.plays.Keys == acc.plays.Keys && r.groups.Keys == acc.groups.Keys
    ensures forall t :: t in r.groups ==> r.groups[t].keys == acc.groups[t].keys
    ensures forall t :: t in acc.groups && t != s ==> r.groups[t] == acc.groups[t]
    ensures acc.crashed ==> r == acc
  {
    if acc.crashed || !Due(acc.groups[s].lastUpdate, frameCount, s) then acc
    else
      var r := RunKeys(anims, acc, acc.groups[s].keys);
      if r.crashed then r else r.(groups := r.groups[s := r.groups[s].(lastUpdate := frameCount)])
  }

  /** The groups, in dictionary order. */
  ghost function RunGroups(anims: map<string, Animation>, frameCount: int, acc: TickAcc, order: seq<Speed>): (r: TickAcc)
    requires anims.Values <= acc.plays.Keys && forall s :: s in order ==> s in acc.groups
    ensures r.plays.Keys == acc.plays.Keys && r.groups.Keys == acc.groups.Keys
    ensures forall t :: t in r.groups ==> r.groups[t].keys == acc.groups[t].keys
    ensures acc.crashed ==> r == acc
    decreases |order|
  {
    if order == [] then acc
    else RunGroups(anims, frameCount, GroupStep(anims, frameCount, acc, order[0]), order[1..])
  }

  /** One whole pass over a registry view, from the animations' indices `plays`. */
  ghost function TickSpec(anims: map<string, Animation>, v: Registry.View, plays: map<Animation, nat>, frameCount: int): (r: TickAcc)
    requires anims.Values <= plays.Keys && forall s :: s in v.order ==> s in v.groups
    ensures r.plays.Keys == plays.Keys && r.groups.Keys == v.groups.Keys
    ensures forall t :: t in r.groups ==> r.groups[t].keys == v.groups[t].keys
  {
    RunGroups(anims, frameCount, TickAcc([], 0, [], plays, v.groups, false), v.order)
  }

  /** `for key in completed_keys: remove_animation(key)`. */
  function RemoveEach(v: Registry.View, keys: seq<string>): (r: Registry.View)
    requires Registry.WellFormed(v)
    ensures Registry.WellFormed(r)
    decreases |keys|
  {
    if keys == [] then v
    else
      Registry.RemoveWellFormed(v, keys[0]);
      RemoveEach(Registry.Remove(v, keys[0]), keys[1..])
  }

  lemma RestampWellFormed(v: Registry.View, groups: map<Speed, Registry.GroupView>)
    requires Registry.WellFormed(v) && groups.Keys == v.groups.Keys
    requires forall t :: t in groups ==> groups[t].keys == v.groups[t].keys
    ensures Registry.WellFormed(v.(groups := groups))
  {
  }

  // ---------------------------------------------------------------- properties of a pass

  /** A key without an animation in the keys of a group makes the pass raise. */
  lemma {:induction false} RunKeysMissingRaises(anims: map<string, Animation>, acc: TickAcc, keys: seq<string>, k: string)
    requires anims.Values <= acc.plays.Keys
    requires k in keys && k !in anims
    ensures RunKeys(anims, acc, keys).crashed
    decreases |keys|
  {
    var a1 := KeyStep(anims, acc, keys[0]);
    if keys[0] != k {
      RunKeysMissingRaises(anims, a1, keys[1..], k);
    }
  }

  /** If a group that is due holds a key without an animation, the pass raises: either at that key
      or earlier. */
  lemma {:induction false} MissingKeyRaises(anims: map<string, Animation>, fc: int, acc: TickAcc, order: seq<Speed>,
                                            t: Speed, k: string)
    requires anims.Values <= acc.plays.Keys && (forall s :: s in order ==> s in acc.groups)
    requires t in order && Due(acc.groups[t].lastUpdate, fc, t) && k in acc.groups[t].keys && k !in anims
    ensures RunGroups(anims, fc, acc, order).crashed
    decreases |order|
  {
    var s := order[0];
    var a1 := GroupStep(anims, fc, acc, s);
    assert RunGroups(anims, fc, acc, order) == RunGroups(anims, fc, a1, order[1..]);
    if s == t {
      if !acc.crashed {
        RunKeysMissingRaises(anims, acc, acc.groups[s].keys, k);
      }
    } else if !a1.crashed {
      assert forall u :: u in order[1..] ==> u in order;
      MissingKeyRaises(anims, fc, a1, order[1..], t, k);
    }
  }

  /** `clear()` as written resets only `animations`: if any group is due at the next pass, that
      pass calls `next_frame()` on `None` and the loop's thread dies. */
  lemma ClearThenTickRaises(v: Registry.View, plays: map<Animation, nat>, fc: int, t: Speed)
    requires Registry.WellFormed(v)
    requires t in v.groups && Due(v.groups[t].lastUpdate, fc, t)
    ensures TickSpec(map[], ClearView(v), plays, fc).crashed
  {
    var c := ClearView(v);
    MissingKeyRaises(map[], fc, TickAcc([], 0, [], plays, c.groups, false), c.order, t, c.groups[t].keys[0]);
  }

  /** What `clear()` as written leaves: no animations, the groups untouched. */
  function ClearView(v: Registry.View): (r: Registry.View)
    requires Registry.WellFormed(v)
    ensures Registry.WellFormed(r) && r.speedOf == map[]
    ensures r.order == v.order && r.groups == v.groups
  {
    v.(speedOf := map[])
  }

  /** With both dictionaries emptied (what `clear()` of display/animation.py does), the next pass
      raises nothing, queues nothing and completes nothing. */
  lemma ClearAllThenTickIsQuiet(plays: map<Animation, nat>, fc: int)
    ensures var r := TickSpec(map[], Registry.Empty, plays, fc);
      !r.crashed && r.msgs == [] && r.frames == 0 && r.completed == []
  {
  }

  /** Re-registering a key at another speed and removing it leaves it in the first group with no
      animation: on a new manager, once that group is due (`floor(60 / s1)` passes in), the pass
      raises. */
  lemma StaleEntryRaises(key: string, s1: Speed, s2: Speed, plays: map<Animation, nat>, fc: int)
    requires s1 != s2 && fc >= FramesPerUpdate(s1)
    ensures var r := Registry.Remove(Registry.Add(Registry.Add(Registry.Empty, key, s1), key, s2), key);
      && Registry.WellFormed(r) && r.speedOf == map[] && r.groups == map[s1 := Registry.GroupView([key], 0)]
      && TickSpec(map[], r, plays, fc).crashed
  {
    var r := ReRegisterThenRemove(key, s1, s2);
    MissingKeyRaises(map[], fc, TickAcc([], 0, [], plays, r.groups, false), r.order, s1, key);
  }

  /** The registry after `add(key, s1)`, `add(key, s2)`, `remove(key)` on a new manager. */
  lemma ReRegisterThenRemove(key: string, s1: Speed, s2: Speed) returns (r: Registry.View)
    requires s1 != s2
    ensures r == Registry.Remove(Registry.Add(Registry.Add(Registry.Empty, key, s1), key, s2), key)
    ensures r == Registry.View(map[], [s1], map[s1 := Registry.GroupView([key], 0)])
    ensures Registry.WellFormed(r)
  {
    var b := ReRegister(key, s1, s2);
    r := Registry.Remove(b, key);
    RemoveSecond(key, s1, s2);
  }

  lemma ReRegister(key: string, s1: Speed, s2: Speed) returns (b: Registry.View)
    requires s1 != s2
    ensures b == Registry.Add(Registry.Add(Registry.Empty, key, s1), key, s2)
    ensures b == Registry.View(map[key := s2], [s1, s2], map[s1 := Registry.GroupView([key], 0), s2 := Registry.GroupView([key], 0)])
    ensures Registry.WellFormed(b)
  {
    var g := Registry.GroupView([key], 0);
    var a := Registry.Add(Registry.Empty, key, s1);
    assert a == Registry.View(map[key := s1], [s1], map[s1 := g]);
    b := Registry.Add(a, key, s2);
  }

  lemma RemoveSecond(key: string, s1: Speed, s2: Speed)
    requires s1 != s2
    requires Registry.WellFormed(Registry.View(map[key := s2], [s1, s2], map[s1 := Registry.GroupView([key], 0), s2 := Registry.GroupView([key], 0)]))
    ensures Registry.Remove(Registry.View(map[key := s2], [s1, s2], map[s1 := Registry.GroupView([key], 0), s2 := Registry.GroupView([key], 0)]), key)
      == Registry.View(map[], [s1], map[s1 := Registry.GroupView([key], 0)])
  {
    var g := Registry.GroupView([key], 0);
    assert Registry.RemoveFirst([key], key) == [];
    assert Registry.RemoveFirst([s1, s2], s2) == [s1];
    assert map[key := s2] - {key} == map[];
    assert map[s1 := g, s2 := g] - {s2} == map[s1 := g];
  }

  // ================================================================ the manager

  /** `AnimationManager`: `animations` (key -> animation), `animation_groups` (speed -> group, in
      dictionary order `groupOrder`) and the render queue it feeds. The groups are held as values:
      each is reached only through this dictionary. */
  class AnimationManager {
    var animations: map<string, Animation>
    var groupOrder: seq<Speed>
    var groups: map<Speed, Registry.GroupView>
    var queue: seq<RT.RenderMessage>

    /** The two dictionaries as a registry value. */
    function Reg(): Registry.View
      reads this
    {
      Registry.View(SpeedMap(animations), groupOrder, groups)
    }

    /** The index of every registered animation. */
    ghost function Plays(): map<Animation, nat>
      reads this, animations.Values
    {
      map a | a in animations.Values :: a.currentFrame
    }

    ghost predicate Valid()
      reads this
    {
      Registry.WellFormed(Reg())
    }

    constructor()
      ensures Valid() && Reg() == Registry.Empty && queue == []
    {
      animations := map[];
      groupOrder := [];
      groups := map[];
      queue := [];
      SpeedMapEmpty();
    }

    /** `add_animation(key, animation)`. */
    method AddAnimation(key: string, animation: Animation)
      requires Valid()
      modifies this
      ensures Reg() == Registry.Add(old(Reg()), key, animation.speed)
      ensures animations == old(animations)[key := animation] && queue == old(queue)
      ensures Valid()
    {
      Registry.AddWellFormed(Reg(), key, animation.speed);
      AddFields(animations, groupOrder, groups, key, animation);
      var s := animation.speed;
      animations := animations[key := animation];
      if s !in groups {
        groups := groups[s := Registry.GroupView([], 0)];
        groupOrder := groupOrder + [s];
      }
      groups := groups[s := Registry.AddKey(groups[s], key)];
    }

    /** `add_animations(animations)`: the entries in dictionary order. */
    method AddAnimations(entries: seq<(string, Animation)>)
      requires Valid()
      modifies this
      ensures Valid() && queue == old(queue)
      ensures animations == PutAll(old(animations), entries)
      ensures Reg() == Registry.AddAll(old(Reg()), SpeedsOf(entries))
    {
      var i := 0;
      while i < |entries|
        invariant 0 <= i <= |entries|
        invariant Valid() && queue == old(queue)
        invariant animations == PutAll(old(animations), entries[..i])
        invariant Registry.AddAll(old(Reg()), SpeedsOf(entries)) == Registry.AddAll(Reg(), SpeedsOf(entries[i..]))
      {
        var (key, animation) := entries[i];
        AddAllStep(Reg(), entries, i);
        PutAllStep(old(animations), entries, i);
        AddAnimation(key, animation);
        i := i + 1;
      }
      assert entries[..i] == entries;
    }

    /** `remove_animation(key)`. */
    method RemoveAnimation(key: string)
      requires Valid()
      modifies this
      ensures Reg() == Registry.Remove(old(Reg()), key)
      ensures animations == old(animations) - {key} && queue == old(queue)
      ensures Valid()
    {
      Registry.RemoveWellFormed(Reg(), key);
      if key in animations {
        RemoveFields(animations, groupOrder, groups, key);
        var s := animations[key].speed;
        var group := Registry.RemoveKey(groups[s], key);
        if group.keys == [] {
          groups := groups - {s};
          groupOrder := Registry.RemoveFirst(groupOrder, s);
        } else {
          groups := groups[s := group];
        }
        animations := animations - {key};
      } else {
        MapRemoveAbsent(animations, key);
      }
    }

    /** `get_animation(key)`. */
    method GetAnimation(key: string) returns (r: Option<Animation>)
      ensures r.Some? <==> key in animations
      ensures r.Some? ==> r.value == animations[key]
    {
      r := if key in animations then Some(animations[key]) else None;
    }

    /** `clear()` as written: only `animations` is reset; the groups keep their keys. */
    method Clear()
      requires Valid()
      modifies this
      ensures Reg() == ClearView(old(Reg())) && animations == map[] && queue == old(queue)
      ensures Valid()
    {
      animations := map[];
      SpeedMapEmpty();
    }

    /** `clear()` as intended: both dictionaries are emptied. */
    method ClearAll()
      modifies this
      ensures Reg() == Registry.Empty && animations == map[] && queue == old(queue)
      ensures Valid()
    {
      animations := map[];
      groups := map[];
      groupOrder := [];
      SpeedMapEmpty();
    }

    /** One pass of `_run_animations` at `frameCount`: the due groups in dictionary order, the keys
        of each in list order; a `Swap` after the frames if there were any; then the completed keys
        are removed. A key without an animation raises, which ends the pass there (and the loop's
        thread). Without an exception the next pass is at `frameCount + 1`. */
    method Tick(frameCount: int) returns (crashed: bool, next: int)
      requires Valid()
      modifies this, animations.Values
      ensures var r := TickSpec(old(animations), old(Reg()), old(Plays()), frameCount);
        && crashed == r.crashed
        && queue == old(queue) + r.msgs + (if !crashed && r.frames > 0 then [RT.Swap] else [])
        && (forall a :: a in old(animations.Values) ==> a.currentFrame == r.plays[a])
        && (crashed ==> Reg() == old(Reg()).(groups := r.groups) && next == frameCount)
        && (!crashed ==> Reg() == RemoveEach(old(Reg()).(groups := r.groups), r.completed) && next == frameCount + 1)
        && Valid()
    {
      ghost var v0 := Reg();
      ghost var p0 := Plays();
      MirrorsAtStart();
      var updateCount, completed, raised, acc := ServeGroups(frameCount, p0);
      assert queue == old(queue) + acc.msgs && groups == acc.groups;
      RestampWellFormed(v0, acc.groups);
      assert Reg() == v0.(groups := acc.groups);
      if raised {
        crashed, next := true, frameCount;
        return;
      }
      EndPass(updateCount, completed);
      crashed, next := false, frameCount + 1;
    }

    /** Before a pass the manager mirrors an empty pass from the animations' current states. */
    lemma MirrorsAtStart()
      ensures Mirrors(queue, TickAcc([], 0, [], Plays(), groups, false), [])
    {
    }

    /** The end of a pass that did not raise: one `Swap` if any frame was queued, then every
        completed key is removed. */
    method EndPass(updateCount: nat, completed: seq<string>)
      requires Valid()
      modifies this
      ensures queue == old(queue) + (if updateCount > 0 then [RT.Swap] else [])
      ensures Reg() == RemoveEach(old(Reg()), completed) && Valid()
      ensures unchanged(old(animations.Values))
    {
      if updateCount > 0 {
        queue := queue + [RT.Swap];
      }
      RemoveAnimations(completed);
    }

    /** The manager's state is what the pass specification `acc` says so far. */
    ghost predicate Mirrors(q0: seq<RT.RenderMessage>, acc: TickAcc, completed: seq<string>)
      reads this, animations.Values
    {
      && animations.Values <= acc.plays.Keys
      && queue == q0 + acc.msgs && completed == acc.completed && groups == acc.groups
      && forall a :: a in animations.Values ==> a.currentFrame == acc.plays[a]
    }

    /** The outer loop of a pass: every group that `should_update`, in dictionary order. */
    method ServeGroups(frameCount: int, ghost plays0: map<Animation, nat>) returns (updateCount: nat, completed: seq<string>, raised: bool, ghost acc: TickAcc)
      requires forall s :: s in groupOrder ==> s in groups
      requires Mirrors(queue, TickAcc([], 0, [], plays0, groups, false), [])
      modifies this`queue, this`groups, animations.Values
      ensures acc == RunGroups(animations, frameCount, TickAcc([], 0, [], plays0, old(groups), false), old(groupOrder))
      ensures raised == acc.crashed
      ensures Mirrors(old(queue), acc, completed) && (!raised ==> updateCount == acc.frames)
    {
      acc := TickAcc([], 0, [], plays0, groups, false);
      ghost var spec := RunGroups(animations, frameCount, acc, groupOrder);
      completed, updateCount, raised := [], 0, false;
      var order := groupOrder;
      var i := 0;
      while i < |order| && !raised
        invariant GroupsLoop(frameCount, spec, order, i, old(queue), acc, completed, updateCount, raised)
      {
        updateCount, completed, raised, acc := ServeGroupAt(frameCount, spec, order, i, old(queue), acc, updateCount, completed);
        i := i + 1;
      }
      RunGroupsDone(animations, frameCount, acc, order[i..]);
    }

    /** The invariant of the outer loop after `i` groups of `order`: the rest of the pass is what
        remains of `spec`. */
    ghost predicate GroupsLoop(frameCount: int, spec: TickAcc, order: seq<Speed>, i: nat, q0: seq<RT.RenderMessage>, acc: TickAcc,
                               completed: seq<string>, updateCount: nat, raised: bool)
      reads this, animations.Values
    {
      && i <= |order| && (forall s :: s in order ==> s in acc.groups)
      && Tracks(q0, acc, completed, updateCount, raised)
      && spec == RunGroups(animations, frameCount, acc, order[i..])
    }

    /** The body of the outer loop: group `i` of `order`. */
    method ServeGroupAt(frameCount: int, ghost spec: TickAcc, order: seq<Speed>, i: nat, ghost q0: seq<RT.RenderMessage>, ghost acc0: TickAcc,
                        updateCount0: nat, completed0: seq<string>)
      returns (updateCount: nat, completed: seq<string>, raised: bool, ghost acc: TickAcc)
      requires i < |order| && GroupsLoop(frameCount, spec, order, i, q0, acc0, completed0, updateCount0, false)
      modifies this`queue, this`groups, animations.Values
      ensures GroupsLoop(frameCount, spec, order, i + 1, q0, acc, completed, updateCount, raised)
    {
      RunGroupsUnfold(animations, frameCount, acc0, order, i);
      updateCount, completed, raised, acc := ServeGroup(frameCount, order[i], q0, acc0, updateCount0, completed0);
    }


    /** One group of the outer loop: if it `should_update`, its keys, then `last_update := frame_count`. */
    method ServeGroup(frameCount: int, s: Speed, ghost q0: seq<RT.RenderMessage>, ghost acc0: TickAcc, updateCount0: nat, completed0: seq<string>)
      returns (updateCount: nat, completed: seq<string>, raised: bool, ghost acc: TickAcc)
      requires !acc0.crashed && s in acc0.groups && Mirrors(q0, acc0, completed0) && updateCount0 == acc0.frames
      modifies this`queue, this`groups, animations.Values
      ensures acc == GroupStep(animations, frameCount, acc0, s) && raised == acc.crashed
      ensures Mirrors(q0, acc, completed) && (!raised ==> updateCount == acc.frames)
    {
      acc, updateCount, completed, raised := acc0, updateCount0, completed0, false;
      if frameCount - groups[s].lastUpdate >= FramesPerUpdate(s) {
        updateCount, completed, raised, acc := ServeKeys(groups[s].keys, q0, acc0, updateCount0, completed0);
        if raised {
          return;
        }
        groups := groups[s := groups[s].(lastUpdate := frameCount)];
        acc := acc.(groups := groups);
      }
    }

    /** The inner loop of a pass: the keys of one due group, in list order. */
    method ServeKeys(keys: seq<string>, ghost q0: seq<RT.RenderMessage>, ghost acc0: TickAcc, updateCount0: nat, completed0: seq<string>)
      returns (updateCount: nat, completed: seq<string>, raised: bool, ghost acc: TickAcc)
      requires !acc0.crashed && Mirrors(q0, acc0, completed0) && updateCount0 == acc0.frames
      modifies this`queue, animations.Values
      ensures acc == RunKeys(animations, acc0, keys) && raised == acc.crashed
      ensures Mirrors(q0, acc, completed) && (!raised ==> updateCount == acc.frames)
    {
      acc, updateCount, completed, raised := acc0, updateCount0, completed0, false;
      var j := 0;
      while j < |keys| && !raised
        invariant 0 <= j <= |keys| && Tracks(q0, acc, completed, updateCount, raised)
        invariant RunKeys(animations, acc0, keys) == RunKeys(animations, acc, keys[j..])
      {
        updateCount, completed, raised, acc := ServeKeyAt(keys, j, q0, acc, updateCount, completed);
        j := j + 1;
      }
      RunKeysDone(animations, acc, keys[j..]);
    }

    /** What the loops keep: the manager mirrors `acc`, `raised` says whether it raised, and
        `update_count` counts its frames. */
    ghost predicate Tracks(q0: seq<RT.RenderMessage>, acc: TickAcc, completed: seq<string>, updateCount: nat, raised: bool)
      reads this, animations.Values
    {
      raised == acc.crashed && Mirrors(q0, acc, completed) && (!raised ==> updateCount == acc.frames)
    }

    /** The body of the inner loop: key `j` of `keys`. */
    method ServeKeyAt(keys: seq<string>, j: nat, ghost q0: seq<RT.RenderMessage>, ghost acc0: TickAcc, updateCount0: nat, completed0: seq<string>)
      returns (updateCount: nat, completed: seq<string>, raised: bool, ghost acc: TickAcc)
      requires j < |keys| && !acc0.crashed && Tracks(q0, acc0, completed0, updateCount0, false)
      modifies this`queue, animations.Values
      ensures Tracks(q0, acc, completed, updateCount, raised)
      ensures RunKeys(animations, acc0, keys[j..]) == RunKeys(animations, acc, keys[j + 1..])
    {
      RunKeysUnfold(animations, acc0, keys, j);
      updateCount, completed, raised, acc := ServeKey(keys[j], q0, acc0, updateCount0, completed0);
    }

    /** One key of a due group: `get_animation(key).next_frame()` raises for a key without an
        animation, and indexing `frames` raises for an index out of range; otherwise the frame, if any, is queued and the key is completed when the
        animation is. */
    method ServeKey(key: string, ghost q0: seq<RT.RenderMessage>, ghost acc0: TickAcc, updateCount0: nat, completed0: seq<string>)
      returns (updateCount: nat, completed: seq<string>, raised: bool, ghost acc: TickAcc)
      requires !acc0.crashed && Mirrors(q0, acc0, completed0) && updateCount0 == acc0.frames
      modifies this`queue, animations.Values
      ensures acc == KeyStep(animations, acc0, key) && raised == acc.crashed
      ensures Mirrors(q0, acc, completed) && (!raised ==> updateCount == acc.frames)
    {
      acc, updateCount, completed, raised := KeyStep(animations, acc0, key), updateCount0, completed0, false;
      var found := GetAnimation(key);
      if found.None? {
        raised := true;
        return;
      }
      var a := found.value;
      if !(|a.frames| == 0 || a.currentFrame < |a.frames|) {
        raised := true;
        return;
      }
      var frame, isComplete := a.NextFrame();
      if frame.Some? {
        queue := queue + [RT.Frame(frame.value.bbox, frame.value.image)];
        updateCount := updateCount + 1;
      }
      if isComplete {
        completed := completed + [key];
      }
    }

    /** `for key in completed_keys: remove_animation(key)`. */
    method RemoveAnimations(keys: seq<string>)
      requires Valid()
      modifies this
      ensures Reg() == RemoveEach(old(Reg()), keys) && queue == old(queue)
      ensures Valid()
    {
      var k := 0;
      while k < |keys|
        invariant 0 <= k <= |keys|
        invariant Valid() && queue == old(queue)
        invariant RemoveEach(old(Reg()), keys) == RemoveEach(Reg(), keys[k..])
      {
        assert keys[k..] == [keys[k]] + keys[k + 1..];
        RemoveAnimation(keys[k]);
        k := k + 1;
      }
    }
  }

  lemma RunKeysDone(anims: map<string, Animation>, acc: TickAcc, rest: seq<string>)
    requires anims.Values <= acc.plays.Keys && (acc.crashed || rest == [])
    ensures RunKeys(anims, acc, rest) == acc
  {
  }

  lemma RunGroupsDone(anims: map<string, Animation>, fc: int, acc: TickAcc, rest: seq<Speed>)
    requires anims.Values <= acc.plays.Keys && (forall s :: s in rest ==> s in acc.groups) && (acc.crashed || rest == [])
    ensures RunGroups(anims, fc, acc, rest) == acc
  {
  }

  lemma RunKeysUnfold(anims: map<string, Animation>, acc: TickAcc, keys: seq<string>, j: nat)
    requires anims.Values <= acc.plays.Keys && j < |keys|
    ensures RunKeys(anims, acc, keys[j..]) == RunKeys(anims, KeyStep(anims, acc, keys[j]), keys[j + 1..])
  {
    assert keys[j..][1..] == keys[j + 1..];
  }

  lemma RunGroupsUnfold(anims: map<string, Animation>, fc: int, acc: TickAcc, order: seq<Speed>, i: nat)
    requires anims.Values <= acc.plays.Keys && i < |order|
    requires forall s :: s in order ==> s in acc.groups
    ensures RunGroups(anims, fc, acc, order[i..]) == RunGroups(anims, fc, GroupStep(anims, fc, acc, order[i]), order[i + 1..])
  {
    assert order[i..][1..] == order[i + 1..];
  }

  /** `animations` seen through each animation's speed. */
  function SpeedMap(animations: map<string, Animation>): (r: map<string, Speed>)
    ensures r.Keys == animations.Keys
    ensures forall k :: k in r ==> r[k] == animations[k].speed
  {
    map k | k in animations :: animations[k].speed
  }

  /** The dictionary updates of `add_animation` are the registry's `Add`. */
  lemma AddFields(anims: map<string, Animation>, order: seq<Speed>, groups: map<Speed, Registry.GroupView>,
                  key: string, a: Animation)
    ensures var s := a.speed;
      var created := if s in groups then groups else groups[s := Registry.GroupView([], 0)];
      Registry.Add(Registry.View(SpeedMap(anims), order, groups), key, s)
        == Registry.View(SpeedMap(anims[key := a]), if s in groups then order else order + [s],
                         created[s := Registry.AddKey(created[s], key)])
  {
    SpeedMapPut(anims, key, a);
    assert [] + [key] == [key];
  }

  /** The dictionary updates of `remove_animation` for a registered key are the registry's `Remove`. */
  lemma RemoveFields(anims: map<string, Animation>, order: seq<Speed>, groups: map<Speed, Registry.GroupView>, key: string)
    requires Registry.WellFormed(Registry.View(SpeedMap(anims), order, groups)) && key in anims
    ensures var s := anims[key].speed; s in groups
    ensures var s := anims[key].speed; var g := Registry.RemoveKey(groups[s], key);
      Registry.Remove(Registry.View(SpeedMap(anims), order, groups), key)
        == if g.keys == [] then Registry.View(SpeedMap(anims - {key}), Registry.RemoveFirst(order, s), groups - {s})
           else Registry.View(SpeedMap(anims - {key}), order, groups[s := g])
  {
    SpeedMapRemove(anims, key);
  }

  lemma MapRemoveAbsent<K, V>(m: map<K, V>, key: K)
    requires key !in m
    ensures m - {key} == m
  {
  }

  lemma SpeedMapEmpty()
    ensures SpeedMap(map[]) == map[]
  {
  }

  lemma SpeedMapPut(m: map<string, Animation>, key: string, a: Animation)
    ensures SpeedMap(m[key := a]) == SpeedMap(m)[key := a.speed]
  {
  }

  lemma SpeedMapRemove(m: map<string, Animation>, key: string)
    ensures SpeedMap(m - {key}) == SpeedMap(m) - {key}
  {
  }

  /** `animations[key] = animation` for each entry in order. */
  function PutAll(m: map<string, Animation>, entries: seq<(string, Animation)>): (r: map<string, Animation>)
    ensures forall k :: k in r <==> k in m || exists i :: 0 <= i < |entries| && entries[i].0 == k
    decreases |entries|
  {
    if entries == [] then m else PutAll(m, entries[..|entries| - 1])[entries[|entries| - 1].0 := entries[|entries| - 1].1]
  }

  lemma PutAllStep(m: map<string, Animation>, entries: seq<(string, Animation)>, i: nat)
    requires i < |entries|
    ensures PutAll(m, entries[..i + 1]) == PutAll(m, entries[..i])[entries[i].0 := entries[i].1]
  {
    assert entries[..i + 1][..i] == entries[..i];
  }

  lemma AddAllStep(v: Registry.View, entries: seq<(string, Animation)>, i: nat)
    requires i < |entries|
    ensures Registry.AddAll(v, SpeedsOf(entries[i..]))
      == Registry.AddAll(Registry.Add(v, entries[i].0, entries[i].1.speed), SpeedsOf(entries[i + 1..]))
  {
    assert SpeedsOf(entries[i..])[1..] == SpeedsOf(entries[i + 1..]);
  }

  /** The (key, speed) pairs the registry sees. */
  function SpeedsOf(entries: seq<(string, Animation)>): (r: seq<(string, Speed)>)
    ensures |r| == |entries| && forall i :: 0 <= i < |r| ==> r[i] == (entries[i].0, entries[i].1.speed)
  {
    seq(|entries|, i requires 0 <= i < |entries| => (entries[i].0, entries[i].1.speed))
  }
}
