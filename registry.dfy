/** The value-level view of an animation manager's two dictionaries:
    `animations` (key -> animation, seen here through each animation's speed)
    and `animation_groups` (speed -> group of keys), with the dictionary's
    insertion order kept explicitly. Both manager versions
    (display/animation.py and animation.py) register and remove keys with
    exactly these rules; their classes state their effects through this view. */
module Registry {

  /** Animation speed in frames per second. Every caller in the system uses 60, 10 or 6. */
  type Speed = s: int | 0 < s witness 60

  /** What an `AnimationGroup` holds: its member keys, in list order, and the tick it was last serviced. */
  datatype GroupView = GroupView(keys: seq<string>, lastUpdate: int)

  /** `AnimationGroup.add_animation(key)`: appends, even when the key is already a member. */
  function AddKey(g: GroupView, key: string): GroupView {
    g.(keys := g.keys + [key])
  }

  /** `AnimationGroup.remove_animation(key)`: drops the first entry of the key, if there is one. */
  function RemoveKey(g: GroupView, key: string): GroupView {
    g.(keys := RemoveFirst(g.keys, key))
  }

  /** `speedOf` is `animations` seen through `animation.speed`; `order` is the insertion order of `groups`. */
  datatype View = View(speedOf: map<string, Speed>, order: seq<Speed>, groups: map<Speed, GroupView>)

  predicate NoDup<T(==)>(s: seq<T>) {
    forall i, j :: 0 <= i < j < |s| ==> s[i] != s[j]
  }

  /** Python's `list.remove(x)` guarded by `if x in list`: drops the first occurrence, if any. */
  function RemoveFirst<T(==)>(s: seq<T>, x: T): (r: seq<T>)
    ensures x !in s ==> r == s
    ensures x in s ==> |r| == |s| - 1
  {
    if |s| == 0 then s
    else if s[0] == x then s[1..]
    else [s[0]] + RemoveFirst(s[1..], x)
  }

  /** `list.remove(x)` takes out exactly one occurrence of `x` and keeps every other element. */
  lemma {:induction false} RemoveFirstCount<T>(s: seq<T>, x: T)
    ensures multiset(RemoveFirst(s, x)) == multiset(s) - multiset{x}
  {
    if |s| > 0 {
      assert s == [s[0]] + s[1..];
      if s[0] != x {
        RemoveFirstCount(s[1..], x);
      }
    }
  }

  lemma RemoveFirstKeepsOthers<T>(s: seq<T>, x: T, y: T)
    requires y != x
    ensures y in RemoveFirst(s, x) <==> y in s
  {
    var r := RemoveFirst(s, x);
    RemoveFirstCount(s, x);
    assert y in multiset(r) <==> y in multiset(s);
  }

  lemma {:induction false} RemoveFirstNoDup<T>(s: seq<T>, x: T)
    requires NoDup(s)
    ensures NoDup(RemoveFirst(s, x))
    ensures x !in RemoveFirst(s, x)
  {
    if |s| > 0 {
      assert NoDup(s[1..]) by {
        forall i, j | 0 <= i < j < |s[1..]| ensures s[1..][i] != s[1..][j] {
          assert s[1..][i] == s[i + 1] && s[1..][j] == s[j + 1];
        }
      }
      if s[0] == x {
        assert x !in s[1..] by {
          forall i | 0 <= i < |s[1..]| ensures s[1..][i] != x {
            assert s[1..][i] == s[i + 1];
          }
        }
      } else {
        var rest := RemoveFirst(s[1..], x);
        RemoveFirstNoDup(s[1..], x);
        assert s[0] !in rest by {
          forall i | 0 <= i < |s[1..]| ensures s[1..][i] != s[0] {
            assert s[1..][i] == s[i + 1];
          }
          RemoveFirstCount(s[1..], x);
          forall y | y in rest ensures y in s[1..] {
            assert y in multiset(rest);
          }
        }
        ConsNoDup(s[0], rest);
      }
    }
  }

  /** A list without duplicates: its head is not in its tail, and the tail has no duplicates. */
  lemma NoDupTail<T>(s: seq<T>)
    requires NoDup(s) && |s| > 0
    ensures NoDup(s[1..]) && s[0] !in s[1..]
    ensures forall t :: t in s[1..] ==> t in s
  {
    forall k | 0 <= k < |s| - 1
      ensures s[1..][k] != s[0]
    {
      assert s[1..][k] == s[k + 1];
    }
  }

  lemma ConsNoDup<T>(a: T, r: seq<T>)
    requires NoDup(r) && a !in r
    ensures NoDup([a] + r)
  {
    var c := [a] + r;
    forall i, j | 0 <= i < j < |c| ensures c[i] != c[j] {
      assert c[j] == r[j - 1];
      if i > 0 {
        assert c[i] == r[i - 1];
      }
    }
  }

  /** The manager's invariant: the order lists each group exactly once, no group is empty,
      and every registered key is a member of the group for its speed. It deliberately does
      NOT say that a key is in only one group, or only once: `add_animation` appends without
      removing earlier entries. */
  ghost predicate WellFormed(v: View) {
    && NoDup(v.order)
    && (forall s :: s in v.order <==> s in v.groups)
    && (forall s :: s in v.groups ==> v.groups[s].keys != [])
    && (forall k :: k in v.speedOf ==> v.speedOf[k] in v.groups && k in v.groups[v.speedOf[k]].keys)
  }

  const Empty: View := View(map[], [], map[])

  /** `is_animation_running(key)`. */
  predicate IsRunning(v: View, key: string) {
    key in v.speedOf
  }

  /** `add_animation(key, animation)`: map the key, create the speed's group if absent, append the key. */
  function Add(v: View, key: string, speed: Speed): View {
    if speed in v.groups then
      View(v.speedOf[key := speed], v.order,
           v.groups[speed := AddKey(v.groups[speed], key)])
    else
      View(v.speedOf[key := speed], v.order + [speed], v.groups[speed := GroupView([key], 0)])
  }

  /** `add_animations(dict)`: `add_animation` for each entry in dictionary order. */
  function AddAll(v: View, entries: seq<(string, Speed)>): View
    decreases |entries|
  {
    if entries == [] then v
    else AddAll(Add(v, entries[0].0, entries[0].1), entries[1..])
  }

  /** `remove_animation(key)`: a no-op for an unregistered key; otherwise drop the key from the
      group of its current speed (first occurrence), drop the group once empty, unmap the key. */
  function Remove(v: View, key: string): View
    requires WellFormed(v)
  {
    if key !in v.speedOf then v
    else
      var s := v.speedOf[key];
      var rest := RemoveFirst(v.groups[s].keys, key);
      if rest == [] then View(v.speedOf - {key}, RemoveFirst(v.order, s), v.groups - {s})
      else View(v.speedOf - {key}, v.order, v.groups[s := RemoveKey(v.groups[s], key)])
  }

  lemma AddWellFormed(v: View, key: string, speed: Speed)
    requires WellFormed(v)
    ensures WellFormed(Add(v, key, speed))
  {
    var r := Add(v, key, speed);
    if speed !in v.groups {
      forall i, j | 0 <= i < j < |r.order| ensures r.order[i] != r.order[j] {
        if j == |v.order| { assert r.order[i] in v.order; }
      }
    }
  }

  lemma {:induction false} AddAllWellFormed(v: View, entries: seq<(string, Speed)>)
    requires WellFormed(v)
    ensures WellFormed(AddAll(v, entries))
    decreases |entries|
  {
    if entries != [] {
      AddWellFormed(v, entries[0].0, entries[0].1);
      AddAllWellFormed(Add(v, entries[0].0, entries[0].1), entries[1..]);
    }
  }

  lemma RemoveWellFormed(v: View, key: string)
    requires WellFormed(v)
    ensures WellFormed(Remove(v, key))
  {
    if key in v.speedOf {
      var s := v.speedOf[key];
      var rest := RemoveFirst(v.groups[s].keys, key);
      if rest == [] {
        RemoveGroupWellFormed(v, key);
      } else {
        ShrinkGroupWellFormed(v, key);
      }
    }
  }

  lemma RemoveGroupWellFormed(v: View, key: string)
    requires WellFormed(v) && key in v.speedOf
    requires RemoveFirst(v.groups[v.speedOf[key]].keys, key) == []
    ensures WellFormed(Remove(v, key))
  {
    var s := v.speedOf[key];
    var r := Remove(v, key);
    assert r == View(v.speedOf - {key}, RemoveFirst(v.order, s), v.groups - {s});
    RemoveFirstNoDup(v.order, s);
    forall t ensures t in r.order <==> t in r.groups {
      if t != s { RemoveFirstKeepsOthers(v.order, s, t); }
    }
    forall k | k in r.speedOf ensures r.speedOf[k] in r.groups {
      if v.speedOf[k] == s {
        RemoveFirstKeepsOthers(v.groups[s].keys, key, k);
        assert false;
      }
    }
  }

  lemma ShrinkGroupWellFormed(v: View, key: string)
    requires WellFormed(v) && key in v.speedOf
    requires RemoveFirst(v.groups[v.speedOf[key]].keys, key) != []
    ensures WellFormed(Remove(v, key))
  {
    var s := v.speedOf[key];
    var rest := RemoveFirst(v.groups[s].keys, key);
    var r := Remove(v, key);
    assert r == View(v.speedOf - {key}, v.order, v.groups[s := v.groups[s].(keys := rest)]);
    forall k | k in r.speedOf ensures k in r.groups[r.speedOf[k]].keys {
      if v.speedOf[k] == s {
        RemoveFirstKeepsOthers(v.groups[s].keys, key, k);
      }
    }
  }

  /** The registration rule: after `add_animation`, the key is running at its new speed, it is
      the last member of that group, and no other key's registration changed. */
  lemma AddRegisters(v: View, key: string, speed: Speed)
    ensures var r := Add(v, key, speed);
      && IsRunning(r, key) && r.speedOf[key] == speed
      && speed in r.groups && r.groups[speed].keys[|r.groups[speed].keys| - 1] == key
      && (forall k :: k != key ==> (IsRunning(r, k) <==> IsRunning(v, k)))
      && (speed in v.groups <==> r.order == v.order)
      && (speed !in v.groups ==> r.groups[speed] == GroupView([key], 0))
  {
  }

  /** Removing a key that is not registered changes nothing. */
  lemma RemoveAbsent(v: View, key: string)
    requires WellFormed(v) && !IsRunning(v, key)
    ensures Remove(v, key) == v
  {
  }

  /** Removing a registered key unregisters exactly that key, deletes the key's group exactly
      when its last entry went away, and leaves every other group as it was. */
  lemma RemoveUnregisters(v: View, key: string)
    requires WellFormed(v) && IsRunning(v, key)
    ensures var r := Remove(v, key); var s := v.speedOf[key];
      && !IsRunning(r, key)
      && (forall k :: k != key ==> (IsRunning(r, k) <==> IsRunning(v, k)))
      && (s in r.groups <==> |v.groups[s].keys| > 1)
      && (forall t :: t in v.groups && t != s ==> t in r.groups && r.groups[t] == v.groups[t])
  {
    var s := v.speedOf[key];
    assert key in v.groups[s].keys;
  }

  /** Re-registering a key at a different speed, then removing it, leaves the key behind in
      its first group although it is no longer running: the group is not deleted. */
  lemma StaleEntryAfterSpeedChange(v: View, key: string, s1: Speed, s2: Speed)
    requires WellFormed(v) && s1 != s2
    ensures var b := Add(Add(v, key, s1), key, s2);
      && WellFormed(b)
      && var r := Remove(b, key);
      && !IsRunning(r, key)
      && s1 in r.groups && key in r.groups[s1].keys
  {
    var a := Add(v, key, s1);
    AddWellFormed(v, key, s1);
    var b := Add(a, key, s2);
    AddWellFormed(a, key, s2);
    assert key in a.groups[s1].keys;
    assert b.groups[s1] == a.groups[s1] && b.speedOf[key] == s2;
    assert Remove(b, key).groups[s1] == b.groups[s1];
  }

  /** Registering the same key twice at one speed puts two entries in its group; removing the
      key once leaves one of them behind. */
  lemma StaleEntryAfterReRegister(v: View, key: string, s: Speed)
    requires WellFormed(v)
    ensures var b := Add(Add(v, key, s), key, s);
      && WellFormed(b)
      && var r := Remove(b, key);
      && !IsRunning(r, key)
      && s in r.groups && key in r.groups[s].keys
  {
    var a := Add(v, key, s);
    AddWellFormed(v, key, s);
    var b := Add(a, key, s);
    AddWellFormed(a, key, s);
    var ks := b.groups[s].keys;
    assert ks == a.groups[s].keys + [key];
    assert multiset(ks)[key] >= 2 by {
      assert key in a.groups[s].keys;
      assert multiset(ks) == multiset(a.groups[s].keys) + multiset{key};
    }
    var rest := RemoveFirst(ks, key);
    RemoveFirstCount(ks, key);
    assert key in multiset(rest);
  }

  /** The emptied registry of `clear()` satisfies the invariant and runs nothing. */
  lemma ClearEmpties(key: string)
    ensures WellFormed(Empty) && !IsRunning(Empty, key) && Empty.groups == map[]
  {
  }
}
