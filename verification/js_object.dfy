/** Plain JavaScript objects whose property values are strings or
    `undefined` (`Record<string, string | undefined>`), with their own
    properties in creation order, as object spread observes them for keys
    that are not array indices. */
module JsObject {
  import opened Wrappers

  /** One own property: its key and its value (`None` is `undefined`). */
  type Property = (string, Option<string>)

  predicate DistinctKeys(ps: seq<Property>)
  {
    forall i, j :: 0 <= i < j < |ps| ==> ps[i].0 != ps[j].0
  }

  /** An object: a key occurs at most once. */
  type Object = ps: seq<Property> | DistinctKeys(ps) witness []

  /** The keys in insertion order (`Object.keys`). */
  function Keys(o: seq<Property>): seq<string>
  {
    seq(|o|, i requires 0 <= i < |o| => o[i].0)
  }

  /** `None` when `key` is not an own property; `Some(v)` when it holds `v`. */
  function Lookup(o: seq<Property>, key: string): Option<Option<string>>
  {
    if |o| == 0 then None
    else if o[0].0 == key then Some(o[0].1)
    else Lookup(o[1..], key)
  }

  lemma {:induction false} LookupKeys(o: seq<Property>, key: string)
    ensures Lookup(o, key).Some? <==> key in Keys(o)
  {
    if |o| > 0 {
      assert Keys(o) == [o[0].0] + Keys(o[1..]);
      LookupKeys(o[1..], key);
    }
  }

  /** Defining a data property, as a property of an object literal or a
      spread does: an existing key keeps its position and takes the new
      value; a new key is appended. The literal key that sets the
      prototype instead, and array-index keys, which JavaScript lists
      first, are outside this definition. */
  function Assign(o: Object, key: string, value: Option<string>): (r: Object)
    ensures Lookup(r, key) == Some(value)
    ensures forall k :: k != key ==> Lookup(r, k) == Lookup(o, k)
    ensures Keys(r) == if key in Keys(o) then Keys(o) else Keys(o) + [key]
  {
    if |o| == 0 then [(key, value)]
    else if o[0].0 == key then
      var r := [(key, value)] + o[1..];
      assert Keys(o)[0] == key;
      assert Keys(r) == Keys(o);
      r
    else
      var rest := Assign(o[1..], key, value);
      AssignStep(o, key, value, rest);
      [o[0]] + rest
  }

  /** One step of `Assign` past a first property with another key: putting
      that property back in front keeps the keys distinct and in order. */
  lemma AssignStep(o: Object, key: string, value: Option<string>, rest: Object)
    requires |o| > 0 && o[0].0 != key
    requires Keys(rest) == if key in Keys(o[1..]) then Keys(o[1..]) else Keys(o[1..]) + [key]
    ensures DistinctKeys([o[0]] + rest)
    ensures Keys([o[0]] + rest) == if key in Keys(o) then Keys(o) else Keys(o) + [key]
  {
    KeysCons(o[0], o[1..]);
    assert o == [o[0]] + o[1..];
    KeysCons(o[0], rest);
    FirstKeyIsNew(o);
    ConsDistinct(o[0], rest);
  }

  lemma KeysCons(p: Property, ps: seq<Property>)
    ensures Keys([p] + ps) == [p.0] + Keys(ps)
  {
  }

  /** In an object, the first key does not occur among the others. */
  lemma FirstKeyIsNew(o: Object)
    requires |o| > 0
    ensures o[0].0 !in Keys(o[1..])
  {
    forall i | 0 <= i < |o| - 1 ensures Keys(o[1..])[i] != o[0].0 {
      assert Keys(o[1..])[i] == o[i + 1].0;
    }
  }

  /** Putting a property with a new key in front keeps the keys distinct. */
  lemma ConsDistinct(p: Property, ps: Object)
    requires p.0 !in Keys(ps)
    ensures DistinctKeys([p] + ps)
  {
    var r := [p] + ps;
    forall i, j | 0 <= i < j < |r| ensures r[i].0 != r[j].0 {
      if i == 0 {
        assert r[j].0 == Keys(ps)[j - 1];
      } else {
        assert r[i] == ps[i - 1] && r[j] == ps[j - 1];
      }
    }
  }

  /** Copying the own properties of `src` onto `target` in order, as
      `{...target, ...src}` does. */
  function CopyInto(target: Object, src: Object): (r: Object)
    ensures forall k :: Lookup(r, k) == if Lookup(src, k).Some? then Lookup(src, k) else Lookup(target, k)
    decreases |src|
  {
    if |src| == 0 then target
    else
      var withFirst := Assign(target, src[0].0, src[0].1);
      var r := CopyInto(withFirst, src[1..]);
      CopyIntoStep(target, src, withFirst, r);
      r
  }

  /** One step of `CopyInto`: copying the first property and then the rest
      of `src` gives every key the value the whole spread promises. */
  lemma CopyIntoStep(target: Object, src: Object, withFirst: Object, r: Object)
    requires |src| > 0
    requires withFirst == Assign(target, src[0].0, src[0].1)
    requires forall k :: Lookup(r, k) == if Lookup(src[1..], k).Some? then Lookup(src[1..], k) else Lookup(withFirst, k)
    ensures forall k :: Lookup(r, k) == if Lookup(src, k).Some? then Lookup(src, k) else Lookup(target, k)
  {
    var rest: Object := src[1..];
    assert Keys(src) == [src[0].0] + Keys(rest);
    LookupKeys(rest, src[0].0);
  }

  /** No key of `a` is a key of `b`. */
  predicate KeysDisjoint(a: seq<Property>, b: seq<Property>)
  {
    forall i, j :: 0 <= i < |a| && 0 <= j < |b| ==> a[i].0 != b[j].0
  }

  /** Assigning a key the object does not have appends the property. */
  lemma {:induction false} AssignFresh(o: Object, key: string, value: Option<string>)
    requires key !in Keys(o)
    ensures Assign(o, key, value) == o + [(key, value)]
  {
    if |o| > 0 {
      var tail: Object := o[1..];
      assert o == [o[0]] + tail;
      KeysCons(o[0], tail);
      assert o[0].0 != key && key !in Keys(tail);
      AssignFresh(tail, key, value);
      assert Assign(o, key, value) == [o[0]] + Assign(tail, key, value);
      assert [o[0]] + (tail + [(key, value)]) == o + [(key, value)];
    }
  }

  /** Spreading an object whose keys are all new appends its properties
      unchanged and in order; in particular `{...src}` is a copy of `src`. */
  lemma {:induction false} CopyIntoFresh(target: Object, src: Object)
    requires KeysDisjoint(target, src)
    requires DistinctKeys(target + src)
    ensures CopyInto(target, src) == target + src
    decreases |src|
  {
    if |src| > 0 {
      MoveFirst(target, src);
      AssignFresh(target, src[0].0, src[0].1);
      var next: Object := target + [src[0]];
      var rest: Object := src[1..];
      CopyIntoFresh(next, rest);
    }
  }

  /** Moving the first property of `src` onto the end of `target` keeps
      the preconditions of `CopyIntoFresh`. */
  lemma MoveFirst(target: Object, src: Object)
    requires |src| > 0
    requires KeysDisjoint(target, src)
    requires DistinctKeys(target + src)
    ensures src[0].0 !in Keys(target)
    ensures (target + [src[0]]) + src[1..] == target + src
    ensures DistinctKeys(target + [src[0]])
    ensures KeysDisjoint(target + [src[0]], src[1..])
  {
    var key := src[0].0;
    forall i | 0 <= i < |target| ensures Keys(target)[i] != key {
      assert target[i].0 != src[0].0;
    }
    assert src == [src[0]] + src[1..];
    var whole := target + src;
    var next := target + [src[0]];
    assert (target + [src[0]]) + src[1..] == whole;
    forall i, j | 0 <= i < j < |next| ensures next[i].0 != next[j].0 {
      assert next[i] == whole[i] && next[j] == whole[j];
    }
    forall i, j | 0 <= i < |next| && 0 <= j < |src| - 1 ensures next[i].0 != src[1..][j].0 {
      assert next[i] == whole[i] && src[1..][j] == whole[|target| + 1 + j];
    }
  }

}
