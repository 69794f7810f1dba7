/** MSBuild properties as the plugin holds them: a JavaScript object from
    property name to value, kept here as the sequence of its entries in key
    order (the order `for...in` visits them). Assigning a key that is present
    overwrites its value in place; assigning a new key appends it. lodash's
    `_.extend(dest, src)` assigns the entries of `src` onto `dest` in order. */
module Properties {
  import opened Wrappers

  datatype Property = Property(name: string, value: string)

  /** A JavaScript object never holds a key twice. */
  predicate DistinctNames(props: seq<Property>) {
    forall i, j :: 0 <= i < j < |props| ==> props[i].name != props[j].name
  }

  function NameSet(props: seq<Property>): set<string> {
    set i | 0 <= i < |props| :: props[i].name
  }

  lemma NameSetCons(p: Property, rest: seq<Property>)
    ensures NameSet([p] + rest) == {p.name} + NameSet(rest)
  {
    var s := [p] + rest;
    forall n | n in NameSet(s) ensures n in {p.name} + NameSet(rest) {
      var i :| 0 <= i < |s| && s[i].name == n;
      if i > 0 { assert rest[i - 1].name == n; }
    }
    forall n | n in NameSet(rest) ensures n in NameSet(s) {
      var i :| 0 <= i < |rest| && rest[i].name == n;
      assert s[i + 1].name == n;
    }
    assert s[0].name == p.name;
  }

  lemma NameSetSnoc(rest: seq<Property>, p: Property)
    ensures NameSet(rest + [p]) == NameSet(rest) + {p.name}
  {
    var s := rest + [p];
    forall n | n in NameSet(s) ensures n in NameSet(rest) + {p.name} {
      var i :| 0 <= i < |s| && s[i].name == n;
      if i < |rest| { assert rest[i].name == n; }
    }
    forall n | n in NameSet(rest) ensures n in NameSet(s) {
      var i :| 0 <= i < |rest| && rest[i].name == n;
      assert s[i].name == n;
    }
    assert s[|rest|].name == p.name;
  }

  /** The first key of an object does not occur again in the rest. */
  lemma DistinctTail(props: seq<Property>)
    requires props != [] && DistinctNames(props)
    ensures DistinctNames(props[1..])
    ensures props[0].name !in NameSet(props[1..])
  {
    forall i | 0 <= i < |props[1..]| ensures props[1..][i].name != props[0].name {
      assert props[1..][i] == props[i + 1];
    }
  }

  /** `obj[name]`. */
  function Lookup(props: seq<Property>, name: string): (r: Option<string>)
    ensures r.Some? <==> name in NameSet(props)
    ensures r.Some? ==> Property(name, r.value) in props
  {
    if props == [] then None
    else if props[0].name == name then Some(props[0].value)
    else
      assert props == [props[0]] + props[1..];
      NameSetCons(props[0], props[1..]);
      Lookup(props[1..], name)
  }

  /** `obj[name] = value`. */
  function Assign(props: seq<Property>, name: string, value: string): (r: seq<Property>)
    ensures NameSet(r) == NameSet(props) + {name}
    ensures |r| == if name in NameSet(props) then |props| else |props| + 1
    ensures DistinctNames(props) ==> DistinctNames(r)
  {
    if props == [] then
      assert NameSet([Property(name, value)]) == {name} by { NameSetCons(Property(name, value), []); }
      [Property(name, value)]
    else
      assert props == [props[0]] + props[1..];
      NameSetCons(props[0], props[1..]);
      if props[0].name == name then
        var r := [Property(name, value)] + props[1..];
        NameSetCons(Property(name, value), props[1..]);
        assert r[1..] == props[1..];
        r
      else
        var rest := Assign(props[1..], name, value);
        var r := [props[0]] + rest;
        NameSetCons(props[0], rest);
        assert r[1..] == rest;
        assert DistinctNames(props) ==> DistinctNames(r) by {
          if DistinctNames(props) {
            assert props[0].name !in NameSet(props[1..]);
            forall j | 0 < j < |r| ensures r[0].name != r[j].name {
              assert r[j].name in NameSet(rest);
            }
          }
        }
        r
  }

  /** After `obj[name] = value`, `obj[name]` is `value` and every other key
      reads as before. */
  lemma {:induction false} AssignLookup(props: seq<Property>, name: string, value: string, m: string)
    ensures Lookup(Assign(props, name, value), m) == if m == name then Some(value) else Lookup(props, m)
  {
    if props != [] && props[0].name != name {
      var r := Assign(props, name, value);
      assert r[1..] == Assign(props[1..], name, value);
      AssignLookup(props[1..], name, value, m);
    } else if props != [] {
      assert Assign(props, name, value)[1..] == props[1..];
    }
  }

  /** Assigning a key the object has replaces that entry's value in its
      place and leaves every other entry as it was. */
  lemma {:induction false} AssignInPlace(props: seq<Property>, name: string, value: string)
    requires DistinctNames(props) && name in NameSet(props)
    ensures var r := Assign(props, name, value);
      |r| == |props|
      && forall i :: 0 <= i < |props| ==> r[i] == if props[i].name == name then Property(name, value) else props[i]
  {
    assert props == [props[0]] + props[1..];
    NameSetCons(props[0], props[1..]);
    DistinctTail(props);
    var r := Assign(props, name, value);
    if props[0].name == name {
      forall i | 0 < i < |props| ensures props[i].name != name {
        assert props[0].name != props[i].name;
      }
    } else {
      AssignInPlace(props[1..], name, value);
      forall i | 0 < i < |props|
        ensures r[i] == if props[i].name == name then Property(name, value) else props[i]
      {
        assert r[i] == Assign(props[1..], name, value)[i - 1];
        assert props[i] == props[1..][i - 1];
      }
    }
  }

  /** `_.extend(dest, src)`. */
  function Extend(dest: seq<Property>, src: seq<Property>): (r: seq<Property>)
    ensures NameSet(r) == NameSet(dest) + NameSet(src)
    ensures DistinctNames(dest) ==> DistinctNames(r)
    decreases |src|
  {
    if src == [] then dest
    else
      assert src == [src[0]] + src[1..];
      NameSetCons(src[0], src[1..]);
      Extend(Assign(dest, src[0].name, src[0].value), src[1..])
  }

  /** After `_.extend(dest, src)` with a `src` of distinct keys, a key holds
      the value `src` gives it if `src` has it, and its old value otherwise. */
  lemma {:induction false} ExtendLookup(dest: seq<Property>, src: seq<Property>, m: string)
    requires DistinctNames(src)
    ensures Lookup(Extend(dest, src), m) == if m in NameSet(src) then Lookup(src, m) else Lookup(dest, m)
    decreases |src|
  {
    if src != [] {
      var head, tail := src[0], src[1..];
      assert src == [head] + tail;
      NameSetCons(head, tail);
      DistinctTail(src);
      ExtendLookup(Assign(dest, head.name, head.value), tail, m);
      AssignLookup(dest, head.name, head.value, m);
    }
  }

  /** The entries other than `name`, in order. */
  function Without(props: seq<Property>, name: string): (r: seq<Property>)
    ensures NameSet(r) == NameSet(props) - {name}
    ensures forall m :: m != name ==> Lookup(r, m) == Lookup(props, m)
    ensures DistinctNames(props) ==> DistinctNames(r)
    ensures name !in NameSet(props) ==> r == props
  {
    if props == [] then []
    else
      assert props == [props[0]] + props[1..];
      NameSetCons(props[0], props[1..]);
      var rest := Without(props[1..], name);
      if props[0].name == name then rest
      else
        var r := [props[0]] + rest;
        NameSetCons(props[0], rest);
        assert r[1..] == rest;
        assert DistinctNames(props) ==> DistinctNames(r) by {
          if DistinctNames(props) {
            assert props[0].name !in NameSet(props[1..]);
            forall j | 0 < j < |r| ensures r[0].name != r[j].name {
              assert r[j].name in NameSet(rest);
            }
          }
        }
        r
  }

  /** Assigning a key the object lacks appends it. */
  lemma {:induction false} AssignNew(props: seq<Property>, name: string, value: string)
    requires name !in NameSet(props)
    ensures Assign(props, name, value) == props + [Property(name, value)]
  {
    if props != [] {
      assert props == [props[0]] + props[1..];
      NameSetCons(props[0], props[1..]);
      AssignNew(props[1..], name, value);
      assert [props[0]] + (props[1..] + [Property(name, value)]) == props + [Property(name, value)];
    }
  }

  /** Assigning the first key of an object replaces its value in place. */
  lemma AssignFirst(name: string, value: string, rest: seq<Property>, newValue: string)
    ensures Assign([Property(name, value)] + rest, name, newValue) == [Property(name, newValue)] + rest
  {
    assert ([Property(name, value)] + rest)[1..] == rest;
  }

  /** Assigning a new key after a first key that differs from it. */
  lemma AssignAfterFirst(name: string, value: string, rest: seq<Property>, p: Property)
    requires p.name != name && p.name !in NameSet(rest)
    ensures Assign([Property(name, value)] + rest, p.name, p.value) == [Property(name, value)] + (rest + [p])
  {
    assert ([Property(name, value)] + rest)[1..] == rest;
    AssignNew(rest, p.name, p.value);
  }

  /** Extending an object whose first key is `name`, followed by keys that
      `src` does not have: `name` keeps its place and takes the value `src`
      gives it, and the other keys of `src` follow in their order. */
  lemma {:induction false} ExtendAfterFirst(name: string, value: string, rest: seq<Property>, src: seq<Property>)
    requires DistinctNames(src) && DistinctNames(rest)
    requires name !in NameSet(rest)
    requires NameSet(rest) !! NameSet(src)
    ensures Extend([Property(name, value)] + rest, src) ==
            [Property(name, match Lookup(src, name) case Some(v) => v case None => value)] + rest + Without(src, name)
    decreases |src|, 1
  {
    if src != [] {
      var head, tail := src[0], src[1..];
      assert src == [head] + tail;
      NameSetCons(head, tail);
      DistinctTail(src);
      if head.name == name {
        AssignFirst(name, value, rest, head.value);
        ExtendAfterFirst(name, head.value, rest, tail);
      } else {
        AssignAfterFirst(name, value, rest, head);
        ExtendRest(name, value, rest, head, tail);
      }
    }
  }

  lemma {:induction false} ExtendRest(name: string, value: string, rest: seq<Property>, head: Property, tail: seq<Property>)
    requires DistinctNames([head] + tail) && DistinctNames(rest)
    requires name !in NameSet(rest) && head.name != name
    requires NameSet(rest) !! NameSet([head] + tail)
    requires Assign([Property(name, value)] + rest, head.name, head.value) == [Property(name, value)] + (rest + [head])
    ensures Extend([Property(name, value)] + rest, [head] + tail) ==
            [Property(name, match Lookup([head] + tail, name) case Some(v) => v case None => value)] + rest
              + Without([head] + tail, name)
    decreases |tail| + 1, 0
  {
    var src := [head] + tail;
    var dest := [Property(name, value)] + rest;
    assert src[0] == head && src[1..] == tail;
    NameSetCons(head, tail);
    DistinctTail(src);
    var rest' := rest + [head];
    NameSetSnoc(rest, head);
    DistinctSnoc(rest, head);
    assert Extend(dest, src) == Extend([Property(name, value)] + rest', tail);
    assert NameSet(rest') !! NameSet(tail);
    assert name !in NameSet(rest');
    ExtendAfterFirst(name, value, rest', tail);
    var v := match Lookup(tail, name) case Some(v) => v case None => value;
    assert Lookup(src, name) == Lookup(tail, name);
    var w := Without(tail, name);
    assert Without(src, name) == [head] + w;
    Regroup([Property(name, v)], rest, head, w);
  }

  lemma Regroup(first: seq<Property>, rest: seq<Property>, p: Property, w: seq<Property>)
    ensures first + (rest + [p]) + w == first + rest + ([p] + w)
  {
  }

  lemma DistinctCons(p: Property, rest: seq<Property>)
    requires DistinctNames(rest) && p.name !in NameSet(rest)
    ensures DistinctNames([p] + rest)
  {
    var s := [p] + rest;
    forall i, j | 0 <= i < j < |s| ensures s[i].name != s[j].name {
      assert s[j] == rest[j - 1];
      if i == 0 {
        assert rest[j - 1].name in NameSet(rest);
      } else {
        assert s[i] == rest[i - 1];
      }
    }
  }

  lemma DistinctSnoc(rest: seq<Property>, p: Property)
    requires DistinctNames(rest) && p.name !in NameSet(rest)
    ensures DistinctNames(rest + [p])
  {
    var s := rest + [p];
    forall i, j | 0 <= i < j < |s| ensures s[i].name != s[j].name {
      if j == |rest| {
        assert s[i] == rest[i];
        assert rest[i].name in NameSet(rest);
      } else {
        assert s[i] == rest[i] && s[j] == rest[j];
      }
    }
  }
}
