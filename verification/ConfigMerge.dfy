/**
 The deep merge of two YAML values: mappings are merged key by key, sequences are joined, and anything else
 is replaced by the source.

 Mappings are finite maps, so two that differ only in the order of their entries are the same value; scalars
 and tagged values, which the merge never looks into, are leaves.
 */
module ConfigMerge {
  import opened Wrappers

  datatype Value =
    | Leaf(text: string)
    | Sequence(items: seq<Value>)
    | Mapping(entries: map<Value, Value>)

  /** The merge, said of whole mappings at once instead of by removing and inserting entries. */
  function Merge(destination: Value, source: Value): Value
    decreases source
  {
    match (destination, source)
    case (Mapping(m1), Mapping(m2)) =>
      Mapping(map key | key in m1.Keys + m2.Keys ::
        if key in m2 then
          if key in m1 then Merge(m1[key], m2[key]) else m2[key]
        else m1[key])
    case (Sequence(s1), Sequence(s2)) => Sequence(s1 + s2)
    case (_, value) => value
  }

  // ---- The loop ----

  /** The destination mapping once the entries of the source with these keys have been merged into it. */
  ghost function Partial(m1: map<Value, Value>, m2: map<Value, Value>, done: set<Value>): map<Value, Value>
    requires done <= m2.Keys
  {
    map key | key in m1.Keys + done ::
      if key in done then
        if key in m1 then Merge(m1[key], m2[key]) else m2[key]
      else m1[key]
  }

  lemma PartialStep(m1: map<Value, Value>, m2: map<Value, Value>, done: set<Value>, key: Value)
    requires done <= m2.Keys && key in m2 && key !in done
    ensures key in Partial(m1, m2, done) <==> key in m1
    ensures key in m1 ==> Partial(m1, m2, done)[key] == m1[key]
    ensures Partial(m1, m2, done + {key}) ==
            (Partial(m1, m2, done) - {key})[key := if key in m1 then Merge(m1[key], m2[key]) else m2[key]]
  {
  }

  /** The remove/insert loop. It takes the source's entries in any order whatever, and the order does not show. */
  method MergeValues(destination: Value, source: Value) returns (merged: Value)
    ensures merged == Merge(destination, source)
    decreases source
  {
    match (destination, source) {
      case (Mapping(m1), Mapping(m2)) =>
        var map1, done := m1, {};
        assert map1 == Partial(m1, m2, done);
        while done != m2.Keys
          invariant done <= m2.Keys
          invariant map1 == Partial(m1, m2, done)
          decreases m2.Keys - done
        {
          assert m2.Keys - done != {};
          var key :| key in m2.Keys - done;
          PartialStep(m1, m2, done, key);
          if key in map1 {
            var existing := map1[key];
            map1 := map1 - {key};
            var mergedValue := MergeValues(existing, m2[key]);
            map1 := map1[key := mergedValue];
          } else {
            map1 := map1[key := m2[key]];
          }
          done := done + {key};
        }
        merged := Mapping(map1);
      case (Sequence(s1), Sequence(s2)) =>
        var seq1 := s1;
        seq1 := seq1 + s2;
        merged := Sequence(seq1);
      case (_, value) =>
        merged := value;
    }
  }

  // ---- What is found where ----

  /** The value found by following a path of mapping keys. */
  function At(v: Value, path: seq<Value>): Option<Value>
    decreases |path|
  {
    if path == [] then Some(v)
    else if v.Mapping? && path[0] in v.entries then At(v.entries[path[0]], path[1..])
    else None
  }

  /** The path leaves the value at a mapping that lacks the next key, and not at a leaf or a sequence. */
  predicate LeavesAtMapping(v: Value, path: seq<Value>)
    decreases |path|
  {
    && path != [] && v.Mapping?
    && (path[0] in v.entries ==> LeavesAtMapping(v.entries[path[0]], path[1..]))
  }

  lemma {:induction false} LeavingFindsNothing(v: Value, path: seq<Value>)
    requires LeavesAtMapping(v, path)
    ensures At(v, path).None?
    decreases |path|
  {
    if path[0] in v.entries {
      LeavingFindsNothing(v.entries[path[0]], path[1..]);
    }
  }

  /** What the merge holds at every path, from what the two values hold there. */
  lemma {:induction false} MergeAt(d: Value, s: Value, path: seq<Value>)
    ensures At(s, path).Some? && At(d, path).Some? ==>
              At(Merge(d, s), path) == Some(Merge(At(d, path).value, At(s, path).value))
    ensures At(s, path).Some? && At(d, path).None? ==> At(Merge(d, s), path) == At(s, path)
    ensures LeavesAtMapping(s, path) ==> At(Merge(d, s), path) == At(d, path)
    ensures At(s, path).None? && !LeavesAtMapping(s, path) ==> At(Merge(d, s), path).None?
    decreases |path|
  {
    if LeavesAtMapping(s, path) {
      LeavingFindsNothing(s, path);
    }
    if path != [] && s.Mapping? && d.Mapping? && path[0] in s.entries && path[0] in d.entries {
      MergeAt(d.entries[path[0]], s.entries[path[0]], path[1..]);
    }
  }

  ghost predicate IsSuffix<T>(suffix: seq<T>, whole: seq<T>) {
    |suffix| <= |whole| && whole[|whole| - |suffix|..] == suffix
  }

  /** The source wins at each of its paths: leaves stand, sequences end with it, mappings have all its keys. */
  lemma {:induction false} SourceWins(d: Value, s: Value, path: seq<Value>)
    requires At(s, path).Some?
    ensures At(Merge(d, s), path).Some?
    ensures At(s, path).value.Leaf? ==> At(Merge(d, s), path) == At(s, path)
    ensures At(s, path).value.Sequence? ==>
              var merged := At(Merge(d, s), path).value;
              merged.Sequence? && IsSuffix(At(s, path).value.items, merged.items)
    ensures At(s, path).value.Mapping? ==>
              var merged := At(Merge(d, s), path).value;
              merged.Mapping? &&
              merged.entries.Keys == At(s, path).value.entries.Keys +
                (if At(d, path).Some? && At(d, path).value.Mapping? then At(d, path).value.entries.Keys else {})
  {
    MergeAt(d, s, path);
  }

  // ---- The merge, path by path ----

  /**
   What merging the source into the destination should give at a path: the source's leaves, its lists behind the
   destination's, its keys along with the destination's, and where the source holds nothing what the destination holds.
   */
  ghost predicate Prescribed(d: Value, s: Value, v: Value, path: seq<Value>) {
    var inD, inS, inV := At(d, path), At(s, path), At(v, path);
    match inS
    case None => inV == (if LeavesAtMapping(s, path) then inD else None)
    case Some(Leaf(text)) => inV == Some(Leaf(text))
    case Some(Sequence(items)) =>
      inV == Some(Sequence(if inD.Some? && inD.value.Sequence? then inD.value.items + items else items))
    case Some(Mapping(entries)) =>
      && inV.Some? && inV.value.Mapping?
      && inV.value.entries.Keys ==
           if inD.Some? && inD.value.Mapping? then inD.value.entries.Keys + entries.Keys else entries.Keys
  }

  lemma {:induction false} MergePrescribed(d: Value, s: Value, path: seq<Value>)
    ensures Prescribed(d, s, Merge(d, s), path)
  {
    MergeAt(d, s, path);
  }

  /** What d holds under a key; where it holds nothing, a leaf does as well, since a merge leaves nothing of one. */
  function Under(d: Value, key: Value): Value {
    if d.Mapping? && key in d.entries then d.entries[key] else Leaf("")
  }

  lemma PrescribedBelow(d: Value, s: Value, v: Value, key: Value, path: seq<Value>)
    requires s.Mapping? && key in s.entries && v.Mapping? && key in v.entries
    requires Prescribed(d, s, v, [key] + path)
    ensures Prescribed(Under(d, key), s.entries[key], v.entries[key], path)
  {
    assert ([key] + path)[1..] == path;
    assert At(s, [key] + path) == At(s.entries[key], path) && At(v, [key] + path) == At(v.entries[key], path);
    if d.Mapping? && key in d.entries {
      assert At(d, [key] + path) == At(d.entries[key], path);
    }
  }

  lemma MergeUnder(d: Value, s: Value, key: Value)
    requires s.Mapping? && key in s.entries
    ensures key in Merge(d, s).entries && Merge(d, s).entries[key] == Merge(Under(d, key), s.entries[key])
  {
  }

  lemma {:induction false} OnlyTheMerge(d: Value, s: Value, v: Value)
    requires forall path :: Prescribed(d, s, v, path)
    ensures v == Merge(d, s)
    decreases s
  {
    assert Prescribed(d, s, v, []);
    if s.Mapping? {
      forall key | key in v.entries
        ensures key in Merge(d, s).entries && v.entries[key] == Merge(d, s).entries[key]
      {
        if key in s.entries {
          forall path
            ensures Prescribed(Under(d, key), s.entries[key], v.entries[key], path)
          {
            PrescribedBelow(d, s, v, key, path);
          }
          OnlyTheMerge(Under(d, key), s.entries[key], v.entries[key]);
          MergeUnder(d, s, key);
        } else {
          assert Prescribed(d, s, v, [key]);
          assert LeavesAtMapping(s, [key]) && [key][1..] == [];
          assert At(v, [key]) == Some(v.entries[key]) && At(d, [key]) == Some(d.entries[key]);
        }
      }
      assert v.entries.Keys == Merge(d, s).entries.Keys;
      assert v.entries == Merge(d, s).entries;
    }
  }

  /** The merge is the one value that holds at every path what is prescribed there. */
  lemma MergeIff(d: Value, s: Value, v: Value)
    ensures v == Merge(d, s) <==> forall path :: Prescribed(d, s, v, path)
  {
    hide Prescribed, Merge;
    if v == Merge(d, s) {
      forall path
        ensures Prescribed(d, s, v, path)
      {
        MergePrescribed(d, s, path);
      }
    }
    if forall path :: Prescribed(d, s, v, path) {
      OnlyTheMerge(d, s, v);
    }
  }

  // ---- Merging the same source twice ----

  /** A non-empty sequence sits at this path. */
  predicate GrowsAt(s: Value, path: seq<Value>) {
    At(s, path).Some? && At(s, path).value.Sequence? && At(s, path).value.items != []
  }

  lemma {:induction false} GrowingPathGrows(d: Value, s: Value, path: seq<Value>)
    requires GrowsAt(s, path)
    ensures Merge(Merge(d, s), s) != Merge(d, s)
  {
    var once := Merge(d, s);
    MergeAt(d, s, path);
    MergeAt(once, s, path);
    var list := At(s, path).value.items;
    assert At(once, path).value.Sequence?;
    assert At(Merge(once, s), path).value.items == At(once, path).value.items + list;
    assert |At(once, path).value.items + list| > |At(once, path).value.items|;
  }

  lemma {:induction false} NoGrowthIdempotent(d: Value, s: Value)
    requires forall path :: !GrowsAt(s, path)
    ensures Merge(Merge(d, s), s) == Merge(d, s)
    decreases s
  {
    var once := Merge(d, s);
    match s {
      case Leaf(_) =>
      case Sequence(items) =>
        assert !GrowsAt(s, []);
      case Mapping(m2) =>
        forall key | key in m2
          ensures Merge(once.entries[key], m2[key]) == once.entries[key]
        {
          forall path
            ensures !GrowsAt(m2[key], path)
          {
            assert !GrowsAt(s, [key] + path);
            assert ([key] + path)[1..] == path;
          }
          if d.Mapping? && key in d.entries {
            NoGrowthIdempotent(d.entries[key], m2[key]);
          } else {
            NoGrowthIdempotent(Leaf(""), m2[key]);
          }
        }
        assert Merge(once, s).entries == once.entries;
    }
  }

  /** Merging a source a second time changes nothing exactly when no non-empty sequence is reachable in it. */
  lemma IdempotentIff(d: Value, s: Value)
    ensures Merge(Merge(d, s), s) == Merge(d, s) <==> forall path :: !GrowsAt(s, path)
  {
    if forall path :: !GrowsAt(s, path) {
      NoGrowthIdempotent(d, s);
    } else {
      var path :| GrowsAt(s, path);
      GrowingPathGrows(d, s, path);
    }
  }

  /** A list of one item merged into itself has two, and merged once more three. */
  lemma NotAlwaysIdempotent(item: Value)
    ensures var list := Sequence([item]);
            && Merge(list, list) == Sequence([item, item])
            && Merge(Merge(list, list), list) == Sequence([item, item, item])
  {
    assert [item] + [item] == [item, item] && [item, item] + [item] == [item, item, item];
  }

  // ---- Merging three values ----

  predicate SwallowsHere(c: Value, a: Value) {
    && (a.Mapping? && c.Mapping? ==> a.entries.Keys <= c.entries.Keys)
    && (a.Sequence? && c.Sequence? ==> a.items == [])
  }

  /** Wherever both hold something, c has every key a has, and a has no sequence to put before c's. */
  ghost predicate Swallows(c: Value, a: Value) {
    forall path | At(a, path).Some? && At(c, path).Some? ::
      SwallowsHere(At(c, path).value, At(a, path).value)
  }

  lemma SwallowsBelow(a: Value, c: Value)
    requires a.Mapping? && c.Mapping?
    ensures Swallows(c, a) <==>
            (a.entries.Keys <= c.entries.Keys &&
             forall key | key in a.entries && key in c.entries :: Swallows(c.entries[key], a.entries[key]))
  {
    assert At(a, []) == Some(a) && At(c, []) == Some(c);
    if Swallows(c, a) {
      forall key, path | key in a.entries && key in c.entries &&
          At(a.entries[key], path).Some? && At(c.entries[key], path).Some?
        ensures SwallowsHere(At(c.entries[key], path).value, At(a.entries[key], path).value)
      {
        assert ([key] + path)[1..] == path;
        assert At(a, [key] + path).Some? && At(c, [key] + path).Some?;
      }
    } else {
      var path :| At(a, path).Some? && At(c, path).Some? && !SwallowsHere(At(c, path).value, At(a, path).value);
      if path != [] {
        var key, rest := path[0], path[1..];
        assert At(a, path) == At(a.entries[key], rest) && At(c, path) == At(c.entries[key], rest);
        assert !Swallows(c.entries[key], a.entries[key]);
      }
    }
  }

  /** Merging c over a leaves nothing of a exactly when c swallows a. */
  lemma {:induction false} SwallowsIff(a: Value, c: Value)
    ensures Merge(a, c) == c <==> Swallows(c, a)
    decreases c
  {
    assert At(a, []) == Some(a) && At(c, []) == Some(c);
    if a.Mapping? && c.Mapping? {
      forall key | key in a.entries && key in c.entries
        ensures Merge(a.entries[key], c.entries[key]) == c.entries[key] <==> Swallows(c.entries[key], a.entries[key])
      {
        SwallowsIff(a.entries[key], c.entries[key]);
      }
      SwallowsBelow(a, c);
      if Swallows(c, a) {
        assert Merge(a, c).entries == c.entries;
      }
      if Merge(a, c) == c {
        forall key | key in a.entries
          ensures key in c.entries && Merge(a.entries[key], c.entries[key]) == c.entries[key]
        {
          assert key in Merge(a, c).entries;
        }
      }
    } else if a.Sequence? && c.Sequence? {
      assert Merge(a, c) == c ==> |a.items + c.items| == |c.items|;
      assert Swallows(c, a) ==> SwallowsHere(c, a);
      if a.items == [] {
        assert Swallows(c, a);
      }
    } else {
      assert forall path | At(a, path).Some? && At(c, path).Some? :: path == [];
    }
  }

  predicate SameContainer(x: Value, y: Value) {
    (x.Mapping? && y.Mapping?) || (x.Sequence? && y.Sequence?)
  }

  ghost predicate AssociatesHere(a: Value, b: Value, c: Value) {
    SameContainer(a, c) && !SameContainer(a, b) ==> Swallows(c, a)
  }

  /** Wherever all three hold something, b does not break a container that c would have carried on from a. */
  ghost predicate Associates(a: Value, b: Value, c: Value) {
    forall path | At(a, path).Some? && At(b, path).Some? && At(c, path).Some? ::
      AssociatesHere(At(a, path).value, At(b, path).value, At(c, path).value)
  }

  lemma AssociatesBelow(a: Value, b: Value, c: Value)
    requires a.Mapping? && b.Mapping? && c.Mapping?
    ensures Associates(a, b, c) <==>
            forall key | key in a.entries && key in b.entries && key in c.entries ::
              Associates(a.entries[key], b.entries[key], c.entries[key])
  {
    if Associates(a, b, c) {
      forall key, path | key in a.entries && key in b.entries && key in c.entries &&
          At(a.entries[key], path).Some? && At(b.entries[key], path).Some? && At(c.entries[key], path).Some?
        ensures AssociatesHere(At(a.entries[key], path).value, At(b.entries[key], path).value,
                               At(c.entries[key], path).value)
      {
        assert ([key] + path)[1..] == path;
        assert At(a, [key] + path).Some? && At(b, [key] + path).Some? && At(c, [key] + path).Some?;
      }
    } else {
      var path :| At(a, path).Some? && At(b, path).Some? && At(c, path).Some?
                  && !AssociatesHere(At(a, path).value, At(b, path).value, At(c, path).value);
      assert path != [];
      var key, rest := path[0], path[1..];
      assert At(a, path) == At(a.entries[key], rest);
      assert At(b, path) == At(b.entries[key], rest) && At(c, path) == At(c.entries[key], rest);
      assert !Associates(a.entries[key], b.entries[key], c.entries[key]);
    }
  }

  lemma MergeEntries(d: Value, s: Value, key: Value)
    requires d.Mapping? && s.Mapping?
    ensures Merge(d, s).Mapping? && (key in Merge(d, s).entries <==> key in d.entries || key in s.entries)
    ensures key in d.entries && key in s.entries ==>
              Merge(d, s).entries[key] == Merge(d.entries[key], s.entries[key])
    ensures key in d.entries && key !in s.entries ==> Merge(d, s).entries[key] == d.entries[key]
    ensures key !in d.entries && key in s.entries ==> Merge(d, s).entries[key] == s.entries[key]
  {
  }

  /** Two groupings of three mappings have the same keys, and can differ only at keys that all three have. */
  lemma GroupingsAt(a: Value, b: Value, c: Value, key: Value)
    requires a.Mapping? && b.Mapping? && c.Mapping?
    ensures var left, right := Merge(Merge(a, b), c), Merge(a, Merge(b, c));
      && left.Mapping? && right.Mapping?
      && (key in left.entries <==> key in right.entries)
      && if key in a.entries && key in b.entries && key in c.entries then
           && key in left.entries
           && left.entries[key] == Merge(Merge(a.entries[key], b.entries[key]), c.entries[key])
           && right.entries[key] == Merge(a.entries[key], Merge(b.entries[key], c.entries[key]))
         else
           key in left.entries ==> left.entries[key] == right.entries[key]
  {
    hide Merge;
    MergeEntries(a, b, key);
    MergeEntries(b, c, key);
    MergeEntries(Merge(a, b), c, key);
    MergeEntries(a, Merge(b, c), key);
  }

  ghost predicate KeywiseAssociative(a: Value, b: Value, c: Value)
    requires a.Mapping? && b.Mapping? && c.Mapping?
  {
    forall key | key in a.entries && key in b.entries && key in c.entries ::
      Merge(Merge(a.entries[key], b.entries[key]), c.entries[key]) ==
      Merge(a.entries[key], Merge(b.entries[key], c.entries[key]))
  }

  lemma MappingsAssociateIff(a: Value, b: Value, c: Value)
    requires a.Mapping? && b.Mapping? && c.Mapping?
    ensures Merge(Merge(a, b), c) == Merge(a, Merge(b, c)) <==> KeywiseAssociative(a, b, c)
  {
    hide Merge;
    var left, right := Merge(Merge(a, b), c), Merge(a, Merge(b, c));
    GroupingsAt(a, b, c, a);
    if KeywiseAssociative(a, b, c) {
      forall key
        ensures key in left.entries <==> key in right.entries
        ensures key in left.entries ==> left.entries[key] == right.entries[key]
      {
        GroupingsAt(a, b, c, key);
      }
      assert left.entries == right.entries;
    }
    if left == right {
      forall key | key in a.entries && key in b.entries && key in c.entries
        ensures Merge(Merge(a.entries[key], b.entries[key]), c.entries[key]) ==
                Merge(a.entries[key], Merge(b.entries[key], c.entries[key]))
      {
        GroupingsAt(a, b, c, key);
      }
    }
  }

  /** Unless all three are mappings, only the root counts. */
  lemma AssociatesAtRoot(a: Value, b: Value, c: Value)
    requires !(a.Mapping? && b.Mapping? && c.Mapping?)
    ensures Associates(a, b, c) <==> AssociatesHere(a, b, c)
  {
    hide AssociatesHere;
    assert At(a, []) == Some(a) && At(b, []) == Some(b) && At(c, []) == Some(c);
    assert forall path | At(a, path).Some? && At(b, path).Some? && At(c, path).Some? :: path == [];
  }

  /** A merge is of the source's kind, and is the source itself unless both are containers of one kind. */
  lemma MergeKind(d: Value, s: Value)
    ensures Merge(d, s).Mapping? == s.Mapping? && Merge(d, s).Sequence? == s.Sequence?
    ensures !SameContainer(d, s) ==> Merge(d, s) == s
  {
  }

  lemma SequencesAssociate(a: Value, b: Value, c: Value)
    requires a.Sequence? && b.Sequence? && c.Sequence?
    ensures Merge(Merge(a, b), c) == Merge(a, Merge(b, c))
  {
    assert (a.items + b.items) + c.items == a.items + (b.items + c.items);
  }

  lemma OthersAssociateIff(a: Value, b: Value, c: Value)
    requires !(a.Mapping? && b.Mapping? && c.Mapping?)
    ensures Merge(Merge(a, b), c) == Merge(a, Merge(b, c)) <==> Associates(a, b, c)
  {
    AssociatesAtRoot(a, b, c);
    hide Merge, Swallows, Associates;
    SwallowsIff(a, c);
    MergeKind(a, b);
    MergeKind(b, c);
    MergeKind(a, Merge(b, c));
    MergeKind(Merge(a, b), c);
    if a.Sequence? && b.Sequence? && c.Sequence? {
      SequencesAssociate(a, b, c);
    }
  }

  /** Three values may be merged from either end exactly when they associate at every path. */
  lemma {:induction false} AssociativeIff(a: Value, b: Value, c: Value)
    ensures Merge(Merge(a, b), c) == Merge(a, Merge(b, c)) <==> Associates(a, b, c)
    decreases c
  {
    if a.Mapping? && b.Mapping? && c.Mapping? {
      MappingsAssociateIff(a, b, c);
      AssociatesBelow(a, b, c);
      hide Merge, Associates;
      forall key | key in a.entries && key in b.entries && key in c.entries
        ensures Merge(Merge(a.entries[key], b.entries[key]), c.entries[key]) ==
                Merge(a.entries[key], Merge(b.entries[key], c.entries[key])) <==>
                Associates(a.entries[key], b.entries[key], c.entries[key])
      {
        AssociativeIff(a.entries[key], b.entries[key], c.entries[key]);
      }
    } else {
      OthersAssociateIff(a, b, c);
    }
  }

  /** In particular, it is enough that b is the same container wherever a and c are. */
  lemma SameShapesAssociate(a: Value, b: Value, c: Value)
    requires forall path | At(a, path).Some? && At(b, path).Some? && At(c, path).Some? ::
               SameContainer(At(a, path).value, At(c, path).value) ==>
               SameContainer(At(a, path).value, At(b, path).value)
    ensures Merge(Merge(a, b), c) == Merge(a, Merge(b, c))
  {
    AssociativeIff(a, b, c);
  }

  /** A scalar in the middle wipes out the first mapping from one end, but not from the other. */
  lemma NotAlwaysAssociative(key: Value, left: Value, b: string)
    ensures var a, c := Mapping(map[key := left]), Mapping(map[]);
            Merge(Merge(a, Leaf(b)), c) == c && Merge(a, Merge(Leaf(b), c)) == a && a != c
  {
    var a, c := Mapping(map[key := left]), Mapping(map[]);
    assert Merge(a, c).entries == a.entries;
    assert key in a.entries && key !in c.entries;
  }
}
