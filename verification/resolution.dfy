/**
 * The middleware-resolution order of the dispatcher, on values: the global list,
 * the route's own middleware, each enclosing group's own middleware from outer to
 * inner, and only then the expansions of every referenced named middleware group
 * (the route's references first, then each group's, outer to inner), each read
 * from the named group's contents at the time of resolution.
 */
module Resolution {

  /** Concatenation of a list of lists, in order (repeated `array_merge`). */
  function Flatten(lists: seq<seq<string>>): seq<string>
  {
    if lists == [] then [] else Flatten(lists[..|lists| - 1]) + lists[|lists| - 1]
  }

  lemma FlattenSnoc(lists: seq<seq<string>>, l: seq<string>)
    ensures Flatten(lists + [l]) == Flatten(lists) + l
  {
    assert (lists + [l])[..|lists|] == lists;
  }

  lemma ExpandSnoc(names: seq<string>, n: string, contents: map<string, seq<string>>)
    requires Declared(names + [n], contents)
    ensures Expand(names + [n], contents) == Expand(names, contents) + contents[n]
  {
    assert (names + [n])[..|names|] == names;
  }

  lemma FlattenPair(a: seq<string>, b: seq<string>)
    ensures Flatten([a, b]) == a + b
  {
    assert [a, b][..1] == [a];
    assert [a][..0] == [];
    assert Flatten([a]) == Flatten([]) + a;
    assert Flatten([a, b]) == Flatten([a]) + b;
  }

  /** Every element of every list shows up in the flattened list. */
  lemma {:induction false} InFlatten(lists: seq<seq<string>>, i: nat, x: string)
    requires i < |lists| && x in lists[i]
    ensures x in Flatten(lists)
    decreases |lists|
  {
    if i < |lists| - 1 {
      InFlatten(lists[..|lists| - 1], i, x);
    }
  }

  /** Every referenced name has contents to expand. */
  predicate Declared(names: seq<string>, contents: map<string, seq<string>>) {
    forall n :: n in names ==> n in contents
  }

  /** The expansions of `names`, one after the other, in the order of `names`. */
  function Expand(names: seq<string>, contents: map<string, seq<string>>): seq<string>
    requires Declared(names, contents)
  {
    if names == [] then []
    else Expand(names[..|names| - 1], contents) + contents[names[|names| - 1]]
  }

  lemma {:induction false} ExpandAppend(a: seq<string>, b: seq<string>, contents: map<string, seq<string>>)
    requires Declared(a + b, contents)
    ensures Expand(a + b, contents) == Expand(a, contents) + Expand(b, contents)
    decreases |b|
  {
    if b == [] {
      assert a + b == a;
    } else {
      var b' := b[..|b| - 1];
      assert (a + b)[..|a + b| - 1] == a + b';
      ExpandAppend(a, b', contents);
    }
  }

  /** Whatever a referenced name's contents hold appears in the expansion. */
  lemma {:induction false} InExpand(names: seq<string>, n: string, contents: map<string, seq<string>>, x: string)
    requires Declared(names, contents) && n in names && x in contents[n]
    ensures x in Expand(names, contents)
    decreases |names|
  {
    if names[|names| - 1] != n {
      InExpand(names[..|names| - 1], n, contents, x);
    }
  }

  /** The directly attached middleware: global, then the route's, then each group's. */
  function Direct(global: seq<string>, own: seq<string>, groupOwn: seq<seq<string>>): seq<string>
  {
    global + own + Flatten(groupOwn)
  }

  /** The referenced group names: the route's, then each group's, outer to inner. */
  function Pending(ownNames: seq<string>, groupNames: seq<seq<string>>): seq<string>
  {
    ownNames + Flatten(groupNames)
  }

  /**
   * The resolved middleware list of a route with own middleware `own` and own
   * group references `ownNames`, inside groups whose own middleware and
   * references are `groupOwn[i]` and `groupNames[i]` (outer to inner), given the
   * application's global list and the current contents of each named group.
   */
  function Resolve(global: seq<string>, own: seq<string>, ownNames: seq<string>,
                   groupOwn: seq<seq<string>>, groupNames: seq<seq<string>>,
                   contents: map<string, seq<string>>): seq<string>
    requires Declared(Pending(ownNames, groupNames), contents)
  {
    Direct(global, own, groupOwn) + Expand(Pending(ownNames, groupNames), contents)
  }

  /**
   * The global middleware always runs first, and nothing is dropped or
   * de-duplicated: the length is the sum of all contributing lists.
   */
  lemma ResolveStartsWithGlobal(global: seq<string>, own: seq<string>, ownNames: seq<string>,
                                groupOwn: seq<seq<string>>, groupNames: seq<seq<string>>,
                                contents: map<string, seq<string>>)
    requires Declared(Pending(ownNames, groupNames), contents)
    ensures Resolve(global, own, ownNames, groupOwn, groupNames, contents)[..|global|] == global
    ensures |Resolve(global, own, ownNames, groupOwn, groupNames, contents)|
         == |global| + |own| + |Flatten(groupOwn)| + |Expand(Pending(ownNames, groupNames), contents)|
  {
    var r := Resolve(global, own, ownNames, groupOwn, groupNames, contents);
    assert r == global + (own + Flatten(groupOwn) + Expand(Pending(ownNames, groupNames), contents));
  }

  /**
   * The ordering quirk: the resolved list is the directly attached middleware
   * followed by the expansions, so a middleware `y` attached directly to an
   * enclosing group sits in the first part and runs before a middleware `x` that
   * reaches the route through a named group the route itself references, although
   * the route's reference is the more specific.
   */
  lemma {:induction false} GroupMiddlewareBeforeRouteExpansion(
    global: seq<string>, own: seq<string>, ownNames: seq<string>,
    groupOwn: seq<seq<string>>, groupNames: seq<seq<string>>,
    contents: map<string, seq<string>>, i: nat, y: string, n: string, x: string)
    requires Declared(Pending(ownNames, groupNames), contents)
    requires i < |groupOwn| && y in groupOwn[i]
    requires n in ownNames && x in contents[n]
    ensures var r := Resolve(global, own, ownNames, groupOwn, groupNames, contents);
      var d := Direct(global, own, groupOwn);
      && r[..|d|] == d && r[|d|..] == Expand(Pending(ownNames, groupNames), contents)
      && (exists p :: |global| + |own| <= p < |d| && r[p] == y)
      && (exists q :: |d| <= q < |r| && r[q] == x)
  {
    var d := Direct(global, own, groupOwn);
    var e := Expand(Pending(ownNames, groupNames), contents);
    var r := Resolve(global, own, ownNames, groupOwn, groupNames, contents);
    InFlatten(groupOwn, i, y);
    InExpand(Pending(ownNames, groupNames), n, contents, x);
    var p :| 0 <= p < |Flatten(groupOwn)| && Flatten(groupOwn)[p] == y;
    var q :| 0 <= q < |e| && e[q] == x;
    assert r == d + e;
    assert d == (global + own) + Flatten(groupOwn);
    assert r[|global| + |own| + p] == y && r[|d| + q] == x;
  }

  /**
   * Late binding: if a referenced named group's contents grow after the reference
   * was made, resolution sees the new entries.
   */
  lemma LateBinding(global: seq<string>, own: seq<string>, ownNames: seq<string>,
                    groupOwn: seq<seq<string>>, groupNames: seq<seq<string>>,
                    contents: map<string, seq<string>>, n: string, extra: seq<string>)
    requires Declared(Pending(ownNames, groupNames), contents)
    requires n in Pending(ownNames, groupNames)
    ensures var later := contents[n := contents[n] + extra];
      Declared(Pending(ownNames, groupNames), later) &&
      forall x :: x in extra ==> x in Resolve(global, own, ownNames, groupOwn, groupNames, later)
  {
    var later := contents[n := contents[n] + extra];
    forall x | x in extra
      ensures x in Resolve(global, own, ownNames, groupOwn, groupNames, later)
    {
      InExpand(Pending(ownNames, groupNames), n, later, x);
    }
  }

  /**
   * For a route inside group A that encloses group B: global, the route's own
   * middleware, A's, B's, then the expansions of the route's references, A's and B's.
   */
  lemma TwoNestedGroups(global: seq<string>, own: seq<string>, ownNames: seq<string>,
                        aOwn: seq<string>, aNames: seq<string>, bOwn: seq<string>, bNames: seq<string>,
                        contents: map<string, seq<string>>)
    requires Declared(ownNames + aNames + bNames, contents)
    ensures Pending(ownNames, [aNames, bNames]) == ownNames + aNames + bNames
    ensures Resolve(global, own, ownNames, [aOwn, bOwn], [aNames, bNames], contents)
         == global + own + aOwn + bOwn
            + Expand(ownNames, contents) + Expand(aNames, contents) + Expand(bNames, contents)
  {
    FlattenPair(aOwn, bOwn);
    FlattenPair(aNames, bNames);
    var pending := ownNames + aNames + bNames;
    assert Pending(ownNames, [aNames, bNames]) == pending;
    ExpandAppend(ownNames + aNames, bNames, contents);
    ExpandAppend(ownNames, aNames, contents);
  }
}
