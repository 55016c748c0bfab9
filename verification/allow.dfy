/**
 * The method lists behind automatic OPTIONS handling: `array_unique`, the probe
 * of the fixed method list against the matcher, and the `Allow` list built from
 * a set of allowed methods.
 */
module Allow {
  import opened Http

  predicate NoDuplicates(s: seq<string>) {
    forall i, j :: 0 <= i < j < |s| ==> s[i] != s[j]
  }

  /**
   * `array_unique`: keeps the first occurrence of every element, in order. The
   * result holds exactly the input's elements, once each, and a list that is
   * already free of duplicates comes back unchanged.
   */
  function Unique(s: seq<string>): (r: seq<string>)
    ensures NoDuplicates(r)
    ensures forall x :: x in r <==> x in s
    ensures |r| <= |s|
    ensures NoDuplicates(s) ==> r == s
  {
    if s == [] then []
    else
      var init, last := s[..|s| - 1], s[|s| - 1];
      assert s == init + [last];
      var u := Unique(init);
      if last in u then u else u + [last]
  }

  /** The position of the first occurrence of `x` in `s`. */
  function IndexOf(s: seq<string>, x: string): (k: nat)
    requires x in s
    ensures k < |s| && s[k] == x && forall j :: 0 <= j < k ==> s[j] != x
  {
    if s[0] == x then 0 else 1 + IndexOf(s[1..], x)
  }

  /** Appending an element leaves the first occurrences of the elements already present where they were. */
  lemma {:induction false} IndexOfSnoc(s: seq<string>, y: string, x: string)
    requires x in s
    ensures IndexOf(s + [y], x) == IndexOf(s, x)
  {
    var k := IndexOf(s, x);
    var t := s + [y];
    assert t[k] == x;
    assert forall j :: 0 <= j < k ==> t[j] != x;
  }

  /**
   * `Unique` keeps the elements in the order of their first occurrences in the
   * input; with `NoDuplicates` and the same elements, this pins the result down.
   */
  lemma {:induction false} UniqueKeepsFirstOccurrenceOrder(s: seq<string>)
    ensures forall i, j :: 0 <= i < j < |Unique(s)| ==> IndexOf(s, Unique(s)[i]) < IndexOf(s, Unique(s)[j])
  {
    if s != [] {
      var init, last := s[..|s| - 1], s[|s| - 1];
      assert s == init + [last];
      var u := Unique(init);
      UniqueKeepsFirstOccurrenceOrder(init);
      forall x | x in init
        ensures IndexOf(s, x) == IndexOf(init, x)
      {
        IndexOfSnoc(init, last, x);
      }
      var r := Unique(s);
      assert r == if last in u then u else u + [last];
      forall i, j | 0 <= i < j < |r|
        ensures IndexOf(s, r[i]) < IndexOf(s, r[j])
      {
        assert r[i] == u[i] && r[i] in init;
        if j < |u| {
          assert r[j] == u[j] && r[j] in init;
        } else {
          assert r[j] == last && last !in init;
          assert IndexOf(s, last) == |s| - 1;
        }
      }
    }
  }

  /** Adds HEAD at the end when GET is present and HEAD is not. */
  function WithHead(methods: seq<Method>): (r: seq<Method>)
    ensures forall m :: m in r <==> m in methods || (m == HEAD && GET in methods)
    ensures NoDuplicates(methods) ==> NoDuplicates(r)
  {
    if GET in methods && HEAD !in methods then methods + [HEAD] else methods
  }

  /**
   * The `Allow` list of an automatic OPTIONS response: the allowed methods, HEAD
   * when GET is allowed, and OPTIONS always, with duplicates removed.
   */
  function AllowList(allowed: seq<Method>): (r: seq<Method>)
    ensures NoDuplicates(r)
    ensures forall m :: m in r <==> m in allowed || m == OPTIONS || (m == HEAD && GET in allowed)
    ensures NoDuplicates(allowed) && OPTIONS !in allowed ==> r == WithHead(allowed) + [OPTIONS]
  {
    var l := WithHead(allowed) + [OPTIONS];
    assert NoDuplicates(allowed) && OPTIONS !in allowed ==> NoDuplicates(l);
    Unique(l)
  }

  /** The methods the dispatcher probes, in probe order. */
  const Probes: seq<Method> := [GET, POST, PUT, DELETE, PATCH, HEAD]

  /** The methods of `probes` for which the matcher reports FOUND on `path`, in probe order. */
  function FoundAmong(probes: seq<Method>, matcher: Matcher, path: string): (r: seq<Method>)
    ensures forall m :: m in r <==> m in probes && matcher(m, path).Found?
    ensures NoDuplicates(probes) ==> NoDuplicates(r)
    ensures |r| <= |probes|
  {
    if probes == [] then []
    else
      var init, last := probes[..|probes| - 1], probes[|probes| - 1];
      assert probes == init + [last];
      assert NoDuplicates(probes) ==> NoDuplicates(init) && last !in init;
      var f := FoundAmong(init, matcher, path);
      if matcher(last, path).Found? then f + [last] else f
  }

  lemma {:induction false} NothingFoundAmong(probes: seq<Method>, matcher: Matcher, path: string)
    requires forall m :: m in probes ==> !matcher(m, path).Found?
    ensures FoundAmong(probes, matcher, path) == []
    decreases |probes|
  {
    if probes != [] {
      NothingFoundAmong(probes[..|probes| - 1], matcher, path);
    }
  }

  /**
   * The specification of the dispatcher's `getAllowedMethods`: the found methods in
   * probe order, HEAD added when GET was found and HEAD was not, duplicates removed.
   */
  function AllowedMethods(matcher: Matcher, path: string): (r: seq<Method>)
    ensures forall m :: m in r ==> m in Probes
  {
    Unique(WithHead(FoundAmong(Probes, matcher, path)))
  }

  /**
   * `AllowedMethods` holds exactly the probed methods the matcher finds, plus HEAD
   * when GET is found; it has no duplicates, and it is the found methods in probe
   * order with HEAD appended when only GET found it.
   */
  lemma AllowedMethodsMeaning(matcher: Matcher, path: string)
    ensures forall m :: m in AllowedMethods(matcher, path) <==>
      (m in Probes && matcher(m, path).Found?) || (m == HEAD && matcher(GET, path).Found?)
    ensures NoDuplicates(AllowedMethods(matcher, path))
    ensures AllowedMethods(matcher, path) == WithHead(FoundAmong(Probes, matcher, path))
    ensures OPTIONS !in AllowedMethods(matcher, path)
  {
    var found := FoundAmong(Probes, matcher, path);
    assert NoDuplicates(Probes);
    assert OPTIONS !in Probes;
    assert NoDuplicates(WithHead(found));
  }

  /** When no probed method is found on the path, nothing is allowed there. */
  lemma NothingAllowed(matcher: Matcher, path: string)
    requires forall m :: m in Probes ==> !matcher(m, path).Found?
    ensures AllowedMethods(matcher, path) == []
  {
    NothingFoundAmong(Probes, matcher, path);
  }
}
