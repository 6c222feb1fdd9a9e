/** Name/value lists sent to the Kafka REST API, and the maps they are made from.
    Go does not fix the order in which a map is walked, so a list is described by
    what it contains (Enumerates) and never by its order. */
module ConfigLists {
  datatype ConfigData = ConfigData(name: string, value: string)

  ghost predicate Distinct(list: seq<ConfigData>) {
    forall i, j :: 0 <= i < j < |list| ==> list[i].name != list[j].name
  }

  /** The list holds every entry of the map once and nothing else. */
  ghost predicate Enumerates(list: seq<ConfigData>, m: map<string, string>) {
    && Distinct(list)
    && (forall c :: c in list ==> c.name in m && m[c.name] == c.value)
    && (forall n :: n in m ==> ConfigData(n, m[n]) in list)
  }

  /** What a receiver that stores the entries one by one ends up with. */
  function Collected(list: seq<ConfigData>): map<string, string> {
    if list == [] then map[]
    else
      var last := list[|list| - 1];
      Collected(list[..|list| - 1])[last.name := last.value]
  }

  lemma {:induction false} CollectedHolds(list: seq<ConfigData>, n: string)
    ensures n in Collected(list) <==> exists c :: c in list && c.name == n
    ensures n in Collected(list) ==> ConfigData(n, Collected(list)[n]) in list
  {
    if list != [] {
      var front, last := list[..|list| - 1], list[|list| - 1];
      CollectedHolds(front, n);
      assert list == front + [last];
      if last.name == n {
        assert last in list;
      }
    }
  }

  /** An enumeration of a map stores exactly that map, whatever its order. */
  lemma CollectedOfEnumeration(list: seq<ConfigData>, m: map<string, string>)
    requires Enumerates(list, m)
    ensures Collected(list) == m
  {
    forall n ensures n in Collected(list) <==> n in m
    {
      CollectedHolds(list, n);
      if n in m { assert ConfigData(n, m[n]) in list; }
    }
    forall n | n in m ensures n in Collected(list) && Collected(list)[n] == m[n]
    {
      CollectedHolds(list, n);
    }
  }

  lemma {:induction false} CollectedAppend(a: seq<ConfigData>, b: seq<ConfigData>)
    ensures Collected(a + b) == Collected(a) + Collected(b)
  {
    if b == [] {
      assert a + b == a;
    } else {
      var front := b[..|b| - 1];
      assert (a + b)[..|a + b| - 1] == a + front;
      CollectedAppend(a, front);
    }
  }

  /** The first map in some order, then the second in some order. */
  ghost predicate Lists(list: seq<ConfigData>, m: map<string, string>, n: map<string, string>) {
    exists a, b :: list == a + b && Enumerates(a, m) && Enumerates(b, n)
  }

  lemma AppendLists(a: seq<ConfigData>, m: map<string, string>, b: seq<ConfigData>, n: map<string, string>)
    requires Enumerates(a, m) && Enumerates(b, n)
    ensures Lists(a + b, m, n)
  {
  }

  lemma AppendCollected(a: seq<ConfigData>, m: map<string, string>, b: seq<ConfigData>, n: map<string, string>)
    requires Enumerates(a, m) && Enumerates(b, n)
    ensures Collected(a + b) == m + n
  {
    CollectedAppend(a, b);
    CollectedOfEnumeration(a, m);
    CollectedOfEnumeration(b, n);
  }

  lemma AppendEnumerates(a: seq<ConfigData>, m: map<string, string>, b: seq<ConfigData>, n: map<string, string>)
    requires Enumerates(a, m) && Enumerates(b, n) && m.Keys !! n.Keys
    ensures Enumerates(a + b, m + n)
  {
    forall i, j | 0 <= i < j < |a + b| ensures (a + b)[i].name != (a + b)[j].name
    {
      assert (a + b)[i] in a || (a + b)[i] in b;
      assert (a + b)[j] in a || (a + b)[j] in b;
    }
  }

  lemma AppendRepeats(a: seq<ConfigData>, m: map<string, string>, b: seq<ConfigData>, n: map<string, string>)
    requires Enumerates(a, m) && Enumerates(b, n) && !(m.Keys !! n.Keys)
    ensures !Distinct(a + b)
  {
    var k :| k in m && k in n;
    var i :| 0 <= i < |a| && a[i] == ConfigData(k, m[k]);
    var j :| 0 <= j < |b| && b[j] == ConfigData(k, n[k]);
    assert (a + b)[i].name == (a + b)[|a| + j].name;
  }

  /** Two enumerations end to end enumerate the union exactly when their names do not meet;
      a receiver ends up with the second overlaid on the first in any case. */
  lemma ListsMeans(list: seq<ConfigData>, m: map<string, string>, n: map<string, string>)
    requires Lists(list, m, n)
    ensures Distinct(list) <==> m.Keys !! n.Keys
    ensures m.Keys !! n.Keys ==> Enumerates(list, m + n)
    ensures Collected(list) == m + n
  {
    var a, b :| list == a + b && Enumerates(a, m) && Enumerates(b, n);
    AppendCollected(a, m, b, n);
    if m.Keys !! n.Keys {
      AppendEnumerates(a, m, b, n);
    } else {
      AppendRepeats(a, m, b, n);
    }
  }

  function Restrict(m: map<string, string>, names: set<string>): map<string, string> {
    map n | n in m && n in names :: m[n]
  }

  lemma ExtendEnumeration(list: seq<ConfigData>, m: map<string, string>, name: string, value: string)
    requires Enumerates(list, m) && name !in m
    ensures Enumerates(list + [ConfigData(name, value)], m[name := value])
  {
    var longer, m' := list + [ConfigData(name, value)], m[name := value];
    forall n | n in m' ensures ConfigData(n, m'[n]) in longer
    {
      if n == name { assert longer[|list|] == ConfigData(n, m'[n]); }
    }
  }

  /** The entries of an enumeration that bear some names enumerate the map restricted to them. */
  lemma FilterEnumerates(list: seq<ConfigData>, m: map<string, string>, kept: seq<ConfigData>, names: set<string>)
    requires Enumerates(list, m) && Distinct(kept)
    requires forall c :: c in kept <==> c in list && c.name in names
    ensures Enumerates(kept, Restrict(m, names))
  {
  }

  /** Lists the entries of a map, filling a slice of the map's size by index. */
  method FromMap(configs: map<string, string>) returns (list: seq<ConfigData>)
    ensures |list| == |configs|
    ensures Enumerates(list, configs)
  {
    var result := new ConfigData[|configs|](_ => ConfigData("", ""));
    var i := 0;
    var remaining := configs.Keys;
    while remaining != {}
      invariant remaining <= configs.Keys
      invariant i + |remaining| == |configs| == result.Length
      invariant Enumerates(result[..i], configs - remaining)
      decreases remaining
    {
      var name :| name in remaining;
      ExtendEnumeration(result[..i], configs - remaining, name, configs[name]);
      ghost var before := result[..i];
      result[i] := ConfigData(name, configs[name]);
      assert result[..i + 1] == before + [ConfigData(name, configs[name])];
      assert configs - (remaining - {name}) == (configs - remaining)[name := configs[name]];
      remaining := remaining - {name};
      i := i + 1;
    }
    list := result[..];
    assert list == result[..i];
    assert configs - remaining == configs;
  }

  /** Keeps the entries whose name is among the given ones. */
  method Filter(list: seq<ConfigData>, names: set<string>) returns (kept: seq<ConfigData>)
    ensures forall c :: c in kept <==> c in list && c.name in names
    ensures Distinct(list) ==> Distinct(kept)
  {
    kept := [];
    for i := 0 to |list|
      invariant forall c :: c in kept <==> c in list[..i] && c.name in names
      invariant Distinct(list) ==> Distinct(kept)
    {
      assert list[..i + 1] == list[..i] + [list[i]];
      if list[i].name in names {
        forall c | c in kept && Distinct(list) ensures c.name != list[i].name
        {
          assert c in list[..i];
        }
        kept := kept + [list[i]];
      }
    }
    assert list[..|list|] == list;
  }
}
