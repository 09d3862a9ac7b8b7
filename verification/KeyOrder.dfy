/** The order in which the members of a JSON object are walked: sorted by name
    (internal/provider/gemini_schema.go: geminiSortedKeys), whatever order the map yields them in. */
module KeyOrder {

  /** Lexicographic order. */
  predicate Leq(a: string, b: string) {
    a == "" || (b != "" && (a[0] < b[0] || (a[0] == b[0] && Leq(a[1..], b[1..]))))
  }

  lemma {:induction false} LeqTotal(a: string, b: string)
    ensures Leq(a, b) || Leq(b, a)
    ensures Leq(a, b) && Leq(b, a) ==> a == b
  {
    if a != "" && b != "" && a[0] == b[0] {
      LeqTotal(a[1..], b[1..]);
      assert a == [a[0]] + a[1..] && b == [b[0]] + b[1..];
    }
  }

  lemma {:induction false} LeqTransitive(a: string, b: string, c: string)
    requires Leq(a, b) && Leq(b, c)
    ensures Leq(a, c)
  {
    if a != "" && a[0] == b[0] && b[0] == c[0] {
      LeqTransitive(a[1..], b[1..], c[1..]);
    }
  }

  ghost predicate IsLeast(k: string, keys: set<string>) {
    k in keys && forall x :: x in keys ==> Leq(k, x)
  }

  lemma {:induction false} LeastExists(keys: set<string>)
    requires keys != {}
    ensures exists k :: IsLeast(k, keys)
    decreases |keys|
  {
    var x :| x in keys;
    LeqTotal(x, x);
    var rest := keys - {x};
    assert forall y :: y in keys ==> y == x || y in rest;
    if rest == {} {
      assert IsLeast(x, keys);
    } else {
      LeastExists(rest);
      var k :| IsLeast(k, rest);
      LeqTotal(x, k);
      if Leq(x, k) {
        forall y | y in rest ensures Leq(x, y) {
          LeqTransitive(x, k, y);
        }
        assert IsLeast(x, keys);
      } else {
        assert IsLeast(k, keys);
      }
    }
  }

  ghost function Least(keys: set<string>): (k: string)
    requires keys != {}
    ensures IsLeast(k, keys)
  {
    LeastExists(keys);
    var k :| IsLeast(k, keys);
    k
  }

  /** The keys in order, each once. */
  ghost function Sorted(keys: set<string>): (r: seq<string>)
    ensures |r| == |keys| && forall k :: k in r <==> k in keys
    decreases |keys|
  {
    if keys == {} then [] else [Least(keys)] + Sorted(keys - {Least(keys)})
  }

  ghost predicate Ascending(r: seq<string>) {
    forall i, j :: 0 <= i < j < |r| ==> Leq(r[i], r[j]) && r[i] != r[j]
  }

  lemma {:induction false} SortedAscends(keys: set<string>)
    ensures Ascending(Sorted(keys))
    decreases |keys|
  {
    if keys != {} {
      var k := Least(keys);
      var rest := Sorted(keys - {k});
      SortedAscends(keys - {k});
      var r := Sorted(keys);
      forall i, j | 0 <= i < j < |r| ensures Leq(r[i], r[j]) && r[i] != r[j] {
        assert r[j] == rest[j - 1] && r[j] in rest;
        assert i > 0 ==> r[i] == rest[i - 1];
      }
    }
  }

  lemma TailElements(r: seq<string>, x: string)
    requires Ascending(r) && r != []
    ensures x in r[1..] <==> x in r && x != r[0]
  {
    if x in r[1..] {
      var j :| 0 <= j < |r[1..]| && r[1..][j] == x;
      assert r[j + 1] == x;
    }
    assert r == [r[0]] + r[1..];
  }

  lemma SameFirst(r: seq<string>, s: seq<string>)
    requires Ascending(r) && Ascending(s) && r != [] && s != []
    requires r[0] in s && s[0] in r
    ensures r[0] == s[0]
  {
    LeqTotal(r[0], s[0]);
  }

  lemma {:induction false} SameList(r: seq<string>, s: seq<string>)
    requires Ascending(r) && Ascending(s) && forall k :: k in r <==> k in s
    ensures r == s
  {
    assert (r != [] ==> r[0] in r) && (s != [] ==> s[0] in s);
    if r != [] && s != [] {
      SameFirst(r, s);
      forall x ensures x in r[1..] <==> x in s[1..] {
        TailElements(r, x);
        TailElements(s, x);
      }
      SameList(r[1..], s[1..]);
      assert r == [r[0]] + r[1..] && s == [s[0]] + s[1..];
    }
  }

  /** There is one way to list a set of names in ascending order. */
  lemma OneOrder(keys: set<string>, r: seq<string>)
    requires Ascending(r) && forall k :: k in r <==> k in keys
    ensures r == Sorted(keys)
  {
    SortedAscends(keys);
    SameList(r, Sorted(keys));
  }

  lemma InsertAscends(r: seq<string>, i: nat, k: string)
    requires Ascending(r) && i <= |r| && k !in r
    requires (forall j :: 0 <= j < i ==> Leq(r[j], k)) && (i < |r| ==> Leq(k, r[i]))
    ensures Ascending(r[..i] + [k] + r[i..])
  {
    forall j | i < j < |r| ensures Leq(k, r[j]) {
      LeqTransitive(k, r[i], r[j]);
    }
    var s := r[..i] + [k] + r[i..];
    forall a, b | 0 <= a < b < |s| ensures Leq(s[a], s[b]) && s[a] != s[b] {
      assert s[a] == (if a < i then r[a] else if a == i then k else r[a - 1]);
      assert s[b] == (if b < i then r[b] else if b == i then k else r[b - 1]);
    }
  }

  /** Names taken from a map in any order end up in the same list. */
  method SortedKeys(keys: set<string>) returns (r: seq<string>)
    ensures r == Sorted(keys)
  {
    r := [];
    var todo := keys;
    while todo != {}
      invariant todo <= keys && Ascending(r)
      invariant forall k :: k in r <==> k in keys - todo
      decreases |todo|
    {
      var k :| k in todo;
      var i := 0;
      while i < |r| && Leq(r[i], k)
        invariant 0 <= i <= |r|
        invariant forall j :: 0 <= j < i ==> Leq(r[j], k)
      {
        i := i + 1;
      }
      if i < |r| {
        LeqTotal(k, r[i]);
      }
      InsertAscends(r, i, k);
      assert forall x :: x in r[..i] + [k] + r[i..] <==> x in r || x == k by {
        assert r == r[..i] + r[i..];
      }
      r := r[..i] + [k] + r[i..];
      todo := todo - {k};
    }
    OneOrder(keys, r);
  }
}
