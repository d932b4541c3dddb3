/** Discovery of the input archives in a directory listing. */
module Discovery {

  import opened Text

  /** A name is taken as an input archive when it carries one of the two
      archive suffixes and does not mention `temp` anywhere. */
  predicate IsArchiveName(name: string) {
    !ContainsText(name, "temp") && (EndsWith(name, ".tar.gz") || EndsWith(name, ".tgz"))
  }

  /** Code-point lexicographic order on names, a proper prefix first. */
  predicate NameLe(a: string, b: string) {
    if |a| == 0 then true
    else if |b| == 0 then false
    else if a[0] != b[0] then a[0] < b[0]
    else NameLe(a[1..], b[1..])
  }

  lemma {:induction false} NameLeTotal(a: string, b: string)
    ensures NameLe(a, b) || NameLe(b, a)
  {
    if |a| > 0 && |b| > 0 && a[0] == b[0] {
      NameLeTotal(a[1..], b[1..]);
    }
  }

  lemma {:induction false} NameLeTransitive(a: string, b: string, c: string)
    requires NameLe(a, b) && NameLe(b, c)
    ensures NameLe(a, c)
  {
    if |a| > 0 && |b| > 0 && |c| > 0 && a[0] == b[0] && b[0] == c[0] {
      NameLeTransitive(a[1..], b[1..], c[1..]);
    }
  }

  lemma {:induction false} NameLeReflexive(a: string)
    ensures NameLe(a, a)
  {
    if |a| > 0 {
      NameLeReflexive(a[1..]);
    }
  }

  lemma {:induction false} NameLeAntisymmetric(a: string, b: string)
    requires NameLe(a, b) && NameLe(b, a)
    ensures a == b
  {
    if |a| > 0 && |b| > 0 {
      NameLeAntisymmetric(a[1..], b[1..]);
      assert a == [a[0]] + a[1..] && b == [b[0]] + b[1..];
    }
  }

  predicate Sorted(s: seq<string>) {
    forall i, j :: 0 <= i < j < |s| ==> NameLe(s[i], s[j])
  }

  /** The names of a listing that are archives, in listing order: each
      archive name as often as it is listed, and nothing else. */
  function SelectArchives(names: seq<string>): (r: seq<string>)
    ensures forall x :: x in r <==> x in names && IsArchiveName(x)
    ensures forall x :: multiset(r)[x] == (if IsArchiveName(x) then multiset(names)[x] else 0)
  {
    if names == [] then []
    else
      var rest := SelectArchives(names[1..]);
      assert names == [names[0]] + names[1..];
      if IsArchiveName(names[0]) then [names[0]] + rest else rest
  }

  /** Inserts a name into a sorted list of names. */
  function Insert(x: string, s: seq<string>): (r: seq<string>)
    requires Sorted(s)
    ensures Sorted(r)
    ensures multiset(r) == multiset(s) + multiset{x}
    ensures |r| == |s| + 1 && (r[0] == x || (|s| > 0 && r[0] == s[0]))
  {
    if s == [] then [x]
    else if NameLe(x, s[0]) then
      forall j | 0 < j < |s| ensures NameLe(x, s[j]) {
        NameLeTransitive(x, s[0], s[j]);
      }
      [x] + s
    else
      NameLeTotal(x, s[0]);
      var rest := Insert(x, s[1..]);
      assert NameLe(s[0], rest[0]);
      forall k | 0 <= k < |rest| ensures NameLe(s[0], rest[k]) {
        if k > 0 { NameLeTransitive(s[0], rest[0], rest[k]); }
      }
      assert s == [s[0]] + s[1..];
      [s[0]] + rest
  }

  /** Sorts names ascending. */
  function SortNames(s: seq<string>): (r: seq<string>)
    ensures Sorted(r)
    ensures multiset(r) == multiset(s)
  {
    if s == [] then []
    else
      assert s == [s[0]] + s[1..];
      Insert(s[0], SortNames(s[1..]))
  }

  /** The archives of a directory listing, in the order they are converted:
      exactly the archive names of the listing, each as often as listed,
      ascending. */
  function FindArchives(names: seq<string>): (r: seq<string>)
    ensures Sorted(r)
    ensures forall x :: x in r <==> x in names && IsArchiveName(x)
    ensures forall x :: multiset(r)[x] == (if IsArchiveName(x) then multiset(names)[x] else 0)
  {
    var selected := SelectArchives(names);
    var r := SortNames(selected);
    assert forall x :: x in r <==> x in multiset(r);
    assert forall x :: x in selected <==> x in multiset(selected);
    r
  }

  /** Two ascending permutations of one another start with the same name. */
  lemma SortedSameHead(a: seq<string>, b: seq<string>)
    requires Sorted(a) && Sorted(b) && multiset(a) == multiset(b) && a != []
    ensures b != [] && a[0] == b[0]
  {
    assert a[0] in multiset(b);
    var i :| 0 <= i < |b| && b[i] == a[0];
    assert b[0] in multiset(a);
    var j :| 0 <= j < |a| && a[j] == b[0];
    NameLeReflexive(a[0]);
    NameLeReflexive(b[0]);
    assert NameLe(b[0], a[0]);
    assert NameLe(a[0], b[0]);
    NameLeAntisymmetric(a[0], b[0]);
  }

  /** The conversion order is determined by the set of names alone: two
      listings of the same names in different orders give the same list. */
  lemma {:induction false} SortedUnique(a: seq<string>, b: seq<string>)
    requires Sorted(a) && Sorted(b) && multiset(a) == multiset(b)
    ensures a == b
  {
    if a != [] {
      SortedSameHead(a, b);
      assert a == [a[0]] + a[1..] && b == [b[0]] + b[1..];
      assert multiset(a[1..]) == multiset(a) - multiset{a[0]};
      assert multiset(b[1..]) == multiset(b) - multiset{b[0]};
      SortedUnique(a[1..], b[1..]);
    } else {
      assert |multiset(b)| == 0;
    }
  }

  /** The conversion order does not depend on the order of the listing:
      two listings of the same names give the same archives in the same
      order. */
  lemma FindArchivesIgnoresListingOrder(a: seq<string>, b: seq<string>)
    requires multiset(a) == multiset(b)
    ensures FindArchives(a) == FindArchives(b)
  {
    var ra, rb := FindArchives(a), FindArchives(b);
    assert forall x :: multiset(ra)[x] == multiset(rb)[x];
    assert multiset(ra) == multiset(rb);
    SortedUnique(ra, rb);
  }
}
