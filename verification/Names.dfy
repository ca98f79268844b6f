/** Lists of names as the source keeps them: sorted bytewise, without duplicates. */
module Names {

  /** The order of `strcmp`. */
  predicate Before(a: string, b: string) {
    b != [] && (a == [] || a[0] < b[0] || (a[0] == b[0] && Before(a[1..], b[1..])))
  }

  predicate Ascending(names: seq<string>) {
    forall i, j | 0 <= i < j < |names| :: Before(names[i], names[j])
  }

  type NameList = names: seq<string> | Ascending(names) witness []

  function Elements(names: seq<string>): set<string> {
    set i | 0 <= i < |names| :: names[i]
  }

  lemma {:induction false} BeforeIsIrreflexive(a: string)
    ensures !Before(a, a)
  {
    if a != [] {
      BeforeIsIrreflexive(a[1..]);
    }
  }

  lemma {:induction false} BeforeIsTotal(a: string, b: string)
    ensures a == b || Before(a, b) || Before(b, a)
  {
    if a != [] && b != [] && a[0] == b[0] {
      BeforeIsTotal(a[1..], b[1..]);
      assert a == [a[0]] + a[1..] && b == [b[0]] + b[1..];
    }
  }

  lemma {:induction false} BeforeIsTransitive(a: string, b: string, c: string)
    requires Before(a, b) && Before(b, c)
    ensures Before(a, c)
  {
    if a != [] && a[0] == b[0] == c[0] {
      BeforeIsTransitive(a[1..], b[1..], c[1..]);
    }
  }

  lemma BeforeIsAsymmetric(a: string, b: string)
    ensures !(Before(a, b) && Before(b, a))
  {
    if Before(a, b) && Before(b, a) {
      BeforeIsTransitive(a, b, a);
      BeforeIsIrreflexive(a);
    }
  }

  /** The first name of a list is the least of its elements. */
  lemma FirstIsLeast(a: NameList, b: NameList)
    requires a != [] && b != [] && Elements(a) == Elements(b)
    ensures a[0] == b[0]
  {
    assert a[0] in Elements(b) && b[0] in Elements(a);
    if a[0] != b[0] {
      BeforeIsAsymmetric(a[0], b[0]);
    }
  }

  lemma RestElements(a: NameList)
    requires a != []
    ensures Ascending(a[1..]) && Elements(a[1..]) == Elements(a) - {a[0]}
  {
    var rest := a[1..];
    forall n | n in Elements(rest) ensures n in Elements(a) && n != a[0] {
      var i :| 0 <= i < |rest| && rest[i] == n;
      assert n == a[i + 1];
      BeforeIsIrreflexive(n);
    }
    forall n | n in Elements(a) && n != a[0] ensures n in Elements(rest) {
      var i :| 0 <= i < |a| && a[i] == n;
      assert n == rest[i - 1];
    }
  }

  lemma NoElements(names: seq<string>)
    ensures names == [] <==> Elements(names) == {}
  {
    if names != [] {
      assert names[0] in Elements(names);
    }
  }

  /** There is only one list of a set of names. */
  lemma {:induction false} ListIsUnique(a: NameList, b: NameList)
    requires Elements(a) == Elements(b)
    ensures a == b
    decreases |a|
  {
    if a == [] || b == [] {
      NoElements(a);
      NoElements(b);
    } else {
      FirstIsLeast(a, b);
      RestElements(a);
      RestElements(b);
      ListIsUnique(a[1..], b[1..]);
      assert a == [a[0]] + a[1..] && b == [b[0]] + b[1..];
    }
  }

  method Least(names: set<string>) returns (least: string)
    requires names != {}
    ensures least in names && forall n | n in names && n != least :: Before(least, n)
  {
    least :| least in names;
    var rest := names - {least};
    while rest != {}
      invariant rest < names && least in names && least !in rest
      invariant forall n | n in names && n !in rest && n != least :: Before(least, n)
      decreases |rest|
    {
      var n :| n in rest;
      BeforeIsTotal(least, n);
      if Before(n, least) {
        forall m | m in names && m !in rest && m != least ensures Before(n, m) {
          BeforeIsTransitive(n, least, m);
        }
        least := n;
      }
      rest := rest - {n};
    }
  }

  /** A set of names in their order. */
  method Sorted(names: set<string>) returns (list: NameList)
    ensures Elements(list) == names
  {
    var rest := names;
    list := [];
    while rest != {}
      invariant rest <= names && Elements(list) == names - rest
      invariant forall i, n | 0 <= i < |list| && n in rest :: Before(list[i], n)
      decreases |rest|
    {
      var least := Least(rest);
      ElementsSnoc(list, least);
      list := list + [least];
      rest := rest - {least};
    }
  }

  lemma ElementsSnoc(names: seq<string>, last: string)
    ensures Elements(names + [last]) == Elements(names) + {last}
  {
    var more := names + [last];
    assert more[|names|] == last;
    forall n | n in Elements(names) ensures n in Elements(more) {
      var i :| 0 <= i < |names| && names[i] == n;
      assert more[i] == n;
    }
  }

  /** Comparing two lists name by name compares the sets of their names. */
  method Equal(left: NameList, right: NameList) returns (equal: bool)
    ensures equal <==> left == right
    ensures equal <==> Elements(left) == Elements(right)
  {
    if Elements(left) == Elements(right) {
      ListIsUnique(left, right);
    }
    if |left| != |right| {
      return false;
    }
    for i := 0 to |left|
      invariant left[..i] == right[..i]
    {
      if left[i] != right[i] {
        return false;
      }
    }
    return true;
  }
}
