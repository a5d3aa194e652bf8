/** The order in which the program lists names: byte by byte, a prefix first. */
module Names {
  predicate Before(a: string, b: string) {
    if b == "" then false
    else if a == "" then true
    else if a[0] == b[0] then Before(a[1..], b[1..])
    else a[0] < b[0]
  }

  lemma {:induction false} BeforeIsTotal(a: string, b: string)
    ensures a == b || Before(a, b) || Before(b, a)
  {
    if a != "" && b != "" && a[0] == b[0] {
      BeforeIsTotal(a[1..], b[1..]);
      assert a == [a[0]] + a[1..] && b == [b[0]] + b[1..];
    }
  }

  lemma {:induction false} BeforeIsTransitive(a: string, b: string, c: string)
    requires Before(a, b) && Before(b, c)
    ensures Before(a, c)
  {
    if a != "" && b != "" && c != "" && a[0] == b[0] == c[0] {
      BeforeIsTransitive(a[1..], b[1..], c[1..]);
    }
  }

  lemma {:induction false} BeforeIsStrict(a: string)
    ensures !Before(a, a)
  {
    if a != "" {
      BeforeIsStrict(a[1..]);
    }
  }

  predicate IsLeast(name: string, names: set<string>) {
    name in names && forall other | other in names && other != name :: Before(name, other)
  }

  /** The first of the sorted names. */
  method Least(names: set<string>) returns (least: string)
    requires names != {}
    ensures IsLeast(least, names)
  {
    var rest := names;
    least :| least in names;
    rest := rest - {least};
    while rest != {}
      invariant rest <= names && IsLeast(least, names - rest)
      decreases |rest|
    {
      var name :| name in rest;
      BeforeIsTotal(name, least);
      if Before(name, least) {
        forall other | other in names - rest && other != least ensures Before(name, other) {
          BeforeIsTransitive(name, least, other);
        }
        least := name;
      }
      rest := rest - {name};
    }
    assert names - rest == names;
  }
}
