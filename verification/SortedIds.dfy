/** Ascending order of ids, as Python's `sorted` gives it on strings: by code point, a proper prefix first. */
module SortedIds {
  import opened DependencyGraph

  predicate Less(a: string, b: string) {
    if b == "" then false
    else if a == "" then true
    else a[0] < b[0] || (a[0] == b[0] && Less(a[1..], b[1..]))
  }

  ghost predicate Ascending(s: seq<string>) {
    forall i, j :: 0 <= i < j < |s| ==> Less(s[i], s[j])
  }

  lemma {:induction false} LessTransitive(a: string, b: string, c: string)
    requires Less(a, b) && Less(b, c)
    ensures Less(a, c)
  {
    if a != "" && a[0] == b[0] == c[0] {
      LessTransitive(a[1..], b[1..], c[1..]);
    }
  }

  lemma {:induction false} LessTotal(a: string, b: string)
    ensures a == b || Less(a, b) || Less(b, a)
  {
    if a != "" && b != "" && a[0] == b[0] {
      LessTotal(a[1..], b[1..]);
      assert a == [a[0]] + a[1..] && b == [b[0]] + b[1..];
    }
  }

  method Least(ids: set<string>) returns (least: string)
    requires ids != {}
    ensures least in ids && forall x :: x in ids && x != least ==> Less(least, x)
  {
    least :| least in ids;
    var rest := ids - {least};
    while rest != {}
      invariant rest <= ids && least in ids - rest
      invariant forall x :: x in ids - rest && x != least ==> Less(least, x)
    {
      var x :| x in rest;
      rest := rest - {x};
      LessTotal(x, least);
      if Less(x, least) {
        forall y | y in ids - rest && y != x
          ensures Less(x, y)
        {
          if y != least {
            LessTransitive(x, least, y);
          }
        }
        least := x;
      }
    }
  }

  method Sort(ids: set<string>) returns (s: seq<string>)
    ensures Ascending(s) && Elems(s) == ids
  {
    s := [];
    var rest := ids;
    while rest != {}
      invariant rest <= ids && Elems(s) == ids - rest && Ascending(s)
      invariant forall x, y :: x in s && y in rest ==> Less(x, y)
    {
      var least := Least(rest);
      ElemsAppend(s, least);
      rest, s := rest - {least}, s + [least];
    }
  }
}
