/**
 * Ordered key/value lists: the query pairs of the authorization URL and the
 * `FormData` bodies of token requests, together with the string joins the
 * source applies to them (`scopes.join("+")`, the `name=value` and `&` join).
 */
module Forms {
  import opened Wrappers

  /** An ordered list of `name`/`value` entries, as `FormData` keeps them. */
  type Form = seq<(string, string)>

  /** A table of candidate fields, each present (`Some`) or absent (`None`). */
  type FieldTable = seq<(string, Option<string>)>

  /** The names of a form's entries or of a table's fields, in order. */
  function Names<V>(s: seq<(string, V)>): (ns: seq<string>)
    ensures |ns| == |s|
  {
    seq(|s|, i requires 0 <= i < |s| => s[i].0)
  }

  /** The value of the first entry named `k`, as `FormData.get` answers. */
  function Lookup(f: Form, k: string): Option<string>
  {
    if f == [] then None
    else if f[0].0 == k then Some(f[0].1)
    else Lookup(f[1..], k)
  }

  predicate Distinct(s: seq<string>)
  {
    forall i, j :: 0 <= i < j < |s| ==> s[i] != s[j]
  }

  /** `keys` is a subsequence of `order`: it lists some of its names, in its order. */
  predicate InOrder(keys: seq<string>, order: seq<string>)
    decreases |order|
  {
    if keys == [] then true
    else if order == [] then false
    else if keys[0] == order[0] then InOrder(keys[1..], order[1..])
    else InOrder(keys, order[1..])
  }

  /**
   * `f` lists the fields of `t`: its names appear in the order of the table,
   * and looking up any name of the table answers the table's value (absent
   * fields are not in `f`).
   */
  ghost predicate Lists(f: Form, t: FieldTable)
  {
    InOrder(Names(f), Names(t)) &&
    forall i :: 0 <= i < |t| ==> Lookup(f, t[i].0) == t[i].1
  }

  /** The present fields of `t`, in order. */
  function Present(t: FieldTable): Form
  {
    if t == [] then []
    else if t[0].1.Some? then [(t[0].0, t[0].1.value)] + Present(t[1..])
    else Present(t[1..])
  }

  lemma {:induction false} InOrderMembers(keys: seq<string>, order: seq<string>, k: string)
    requires InOrder(keys, order) && k in keys
    ensures k in order
    decreases |order|
  {
    if keys[0] == order[0] {
      if k != keys[0] { InOrderMembers(keys[1..], order[1..], k); }
    } else {
      InOrderMembers(keys, order[1..], k);
    }
  }

  lemma {:induction false} LookupAbsent(f: Form, k: string)
    requires k !in Names(f)
    ensures Lookup(f, k) == None
    decreases |f|
  {
    if f != [] {
      assert Names(f)[0] == f[0].0;
      assert Names(f[1..]) == Names(f)[1..];
      LookupAbsent(f[1..], k);
    }
  }

  lemma {:induction false} InOrderTail(keys: seq<string>, order: seq<string>)
    requires keys != [] && order != [] && InOrder(keys, order) && Distinct(order)
    ensures keys[0] == order[0] ==> InOrder(keys[1..], order[1..])
    ensures keys[0] != order[0] ==> InOrder(keys, order[1..])
  {
  }

  lemma DistinctTail(s: seq<string>)
    requires s != [] && Distinct(s)
    ensures Distinct(s[1..]) && s[0] !in s[1..]
  {
  }

  /**
   * A form whose names follow a list of distinct names is determined by its
   * lookups on those names.
   */
  lemma {:induction false} DeterminedByLookups(f: Form, g: Form, order: seq<string>)
    requires Distinct(order)
    requires InOrder(Names(f), order) && InOrder(Names(g), order)
    requires forall k :: k in order ==> Lookup(f, k) == Lookup(g, k)
    ensures f == g
    decreases |order|
  {
    if order == [] {
      assert Names(f) == [] && Names(g) == [];
    } else {
      var o := order[0];
      DistinctTail(order);
      var f' := StripHead(f, o, order);
      var g' := StripHead(g, o, order);
      forall k | k in order[1..] ensures Lookup(f', k) == Lookup(g', k) {
        assert k != o;
      }
      DeterminedByLookups(f', g', order[1..]);
      HeadAgrees(f, g, o, order);
    }
  }

  /** `f` without its entry for the first name of `order`, if it starts with one. */
  function StripHead(f: Form, o: string, order: seq<string>): (f': Form)
    requires order != [] && o == order[0] && Distinct(order)
    requires InOrder(Names(f), order)
    ensures InOrder(Names(f'), order[1..])
    ensures forall k :: k in order[1..] ==> Lookup(f', k) == Lookup(f, k)
    ensures f == (if f != [] && f[0].0 == o then [f[0]] + f' else f')
  {
    if f != [] && f[0].0 == o then
      assert Names(f)[0] == o;
      assert Names(f[1..]) == Names(f)[1..];
      DistinctTail(order);
      f[1..]
    else
      assert f != [] ==> Names(f)[0] != o;
      f
  }

  lemma HeadAgrees(f: Form, g: Form, o: string, order: seq<string>)
    requires order != [] && o == order[0] && Distinct(order)
    requires InOrder(Names(f), order) && InOrder(Names(g), order)
    requires Lookup(f, o) == Lookup(g, o)
    requires StripHead(f, o, order) == StripHead(g, o, order)
    ensures f == g
  {
    DistinctTail(order);
    HeadPresence(f, o, order);
    HeadPresence(g, o, order);
  }

  /** The first name of `order` is in `f` exactly when `f` starts with it. */
  lemma HeadPresence(f: Form, o: string, order: seq<string>)
    requires order != [] && o == order[0] && Distinct(order)
    requires InOrder(Names(f), order)
    ensures Lookup(f, o).Some? <==> (f != [] && f[0].0 == o)
    ensures f != [] && f[0].0 == o ==> Lookup(f, o) == Some(f[0].1)
  {
    DistinctTail(order);
    if f != [] && f[0].0 != o {
      assert Names(f)[0] != o;
      if o in Names(f) { InOrderMembers(Names(f), order[1..], o); }
      LookupAbsent(f, o);
    } else if f == [] {
      LookupAbsent(f, o);
    }
  }

  lemma {:induction false} PresentAppend(t1: FieldTable, t2: FieldTable)
    ensures Present(t1 + t2) == Present(t1) + Present(t2)
    decreases |t1|
  {
    if t1 == [] {
      assert t1 + t2 == t2;
    } else {
      assert (t1 + t2)[0] == t1[0];
      assert (t1 + t2)[1..] == t1[1..] + t2;
      PresentAppend(t1[1..], t2);
    }
  }

  /** Extending a table by one field extends its present fields by at most that one. */
  lemma PresentPrefix(t: FieldTable, k: nat)
    requires k < |t|
    ensures Present(t[..k + 1]) ==
            Present(t[..k]) + (if t[k].1.Some? then [(t[k].0, t[k].1.value)] else [])
  {
    assert t[..k + 1] == t[..k] + [t[k]];
    PresentAppend(t[..k], [t[k]]);
  }

  /** `Present(t)` lists the fields of `t` when its names are distinct. */
  lemma {:induction false} PresentLists(t: FieldTable)
    requires Distinct(Names(t))
    ensures Lists(Present(t), t)
    decreases |t|
  {
    if t != [] {
      var rest := t[1..];
      assert Names(rest) == Names(t)[1..];
      DistinctTail(Names(t));
      PresentLists(rest);
      var p := Present(rest);
      if t[0].1.Some? {
        var f := [(t[0].0, t[0].1.value)] + p;
        assert f[1..] == p;
        assert Names(f) == [t[0].0] + Names(p);
        assert Names(f)[1..] == Names(p);
        forall i | 0 <= i < |t| ensures Lookup(f, t[i].0) == t[i].1 {
          if i > 0 {
            assert t[i].0 == Names(t)[i] && t[i] == rest[i - 1];
          }
        }
      } else {
        if t[0].0 in Names(p) { InOrderMembers(Names(p), Names(rest), t[0].0); }
        LookupAbsent(p, t[0].0);
        assert Names(p) == [] || Names(p)[0] != Names(t)[0];
        forall i | 0 <= i < |t| ensures Lookup(p, t[i].0) == t[i].1 {
          if i > 0 { assert t[i] == rest[i - 1]; }
        }
      }
    }
  }

  /** A table with distinct names has exactly one form listing it: `Present(t)`. */
  lemma ListsUnique(f: Form, t: FieldTable)
    requires Distinct(Names(t))
    requires Lists(f, t)
    ensures f == Present(t)
  {
    PresentLists(t);
    var p := Present(t);
    forall k | k in Names(t) ensures Lookup(f, k) == Lookup(p, k) {
      var i :| 0 <= i < |t| && Names(t)[i] == k;
    }
    DeterminedByLookups(f, p, Names(t));
  }

  /** `xs.join(sep)`. */
  function Join(xs: seq<string>, sep: char): string
  {
    if xs == [] then ""
    else if |xs| == 1 then xs[0]
    else xs[0] + [sep] + Join(xs[1..], sep)
  }

  /** `s.split(sep)`: the pieces between occurrences of `sep`. */
  function Split(s: string, sep: char): (r: seq<string>)
    ensures |r| >= 1
    decreases |s|
  {
    if sep !in s then [s]
    else
      var i := IndexOf(s, sep);
      [s[..i]] + Split(s[i + 1..], sep)
  }

  function IndexOf(s: string, c: char): (i: nat)
    requires c in s
    ensures i < |s| && s[i] == c && c !in s[..i]
  {
    if s[0] == c then 0 else 1 + IndexOf(s[1..], c)
  }

  lemma IndexOfPrefix(a: string, b: string, c: char)
    requires c !in a && c in b
    ensures c in a + b && IndexOf(a + b, c) == |a| + IndexOf(b, c)
    decreases |a|
  {
    if a != [] {
      assert a[0] in a;
      assert (a + b)[0] == a[0] != c;
      assert (a + b)[1..] == a[1..] + b;
      IndexOfPrefix(a[1..], b, c);
      assert IndexOf(a + b, c) == 1 + IndexOf((a + b)[1..], c);
    } else {
      assert a + b == b;
    }
  }

  /** Splitting a string that starts with a separator-free piece and a separator peels off that piece. */
  lemma SplitAfterPiece(a: string, rest: string, sep: char)
    requires sep !in a
    ensures Split(a + [sep] + rest, sep) == [a] + Split(rest, sep)
  {
    var s := a + [sep] + rest;
    assert s == a + ([sep] + rest);
    IndexOfPrefix(a, [sep] + rest, sep);
    var i := IndexOf(s, sep);
    assert i == |a|;
    assert s[..i] == a;
    assert s[i + 1..] == rest;
  }

  /** Splitting a join recovers the pieces when none of them contains the separator. */
  lemma {:induction false} SplitJoin(xs: seq<string>, sep: char)
    requires |xs| >= 1
    requires forall i :: 0 <= i < |xs| ==> sep !in xs[i]
    ensures Split(Join(xs, sep), sep) == xs
    decreases |xs|
  {
    if |xs| > 1 {
      SplitAfterPiece(xs[0], Join(xs[1..], sep), sep);
      SplitJoin(xs[1..], sep);
      assert [xs[0]] + xs[1..] == xs;
    }
  }

  lemma {:induction false} JoinSnoc(xs: seq<string>, y: string, sep: char)
    requires |xs| >= 1
    ensures Join(xs + [y], sep) == Join(xs, sep) + [sep] + y
    decreases |xs|
  {
    if |xs| > 1 {
      assert (xs + [y])[1..] == xs[1..] + [y];
      JoinSnoc(xs[1..], y, sep);
    }
  }

  lemma RenderPairsAppend(a: Form, b: Form)
    ensures RenderPairs(a + b) == RenderPairs(a) + RenderPairs(b)
  {
  }

  /** One query pair as the source renders it: `name=value`, with no percent-encoding. */
  function RenderPair(p: (string, string)): string
  {
    p.0 + "=" + p.1
  }

  function RenderPairs(f: Form): (r: seq<string>)
    ensures |r| == |f|
  {
    seq(|f|, i requires 0 <= i < |f| => RenderPair(f[i]))
  }

  /** The query string: rendered pairs joined by `&`. */
  function JoinQuery(f: Form): string
  {
    Join(RenderPairs(f), '&')
  }

  /** Reads `name=value` back, splitting at the first `=`. */
  function ParsePair(s: string): (string, string)
  {
    if '=' in s then var i := IndexOf(s, '='); (s[..i], s[i + 1..]) else (s, "")
  }

  function ParseQuery(q: string): Form
  {
    var pieces := Split(q, '&');
    seq(|pieces|, i requires 0 <= i < |pieces| => ParsePair(pieces[i]))
  }

  /**
   * The query string is a faithful `name=value&...` rendering: parsing it
   * gives back the pairs whenever no name holds `=` or `&` and no value holds `&`.
   */
  lemma ParseJoinQuery(f: Form)
    requires |f| >= 1
    requires forall i :: 0 <= i < |f| ==> '=' !in f[i].0 && '&' !in f[i].0 && '&' !in f[i].1
    ensures ParseQuery(JoinQuery(f)) == f
  {
    var rs := RenderPairs(f);
    forall i | 0 <= i < |rs| ensures '&' !in rs[i] {
      assert rs[i] == f[i].0 + ("=" + f[i].1);
    }
    SplitJoin(rs, '&');
    forall i | 0 <= i < |f| ensures ParsePair(rs[i]) == f[i] {
      assert rs[i] == f[i].0 + ("=" + f[i].1);
      IndexOfPrefix(f[i].0, "=" + f[i].1, '=');
      var s := rs[i];
      assert s[..|f[i].0|] == f[i].0;
      assert s[|f[i].0| + 1..] == f[i].1;
    }
  }
}
