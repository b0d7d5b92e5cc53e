/**
 * Parameterised statements as the server hands them to the database driver.
 *
 * A statement template is a sequence of tokens: literal SQL text and `%s`
 * placeholders. The driver (pyformat parameter style) substitutes the bound
 * values positionally, left to right, and fails when the number of values
 * differs from the number of placeholders. Literal text chunks never
 * contain `%` themselves, so the only placeholders are the `Slot` tokens.
 */
module Sql {
  import opened Wrappers

  /** A value bound to a placeholder: the tools bind strings and integers. */
  datatype Value = Str(s: string) | Int(i: int)

  /** One token of statement text: literal SQL, or a `%s` placeholder. */
  datatype Token = Text(sql: string) | Slot

  type Template = seq<Token>

  /** What the engine receives once values are bound: SQL text and values, in order. */
  datatype Piece = Code(sql: string) | Bound(value: Value)

  /** Number of `%s` placeholders in a template. */
  function Placeholders(t: Template): nat
  {
    if t == [] then 0 else (if t[0] == Slot then 1 else 0) + Placeholders(t[1..])
  }

  /** The template a bound statement came from: every value turned back into `%s`. */
  function Erase(ps: seq<Piece>): Template
  {
    if ps == [] then []
    else (match ps[0] case Code(x) => [Text(x)] case Bound(_) => [Slot]) + Erase(ps[1..])
  }

  /** The values of a bound statement, in the order they occur. */
  function BoundValues(ps: seq<Piece>): seq<Value>
  {
    if ps == [] then []
    else (match ps[0] case Code(_) => [] case Bound(v) => [v]) + BoundValues(ps[1..])
  }

  function Prepend(p: Piece, o: Option<seq<Piece>>): Option<seq<Piece>>
  {
    match o
    case None => None
    case Some(ps) => Some([p] + ps)
  }

  /** Both parts bound, concatenated; `None` when either failed. */
  function Combine(a: Option<seq<Piece>>, b: Option<seq<Piece>>): Option<seq<Piece>>
  {
    if a.Some? && b.Some? then Some(a.value + b.value) else None
  }

  /**
   * Positional substitution of `args` into `t`. Too few values ("not enough
   * arguments for format string") and too many ("not all arguments
   * converted") are both failures, `None`. On success, erasing the values
   * gives back the template and the values appear in the order given.
   */
  function Bind(t: Template, args: seq<Value>): (r: Option<seq<Piece>>)
    ensures r.Some? <==> Placeholders(t) == |args|
    ensures r.Some? ==> Erase(r.value) == t && BoundValues(r.value) == args
  {
    if t == [] then
      if args == [] then Some([]) else None
    else
      match t[0]
      case Text(x) =>
        var r := Prepend(Code(x), Bind(t[1..], args));
        assert r.Some? ==> Erase(r.value) == [Text(x)] + Erase(r.value[1..]) == [t[0]] + t[1..];
        r
      case Slot =>
        if args == [] then None
        else
          var r := Prepend(Bound(args[0]), Bind(t[1..], args[1..]));
          assert r.Some? ==> BoundValues(r.value) == [args[0]] + BoundValues(r.value[1..]) == [args[0]] + args[1..];
          r
  }

  /** Binding past a literal token. */
  lemma BindCode(x: string, t: Template, args: seq<Value>)
    ensures Bind([Text(x)] + t, args) == Prepend(Code(x), Bind(t, args))
  {
    assert ([Text(x)] + t)[1..] == t;
  }

  /** Binding past a placeholder consumes the first value. */
  lemma BindSlot(t: Template, v: Value, args: seq<Value>)
    ensures Bind([Slot] + t, [v] + args) == Prepend(Bound(v), Bind(t, args))
  {
    assert ([Slot] + t)[1..] == t;
    assert ([v] + args)[1..] == args;
  }

  /** A statement without placeholders binds to itself, with no value. */
  lemma BindText(sql: string)
    ensures Bind([Text(sql)], []) == Some([Code(sql)])
  {
    BindCode(sql, [], []);
    assert [Text(sql)] + [] == [Text(sql)];
    assert [Code(sql)] + [] == [Code(sql)];
  }

  lemma {:induction false} PlaceholdersAppend(a: Template, b: Template)
    ensures Placeholders(a + b) == Placeholders(a) + Placeholders(b)
  {
    if a == [] {
      assert a + b == b;
    } else {
      assert (a + b)[1..] == a[1..] + b;
      PlaceholdersAppend(a[1..], b);
    }
  }

  /**
   * Binding a concatenation: when the first part takes exactly its own
   * values, each part is bound to its own values and nothing shifts across
   * the boundary.
   */
  lemma {:induction false} BindAppend(a: Template, b: Template, xs: seq<Value>, ys: seq<Value>)
    requires Placeholders(a) == |xs|
    ensures Bind(a + b, xs + ys) == Combine(Bind(a, xs), Bind(b, ys))
  {
    if a == [] {
      assert a + b == b;
      assert xs + ys == ys;
      var rb := Bind(b, ys);
      assert rb.Some? ==> [] + rb.value == rb.value;
    } else {
      assert (a + b)[0] == a[0];
      assert (a + b)[1..] == a[1..] + b;
      match a[0]
      case Text(x) =>
        BindAppend(a[1..], b, xs, ys);
        PrependCombine(Code(x), Bind(a[1..], xs), Bind(b, ys));
      case Slot =>
        assert (xs + ys)[0] == xs[0];
        assert (xs + ys)[1..] == xs[1..] + ys;
        BindAppend(a[1..], b, xs[1..], ys);
        PrependCombine(Bound(xs[0]), Bind(a[1..], xs[1..]), Bind(b, ys));
    }
  }

  lemma PrependCombine(p: Piece, a: Option<seq<Piece>>, b: Option<seq<Piece>>)
    ensures Prepend(p, Combine(a, b)) == Combine(Prepend(p, a), b)
  {
    if a.Some? && b.Some? {
      assert [p] + (a.value + b.value) == ([p] + a.value) + b.value;
    }
  }

  lemma CombineAssociative(a: Option<seq<Piece>>, b: Option<seq<Piece>>, c: Option<seq<Piece>>)
    ensures Combine(a, Combine(b, c)) == Combine(Combine(a, b), c)
  {
    if a.Some? && b.Some? && c.Some? {
      assert a.value + (b.value + c.value) == (a.value + b.value) + c.value;
    }
  }

  /** Python's `sep.join(fragments)`. */
  function Join(fs: seq<Template>, sep: Template): Template
  {
    if |fs| == 0 then []
    else if |fs| == 1 then fs[0]
    else fs[0] + sep + Join(fs[1..], sep)
  }

  /** A predicate fragment together with the values meant for its placeholders. */
  datatype Clause = Clause(fragment: Template, args: seq<Value>)

  predicate Paired(c: Clause)
  {
    Placeholders(c.fragment) == |c.args|
  }

  function Fragments(cs: seq<Clause>): (fs: seq<Template>)
    ensures |fs| == |cs|
    ensures forall i :: 0 <= i < |cs| ==> fs[i] == cs[i].fragment
  {
    if cs == [] then [] else [cs[0].fragment] + Fragments(cs[1..])
  }

  /** The clauses' values, concatenated in clause order: the driver's parameter list. */
  function Args(cs: seq<Clause>): seq<Value>
  {
    if cs == [] then [] else cs[0].args + Args(cs[1..])
  }

  lemma {:induction false} ClausesAppend(a: seq<Clause>, b: seq<Clause>)
    ensures Fragments(a + b) == Fragments(a) + Fragments(b)
    ensures Args(a + b) == Args(a) + Args(b)
  {
    if a == [] {
      assert a + b == b;
    } else {
      assert (a + b)[1..] == a[1..] + b;
      ClausesAppend(a[1..], b);
    }
  }

  /** A single clause contributes its fragment and its values. */
  lemma Single(c: Clause)
    ensures Fragments([c]) == [c.fragment]
    ensures Args([c]) == c.args
  {
    assert Args([c]) == c.args + Args([]);
  }

  /** Each clause bound to its own values, joined by the separator. */
  function BindClauses(cs: seq<Clause>, sep: Template): Option<seq<Piece>>
  {
    if |cs| == 0 then Some([])
    else if |cs| == 1 then Bind(cs[0].fragment, cs[0].args)
    else Combine(Combine(Bind(cs[0].fragment, cs[0].args), Bind(sep, [])), BindClauses(cs[1..], sep))
  }

  /**
   * Joining the fragments and concatenating their values keeps them matched:
   * binding the joined text to the concatenated values puts every value in
   * a placeholder of its own clause, and always succeeds.
   */
  lemma {:induction false} BindJoin(cs: seq<Clause>, sep: Template)
    requires Placeholders(sep) == 0
    requires forall i :: 0 <= i < |cs| ==> Paired(cs[i])
    ensures Bind(Join(Fragments(cs), sep), Args(cs)) == BindClauses(cs, sep)
    ensures BindClauses(cs, sep).Some?
  {
    if |cs| == 0 {
    } else if |cs| == 1 {
      assert Fragments(cs)[0] == cs[0].fragment;
      assert Args(cs[1..]) == [];
      assert Args(cs) == cs[0].args + [] == cs[0].args;
    } else {
      var fs := Fragments(cs);
      assert fs[1..] == Fragments(cs[1..]);
      BindJoin(cs[1..], sep);
      assert Join(fs, sep) == cs[0].fragment + sep + Join(fs[1..], sep);
      BindJoinStep(cs[0].fragment, sep, Join(fs[1..], sep), cs[0].args, Args(cs[1..]));
    }
  }

  /** One step of `BindJoin`: the first fragment, the separator, then the rest. */
  lemma BindJoinStep(a: Template, sep: Template, rest: Template, xs: seq<Value>, ys: seq<Value>)
    requires Placeholders(a) == |xs| && Placeholders(sep) == 0
    ensures Bind(a + sep + rest, xs + ys) == Combine(Combine(Bind(a, xs), Bind(sep, [])), Bind(rest, ys))
  {
    assert a + sep + rest == a + (sep + rest);
    BindAppend(a, sep + rest, xs, ys);
    assert ys == [] + ys;
    BindAppend(sep, rest, [], ys);
    CombineAssociative(Bind(a, xs), Bind(sep, []), Bind(rest, ys));
  }

  /** Placeholder parity of a joined clause list: one value per placeholder. */
  lemma JoinParity(cs: seq<Clause>, sep: Template)
    requires Placeholders(sep) == 0
    requires forall i :: 0 <= i < |cs| ==> Paired(cs[i])
    ensures Placeholders(Join(Fragments(cs), sep)) == |Args(cs)|
  {
    BindJoin(cs, sep);
  }
}
