/**
 * The operators of `Annotations.Resolve.Method`: each turns the expressions
 * of several combined fields into one JavaPoet `(format, args)` pair, which
 * the annotation processor then emits. The model follows the code as it is
 * written; `IntendedCombination` at the end is the behaviour the operator
 * names promise, kept apart (see Findings in the README).
 */
module Resolve {
  import opened Common
  import opened Template

  datatype Method = Add | Average | Multiply | Max | Min | And | Or

  /** A format string with the arguments the callback receives along with it. */
  datatype Code = Code(format: string, args: seq<Arg>)

  /** The `bool` flag each operator is declared with: it combines boolean expressions. */
  function Bool(m: Method): (b: bool)
    ensures b <==> m == And || m == Or
  {
    match m
    case Add => false
    case Average => false
    case Multiply => false
    case Max => false
    case Min => false
    case And => true
    case Or => true
  }

  /** The operators that lay their inputs side by side rather than nesting calls. */
  predicate IsFlat(m: Method)
  {
    m != Max && m != Min
  }

  /** The name of the `java.lang.Math` method a nesting operator calls. */
  function CallName(m: Method): string
    requires !IsFlat(m)
  {
    if m == Max then "max" else "min"
  }

  /**
   * The text the flat operators' ternary offers for every input after the
   * first, as it is written in the source: `multiply` offers ` + $L`, the same
   * as `add`.
   */
  function WrittenStep(m: Method): string
    requires IsFlat(m)
  {
    match m
    case And => " && $L"
    case Or => " || $L"
    case _ => " + $L"
  }

  /** The opening of one nested call: `$T.max($L, ` or `$T.min($L, `. */
  function Open(name: string): string
  {
    "$T." + name + "($L, "
  }

  /**
   * What the `max` / `min` loop builds for `vars`: the innermost call takes
   * the first two inputs, and every later input becomes the FIRST argument
   * of a new outer call around what was built so far.
   */
  function NestCode(name: string, vars: seq<string>): Code
    requires |vars| != 1
  {
    if |vars| == 0 then Code("", [])
    else if |vars| == 2 then Code(Open(name) + "$L)", [MathClass, Lit(vars[0]), Lit(vars[1])])
    else
      var inner := NestCode(name, vars[..|vars| - 1]);
      Code(Open(name) + inner.format + ")", [MathClass, Lit(vars[|vars| - 1])] + inner.args)
  }

  /** The pair each operator hands to its callback for the input expressions `vars`. */
  function Combination(m: Method, vars: seq<string>): Code
  {
    if |vars| == 1 then Code("$L", [Lit(vars[0])])
    else match m
      case Max => NestCode("max", vars)
      case Min => NestCode("min", vars)
      case Average => Code("(" + Repeat("$L", |vars|) + ") / $L", Lits(vars) + [Lit(NatToString(|vars|))])
      case _ => Code(Repeat("$L", |vars|), Lits(vars))
  }

  /**
   * The `compute` lambda of operator `m`. The flat operators choose their
   * step text with a ternary on a builder that is still empty when it is
   * tested, so every input gets a bare `$L`.
   */
  method Compute(m: Method, vars: seq<string>) returns (format: string, args: seq<Arg>)
    ensures Code(format, args) == Combination(m, vars)
  {
    if |vars| == 1 {
      return "$L", [Lit(vars[0])];
    }
    match m {
      case Max =>
        format, args := Nest("max", vars);
      case Min =>
        format, args := Nest("min", vars);
      case Average =>
        var step := WrittenStep(m);
        format := "";
        format := format + Repeat(if |format| == 0 then "$L" else step, |vars|);
        format := "(" + format;
        format := format + ") / $L";
        args := Lits(vars) + [Lit(NatToString(|vars|))];
      case Add =>
        var step := WrittenStep(m);
        format := "";
        format := format + Repeat(if |format| == 0 then "$L" else step, |vars|);
        args := Lits(vars);
      case Multiply =>
        var step := WrittenStep(m);
        format := "";
        format := format + Repeat(if |format| == 0 then "$L" else step, |vars|);
        args := Lits(vars);
      case And =>
        var step := WrittenStep(m);
        format := "";
        format := format + Repeat(if |format| == 0 then "$L" else step, |vars|);
        args := Lits(vars);
      case Or =>
        var step := WrittenStep(m);
        format := "";
        format := format + Repeat(if |format| == 0 then "$L" else step, |vars|);
        args := Lits(vars);
    }
  }

  /**
   * The loop of the `max` / `min` lambdas: the first pass writes the
   * innermost call and skips an extra index; each later pass inserts a new
   * opening in front of the format, `Math` at position 0 and the input at
   * position 1 of the arguments.
   */
  method Nest(name: string, vars: seq<string>) returns (format: string, args: seq<Arg>)
    requires |vars| != 1
    ensures Code(format, args) == NestCode(name, vars)
  {
    format := "";
    args := [];
    var i := 0;
    while i < |vars|
      invariant 0 <= i <= |vars|
      invariant i == 0 ==> format == "" && args == []
      invariant i != 0 ==> 2 <= i && Code(format, args) == NestCode(name, vars[..i])
    {
      if i == 0 {
        format := format + "$T." + name + "($L, $L)";
        args := args + [MathClass, Lit(vars[0]), Lit(vars[1])];
        assert format == Open(name) + "$L)";
        assert vars[..2] == [vars[0], vars[1]];
        i := i + 1;
      } else {
        ghost var inner := Code(format, args);
        format := "$T." + name + "($L, " + format;
        format := format + ")";
        args := [MathClass] + args;
        args := args[..1] + [Lit(vars[i])] + args[1..];
        assert vars[..i + 1][..i] == vars[..i];
        assert args == [MathClass, Lit(vars[i])] + inner.args;
      }
      i := i + 1;
    }
    assert vars[..|vars|] == vars;
  }

  // ---------------------------------------------------------------------
  // What each operator's pair renders to, and how its placeholders line up
  // with its arguments.
  // ---------------------------------------------------------------------

  /** With a single input every operator hands over `$L` and that input, which renders to the input. */
  lemma SingleInput(m: Method, v: string, math: string)
    ensures Combination(m, [v]) == Code("$L", [Lit(v)])
    ensures Render("$L", [Lit(v)], math) == Some(v)
  {
    ScanLiteral(Lit(v), [], math);
    assert [Lit(v)] + [] == [Lit(v)];
  }

  lemma {:induction false} RepeatedLiteralsRender(vars: seq<string>, math: string)
    ensures Scan(Repeat("$L", |vars|), Lits(vars), math) == Some((Concat(vars), []))
  {
    if |vars| > 0 {
      RepeatedLiteralsRender(vars[1..], math);
      var r := Repeat("$L", |vars| - 1);
      assert Lits(vars) == [Lit(vars[0])] + Lits(vars[1..]);
      ScanLiteral(Lit(vars[0]), Lits(vars[1..]), math);
      ScanAppend("$L", r, Lits(vars), math, vars[0], Lits(vars[1..]));
    }
  }

  /**
   * `add`, `multiply`, `and` and `or` with two or more inputs: the format is
   * `$L` once per input with nothing between, the arguments are the inputs
   * unchanged, and the result is the inputs run together.
   */
  lemma FlatOperators(m: Method, vars: seq<string>, math: string)
    requires IsFlat(m) && m != Average && |vars| >= 2
    ensures Combination(m, vars) == Code(Repeat("$L", |vars|), Lits(vars))
    ensures Render(Combination(m, vars).format, Combination(m, vars).args, math) == Some(Concat(vars))
  {
    RepeatedLiteralsRender(vars, math);
  }

  /**
   * `average` with two or more inputs: the run-together inputs in
   * parentheses, divided by the decimal text of the number of inputs, which
   * is passed as one more argument.
   */
  lemma AverageOperator(vars: seq<string>, math: string)
    requires |vars| >= 2
    ensures Combination(Average, vars).format == "(" + Repeat("$L", |vars|) + ") / $L"
    ensures Combination(Average, vars).args == Lits(vars) + [Lit(NatToString(|vars|))]
    ensures Render(Combination(Average, vars).format, Combination(Average, vars).args, math)
         == Some("(" + Concat(vars) + ") / " + NatToString(|vars|))
  {
    RepeatedLiteralsRender(vars, math);
    ScanDivided(Repeat("$L", |vars|), Lits(vars), NatToString(|vars|), Concat(vars), math);
  }

  /** Wrapping a rendered sum in parentheses and dividing it by `n`, passed as one more argument. */
  lemma ScanDivided(f: string, args: seq<Arg>, n: string, s: string, math: string)
    requires Scan(f, args, math) == Some((s, []))
    ensures Scan("(" + f + ") / $L", args + [Lit(n)], math) == Some(("(" + s + ") / " + n, []))
  {
    var all := args + [Lit(n)];
    ScanExtraArgs(f, args, [Lit(n)], math, s, []);
    assert [] + [Lit(n)] == [Lit(n)];
    ScanPlain("(", all, math);
    ScanAppend("(", f, all, math, "(", all);
    ScanPlain(") / ", [Lit(n)], math);
    ScanLiteral(Lit(n), [], math);
    assert [Lit(n)] + [] == [Lit(n)];
    ScanAppend(") / ", "$L", [Lit(n)], math, ") / ", [Lit(n)]);
    assert ") / " + "$L" == ") / $L";
    ScanAppend("(" + f, ") / $L", all, math, "(" + s, [Lit(n)]);
    assert ("(" + s) + (") / " + n) == "(" + s + ") / " + n;
  }

  /** With no input there is no guard: the flat and nesting operators hand over nothing, `average` divides by zero. */
  lemma EmptyInput(m: Method)
    ensures Combination(m, []) == if m == Average then Code("() / $L", [Lit("0")]) else Code("", [])
  {
    assert NatToString(0) == "0";
  }

  /** The expression a nesting operator's pair stands for, with the class spelled `math`. */
  function NestedCall(math: string, name: string, vars: seq<string>): string
    requires |vars| >= 2
  {
    if |vars| == 2 then math + "." + name + "(" + vars[0] + ", " + vars[1] + ")"
    else math + "." + name + "(" + vars[|vars| - 1] + ", " + NestedCall(math, name, vars[..|vars| - 1]) + ")"
  }

  /** The call opening up to its first argument: `$T.name($L`. */
  lemma ScanOpenHead(name: string, v: string, rest: seq<Arg>, math: string)
    requires '$' !in name
    ensures Scan("$T" + ("." + name + "(") + "$L", [MathClass, Lit(v)] + rest, math) == Some((math + ("." + name + "(") + v, rest))
  {
    var args := [MathClass, Lit(v)] + rest;
    var tail := [Lit(v)] + rest;
    var mid := "." + name + "(";
    assert args == [MathClass] + tail;
    assert '$' !in mid;
    ScanType(tail, math);
    ScanPlain(mid, tail, math);
    ScanAppend("$T", mid, args, math, math, tail);
    ScanLiteral(Lit(v), rest, math);
    ScanAppend("$T" + mid, "$L", args, math, math + mid, tail);
  }

  lemma ScanOpen(name: string, v: string, rest: seq<Arg>, math: string)
    requires '$' !in name
    ensures Scan(Open(name), [MathClass, Lit(v)] + rest, math) == Some((math + "." + name + "(" + v + ", ", rest))
  {
    var args := [MathClass, Lit(v)] + rest;
    var mid := "." + name + "(";
    ScanOpenHead(name, v, rest, math);
    ScanPlain(", ", rest, math);
    ScanAppend("$T" + mid + "$L", ", ", args, math, math + mid + v, rest);
    assert Open(name) == "$T" + mid + "$L" + ", ";
    assert math + mid + v + ", " == math + "." + name + "(" + v + ", ";
  }

  /**
   * `max` and `min` render to nested binary calls, each later input the
   * first argument of the call around the earlier ones.
   */
  lemma {:induction false} NestedRender(name: string, vars: seq<string>, math: string)
    requires '$' !in name && |vars| >= 2
    ensures Scan(NestCode(name, vars).format, NestCode(name, vars).args, math) == Some((NestedCall(math, name, vars), []))
    ensures Render(NestCode(name, vars).format, NestCode(name, vars).args, math) == Some(NestedCall(math, name, vars))
  {
    var code := NestCode(name, vars);
    var head := math + "." + name + "(";
    if |vars| == 2 {
      ScanOpen(name, vars[0], [Lit(vars[1])], math);
      assert code.args == [MathClass, Lit(vars[0])] + [Lit(vars[1])];
      ScanLiteral(Lit(vars[1]), [], math);
      assert [Lit(vars[1])] + [] == [Lit(vars[1])];
      ScanPlain(")", [], math);
      ScanAppend("$L", ")", [Lit(vars[1])], math, vars[1], []);
      assert "$L" + ")" == "$L)";
      ScanAppend(Open(name), "$L)", code.args, math, head + vars[0] + ", ", [Lit(vars[1])]);
      assert code.format == Open(name) + "$L)";
      assert head + vars[0] + ", " + (vars[1] + ")") == NestedCall(math, name, vars);
    } else {
      var v := vars[|vars| - 1];
      var inner := NestCode(name, vars[..|vars| - 1]);
      NestedRender(name, vars[..|vars| - 1], math);
      var nc := NestedCall(math, name, vars[..|vars| - 1]);
      ScanOpen(name, v, inner.args, math);
      ScanAppend(Open(name), inner.format, code.args, math, head + v + ", ", inner.args);
      ScanPlain(")", [], math);
      ScanAppend(Open(name) + inner.format, ")", code.args, math, head + v + ", " + nc, []);
      assert code.format == Open(name) + inner.format + ")";
      assert (head + v + ", ") + nc == head + v + ", " + nc;
    }
  }

  /** Both nesting operators render to nested calls of their `Math` method. */
  lemma NestingOperators(m: Method, vars: seq<string>, math: string)
    requires !IsFlat(m) && |vars| >= 2
    ensures Render(Combination(m, vars).format, Combination(m, vars).args, math) == Some(NestedCall(math, CallName(m), vars))
  {
    assert '$' !in CallName(m);
    NestedRender(CallName(m), vars, math);
  }

  /**
   * The closed form of a nesting pair: n - 2 openings, the innermost call on
   * the first two inputs, n - 2 closing parentheses; the arguments pair
   * `Math` with each input from the newest down, then `Math`, the first and
   * the second input.
   */
  lemma NestedShape(name: string, vars: seq<string>)
    requires |vars| >= 2
    ensures NestCode(name, vars).format
         == Repeat("$T." + name + "($L, ", |vars| - 2) + "$T." + name + "($L, $L)" + Repeat(")", |vars| - 2)
    ensures |NestCode(name, vars).args| == 2 * |vars| - 1
    ensures forall k :: 0 <= k < |vars| - 2 ==>
              NestCode(name, vars).args[2 * k] == MathClass && NestCode(name, vars).args[2 * k + 1] == Lit(vars[|vars| - 1 - k])
    ensures NestCode(name, vars).args[2 * |vars| - 4..] == [MathClass, Lit(vars[0]), Lit(vars[1])]
  {
    NestedFormatShape(name, vars);
    NestedArgsShape(name, vars);
  }

  lemma {:induction false} NestedFormatShape(name: string, vars: seq<string>)
    requires |vars| >= 2
    ensures NestCode(name, vars).format == Repeat(Open(name), |vars| - 2) + (Open(name) + "$L)") + Repeat(")", |vars| - 2)
  {
    var n := |vars|;
    if n > 2 {
      var o, inner := Open(name), NestCode(name, vars[..n - 1]).format;
      NestedFormatShape(name, vars[..n - 1]);
      var before, core, after := Repeat(o, n - 3), o + "$L)", Repeat(")", n - 3);
      assert NestCode(name, vars).format == o + inner + ")";
      assert inner == before + core + after;
      Regroup(o, before, core, after, ")");
      RepeatSnoc(")", n - 3);
      assert Repeat(o, n - 2) == o + before;
    }
  }

  /** Moving the outer opening and closing into the repeated parts. */
  lemma Regroup(o: string, before: string, core: string, after: string, close: string)
    ensures o + (before + core + after) + close == (o + before) + core + (after + close)
  {
  }

  lemma NestedArgsShape(name: string, vars: seq<string>)
    requires |vars| >= 2
    ensures |NestCode(name, vars).args| == 2 * |vars| - 1
    ensures forall k :: 0 <= k < |vars| - 2 ==>
              NestCode(name, vars).args[2 * k] == MathClass && NestCode(name, vars).args[2 * k + 1] == Lit(vars[|vars| - 1 - k])
    ensures NestCode(name, vars).args[2 * |vars| - 4..] == [MathClass, Lit(vars[0]), Lit(vars[1])]
  {
    NestedArgsPairs(name, vars);
    NestedArgsTail(name, vars);
    forall k | 0 <= k < |vars| - 2
      ensures NestCode(name, vars).args[2 * k] == MathClass && NestCode(name, vars).args[2 * k + 1] == Lit(vars[|vars| - 1 - k])
    {
      assert PairAt(NestCode(name, vars).args, vars, k);
    }
  }

  lemma {:induction false} NestedArgsLength(name: string, vars: seq<string>)
    requires |vars| >= 2
    ensures |NestCode(name, vars).args| == 2 * |vars| - 1
  {
    if |vars| > 2 {
      NestedArgsLength(name, vars[..|vars| - 1]);
    }
  }

  /** Pair `k` of a nesting pair's arguments is `Math` and input n−1−k. */
  ghost predicate PairAt(args: seq<Arg>, vars: seq<string>, k: int)
    requires 0 <= k < |vars| - 2 && |args| == 2 * |vars| - 1
  {
    args[2 * k] == MathClass && args[2 * k + 1] == Lit(vars[|vars| - 1 - k])
  }

  lemma {:induction false} NestedArgsPairs(name: string, vars: seq<string>)
    requires |vars| >= 2
    ensures |NestCode(name, vars).args| == 2 * |vars| - 1
    ensures forall k :: 0 <= k < |vars| - 2 ==> PairAt(NestCode(name, vars).args, vars, k)
  {
    var n := |vars|;
    NestedArgsLength(name, vars);
    if n > 2 {
      var pre := vars[..n - 1];
      var inner := NestCode(name, pre).args;
      var args := NestCode(name, vars).args;
      NestedArgsPairs(name, pre);
      assert args == [MathClass, Lit(vars[n - 1])] + inner;
      forall k | 0 <= k < n - 2
        ensures PairAt(args, vars, k)
      {
        if k > 0 {
          assert PairAt(inner, pre, k - 1);
          ShiftPair(MathClass, Lit(vars[n - 1]), inner, k);
          assert pre[|pre| - 1 - (k - 1)] == vars[n - 1 - k];
        }
      }
    }
  }

  /** Indexing past a leading pair of arguments. */
  lemma ShiftPair(x: Arg, y: Arg, inner: seq<Arg>, k: int)
    requires 0 < k && 2 * k + 1 < |inner| + 2
    ensures ([x, y] + inner)[2 * k] == inner[2 * (k - 1)]
    ensures ([x, y] + inner)[2 * k + 1] == inner[2 * (k - 1) + 1]
  {
  }

  lemma {:induction false} NestedArgsTail(name: string, vars: seq<string>)
    requires |vars| >= 2
    ensures |NestCode(name, vars).args| == 2 * |vars| - 1
    ensures NestCode(name, vars).args[2 * |vars| - 4..] == [MathClass, Lit(vars[0]), Lit(vars[1])]
  {
    var n := |vars|;
    NestedArgsLength(name, vars);
    if n > 2 {
      var pre := vars[..n - 1];
      var inner := NestCode(name, pre).args;
      var args := NestCode(name, vars).args;
      NestedArgsTail(name, pre);
      assert args == [MathClass, Lit(vars[n - 1])] + inner;
      assert args[2 * n - 4..] == inner[2 * |pre| - 4..];
    }
  }

  lemma {:induction false} RepeatedLiteralsMatch(vars: seq<string>)
    ensures OnlyPlaceholders(Repeat("$L", |vars|))
    ensures Placeholders(Repeat("$L", |vars|)) == ArgKinds(Lits(vars))
  {
    if |vars| > 0 {
      RepeatedLiteralsMatch(vars[1..]);
      PlaceholderFormats();
      assert Lits(vars) == [Lit(vars[0])] + Lits(vars[1..]);
      assert ArgKinds(Lits(vars)) == [LiteralKind] + ArgKinds(Lits(vars[1..]));
      PlaceholdersAppend("$L", Repeat("$L", |vars| - 1));
    }
  }

  lemma {:induction false} NestedMatch(name: string, vars: seq<string>)
    requires '$' !in name && |vars| >= 2
    ensures OnlyPlaceholders(NestCode(name, vars).format)
    ensures Placeholders(NestCode(name, vars).format) == ArgKinds(NestCode(name, vars).args)
    ensures CountKind(ArgKinds(NestCode(name, vars).args), TypeKind) == |vars| - 1
  {
    if |vars| == 2 {
      InnermostMatch(name, vars);
    } else {
      var inner := NestCode(name, vars[..|vars| - 1]);
      NestedMatch(name, vars[..|vars| - 1]);
      OuterCallMatch(name, vars[|vars| - 1], inner.format, inner.args, |vars| - 2);
    }
  }

  /** The innermost call `$T.name($L, $L)` with `Math` and the first two inputs. */
  lemma InnermostMatch(name: string, vars: seq<string>)
    requires '$' !in name && |vars| == 2
    ensures OnlyPlaceholders(NestCode(name, vars).format)
    ensures Placeholders(NestCode(name, vars).format) == ArgKinds(NestCode(name, vars).args)
    ensures CountKind(ArgKinds(NestCode(name, vars).args), TypeKind) == 1
  {
    var code := NestCode(name, vars);
    var o := Open(name);
    OpenMatches(name);
    PlainFormat(")");
    PlaceholderFormats();
    PlaceholdersAppend("$L", ")");
    assert "$L" + ")" == "$L)";
    PlaceholdersAppend(o, "$L)");
    assert code.format == o + "$L)";
    assert Placeholders(code.format) == [TypeKind, LiteralKind, LiteralKind];
    assert code.args == [MathClass, Lit(vars[0]), Lit(vars[1])];
    assert ArgKinds(code.args) == [TypeKind, LiteralKind, LiteralKind];
    assert CountKind([TypeKind, LiteralKind, LiteralKind], TypeKind) == 1;
  }

  /** Wrapping a matched format in one more call keeps the match and adds one `$T`. */
  lemma OuterCallMatch(name: string, v: string, fi: string, args: seq<Arg>, n: nat)
    requires '$' !in name
    requires OnlyPlaceholders(fi) && Placeholders(fi) == ArgKinds(args)
    requires CountKind(ArgKinds(args), TypeKind) == n
    ensures OnlyPlaceholders(Open(name) + fi + ")")
    ensures Placeholders(Open(name) + fi + ")") == ArgKinds([MathClass, Lit(v)] + args)
    ensures CountKind(ArgKinds([MathClass, Lit(v)] + args), TypeKind) == n + 1
  {
    var o := Open(name);
    OpenMatches(name);
    PlainFormat(")");
    PlaceholdersAppend(o, fi);
    PlaceholdersAppend(o + fi, ")");
    ArgKindsAppend([MathClass, Lit(v)], args);
    var ks := ArgKinds(args);
    assert ArgKinds([MathClass, Lit(v)] + args) == [TypeKind, LiteralKind] + ks;
    assert ([TypeKind, LiteralKind] + ks)[1..] == [LiteralKind] + ks;
    assert ([LiteralKind] + ks)[1..] == ks;
  }

  lemma OpenMatches(name: string)
    requires '$' !in name
    ensures OnlyPlaceholders(Open(name)) && Placeholders(Open(name)) == [TypeKind, LiteralKind]
  {
    var mid := "." + name + "(";
    assert '$' !in mid && '$' !in ", ";
    PlaceholderFormats();
    PlainFormat(mid);
    PlainFormat(", ");
    PlaceholdersAppend("$L", ", ");
    PlaceholdersAppend(mid, "$L" + ", ");
    PlaceholdersAppend("$T", mid + ("$L" + ", "));
    assert Open(name) == "$T" + (mid + ("$L" + ", "));
  }

  /**
   * For every operator and at least one input, the placeholders of the format
   * match the arguments one to one, `$T` exactly where `Math` is passed; the
   * nesting operators pass `Math` once per call, n - 1 times.
   */
  lemma PlaceholdersMatchArguments(m: Method, vars: seq<string>)
    requires |vars| >= 1
    ensures OnlyPlaceholders(Combination(m, vars).format)
    ensures Placeholders(Combination(m, vars).format) == ArgKinds(Combination(m, vars).args)
    ensures !IsFlat(m) ==> CountKind(Placeholders(Combination(m, vars).format), TypeKind) == |vars| - 1
  {
    if |vars| == 1 {
      PlaceholderFormats();
      assert ArgKinds([Lit(vars[0])]) == [LiteralKind];
    } else if !IsFlat(m) {
      assert '$' !in CallName(m);
      NestedMatch(CallName(m), vars);
    } else if m == Average {
      AverageMatch(vars);
    } else {
      RepeatedLiteralsMatch(vars);
    }
  }

  lemma AverageMatch(vars: seq<string>)
    requires |vars| >= 2
    ensures OnlyPlaceholders(Combination(Average, vars).format)
    ensures Placeholders(Combination(Average, vars).format) == ArgKinds(Combination(Average, vars).args)
  {
    var r := Repeat("$L", |vars|);
    RepeatedLiteralsMatch(vars);
    PlaceholderFormats();
    PlainFormat("(");
    PlaceholdersAppend("(", r);
    PlainFormat(") / ");
    PlaceholdersAppend(") / ", "$L");
    assert ") / " + "$L" == ") / $L";
    PlaceholdersAppend("(" + r, ") / $L");
    ArgKindsAppend(Lits(vars), [Lit(NatToString(|vars|))]);
  }

  /** The boolean operators never refer to `Math`: they pass their inputs and nothing else. */
  lemma BooleanOperatorsPassInputs(m: Method, vars: seq<string>)
    requires Bool(m)
    ensures Combination(m, vars).args == Lits(vars)
    ensures MathClass !in Combination(m, vars).args
  {
  }

  // ---------------------------------------------------------------------
  // The flat operators as their names promise them.
  // ---------------------------------------------------------------------

  /** As written, `add` of `a` and `b` renders `ab`: the two expressions run together. */
  lemma AddRunsInputsTogether(math: string)
    ensures Render(Combination(Add, ["a", "b"]).format, Combination(Add, ["a", "b"]).args, math) == Some("ab")
  {
    FlatOperators(Add, ["a", "b"], math);
    assert Concat(["a", "b"]) == "ab";
  }

  /**
   * As written, `multiply` offers the step text of `add`, and produces
   * exactly what `add` produces.
   */
  lemma MultiplyIsAdd(vars: seq<string>)
    ensures WrittenStep(Multiply) == WrittenStep(Add) == " + $L"
    ensures Combination(Multiply, vars) == Combination(Add, vars)
  {
  }

  /** The infix operator the name of a flat operator promises. */
  function Separator(m: Method): string
    requires IsFlat(m)
  {
    match m
    case Multiply => " * "
    case And => " && "
    case Or => " || "
    case _ => " + "
  }

  /** `$L` once per input, with `sep` between neighbours. */
  function JoinedFormat(n: nat, sep: string): string
  {
    if n == 0 then "" else if n == 1 then "$L" else "$L" + sep + JoinedFormat(n - 1, sep)
  }

  /** The pair each operator evidently means to hand over: the flat operators put their infix operator between inputs. */
  function IntendedCombination(m: Method, vars: seq<string>): Code
  {
    if |vars| == 1 then Code("$L", [Lit(vars[0])])
    else match m
      case Max => NestCode("max", vars)
      case Min => NestCode("min", vars)
      case Average => Code("(" + JoinedFormat(|vars|, Separator(Average)) + ") / $L", Lits(vars) + [Lit(NatToString(|vars|))])
      case _ => Code(JoinedFormat(|vars|, Separator(m)), Lits(vars))
  }

  lemma {:induction false} JoinedRenders(vars: seq<string>, sep: string, math: string)
    requires '$' !in sep
    ensures Scan(JoinedFormat(|vars|, sep), Lits(vars), math) == Some((Join(vars, sep), []))
  {
    if |vars| == 1 {
      ScanLiteral(Lit(vars[0]), [], math);
      assert Lits(vars) == [Lit(vars[0])] + [];
    } else if |vars| >= 2 {
      var rest := Lits(vars[1..]);
      assert Lits(vars) == [Lit(vars[0])] + rest;
      JoinedRenders(vars[1..], sep, math);
      ScanLiteral(Lit(vars[0]), rest, math);
      ScanPlain(sep, rest, math);
      ScanAppend("$L", sep, Lits(vars), math, vars[0], rest);
      ScanAppend("$L" + sep, JoinedFormat(|vars| - 1, sep), Lits(vars), math, vars[0] + sep, rest);
    }
  }

  /** The corrected flat operators render their inputs joined by their infix operator. */
  lemma IntendedFlatOperators(m: Method, vars: seq<string>, math: string)
    requires IsFlat(m) && m != Average
    ensures Render(IntendedCombination(m, vars).format, IntendedCombination(m, vars).args, math)
         == Some(Join(vars, Separator(m)))
  {
    assert '$' !in Separator(m);
    JoinedRenders(vars, Separator(m), math);
    if |vars| == 1 {
      assert JoinedFormat(1, Separator(m)) == "$L";
      assert Lits(vars) == [Lit(vars[0])];
    }
  }

  /** The corrected `average` renders the parenthesised sum of its inputs divided by their number. */
  lemma IntendedAverage(vars: seq<string>, math: string)
    requires |vars| >= 2
    ensures Render(IntendedCombination(Average, vars).format, IntendedCombination(Average, vars).args, math)
         == Some("(" + Join(vars, " + ") + ") / " + NatToString(|vars|))
  {
    JoinedRenders(vars, " + ", math);
    ScanDivided(JoinedFormat(|vars|, " + "), Lits(vars), NatToString(|vars|), Join(vars, " + "), math);
  }

  /** `add` of `a` and `b`, corrected, renders `a + b`; `multiply`, corrected, renders `a * b`. */
  lemma IntendedExamples(math: string)
    ensures Render(IntendedCombination(Add, ["a", "b"]).format, IntendedCombination(Add, ["a", "b"]).args, math) == Some("a + b")
    ensures Render(IntendedCombination(Multiply, ["a", "b"]).format, IntendedCombination(Multiply, ["a", "b"]).args, math) == Some("a * b")
  {
    IntendedFlatOperators(Add, ["a", "b"], math);
    IntendedFlatOperators(Multiply, ["a", "b"], math);
    assert Join(["a", "b"], " + ") == "a + b";
    assert Join(["a", "b"], " * ") == "a * b";
  }
}
