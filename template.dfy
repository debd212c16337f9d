/**
 * What a JavaPoet `(format, args)` pair made of `$L` and `$T` placeholders
 * renders to. `$L` writes its argument as it is; `$T` writes a type
 * reference. The only type the combinators pass is `java.lang.Math`, and
 * how it is spelled (`Math`, or a qualified name) depends on the imports of
 * the file being written, so that spelling is a parameter here.
 */
module Template {
  import opened Common

  /** An argument of a format: a literal text, or the class `java.lang.Math`. */
  datatype Arg = Lit(text: string) | MathClass

  /** The kind of a placeholder, and the kind of argument each one takes. */
  datatype Kind = LiteralKind | TypeKind

  function ArgKind(a: Arg): Kind
  {
    if a.MathClass? then TypeKind else LiteralKind
  }

  function ArgKinds(args: seq<Arg>): (ks: seq<Kind>)
    ensures |ks| == |args|
    ensures forall i :: 0 <= i < |args| ==> ks[i] == ArgKind(args[i])
  {
    if |args| == 0 then [] else [ArgKind(args[0])] + ArgKinds(args[1..])
  }

  /** How many of `ks` are of kind `k`. */
  function CountKind(ks: seq<Kind>, k: Kind): nat
  {
    if |ks| == 0 then 0 else (if ks[0] == k then 1 else 0) + CountKind(ks[1..], k)
  }

  /** Each text wrapped as a literal argument. */
  function Lits(vars: seq<string>): (args: seq<Arg>)
    ensures |args| == |vars|
    ensures forall i :: 0 <= i < |vars| ==> args[i] == Lit(vars[i])
  {
    if |vars| == 0 then [] else [Lit(vars[0])] + Lits(vars[1..])
  }

  /** The text `$L` writes for an argument. */
  function LiteralText(a: Arg, math: string): string
  {
    match a
    case Lit(t) => t
    case MathClass => math
  }

  /** The placeholders of a format, left to right. */
  function Placeholders(f: string): seq<Kind>
  {
    if |f| < 2 then []
    else if f[0] == '$' && f[1] == 'L' then [LiteralKind] + Placeholders(f[2..])
    else if f[0] == '$' && f[1] == 'T' then [TypeKind] + Placeholders(f[2..])
    else Placeholders(f[1..])
  }

  function Prepend(s: string, o: Option<(string, seq<Arg>)>): Option<(string, seq<Arg>)>
  {
    match o
    case None => None
    case Some(p) => Some((s + p.0, p.1))
  }

  /**
   * Renders `f` left to right, taking arguments from `args` in order; gives
   * the text and the arguments left over, or `None` when a placeholder finds
   * no argument of its kind or a `$` starts no placeholder.
   */
  function Scan(f: string, args: seq<Arg>, math: string): Option<(string, seq<Arg>)>
  {
    if |f| == 0 then Some(("", args))
    else if f[0] != '$' then Prepend([f[0]], Scan(f[1..], args, math))
    else if |f| >= 2 && f[1] == 'L' && |args| > 0 then
      Prepend(LiteralText(args[0], math), Scan(f[2..], args[1..], math))
    else if |f| >= 2 && f[1] == 'T' && |args| > 0 && args[0] == MathClass then
      Prepend(math, Scan(f[2..], args[1..], math))
    else None
  }

  /** The rendered text, when the format uses every argument exactly once. */
  function Render(f: string, args: seq<Arg>, math: string): Option<string>
  {
    match Scan(f, args, math)
    case Some((s, rest)) => if |rest| == 0 then Some(s) else None
    case None => None
  }

  /** A format with no `$` renders to itself and takes no argument. */
  lemma {:induction false} ScanPlain(f: string, args: seq<Arg>, math: string)
    requires '$' !in f
    ensures Scan(f, args, math) == Some((f, args))
  {
    if |f| > 0 {
      assert f[0] != '$';
      assert '$' !in f[1..] by { assert forall k :: 0 <= k < |f[1..]| ==> f[1..][k] == f[k + 1]; }
      ScanPlain(f[1..], args, math);
      assert [f[0]] + f[1..] == f;
    }
  }

  /** Rendering a concatenation renders the first part, then the second part from the arguments left over. */
  lemma {:induction false} ScanAppend(f1: string, f2: string, args: seq<Arg>, math: string, s1: string, rest: seq<Arg>)
    requires Scan(f1, args, math) == Some((s1, rest))
    ensures Scan(f1 + f2, args, math) == Prepend(s1, Scan(f2, rest, math))
  {
    var f := f1 + f2;
    if |f1| == 0 {
      assert f == f2;
      var o := Scan(f2, rest, math);
      if o.Some? { assert s1 + o.value.0 == o.value.0; }
    } else if f1[0] != '$' {
      assert f[1..] == f1[1..] + f2;
      var t :| Scan(f1[1..], args, math) == Some((t, rest)) && s1 == [f1[0]] + t;
      ScanAppend(f1[1..], f2, args, math, t, rest);
      PrependTwice([f1[0]], t, Scan(f2, rest, math));
    } else {
      assert |f1| >= 2;
      assert f[2..] == f1[2..] + f2;
      var t :| Scan(f1[2..], args[1..], math) == Some((t, rest))
               && (s1 == LiteralText(args[0], math) + t || s1 == math + t);
      ScanAppend(f1[2..], f2, args[1..], math, t, rest);
      PrependTwice(LiteralText(args[0], math), t, Scan(f2, rest, math));
      PrependTwice(math, t, Scan(f2, rest, math));
    }
  }

  lemma PrependTwice(a: string, b: string, o: Option<(string, seq<Arg>)>)
    ensures Prepend(a, Prepend(b, o)) == Prepend(a + b, o)
  {
    if o.Some? {
      assert a + (b + o.value.0) == (a + b) + o.value.0;
    }
  }

  /** Arguments beyond those a format takes are left over untouched. */
  lemma {:induction false} ScanExtraArgs(f: string, args: seq<Arg>, extra: seq<Arg>, math: string, s: string, rest: seq<Arg>)
    requires Scan(f, args, math) == Some((s, rest))
    ensures Scan(f, args + extra, math) == Some((s, rest + extra))
  {
    if |f| == 0 {
    } else if f[0] != '$' {
      var t :| Scan(f[1..], args, math) == Some((t, rest)) && s == [f[0]] + t;
      ScanExtraArgs(f[1..], args, extra, math, t, rest);
    } else {
      assert (args + extra)[1..] == args[1..] + extra;
      var t :| Scan(f[2..], args[1..], math) == Some((t, rest)) && (s == LiteralText(args[0], math) + t || s == math + t);
      ScanExtraArgs(f[2..], args[1..], extra, math, t, rest);
    }
  }

  /**
   * A format whose only `$` signs start placeholders renders whenever its
   * placeholders match the kinds of the arguments one to one.
   */
  predicate OnlyPlaceholders(f: string)
  {
    if |f| == 0 then true
    else if f[0] != '$' then OnlyPlaceholders(f[1..])
    else |f| >= 2 && (f[1] == 'L' || f[1] == 'T') && OnlyPlaceholders(f[2..])
  }

  lemma {:induction false} MatchedFormatRenders(f: string, args: seq<Arg>, math: string)
    requires OnlyPlaceholders(f)
    requires Placeholders(f) == ArgKinds(args)
    ensures Render(f, args, math).Some?
    ensures Scan(f, args, math).Some? && Scan(f, args, math).value.1 == []
  {
    if |f| == 0 {
    } else if f[0] != '$' {
      assert Placeholders(f) == Placeholders(f[1..]) by {
        if |f| >= 2 { assert !(f[0] == '$'); }
      }
      MatchedFormatRenders(f[1..], args, math);
    } else {
      assert |args| > 0 && ArgKinds(args)[1..] == ArgKinds(args[1..]);
      MatchedFormatRenders(f[2..], args[1..], math);
    }
  }

  /** `$L` writes the next argument. */
  lemma ScanLiteral(a: Arg, rest: seq<Arg>, math: string)
    ensures Scan("$L", [a] + rest, math) == Some((LiteralText(a, math), rest))
  {
    var f := "$L";
    assert |f| == 2 && f[0] == '$' && f[1] == 'L' && f[2..] == "";
    assert ([a] + rest)[1..] == rest;
    assert LiteralText(a, math) + "" == LiteralText(a, math);
  }

  /** `$T` writes the class passed for it. */
  lemma ScanType(rest: seq<Arg>, math: string)
    ensures Scan("$T", [MathClass] + rest, math) == Some((math, rest))
  {
    var f := "$T";
    assert |f| == 2 && f[0] == '$' && f[1] == 'T' && f[2..] == "";
    assert ([MathClass] + rest)[1..] == rest;
    assert math + "" == math;
  }

  /** A format with no `$` has no placeholder. */
  lemma {:induction false} PlainFormat(f: string)
    requires '$' !in f
    ensures OnlyPlaceholders(f) && Placeholders(f) == []
  {
    if |f| > 0 {
      assert f[0] != '$';
      assert '$' !in f[1..] by { assert forall k :: 0 <= k < |f[1..]| ==> f[1..][k] == f[k + 1]; }
      PlainFormat(f[1..]);
    }
  }

  lemma PlaceholderFormats()
    ensures OnlyPlaceholders("$L") && Placeholders("$L") == [LiteralKind]
    ensures OnlyPlaceholders("$T") && Placeholders("$T") == [TypeKind]
  {
    var l, t := "$L", "$T";
    assert |l| == 2 && l[0] == '$' && l[1] == 'L' && l[2..] == "";
    assert |t| == 2 && t[0] == '$' && t[1] == 'T' && t[2..] == "";
  }

  /** The placeholders of a concatenation are those of its parts, when the first part leaves no `$` dangling. */
  lemma {:induction false} PlaceholdersAppend(f1: string, f2: string)
    requires OnlyPlaceholders(f1)
    ensures Placeholders(f1 + f2) == Placeholders(f1) + Placeholders(f2)
    ensures OnlyPlaceholders(f1 + f2) == OnlyPlaceholders(f2)
  {
    var f := f1 + f2;
    if |f1| == 0 {
      assert f == f2;
    } else if f1[0] != '$' {
      assert f[0] == f1[0];
      assert f[1..] == f1[1..] + f2;
      PlaceholdersAppend(f1[1..], f2);
      if |f| >= 2 {
        assert Placeholders(f) == Placeholders(f[1..]);
        if |f1| < 2 { assert f1[1..] == ""; }
      } else {
        assert |f1| == 1 && f2 == "" && f1[1..] == "";
      }
    } else {
      assert f[0] == '$' && f[1] == f1[1];
      assert f[2..] == f1[2..] + f2;
      PlaceholdersAppend(f1[2..], f2);
    }
  }

  lemma ArgKindsAppend(a: seq<Arg>, b: seq<Arg>)
    ensures ArgKinds(a + b) == ArgKinds(a) + ArgKinds(b)
  {
    var l, r := ArgKinds(a + b), ArgKinds(a) + ArgKinds(b);
    forall i | 0 <= i < |a + b|
      ensures l[i] == r[i]
    {
      if i < |a| {
        assert (a + b)[i] == a[i];
      } else {
        assert (a + b)[i] == b[i - |a|];
      }
    }
  }
}
