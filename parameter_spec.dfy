/**
 * JavaPoet's `ParameterSpec`: an immutable declaration of a method
 * parameter (name, type, modifiers, annotations, javadoc), made by a
 * mutable `Builder`, written out through a `CodeWriter`, and compared and
 * hashed by its written text.
 *
 * `TypeName`, `AnnotationSpec` and `CodeBlock` are not part of this model:
 * they are the type parameters `T`, `A` and `J`, and how the writer spells
 * them is given by a `Rendering`.
 */
module ParameterSpecs {
  import opened Common
  import opened JavaNames

  /** `javax.lang.model.element.Modifier`. */
  datatype Modifier =
    | Public | Protected | Private | Abstract | Default | Static | Sealed | NonSealed
    | Final | Transient | Volatile | Synchronized | Native | Strictfp

  /** How `CodeWriter` writes the parts of a parameter. */
  datatype Rendering<!T, !A> = Rendering(
    annotationsText: seq<A> -> string,   // emitAnnotations(annotations, inline = true)
    modifiersText: set<Modifier> -> string,  // emitModifiers
    typeText: T -> string,               // type.emit
    isArray: T -> bool,                  // TypeName.asArray(type) gives an array type, not null
    varargsText: T -> string             // the array type written in varargs form, `int...`
  )

  predicate EndsWith(s: string, suffix: string)
  {
    |suffix| <= |s| && s[|s| - |suffix|..] == suffix
  }

  /** A receiver parameter's name, `Outer.this` (section 8.4.1 of the Java Language Specification). */
  predicate IsReceiverName(name: string)
  {
    EndsWith(name, ".this") && IsIdentifier(name[..|name| - 5])
  }

  /** The names `builder` accepts. */
  predicate IsValidParameterName(name: string)
  {
    if EndsWith(name, ".this") then IsIdentifier(name[..|name| - 5])
    else name == "this" || IsName(name)
  }

  /** The set of modifiers a list holds. */
  function ModifierSet(mods: seq<Modifier>): (s: set<Modifier>)
    ensures forall m :: m in s <==> m in mods
  {
    set m | m in mods
  }

  /** How many modifiers at the front of `mods` are `Final`: the first other one is refused. */
  function FinalPrefix(mods: seq<Modifier>): (n: nat)
    ensures n <= |mods|
    ensures forall i :: 0 <= i < n ==> mods[i] == Final
    ensures n < |mods| ==> mods[n] != Final
  {
    if |mods| == 0 || mods[0] != Final then 0 else 1 + FinalPrefix(mods[1..])
  }

  /** A text sink: `CodeWriter` over a `StringBuilder`. */
  class CodeWriter {
    var out: string

    constructor ()
      ensures out == ""
    {
      out := "";
    }

    method Emit(s: string)
      modifies this
      ensures out == old(out) + s
    {
      out := out + s;
    }
  }

  datatype ParameterSpec<T, A, J> = ParameterSpec(
    name: string,
    annotations: seq<A>,
    modifiers: set<Modifier>,
    typeName: T,
    javadoc: seq<J>)
  {
    predicate HasModifier(m: Modifier)
    {
      m in modifiers
    }

    /**
     * What `emit` writes: the annotations, the modifiers, the type (in
     * varargs form when asked for, which needs an array type), a space and
     * the name.
     */
    function EmitText(varargs: bool, r: Rendering<T, A>): string
      requires varargs ==> r.isArray(typeName)
    {
      r.annotationsText(annotations) + r.modifiersText(modifiers)
      + (if varargs then r.varargsText(typeName) else r.typeText(typeName)) + " " + name
    }

    /** The canonical text: what `toString` gives. */
    function Text(r: Rendering<T, A>): string
    {
      EmitText(false, r)
    }

    /** `emit`, one write after the other into the writer. */
    method Emit(w: CodeWriter, varargs: bool, r: Rendering<T, A>)
      requires varargs ==> r.isArray(typeName)
      modifies w
      ensures w.out == old(w.out) + EmitText(varargs, r)
    {
      w.Emit(r.annotationsText(annotations));
      w.Emit(r.modifiersText(modifiers));
      if varargs {
        w.Emit(r.varargsText(typeName));
      } else {
        w.Emit(r.typeText(typeName));
      }
      w.Emit(" " + name);
    }

    /** `toString`: `emit` without varargs into a fresh writer. */
    method ToString(r: Rendering<T, A>) returns (s: string)
      ensures s == Text(r)
    {
      var w := new CodeWriter();
      Emit(w, false, r);
      s := w.out;
    }

    /** `equals`: two parameters are equal when their texts are. */
    predicate Equals(other: ParameterSpec<T, A, J>, r: Rendering<T, A>)
    {
      Text(r) == other.Text(r)
    }

    /** `hashCode`: the hash of the text, with `stringHash` standing for `String.hashCode`. */
    function HashCode(r: Rendering<T, A>, stringHash: string -> int): int
    {
      stringHash(Text(r))
    }

    /** `toBuilder`: a builder holding this parameter's type, name, annotations and modifiers, and no javadoc. */
    method ToBuilder() returns (b: Builder<T, A, J>)
      ensures fresh(b)
      ensures b.typeName == typeName && b.name == name
      ensures b.annotations == annotations && b.javadoc == []
      ensures ModifierSet(b.modifiers) == modifiers && |b.modifiers| == |modifiers|
    {
      b := new Builder(typeName, name);
      b.annotations := b.annotations + annotations;
      var rest := modifiers;
      while rest != {}
        invariant ModifierSet(b.modifiers) + rest == modifiers
        invariant forall m :: m in rest ==> m !in b.modifiers
        invariant |b.modifiers| + |rest| == |modifiers|
        invariant b.typeName == typeName && b.name == name
        invariant b.annotations == annotations && b.javadoc == []
        decreases |rest|
      {
        var m :| m in rest;
        b.modifiers := b.modifiers + [m];
        rest := rest - {m};
      }
    }
  }

  /** `ParameterSpec.Builder`. */
  class Builder<T, A, J> {
    const typeName: T
    const name: string
    var annotations: seq<A>
    var modifiers: seq<Modifier>
    var javadoc: seq<J>

    constructor (typeName: T, name: string)
      ensures this.typeName == typeName && this.name == name
      ensures annotations == [] && modifiers == [] && javadoc == []
    {
      this.typeName := typeName;
      this.name := name;
      annotations := [];
      modifiers := [];
      javadoc := [];
    }

    /** `addJavadoc`: appends a block to the javadoc. */
    method AddJavadoc(block: J) returns (b: Builder<T, A, J>)
      modifies this
      ensures b == this
      ensures javadoc == old(javadoc) + [block]
      ensures annotations == old(annotations) && modifiers == old(modifiers)
    {
      javadoc := javadoc + [block];
      b := this;
    }

    /** `addAnnotations`: appends each annotation in order. */
    method AddAnnotations(specs: seq<A>) returns (b: Builder<T, A, J>)
      modifies this
      ensures b == this
      ensures annotations == old(annotations) + specs
      ensures modifiers == old(modifiers) && javadoc == old(javadoc)
    {
      var i := 0;
      while i < |specs|
        invariant 0 <= i <= |specs|
        invariant annotations == old(annotations) + specs[..i]
        invariant modifiers == old(modifiers) && javadoc == old(javadoc)
      {
        annotations := annotations + [specs[i]];
        i := i + 1;
      }
      assert specs[..|specs|] == specs;
      b := this;
    }

    /** `addAnnotation`: appends one annotation. */
    method AddAnnotation(spec: A) returns (b: Builder<T, A, J>)
      modifies this
      ensures b == this
      ensures annotations == old(annotations) + [spec]
      ensures modifiers == old(modifiers) && javadoc == old(javadoc)
    {
      annotations := annotations + [spec];
      b := this;
    }

    /** The varargs `addModifiers`: appends every modifier, unchecked. */
    method AddModifiers(mods: seq<Modifier>) returns (b: Builder<T, A, J>)
      modifies this
      ensures b == this
      ensures modifiers == old(modifiers) + mods
      ensures annotations == old(annotations) && javadoc == old(javadoc)
    {
      modifiers := modifiers + mods;
      b := this;
    }

    /**
     * `addModifiers` over an `Iterable`: appends modifiers while they are
     * `Final`; the first other one stops the loop with an
     * `IllegalStateException`, reported as `failure`, after the ones before
     * it have been appended.
     */
    method AddModifiersFrom(mods: seq<Modifier>) returns (b: Builder<T, A, J>, failure: Option<Modifier>)
      modifies this
      ensures b == this
      ensures modifiers == old(modifiers) + mods[..FinalPrefix(mods)]
      ensures failure == if FinalPrefix(mods) < |mods| then Some(mods[FinalPrefix(mods)]) else None
      ensures annotations == old(annotations) && javadoc == old(javadoc)
    {
      b := this;
      var i := 0;
      while i < |mods|
        invariant 0 <= i <= |mods|
        invariant forall k :: 0 <= k < i ==> mods[k] == Final
        invariant modifiers == old(modifiers) + mods[..i]
        invariant annotations == old(annotations) && javadoc == old(javadoc)
      {
        if mods[i] != Final {
          return this, Some(mods[i]);
        }
        modifiers := modifiers + [mods[i]];
        i := i + 1;
      }
      assert mods[..|mods|] == mods;
      failure := None;
    }

    /** `build`: a parameter holding copies of the builder's lists, its modifiers as a set. */
    method Build() returns (p: ParameterSpec<T, A, J>)
      ensures p.name == name && p.typeName == typeName
      ensures p.annotations == annotations && p.javadoc == javadoc
      ensures p.modifiers == ModifierSet(modifiers)
      ensures forall m :: p.HasModifier(m) <==> m in modifiers
    {
      p := ParameterSpec(name, annotations, ModifierSet(modifiers), typeName, javadoc);
    }
  }

  /**
   * `ParameterSpec.builder(type, name, modifiers...)`: refuses a name that is
   * not a valid parameter name (an `IllegalArgumentException`), otherwise a
   * new builder holding the modifiers, unchecked.
   */
  method NewBuilder<T, A, J>(typeName: T, name: string, mods: seq<Modifier>) returns (r: Option<Builder<T, A, J>>)
    ensures r.None? <==> !IsValidParameterName(name)
    ensures r.Some? ==> fresh(r.value) && r.value.typeName == typeName && r.value.name == name
    ensures r.Some? ==> r.value.annotations == [] && r.value.modifiers == mods && r.value.javadoc == []
  {
    if !IsValidParameterName(name) {
      return None;
    }
    var b := new Builder(typeName, name);
    var _ := b.AddModifiers(mods);
    r := Some(b);
  }

  /** A spec built, then the builder changed: the spec already built keeps the annotations it was built with. */
  method BuildThenAnnotate<T, A, J>(b: Builder<T, A, J>, extra: A) returns (before: ParameterSpec<T, A, J>, after: ParameterSpec<T, A, J>)
    modifies b
    ensures before.annotations == old(b.annotations)
    ensures after.annotations == old(b.annotations) + [extra]
    ensures before.name == after.name && before.modifiers == after.modifiers
  {
    before := b.Build();
    var _ := b.AddAnnotation(extra);
    after := b.Build();
  }

  /**
   * `toBuilder` then `build` gives back a parameter with the same text,
   * annotations and modifiers; only the javadoc is not carried over.
   */
  method Rebuild<T, A, J>(p: ParameterSpec<T, A, J>, r: Rendering<T, A>) returns (q: ParameterSpec<T, A, J>)
    ensures q.Text(r) == p.Text(r) && q.Equals(p, r)
    ensures q.name == p.name && q.typeName == p.typeName
    ensures q.annotations == p.annotations && q.modifiers == p.modifiers && q.javadoc == []
  {
    var b := p.ToBuilder();
    q := b.Build();
  }

  // -------------------------------------------------------------------
  // Names
  // -------------------------------------------------------------------

  /**
   * The names `builder` accepts are exactly the receiver names `Outer.this`,
   * `this` itself, and qualified names none of whose parts is a keyword.
   */
  lemma ValidParameterNameCases(name: string)
    ensures IsValidParameterName(name) <==> IsReceiverName(name) || name == "this" || IsName(name)
  {
    if EndsWith(name, ".this") {
      var x := name[..|name| - 5];
      assert name == x + "." + "this";
      SplitLastPart(x, "this");
      var parts := Split(name);
      assert parts[|parts| - 1] == "this";
      assert IsKeyword("this") by { assert "this" in DeclarationKeywords; }
      assert !IsName(name);
    }
  }

  /** Every keyword but `this` is refused as a parameter name. */
  lemma KeywordsRefused(k: string)
    requires IsKeyword(k) && k != "this"
    ensures !IsValidParameterName(k)
  {
    KeywordsHaveNoDot(k);
    assert |k| >= 5 ==> k[|k| - 5..][0] == k[|k| - 5] != '.';
    SplitNoDot(k);
  }

  /** No accepted name holds a space. */
  lemma ValidNameHasNoSpace(name: string)
    requires IsValidParameterName(name)
    ensures ' ' !in name
  {
    if EndsWith(name, ".this") {
      var x := name[..|name| - 5];
      assert name == x + ".this";
    } else if name != "this" {
      var parts := Split(name);
      forall i | 0 <= i < |parts|
        ensures ' ' !in parts[i]
      {
        assert parts[i] in parts;
      }
      JoinAvoids(parts, ".", ' ');
    }
  }

  /** Two texts ending in a space and a space-free name end in the same name only when the names are equal. */
  lemma SameTailSameName(x: string, y: string, n1: string, n2: string)
    requires ' ' !in n1 && ' ' !in n2
    requires x + " " + n1 == y + " " + n2
    ensures n1 == n2
  {
    var s := x + " " + n1;
    assert s == y + " " + n2;
    assert s[|x|] == ' ' && s[|y|] == ' ';
    assert forall k :: |x| < k < |s| ==> s[k] == n1[k - |x| - 1];
    assert forall k :: |y| < k < |s| ==> s[k] == n2[k - |y| - 1];
    assert |x| == |y|;
    assert n1 == s[|x| + 1..] == n2;
  }

  /**
   * Equal parameters have equal names: a difference in the name alone
   * always makes two parameters unequal.
   */
  lemma EqualParametersHaveEqualNames<T, A, J>(a: ParameterSpec<T, A, J>, b: ParameterSpec<T, A, J>, r: Rendering<T, A>)
    requires IsValidParameterName(a.name) && IsValidParameterName(b.name)
    requires a.Equals(b, r)
    ensures a.name == b.name
  {
    ValidNameHasNoSpace(a.name);
    ValidNameHasNoSpace(b.name);
    var x := r.annotationsText(a.annotations) + r.modifiersText(a.modifiers) + r.typeText(a.typeName);
    var y := r.annotationsText(b.annotations) + r.modifiersText(b.modifiers) + r.typeText(b.typeName);
    SameTailSameName(x, y, a.name, b.name);
  }

  /** `equals` is an equivalence, and equal parameters hash alike. */
  lemma EqualsAndHashCode<T, A, J>(a: ParameterSpec<T, A, J>, b: ParameterSpec<T, A, J>, c: ParameterSpec<T, A, J>,
                                   r: Rendering<T, A>, stringHash: string -> int)
    ensures a.Equals(a, r)
    ensures a.Equals(b, r) ==> b.Equals(a, r)
    ensures a.Equals(b, r) && b.Equals(c, r) ==> a.Equals(c, r)
    ensures a.Equals(b, r) ==> a.HashCode(r, stringHash) == b.HashCode(r, stringHash)
  {
  }

  /**
   * The canonical text ends with a space and the name, and writing in
   * varargs form changes only the type's part of it.
   */
  lemma TextShape<T, A, J>(p: ParameterSpec<T, A, J>, r: Rendering<T, A>)
    ensures EndsWith(p.Text(r), " " + p.name)
    ensures r.isArray(p.typeName) ==>
      var prefix := r.annotationsText(p.annotations) + r.modifiersText(p.modifiers);
      p.Text(r) == prefix + r.typeText(p.typeName) + " " + p.name
      && p.EmitText(true, r) == prefix + r.varargsText(p.typeName) + " " + p.name
  {
    var t := p.Text(r);
    var x := r.annotationsText(p.annotations) + r.modifiersText(p.modifiers) + r.typeText(p.typeName);
    assert t == x + (" " + p.name);
  }

  /** Adding a modifier again changes nothing that is built: modifiers are kept as a set. */
  lemma RepeatedModifierIsKeptOnce(mods: seq<Modifier>, m: Modifier)
    ensures ModifierSet(mods + [m, m]) == ModifierSet(mods + [m])
  {
    assert forall x :: x in mods + [m, m] <==> x in mods + [m];
  }
}

