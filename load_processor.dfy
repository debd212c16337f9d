/**
 * `LoadProcessor`: the annotation processor that writes the `Regions`
 * class. Every element annotated `@Load` names texture regions; each
 * region, the first time it is named, gets a public static
 * `TextureRegion` field and a statement in `load()` that finds it in the
 * atlas, and, when that annotation asks for an outline, an outline field
 * and statement as well.
 *
 * The annotated elements are given as a sequence in the order the
 * compiler reports them, and `Strings.kebabToCamel` is the parameter
 * `camel`.
 */
module LoadProcessor {
  import opened Common

  /** The values of one `@Load` annotation. */
  datatype LoadAnn = LoadAnn(value: seq<string>, outline: bool, outlineColor: string, outlineRadius: int)

  /** The `@Outline(color = ..., radius = ...)` annotation put on an outline field. */
  datatype OutlineAnn = OutlineAnn(color: string, radius: int)

  /** A public static `TextureRegion` field of `Regions`. */
  datatype Field = Field(name: string, outline: Option<OutlineAnn>)

  /** The statement `$L = $T.atlas.find($S)` with the field, `Core` and the atlas key. */
  datatype Statement = Statement(target: string, key: string)

  /** A method of an annotation type: its name and return type. */
  datatype Member = Member(name: string, returnType: string)

  /** An annotation type declaration, with its `@Target` and `@Retention`. */
  datatype AnnotationType = AnnotationType(name: string, target: string, retention: string, members: seq<Member>)

  /** The generated class `Regions`. */
  datatype Regions = Regions(
    javadoc: string,
    nested: AnnotationType,
    fields: seq<Field>,
    loadJavadoc: string,
    load: seq<Statement>)

  /** The nested `Outline` annotation type, the same whatever the input. */
  const OutlineType := AnnotationType("Outline", "FIELD", "RUNTIME", [Member("color", "String"), Member("radius", "int")])

  /** One region name together with the annotation that named it. */
  datatype Entry = Entry(region: string, ann: LoadAnn)

  /** The entries of one annotation, in the order of its `value`. */
  function Entries(a: LoadAnn): (es: seq<Entry>)
    ensures |es| == |a.value|
    ensures forall k :: 0 <= k < |a.value| ==> es[k] == Entry(a.value[k], a)
  {
    seq(|a.value|, k requires 0 <= k < |a.value| => Entry(a.value[k], a))
  }

  /** The entries of all annotations, in the order the nested loops visit them. */
  function Flatten(anns: seq<LoadAnn>): seq<Entry>
  {
    if |anns| == 0 then [] else Flatten(anns[..|anns| - 1]) + Entries(anns[|anns| - 1])
  }

  /** The regions named by some entry. */
  function RegionsOf(es: seq<Entry>): set<string>
  {
    set i | 0 <= i < |es| :: es[i].region
  }

  /** The entries that name a region for the first time: the ones the loop does not skip. */
  function FirstOccurrences(es: seq<Entry>): seq<Entry>
  {
    if |es| == 0 then []
    else
      var before := es[..|es| - 1];
      FirstOccurrences(before) + (if es[|es| - 1].region in RegionsOf(before) then [] else [es[|es| - 1]])
  }

  /** The fields one handled entry adds. */
  function FieldsFor(e: Entry, camel: string -> string): seq<Field>
  {
    var name := camel(e.region);
    [Field(name + "Region", None)]
    + if e.ann.outline then [Field(name + "OutlineRegion", Some(OutlineAnn(e.ann.outlineColor, e.ann.outlineRadius)))] else []
  }

  /** The statements one handled entry adds. */
  function StatementsFor(e: Entry, camel: string -> string): seq<Statement>
  {
    var name := camel(e.region);
    [Statement(name + "Region", "lonetrail-" + e.region)]
    + if e.ann.outline then [Statement(name + "OutlineRegion", "lonetrail-" + e.region + "-outline")] else []
  }

  function FieldsOf(es: seq<Entry>, camel: string -> string): seq<Field>
  {
    if |es| == 0 then [] else FieldsOf(es[..|es| - 1], camel) + FieldsFor(es[|es| - 1], camel)
  }

  function StatementsOf(es: seq<Entry>, camel: string -> string): seq<Statement>
  {
    if |es| == 0 then [] else StatementsOf(es[..|es| - 1], camel) + StatementsFor(es[|es| - 1], camel)
  }

  /** What `process` writes in a round: the `Regions` class in the first round, nothing after. */
  function Generate(round: int, anns: seq<LoadAnn>, camel: string -> string): Option<Regions>
  {
    if round != 1 then None
    else
      var handled := FirstOccurrences(Flatten(anns));
      Some(Regions("Generic texture regions", OutlineType, FieldsOf(handled, camel),
                   "Loads the texture regions", StatementsOf(handled, camel)))
  }

  /**
   * `process`: in the first round, the nested loops over the annotated
   * elements and their region names, skipping every region already in
   * `processed`.
   */
  method Process(round: int, anns: seq<LoadAnn>, camel: string -> string) returns (out: Option<Regions>)
    ensures out == Generate(round, anns, camel)
    ensures out.Some? <==> round == 1
    ensures out.Some? ==> out.value.nested == OutlineType
  {
    if round != 1 {
      return None;
    }
    var fields: seq<Field> := [];
    var load: seq<Statement> := [];
    var processed: set<string> := {};
    var i := 0;
    while i < |anns|
      invariant 0 <= i <= |anns|
      invariant Built(Flatten(anns[..i]), processed, fields, load, camel)
    {
      var ann := anns[i];
      ghost var done := Flatten(anns[..i]);
      var j := 0;
      ghost var seen := done;
      assert done + Entries(ann)[..0] == done;
      while j < |ann.value|
        invariant 0 <= j <= |ann.value|
        invariant seen == done + Entries(ann)[..j]
        invariant Built(seen, processed, fields, load, camel)
      {
        var reg := ann.value[j];
        ghost var e := Entry(reg, ann);
        EntriesStep(done, ann, j);
        BuiltStep(seen, e, processed, fields, load, camel);
        var added := reg !in processed;
        processed := processed + {reg};
        if added {
          var newFields, newLoad := EmitRegion(reg, ann, camel);
          fields := fields + newFields;
          load := load + newLoad;
        }
        seen := seen + [e];
        j := j + 1;
      }
      assert Entries(ann)[..|ann.value|] == Entries(ann);
      FlattenStep(anns, i);
      i := i + 1;
    }
    assert anns[..|anns|] == anns;
    out := Some(Regions("Generic texture regions", OutlineType, fields, "Loads the texture regions", load));
  }

  /** What the loops have built once they have visited the entries `seen`. */
  predicate Built(seen: seq<Entry>, processed: set<string>, fields: seq<Field>, load: seq<Statement>, camel: string -> string)
  {
    processed == RegionsOf(seen)
    && fields == FieldsOf(FirstOccurrences(seen), camel)
    && load == StatementsOf(FirstOccurrences(seen), camel)
  }

  /** One visit: a new region adds its fields and statements, a seen one adds nothing. */
  lemma BuiltStep(seen: seq<Entry>, e: Entry, processed: set<string>, fields: seq<Field>, load: seq<Statement>, camel: string -> string)
    requires Built(seen, processed, fields, load, camel)
    ensures e.region !in processed ==>
      Built(seen + [e], processed + {e.region}, fields + FieldsFor(e, camel), load + StatementsFor(e, camel), camel)
    ensures e.region in processed ==> Built(seen + [e], processed + {e.region}, fields, load, camel)
  {
    RegionsOfSnoc(seen, e);
    HandledFieldsSnoc(seen, e, camel);
    HandledStatementsSnoc(seen, e, camel);
  }

  /** The body of `if (processed.add(reg))`: the region field, and its outline field when asked for. */
  method EmitRegion(reg: string, ann: LoadAnn, camel: string -> string) returns (fields: seq<Field>, load: seq<Statement>)
    ensures fields == FieldsFor(Entry(reg, ann), camel)
    ensures load == StatementsFor(Entry(reg, ann), camel)
  {
    var name := camel(reg);
    fields := [Field(name + "Region", None)];
    load := [Statement(name + "Region", "lonetrail-" + reg)];
    if ann.outline {
      fields := fields + [Field(name + "OutlineRegion", Some(OutlineAnn(ann.outlineColor, ann.outlineRadius)))];
      load := load + [Statement(name + "OutlineRegion", "lonetrail-" + reg + "-outline")];
    }
  }

  lemma FlattenStep(anns: seq<LoadAnn>, i: nat)
    requires i < |anns|
    ensures Flatten(anns[..i + 1]) == Flatten(anns[..i]) + Entries(anns[i])
  {
    assert anns[..i + 1][..i] == anns[..i];
  }

  lemma EntriesStep(done: seq<Entry>, a: LoadAnn, j: nat)
    requires j < |a.value|
    ensures done + Entries(a)[..j + 1] == (done + Entries(a)[..j]) + [Entry(a.value[j], a)]
  {
    var es := Entries(a);
    assert es[..j + 1] == es[..j] + [es[j]];
  }

  lemma RegionsOfSnoc(es: seq<Entry>, e: Entry)
    ensures RegionsOf(es + [e]) == RegionsOf(es) + {e.region}
  {
    var all := es + [e];
    assert all[|es|] == e;
    assert forall i :: 0 <= i < |es| ==> all[i] == es[i];
  }

  lemma FirstOccurrencesSnoc(es: seq<Entry>, e: Entry)
    ensures FirstOccurrences(es + [e]) == FirstOccurrences(es) + (if e.region in RegionsOf(es) then [] else [e])
  {
    assert (es + [e])[..|es|] == es;
  }

  lemma FieldsOfSnoc(f: seq<Entry>, e: Entry, camel: string -> string)
    ensures FieldsOf(f + [e], camel) == FieldsOf(f, camel) + FieldsFor(e, camel)
  {
    assert (f + [e])[..|f|] == f;
  }

  lemma StatementsOfSnoc(f: seq<Entry>, e: Entry, camel: string -> string)
    ensures StatementsOf(f + [e], camel) == StatementsOf(f, camel) + StatementsFor(e, camel)
  {
    assert (f + [e])[..|f|] == f;
  }

  lemma HandledFieldsSnoc(es: seq<Entry>, e: Entry, camel: string -> string)
    ensures e.region in RegionsOf(es) ==>
      FieldsOf(FirstOccurrences(es + [e]), camel) == FieldsOf(FirstOccurrences(es), camel)
    ensures e.region !in RegionsOf(es) ==>
      FieldsOf(FirstOccurrences(es + [e]), camel) == FieldsOf(FirstOccurrences(es), camel) + FieldsFor(e, camel)
  {
    FirstOccurrencesSnoc(es, e);
    var f := FirstOccurrences(es);
    if e.region !in RegionsOf(es) {
      FieldsOfSnoc(f, e, camel);
    } else {
      assert f + [] == f;
    }
  }

  lemma HandledStatementsSnoc(es: seq<Entry>, e: Entry, camel: string -> string)
    ensures e.region in RegionsOf(es) ==>
      StatementsOf(FirstOccurrences(es + [e]), camel) == StatementsOf(FirstOccurrences(es), camel)
    ensures e.region !in RegionsOf(es) ==>
      StatementsOf(FirstOccurrences(es + [e]), camel) == StatementsOf(FirstOccurrences(es), camel) + StatementsFor(e, camel)
  {
    FirstOccurrencesSnoc(es, e);
    var f := FirstOccurrences(es);
    if e.region !in RegionsOf(es) {
      StatementsOfSnoc(f, e, camel);
    } else {
      assert f + [] == f;
    }
  }

  /** Entry `i` is the first to name its region. */
  predicate FirstAt(es: seq<Entry>, i: int)
  {
    0 <= i < |es| && es[i].region !in RegionsOf(es[..i])
  }

  /** Every region named anywhere is handled. */
  lemma {:induction false} HandledCoversAll(es: seq<Entry>)
    ensures RegionsOf(FirstOccurrences(es)) == RegionsOf(es)
  {
    if |es| > 0 {
      var before, e := es[..|es| - 1], es[|es| - 1];
      HandledCoversAll(before);
      assert es == before + [e];
      RegionsOfSnoc(before, e);
      FirstOccurrencesSnoc(before, e);
      if e.region !in RegionsOf(before) {
        RegionsOfSnoc(FirstOccurrences(before), e);
      } else {
        assert FirstOccurrences(before) + [] == FirstOccurrences(before);
      }
    }
  }

  /** No region is handled twice. */
  lemma {:induction false} HandledOnce(es: seq<Entry>)
    ensures forall a, b :: 0 <= a < b < |FirstOccurrences(es)| ==> FirstOccurrences(es)[a].region != FirstOccurrences(es)[b].region
  {
    if |es| > 0 {
      var before, e := es[..|es| - 1], es[|es| - 1];
      HandledOnce(before);
      HandledCoversAll(before);
      assert es == before + [e];
      FirstOccurrencesSnoc(before, e);
      var h := FirstOccurrences(before);
      if e.region !in RegionsOf(before) {
        forall a | 0 <= a < |h|
          ensures h[a].region != e.region
        {
          assert h[a].region in RegionsOf(h);
        }
      } else {
        assert h + [] == h;
      }
    }
  }

  /**
   * An entry is handled exactly when it is the first to name its region:
   * a later annotation naming the same region, with whatever `outline`
   * setting, is skipped.
   */
  lemma {:induction false} HandledAreFirstOccurrences(es: seq<Entry>, e: Entry)
    ensures e in FirstOccurrences(es) <==> exists i :: FirstAt(es, i) && es[i] == e
  {
    if |es| > 0 {
      var before, x := es[..|es| - 1], es[|es| - 1];
      HandledAreFirstOccurrences(before, e);
      assert es == before + [x];
      FirstOccurrencesSnoc(before, x);
      var h := FirstOccurrences(before);
      assert es[..|before|] == before;
      forall i | 0 <= i < |before|
        ensures FirstAt(es, i) <==> FirstAt(before, i)
      {
        assert es[..i] == before[..i];
      }
      if e in FirstOccurrences(es) {
        if e in h {
          var i :| FirstAt(before, i) && before[i] == e;
          assert FirstAt(es, i) && es[i] == e;
        } else {
          assert FirstAt(es, |before|) && es[|before|] == e;
        }
      }
      if exists i :: FirstAt(es, i) && es[i] == e {
        var i :| FirstAt(es, i) && es[i] == e;
        if i < |before| {
          assert FirstAt(before, i) && before[i] == e;
        } else {
          assert x.region !in RegionsOf(before);
          assert FirstOccurrences(es) == h + [x];
        }
      }
    }
  }

  /** The number of handled entries that ask for an outline. */
  function OutlineCount(h: seq<Entry>): nat
  {
    if |h| == 0 then 0 else OutlineCount(h[..|h| - 1]) + if h[|h| - 1].ann.outline then 1 else 0
  }

  /**
   * Every field comes with exactly one load statement that assigns it:
   * one pair per handled region, one more per outline.
   */
  lemma {:induction false} FieldsPairStatements(h: seq<Entry>, camel: string -> string)
    ensures |FieldsOf(h, camel)| == |StatementsOf(h, camel)| == |h| + OutlineCount(h)
    ensures forall k :: 0 <= k < |FieldsOf(h, camel)| ==> FieldsOf(h, camel)[k].name == StatementsOf(h, camel)[k].target
  {
    if |h| > 0 {
      var before, e := h[..|h| - 1], h[|h| - 1];
      FieldsPairStatements(before, camel);
      var fs, ss := FieldsOf(before, camel), StatementsOf(before, camel);
      var f, t := FieldsFor(e, camel), StatementsFor(e, camel);
      assert |f| == |t| && forall k :: 0 <= k < |f| ==> f[k].name == t[k].target;
      forall k | 0 <= k < |fs + f|
        ensures (fs + f)[k].name == (ss + t)[k].target
      {
        if k >= |fs| {
          assert (fs + f)[k] == f[k - |fs|];
          assert (ss + t)[k] == t[k - |ss|];
        }
      }
    }
  }

  /**
   * Every handled region has its region field, assigned from atlas key
   * `lonetrail-<region>`, and, when its annotation asks for an outline,
   * an outline field carrying that annotation's colour and radius,
   * assigned from `lonetrail-<region>-outline`.
   */
  lemma {:induction false} HandledRegionsAreLoaded(h: seq<Entry>, camel: string -> string, k: int)
    requires 0 <= k < |h|
    ensures Field(camel(h[k].region) + "Region", None) in FieldsOf(h, camel)
    ensures Statement(camel(h[k].region) + "Region", "lonetrail-" + h[k].region) in StatementsOf(h, camel)
    ensures h[k].ann.outline ==>
      Field(camel(h[k].region) + "OutlineRegion", Some(OutlineAnn(h[k].ann.outlineColor, h[k].ann.outlineRadius))) in FieldsOf(h, camel)
    ensures h[k].ann.outline ==>
      Statement(camel(h[k].region) + "OutlineRegion", "lonetrail-" + h[k].region + "-outline") in StatementsOf(h, camel)
  {
    var before, e := h[..|h| - 1], h[|h| - 1];
    var f, t := FieldsFor(e, camel), StatementsFor(e, camel);
    if k < |before| {
      HandledRegionsAreLoaded(before, camel, k);
      assert before[k] == h[k];
    } else {
      assert e == h[k];
      assert f[0] == Field(camel(e.region) + "Region", None);
      assert t[0] == Statement(camel(e.region) + "Region", "lonetrail-" + e.region);
      assert FieldsOf(h, camel) == FieldsOf(before, camel) + f;
      assert StatementsOf(h, camel) == StatementsOf(before, camel) + t;
      if e.ann.outline {
        assert f[1] == Field(camel(e.region) + "OutlineRegion", Some(OutlineAnn(e.ann.outlineColor, e.ann.outlineRadius)));
        assert t[1] == Statement(camel(e.region) + "OutlineRegion", "lonetrail-" + e.region + "-outline");
      }
    }
  }

  /** In the first round every region named by any `@Load` gets its field and its load statement. */
  lemma FirstRoundLoadsEveryRegion(anns: seq<LoadAnn>, camel: string -> string, r: string)
    requires r in RegionsOf(Flatten(anns))
    ensures Generate(1, anns, camel).Some?
    ensures Field(camel(r) + "Region", None) in Generate(1, anns, camel).value.fields
    ensures Statement(camel(r) + "Region", "lonetrail-" + r) in Generate(1, anns, camel).value.load
  {
    var h := FirstOccurrences(Flatten(anns));
    HandledCoversAll(Flatten(anns));
    assert r in RegionsOf(h);
    var k :| 0 <= k < |h| && h[k].region == r;
    HandledRegionsAreLoaded(h, camel, k);
  }
}
