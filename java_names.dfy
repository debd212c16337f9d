/**
 * Java's rules for names, as `javax.lang.model.SourceVersion` applies them:
 * `IsIdentifier` is the shape of an identifier (section 3.8 of the Java
 * Language Specification) and, like `SourceVersion.isIdentifier`, does not
 * reject keywords; `IsName` is a dot-separated qualified name each of whose
 * parts is an identifier and not a keyword or literal (section 3.9), as
 * `SourceVersion.isName` checks. Letters and digits are the ASCII ones.
 */
module JavaNames {
  import opened Common

  /** A character that may start an identifier. */
  predicate IsJavaLetter(c: char)
  {
    'a' <= c <= 'z' || 'A' <= c <= 'Z' || c == '_' || c == '$'
  }

  /** A character that may continue an identifier. */
  predicate IsJavaLetterOrDigit(c: char)
  {
    IsJavaLetter(c) || IsDigit(c)
  }

  predicate IsIdentifier(s: string)
  {
    |s| > 0 && IsJavaLetter(s[0]) && forall i :: 1 <= i < |s| ==> IsJavaLetterOrDigit(s[i])
  }

  // The keywords of section 3.9 of the Java Language Specification, in groups.

  /** The primitive types and `void`. */
  const TypeKeywords: set<string> := {"boolean", "byte", "char", "double", "float", "int", "long", "short", "void"}

  /** Modifiers, and `default`. */
  const ModifierKeywords: set<string> := {"abstract", "default", "final", "native", "private", "protected", "public", "static", "strictfp", "synchronized", "transient", "volatile"}

  /** Statements and their parts. */
  const StatementKeywords: set<string> := {"assert", "break", "case", "catch", "continue", "do", "else", "finally", "for", "goto", "if", "return", "switch", "throw", "try", "while"}

  /** Declarations and expressions; `_` is a keyword since Java 9. */
  const DeclarationKeywords: set<string> := {"class", "const", "enum", "extends", "implements", "import", "instanceof", "interface", "new", "package", "super", "this", "throws", "_"}

  /** The boolean and null literals, which are not names either. */
  const LiteralWords: set<string> := {"true", "false", "null"}

  predicate IsKeyword(s: string)
  {
    s in TypeKeywords || s in ModifierKeywords || s in StatementKeywords
    || s in DeclarationKeywords || s in LiteralWords
  }

  /**
   * The parts of `s` between dots, empty parts included, as Java's
   * `split("\\.", -1)` gives them.
   */
  function Split(s: string): (parts: seq<string>)
    ensures |parts| >= 1
    ensures forall i :: 0 <= i < |parts| ==> '.' !in parts[i]
    ensures Join(parts, ".") == s
  {
    if |s| == 0 then [""]
    else if s[0] == '.' then [""] + Split(s[1..])
    else
      var rest := Split(s[1..]);
      assert '.' !in [s[0]] + rest[0];
      [[s[0]] + rest[0]] + rest[1..]
  }

  predicate IsName(s: string)
  {
    forall p <- Split(s) :: IsIdentifier(p) && !IsKeyword(p)
  }

  /** A string without dots is a single part. */
  lemma SplitNoDot(s: string)
    requires '.' !in s
    ensures Split(s) == [s]
  {
    if |s| > 0 {
      assert '.' !in s[1..];
      SplitNoDot(s[1..]);
    }
  }

  /** A dot followed by a dot-free tail adds that tail as the last part. */
  lemma {:induction false} SplitLastPart(x: string, y: string)
    requires '.' !in y
    ensures Split(x + "." + y) == Split(x) + [y]
  {
    var s := x + "." + y;
    if |x| == 0 {
      assert s == "." + y && s[1..] == y;
      SplitNoDot(y);
    } else {
      assert s[0] == x[0] && s[1..] == x[1..] + "." + y;
      SplitLastPart(x[1..], y);
    }
  }

  /** Joining parts that avoid a character with a separator that avoids it gives a string that avoids it. */
  lemma {:induction false} JoinAvoids(parts: seq<string>, sep: string, c: char)
    requires c !in sep
    requires forall i :: 0 <= i < |parts| ==> c !in parts[i]
    ensures c !in Join(parts, sep)
  {
    if |parts| >= 2 {
      JoinAvoids(parts[1..], sep, c);
    }
  }

  /** No keyword contains a dot. */
  lemma KeywordsHaveNoDot(k: string)
    requires IsKeyword(k)
    ensures '.' !in k
  {
    if k in TypeKeywords {
      TypeKeywordsHaveNoDot(k);
    } else if k in ModifierKeywords {
      ModifierKeywordsHaveNoDot(k);
    } else if k in StatementKeywords {
      StatementKeywordsHaveNoDot(k);
    } else if k in DeclarationKeywords {
      DeclarationKeywordsHaveNoDot(k);
    } else {
      LiteralWordsHaveNoDot(k);
    }
  }

  lemma TypeKeywordsHaveNoDot(k: string)
    requires k in TypeKeywords
    ensures '.' !in k
  {
    assert k == "boolean" || k == "byte" || k == "char" || k == "double" || k == "float" || k == "int" || k == "long" || k == "short" || k == "void";
  }

  lemma ModifierKeywordsHaveNoDot(k: string)
    requires k in ModifierKeywords
    ensures '.' !in k
  {
    assert k == "abstract" || k == "default" || k == "final" || k == "native" || k == "private" || k == "protected" || k == "public" || k == "static" || k == "strictfp" || k == "synchronized" || k == "transient" || k == "volatile";
  }

  lemma StatementKeywordsHaveNoDot(k: string)
    requires k in StatementKeywords
    ensures '.' !in k
  {
    assert k == "assert" || k == "break" || k == "case" || k == "catch" || k == "continue" || k == "do" || k == "else" || k == "finally" || k == "for" || k == "goto" || k == "if" || k == "return" || k == "switch" || k == "throw" || k == "try" || k == "while";
  }

  lemma DeclarationKeywordsHaveNoDot(k: string)
    requires k in DeclarationKeywords
    ensures '.' !in k
  {
    assert k == "class" || k == "const" || k == "enum" || k == "extends" || k == "implements" || k == "import" || k == "instanceof" || k == "interface" || k == "new" || k == "package" || k == "super" || k == "this" || k == "throws" || k == "_";
  }

  lemma LiteralWordsHaveNoDot(k: string)
    requires k in LiteralWords
    ensures '.' !in k
  {
    assert k == "true" || k == "false" || k == "null";
  }
}
