/** Small pieces of java.lang behaviour that the diagnostic classes rely on:
    nullable references, string conversion of a possibly-null string, and
    String.equalsIgnoreCase over ASCII case mapping. */
module JavaLang {

  /** A Java reference that may be null. */
  datatype Nullable<T> = Null | NonNull(value: T)

  /** What the diagnostic classes read from a caught exception:
      getClass().getSimpleName(), getMessage() (possibly null) and the
      toString() of each element of getStackTrace(), in order. */
  datatype Throwable = Throwable(simpleName: string, message: Nullable<string>, stackTrace: seq<string>)

  /** String conversion as Java's `+` on strings performs it: null becomes "null". */
  function Str(s: Nullable<string>): string {
    match s
    case Null => "null"
    case NonNull(v) => v
  }

  predicate IsUpperAscii(c: char) { 'A' <= c <= 'Z' }
  predicate IsLowerAscii(c: char) { 'a' <= c <= 'z' }

  function ToUpperAscii(c: char): char {
    if IsLowerAscii(c) then (c as int - 32) as char else c
  }

  function ToLowerAscii(c: char): char {
    if IsUpperAscii(c) then (c as int + 32) as char else c
  }

  /** The per-character test of String.regionMatches(ignoreCase = true):
      equal, or equal after upper-casing, or equal after upper- then lower-casing. */
  predicate CharsEqualIgnoreCase(c1: char, c2: char) {
    c1 == c2
    || ToUpperAscii(c1) == ToUpperAscii(c2)
    || ToLowerAscii(ToUpperAscii(c1)) == ToLowerAscii(ToUpperAscii(c2))
  }

  /** String.equalsIgnoreCase on two non-null strings. */
  predicate EqualsIgnoreCase(a: string, b: string) {
    |a| == |b| && forall i :: 0 <= i < |a| ==> CharsEqualIgnoreCase(a[i], b[i])
  }

  /** The string with every ASCII upper-case letter lowered. */
  function LowerString(s: string): (r: string)
    ensures |r| == |s|
    ensures forall i :: 0 <= i < |s| ==> r[i] == ToLowerAscii(s[i])
  {
    if s == [] then [] else [ToLowerAscii(s[0])] + LowerString(s[1..])
  }

  /** The Java per-character test agrees with comparing lower-case forms. */
  lemma CharsEqualIgnoreCaseIsLowerEqual(c1: char, c2: char)
    ensures CharsEqualIgnoreCase(c1, c2) <==> ToLowerAscii(c1) == ToLowerAscii(c2)
  {
  }

  /** equalsIgnoreCase holds exactly when the lower-case forms are equal strings. */
  lemma EqualsIgnoreCaseIsLowerEqual(a: string, b: string)
    ensures EqualsIgnoreCase(a, b) <==> LowerString(a) == LowerString(b)
  {
    if EqualsIgnoreCase(a, b) {
      forall i | 0 <= i < |a| ensures LowerString(a)[i] == LowerString(b)[i] {
        CharsEqualIgnoreCaseIsLowerEqual(a[i], b[i]);
      }
    }
    if LowerString(a) == LowerString(b) {
      assert |a| == |b|;
      forall i | 0 <= i < |a| ensures CharsEqualIgnoreCase(a[i], b[i]) {
        assert LowerString(a)[i] == LowerString(b)[i];
        CharsEqualIgnoreCaseIsLowerEqual(a[i], b[i]);
      }
    }
  }

  /** equalsIgnoreCase is an equivalence relation. */
  lemma EqualsIgnoreCaseEquivalence(a: string, b: string, c: string)
    ensures EqualsIgnoreCase(a, a)
    ensures EqualsIgnoreCase(a, b) ==> EqualsIgnoreCase(b, a)
    ensures EqualsIgnoreCase(a, b) && EqualsIgnoreCase(b, c) ==> EqualsIgnoreCase(a, c)
  {
    EqualsIgnoreCaseIsLowerEqual(a, b);
    EqualsIgnoreCaseIsLowerEqual(b, a);
    EqualsIgnoreCaseIsLowerEqual(b, c);
    EqualsIgnoreCaseIsLowerEqual(a, c);
    EqualsIgnoreCaseIsLowerEqual(a, a);
  }
}
