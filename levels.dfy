/** The severity vocabulary shared by the console channel (Debug.DebugLevel) and
    the file channel (Log.LogLevel): the two Java enums have the same constants
    and the same bit values, so one datatype models both. A mask is a Java
    `int`, i.e. a 32-bit pattern. */
module Levels {

  import opened JavaLang

  type Mask = bv32

  datatype Level = None | Error | Warning | Info | Verbose | All

  predicate IsConcrete(l: Level) {
    l == Error || l == Warning || l == Info || l == Verbose
  }

  /** The enum's `value` field. */
  function Value(l: Level): Mask
    decreases if l == All then 1 else 0
  {
    match l
    case None => 0
    case Error => 1 << 0
    case Warning => 1 << 1
    case Info => 1 << 2
    case Verbose => 1 << 3
    case All => Value(Error) | Value(Warning) | Value(Info) | Value(Verbose)
  }

  /** The enum constant's `name()`, which the line format prints. */
  function Name(l: Level): string {
    match l
    case None => "None"
    case Error => "Error"
    case Warning => "Warning"
    case Info => "Info"
    case Verbose => "Verbose"
    case All => "All"
  }

  /** The line parser's inverse of Name: the level a printed name stands for, or
      Null for a string that names no level. */
  function LevelOfName(s: string): (r: Nullable<Level>)
    ensures r.NonNull? ==> Name(r.value) == s
  {
    if s == "None" then NonNull(None)
    else if s == "Error" then NonNull(Error)
    else if s == "Warning" then NonNull(Warning)
    else if s == "Info" then NonNull(Info)
    else if s == "Verbose" then NonNull(Verbose)
    else if s == "All" then NonNull(All)
    else Null
  }

  /** The default mask of both channels. */
  const AllMask: Mask := Value(All)

  /** The gate both channels apply: `(bitmask & level.value) != 0`. */
  predicate Admits(mask: Mask, l: Level) {
    mask & Value(l) != 0
  }

  lemma LevelValues()
    ensures Value(None) == 0 && Value(Error) == 1 && Value(Warning) == 2
    ensures Value(Info) == 4 && Value(Verbose) == 8 && Value(All) == 15
  {
  }

  /** All is exactly the union of the four concrete levels, and the concrete
      levels are pairwise disjoint single bits. */
  lemma AllIsUnionOfConcrete()
    ensures AllMask == Value(Error) | Value(Warning) | Value(Info) | Value(Verbose)
    ensures forall l, k :: IsConcrete(l) && IsConcrete(k) && l != k ==> Value(l) & Value(k) == 0
    ensures forall l :: IsConcrete(l) ==> Value(l) != 0 && Value(l) & (Value(l) - 1) == 0
  {
  }

  /** Every level but None intersects All; None is admitted by no mask. */
  lemma AdmitsAllButNone(m: Mask, l: Level)
    ensures Admits(AllMask, l) <==> l != None
    ensures !Admits(m, None)
  {
  }

  /** Filtering is by bit intersection, not by rank: a single-level mask
      admits exactly that level and All. */
  lemma SingleLevelMask(l: Level, k: Level)
    requires IsConcrete(l)
    ensures Admits(Value(l), k) <==> (k == l || k == All)
  {
  }

  /** The union of two masks admits a concrete level iff one of them does. */
  lemma AdmitsUnion(m: Mask, n: Mask, l: Level)
    requires IsConcrete(l)
    ensures Admits(m | n, l) <==> Admits(m, l) || Admits(n, l)
  {
    var b := Value(l);
    assert b == 1 || b == 2 || b == 4 || b == 8;
    assert (m | n) & b == (m & b) | (n & b);
  }

  /** Name is injective: LevelOfName recovers every level from its name. */
  lemma NameRoundTrip(l: Level)
    ensures LevelOfName(Name(l)) == NonNull(l)
  {
  }
}
