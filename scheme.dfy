/**
 * Selection of the time-stepping scheme by name (GetSolver in src/ibpm.cc).
 * The name is lower-cased first, so the match is case-insensitive; a name that
 * is none of the four known ones selects nothing, and the driver then exits
 * with status 1.
 */
module Scheme {
  import opened Wrappers

  /** The four explicit schemes: first-order Euler, Adams-Bashforth 2, and
      Runge-Kutta of two and of three stages. */
  datatype SolverKind = Euler | AB2 | RK2 | RK3

  /** The lower-case name that selects each scheme. */
  function SchemeName(k: SolverKind): string
  {
    match k
    case Euler => "euler"
    case AB2 => "ab2"
    case RK2 => "rk2"
    case RK3 => "rk3"
  }

  predicate IsUpper(c: char)
  {
    'A' <= c <= 'Z'
  }

  /** ASCII lower-casing of one character; every other character is kept. */
  function LowerChar(c: char): char
  {
    if IsUpper(c) then (c as int - 'A' as int + 'a' as int) as char else c
  }

  /** MakeLowercase: the name with every upper-case ASCII letter lowered. */
  function Lowercase(s: string): (r: string)
    ensures |r| == |s|
    ensures forall i :: 0 <= i < |s| ==> r[i] == LowerChar(s[i])
    ensures forall i :: 0 <= i < |r| ==> !IsUpper(r[i])
  {
    if s == [] then [] else [LowerChar(s[0])] + Lowercase(s[1..])
  }

  /** GetSolver: the scheme whose name the lower-cased argument spells, if any. */
  function GetSolver(solverType: string): (r: Option<SolverKind>)
    ensures forall k :: r == Some(k) <==> Lowercase(solverType) == SchemeName(k)
    ensures r == None <==> Lowercase(solverType) !in {"euler", "ab2", "rk2", "rk3"}
  {
    var lower := Lowercase(solverType);
    if lower == "euler" then Some(Euler)
    else if lower == "ab2" then Some(AB2)
    else if lower == "rk2" then Some(RK2)
    else if lower == "rk3" then Some(RK3)
    else None
  }

  /** Lower-casing twice is lower-casing once. */
  lemma LowercaseIdempotent(s: string)
    ensures Lowercase(Lowercase(s)) == Lowercase(s)
  {
    var once := Lowercase(s);
    var twice := Lowercase(once);
    forall i | 0 <= i < |s|
      ensures twice[i] == once[i]
    {
      assert !IsUpper(once[i]);
    }
  }

  /** A string without upper-case letters is its own lower-case form. */
  lemma LowercaseKeepsLower(s: string)
    requires forall i :: 0 <= i < |s| ==> !IsUpper(s[i])
    ensures Lowercase(s) == s
  {
    var r := Lowercase(s);
    forall i | 0 <= i < |s|
      ensures r[i] == s[i]
    {
    }
  }

  /** Selection depends on the name only through its lower-case form. */
  lemma SelectionIsCaseInsensitive(s: string)
    ensures GetSolver(s) == GetSolver(Lowercase(s))
  {
    LowercaseIdempotent(s);
  }

  /** Each scheme is selected by its own name, and by no other scheme's. */
  lemma SchemeNameSelects(k: SolverKind)
    ensures GetSolver(SchemeName(k)) == Some(k)
  {
    LowercaseKeepsLower(SchemeName(k));
  }

  /** Any spelling whose lower-case form is a scheme's name selects that scheme;
      the mapping is a function, so the same name always selects the same scheme. */
  lemma SpellingsSelect(s: string, k: SolverKind)
    ensures GetSolver(s) == Some(k) <==> Lowercase(s) == SchemeName(k)
    ensures GetSolver(s) == Some(k) ==> GetSolver(Lowercase(s)) == Some(k)
  {
    SelectionIsCaseInsensitive(s);
  }

  /** Concrete names: mixed case selects, an unknown name selects nothing. */
  lemma SelectionExamples()
    ensures GetSolver("RK2") == Some(RK2)
    ensures GetSolver("Euler") == Some(Euler)
    ensures GetSolver("AB2") == Some(AB2)
    ensures GetSolver("rK3") == Some(RK3)
    ensures GetSolver("bogus") == None
    ensures GetSolver("") == None
  {
    assert Lowercase("RK2") == "rk2";
    assert Lowercase("Euler") == "euler";
    assert Lowercase("AB2") == "ab2";
    assert Lowercase("rK3") == "rk3";
    assert |Lowercase("bogus")| == 5;
  }
}
