/**
 * The catalog of growth groups: the 23 curves the library exports, a
 * dispatch from a group to its curve, and the lookup of a glitch group by
 * its one-byte tag, in which 0x95 and 0xFF are known but unsupported.
 */
module Catalog {
  import opened CNumeric
  import Regular
  import Glitch

  datatype Option<T> = None | Some(value: T)

  /** One variant per curve the library exports, in the order it declares them. */
  datatype Group =
    | Fast | MediumFast | MediumSlow | Slow | Erratic | Fluctuating
    | SlightlyFast | SlightlySlow
    | GlitchD1 | Glitch7B | Glitch81 | Glitch0D | Glitch1A | Glitch06
    | Glitch1D | Glitch37 | Glitch4B | Glitch57 | Glitch64 | Glitch88
    | GlitchA5 | Glitch23 | Glitch10
  {
    predicate IsGlitch() {
      !(Fast? || MediumFast? || MediumSlow? || Slow? || Erratic? || Fluctuating?
        || SlightlyFast? || SlightlySlow?)
    }
  }

  /** All 23 exported curves: eight regular groups, then fifteen glitch groups. */
  const Groups: seq<Group> := [
    Fast, MediumFast, MediumSlow, Slow, Erratic, Fluctuating, SlightlyFast, SlightlySlow,
    GlitchD1, Glitch7B, Glitch81, Glitch0D, Glitch1A, Glitch06, Glitch1D, Glitch37,
    Glitch4B, Glitch57, Glitch64, Glitch88, GlitchA5, Glitch23, Glitch10
  ]

  /** Where `g` stands among the declarations of the library's header. */
  function Position(g: Group): (i: nat)
    ensures i < |Groups| && Groups[i] == g
  {
    match g
    case Fast => 0
    case MediumFast => 1
    case MediumSlow => 2
    case Slow => 3
    case Erratic => 4
    case Fluctuating => 5
    case SlightlyFast => 6
    case SlightlySlow => 7
    case GlitchD1 => 8
    case Glitch7B => 9
    case Glitch81 => 10
    case Glitch0D => 11
    case Glitch1A => 12
    case Glitch06 => 13
    case Glitch1D => 14
    case Glitch37 => 15
    case Glitch4B => 16
    case Glitch57 => 17
    case Glitch64 => 18
    case Glitch88 => 19
    case GlitchA5 => 20
    case Glitch23 => 21
    case Glitch10 => 22
  }

  /** The glitch tags that exist in the game data but have no curve. */
  const Unsupported: set<int> := {0x95, 0xFF}

  /** The experience total at level `n` for the group `g`. */
  function Evaluate(g: Group, n: int): int {
    match g
    case Fast => Regular.Fast(n)
    case MediumFast => Regular.MediumFast(n)
    case MediumSlow => Regular.MediumSlow(n)
    case Slow => Regular.Slow(n)
    case Erratic => Regular.Erratic(n)
    case Fluctuating => Regular.Fluctuating(n)
    case SlightlyFast => Regular.SlightlyFast(n)
    case SlightlySlow => Regular.SlightlySlow(n)
    case GlitchD1 => Glitch.HexD1(n)
    case Glitch7B => Glitch.Hex7B(n)
    case Glitch81 => Glitch.Hex81(n)
    case Glitch0D => Glitch.Hex0D(n)
    case Glitch1A => Glitch.Hex1A(n)
    case Glitch06 => Glitch.Hex06(n)
    case Glitch1D => Glitch.Hex1D(n)
    case Glitch37 => Glitch.Hex37(n)
    case Glitch4B => Glitch.Hex4B(n)
    case Glitch57 => Glitch.Hex57(n)
    case Glitch64 => Glitch.Hex64(n)
    case Glitch88 => Glitch.Hex88(n)
    case GlitchA5 => Glitch.HexA5(n)
    case Glitch23 => Glitch.Hex23(n)
    case Glitch10 => Glitch.Hex10(n)
  }

  /** The one-byte tag of a glitch group. */
  function Tag(g: Group): (t: int)
    requires g.IsGlitch()
    ensures 0 <= t < 256 && t !in Unsupported
  {
    match g
    case GlitchD1 => 0xD1
    case Glitch7B => 0x7B
    case Glitch81 => 0x81
    case Glitch0D => 0x0D
    case Glitch1A => 0x1A
    case Glitch06 => 0x06
    case Glitch1D => 0x1D
    case Glitch37 => 0x37
    case Glitch4B => 0x4B
    case Glitch57 => 0x57
    case Glitch64 => 0x64
    case Glitch88 => 0x88
    case GlitchA5 => 0xA5
    case Glitch23 => 0x23
    case Glitch10 => 0x10
  }

  /**
   * The glitch group with tag `t`, if it has a curve. The unsupported tags
   * 0x95 and 0xFF, and every tag no glitch group uses, give `None`.
   */
  function Lookup(t: int): (r: Option<Group>)
    ensures r.Some? ==> r.value.IsGlitch() && Tag(r.value) == t
    ensures t in Unsupported ==> r == None
  {
    if t == 0xD1 then Some(GlitchD1)
    else if t == 0x7B then Some(Glitch7B)
    else if t == 0x81 then Some(Glitch81)
    else if t == 0x0D then Some(Glitch0D)
    else if t == 0x1A then Some(Glitch1A)
    else if t == 0x06 then Some(Glitch06)
    else if t == 0x1D then Some(Glitch1D)
    else if t == 0x37 then Some(Glitch37)
    else if t == 0x4B then Some(Glitch4B)
    else if t == 0x57 then Some(Glitch57)
    else if t == 0x64 then Some(Glitch64)
    else if t == 0x88 then Some(Glitch88)
    else if t == 0xA5 then Some(GlitchA5)
    else if t == 0x23 then Some(Glitch23)
    else if t == 0x10 then Some(Glitch10)
    else None
  }

  /**
   * Evaluation by tag: a supported tag gives its curve's value, and an
   * unsupported or unknown tag is reported as such, never as a number.
   */
  function EvaluateTag(t: int, n: int): (r: Option<int>)
    ensures r.None? <==> Lookup(t).None?
    ensures t in Unsupported ==> r.None?
    ensures r.Some? ==> r.value == Evaluate(Lookup(t).value, n)
  {
    match Lookup(t)
    case None => None
    case Some(g) => Some(Evaluate(g, n))
  }

  /** Every glitch group is found again under its own tag. */
  lemma LookupTag(g: Group)
    requires g.IsGlitch()
    ensures Lookup(Tag(g)) == Some(g)
  {
  }

  /**
   * The catalog lists each of the 23 curves exactly once, the eight regular
   * groups before the fifteen glitch groups.
   */
  lemma {:induction false} GroupsListedOnce()
    ensures |Groups| == 23
    ensures forall g: Group :: g in Groups
    ensures forall i, j :: 0 <= i < j < |Groups| ==> Groups[i] != Groups[j]
    ensures forall i :: 0 <= i < |Groups| ==> (Groups[i].IsGlitch() <==> 8 <= i)
  {
    forall g: Group
      ensures g in Groups
    {
      var i := Position(g);
    }
  }

  /** No two glitch groups share a tag. */
  lemma {:induction false} TagsDistinct()
    ensures forall g: Group, h: Group :: g.IsGlitch() && h.IsGlitch() && Tag(g) == Tag(h) ==> g == h
  {
    forall g: Group, h: Group | g.IsGlitch() && h.IsGlitch() && Tag(g) == Tag(h)
      ensures g == h
    {
      LookupTag(g);
      LookupTag(h);
    }
  }
}
