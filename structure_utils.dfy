/**
 * Crystal-structure helpers: which element each kind of site stands for
 * (`kinds2elMap`) and the per-element drawing data (`atomData`) with the
 * lookups `element2radius` and `element2colorThree`.
 */
module StructureUtils {

  /** A kind of site in an AiiDA structure: its name and the chemical
      symbols it mixes (mass and weights play no part here). */
  datatype Kind = Kind(name: string, symbols: seq<string>)

  /** The element a kind is drawn as: its first symbol, `XX` when it has none. */
  function KindElement(kind: Kind): string {
    if |kind.symbols| > 0 then kind.symbols[0] else "XX"
  }

  /** The kind-to-element map `kinds2elMap` builds: every kind assigned in
      list order, so a later kind of the same name overwrites an earlier one. */
  function ElementMap(kinds: seq<Kind>): map<string, string> {
    if |kinds| == 0 then map[]
    else ElementMap(kinds[..|kinds| - 1])[kinds[|kinds| - 1].name := KindElement(kinds[|kinds| - 1])]
  }

  /** The map's keys are exactly the kind names. */
  lemma {:induction false} ElementMapKeys(kinds: seq<Kind>)
    ensures ElementMap(kinds).Keys == set k | k in kinds :: k.name
  {
    if |kinds| > 0 {
      var n := |kinds| - 1;
      ElementMapKeys(kinds[..n]);
      assert kinds == kinds[..n] + [kinds[n]];
      assert (set k | k in kinds :: k.name) == (set k | k in kinds[..n] :: k.name) + {kinds[n].name};
    }
  }

  /** No kind after position `i` has the name of `kinds[i]`. */
  predicate LastOfItsName(kinds: seq<Kind>, i: int)
    requires 0 <= i < |kinds|
  {
    forall j :: i < j < |kinds| ==> kinds[j].name != kinds[i].name
  }

  /** A name maps to the element of the last kind that carries it. */
  lemma {:induction false} ElementMapLastWins(kinds: seq<Kind>, i: int)
    requires 0 <= i < |kinds| && LastOfItsName(kinds, i)
    ensures kinds[i].name in ElementMap(kinds)
    ensures ElementMap(kinds)[kinds[i].name] == KindElement(kinds[i])
  {
    var n := |kinds| - 1;
    if i < n {
      var init := kinds[..n];
      assert init[i] == kinds[i];
      assert LastOfItsName(init, i);
      ElementMapLastWins(init, i);
    }
  }

  /** `kinds2elMap(kinds)`: the `reduce` that assigns each kind's element
      under its name into an accumulator. */
  method Kinds2ElMap(kinds: seq<Kind>) returns (m: map<string, string>)
    ensures m == ElementMap(kinds)
  {
    m := map[];
    for i := 0 to |kinds|
      invariant m == ElementMap(kinds[..i])
    {
      assert kinds[..i + 1][..i] == kinds[..i];
      m := m[kinds[i].name := KindElement(kinds[i])];
    }
    assert kinds[..|kinds|] == kinds;
  }

  /** A row of `atomData`: `[radius, red, green, blue]`. */
  datatype Atom = Atom(radius: real, red: real, green: real, blue: real)

  /** A colour with red, green and blue components. */
  datatype Color = Color(r: real, g: real, b: real)

  /** `atomData`: per element symbol, the radius and the colour it is drawn
      with. `XX` is the placeholder element; it is listed last here (a map
      has no order) so that the solver finds it first. */
  const AtomData: map<string, Atom> := map[
    "H" := Atom(0.46, 1.0, 0.8, 0.8),
    "He" := Atom(1.22, 0.98907, 0.91312, 0.81091),
    "Li" := Atom(1.57, 0.52731, 0.87953, 0.4567),
    "Be" := Atom(1.12, 0.37147, 0.8459, 0.48292),
    "B" := Atom(0.81, 0.1249, 0.63612, 0.05948),
    "C" := Atom(0.77, 0.5043, 0.28659, 0.16236),
    "N" := Atom(0.74, 0.69139, 0.72934, 0.9028),
    "O" := Atom(0.74, 0.99997, 0.01328, 0.0),
    "F" := Atom(0.72, 0.69139, 0.72934, 0.9028),
    "Ne" := Atom(1.6, 0.99954, 0.21788, 0.71035),
    "Na" := Atom(1.91, 0.97955, 0.86618, 0.23787),
    "Mg" := Atom(1.6, 0.98773, 0.48452, 0.0847),
    "Al" := Atom(1.43, 0.50718, 0.70056, 0.84062),
    "Si" := Atom(1.18, 0.10596, 0.23226, 0.98096),
    "P" := Atom(1.1, 0.75557, 0.61256, 0.76425),
    "S" := Atom(1.04, 1.0, 0.98071, 0.0),
    "Cl" := Atom(0.99, 0.19583, 0.98828, 0.01167),
    "Ar" := Atom(1.92, 0.81349, 0.99731, 0.77075),
    "K" := Atom(2.35, 0.63255, 0.13281, 0.96858),
    "Ca" := Atom(1.97, 0.35642, 0.58863, 0.74498),
    "Sc" := Atom(1.64, 0.71209, 0.3893, 0.67279),
    "Ti" := Atom(1.47, 0.47237, 0.79393, 1.0),
    "V" := Atom(1.35, 0.9, 0.1, 0.0),
    "Cr" := Atom(1.29, 0.0, 0.0, 0.62),
    "Mn" := Atom(1.37, 0.66148, 0.03412, 0.62036),
    "Fe" := Atom(1.26, 0.71051, 0.44662, 0.00136),
    "Co" := Atom(1.25, 0.0, 0.0, 0.68666),
    "Ni" := Atom(1.25, 0.72032, 0.73631, 0.74339),
    "Cu" := Atom(1.28, 0.1339, 0.28022, 0.86606),
    "Zn" := Atom(1.37, 0.56123, 0.56445, 0.50799),
    "Ga" := Atom(1.53, 0.62292, 0.89293, 0.45486),
    "Ge" := Atom(1.22, 0.49557, 0.43499, 0.65193),
    "As" := Atom(1.21, 0.45814, 0.81694, 0.34249),
    "Se" := Atom(1.04, 0.6042, 0.93874, 0.06122),
    "Br" := Atom(1.14, 0.49645, 0.19333, 0.01076),
    "Kr" := Atom(1.98, 0.98102, 0.75805, 0.95413),
    "Rb" := Atom(2.5, 1.0, 0.0, 0.6),
    "Sr" := Atom(2.15, 0.0, 1.0, 0.15259),
    "Y" := Atom(1.82, 0.40259, 0.59739, 0.55813),
    "Zr" := Atom(1.6, 0.0, 1.0, 0.0),
    "Nb" := Atom(1.47, 0.29992, 0.70007, 0.46459),
    "Mo" := Atom(1.4, 0.70584, 0.52602, 0.68925),
    "Tc" := Atom(1.35, 0.80574, 0.68699, 0.79478),
    "Ru" := Atom(1.34, 0.81184, 0.72113, 0.68089),
    "Rh" := Atom(1.34, 0.80748, 0.82205, 0.67068),
    "Pd" := Atom(1.37, 0.75978, 0.76818, 0.72454),
    "Ag" := Atom(1.44, 0.72032, 0.73631, 0.74339),
    "Cd" := Atom(1.52, 0.95145, 0.12102, 0.86354),
    "In" := Atom(1.67, 0.84378, 0.50401, 0.73483),
    "Sn" := Atom(1.58, 0.60764, 0.56052, 0.72926),
    "Sb" := Atom(1.41, 0.84627, 0.51498, 0.31315),
    "Te" := Atom(1.37, 0.67958, 0.63586, 0.32038),
    "I" := Atom(1.33, 0.55914, 0.122, 0.54453),
    "Xe" := Atom(2.18, 0.60662, 0.63218, 0.97305),
    "Cs" := Atom(2.72, 0.05872, 0.99922, 0.72578),
    "Ba" := Atom(2.24, 0.11835, 0.93959, 0.17565),
    "La" := Atom(1.88, 0.3534, 0.77057, 0.28737),
    "Ce" := Atom(1.82, 0.82055, 0.99071, 0.02374),
    "Pr" := Atom(1.82, 0.9913, 0.88559, 0.02315),
    "Nd" := Atom(1.82, 0.98701, 0.5556, 0.02744),
    "Pm" := Atom(1.81, 0.0, 0.0, 0.96),
    "Sm" := Atom(1.81, 0.99042, 0.02403, 0.49195),
    "Eu" := Atom(2.06, 0.98367, 0.03078, 0.83615),
    "Gd" := Atom(1.79, 0.75325, 0.01445, 1.0),
    "Tb" := Atom(1.77, 0.44315, 0.01663, 0.99782),
    "Dy" := Atom(1.77, 0.1939, 0.02374, 0.99071),
    "Ho" := Atom(1.76, 0.02837, 0.25876, 0.98608),
    "Er" := Atom(1.75, 0.28688, 0.45071, 0.23043),
    "Tm" := Atom(1.0, 0.0, 0.0, 0.88),
    "Yb" := Atom(1.94, 0.15323, 0.99165, 0.95836),
    "Lu" := Atom(1.72, 0.15097, 0.99391, 0.71032),
    "Hf" := Atom(1.59, 0.70704, 0.70552, 0.3509),
    "Ta" := Atom(1.47, 0.71952, 0.60694, 0.33841),
    "W" := Atom(1.41, 0.55616, 0.54257, 0.50178),
    "Re" := Atom(1.37, 0.70294, 0.69401, 0.55789),
    "Os" := Atom(1.35, 0.78703, 0.69512, 0.47379),
    "Ir" := Atom(1.36, 0.78975, 0.81033, 0.45049),
    "Pt" := Atom(1.39, 0.79997, 0.77511, 0.75068),
    "Au" := Atom(1.44, 0.99628, 0.70149, 0.22106),
    "Hg" := Atom(1.55, 0.8294, 0.72125, 0.79823),
    "Tl" := Atom(1.71, 0.58798, 0.53854, 0.42649),
    "Pb" := Atom(1.75, 0.32386, 0.32592, 0.35729),
    "Bi" := Atom(1.82, 0.82428, 0.18732, 0.97211),
    "Po" := Atom(1.77, 0.0, 0.0, 1.0),
    "At" := Atom(0.62, 0.0, 0.0, 1.0),
    "Rn" := Atom(0.8, 1.0, 1.0, 0.0),
    "Fr" := Atom(1.0, 0.0, 0.0, 0.0),
    "Ra" := Atom(2.35, 0.42959, 0.66659, 0.34786),
    "Ac" := Atom(2.03, 0.39344, 0.62101, 0.45034),
    "Th" := Atom(1.8, 0.14893, 0.99596, 0.47106),
    "Pa" := Atom(1.63, 0.16101, 0.98387, 0.20855),
    "U" := Atom(1.56, 0.47774, 0.63362, 0.66714),
    "Np" := Atom(1.56, 0.3, 0.3, 0.3),
    "Pu" := Atom(1.64, 0.3, 0.3, 0.3),
    "Am" := Atom(1.73, 0.3, 0.3, 0.3),
    "XX" := Atom(0.8, 0.3, 0.3, 0.3)
  ]

  /** `element2radius(e)`: the table's radius for `e`, 1 for a symbol the
      table does not list. */
  function Element2Radius(e: string): (r: real)
    ensures e in AtomData ==> r == AtomData[e].radius
    ensures e !in AtomData ==> r == 1.0
  {
    if e in AtomData then AtomData[e].radius else [1.0][0]
  }

  /** `element2colorThree(e)`: the table's colour for `e`; for a symbol the
      table does not list, the last three of the default `[1, 0, 1, 0]`. */
  function Element2ColorThree(e: string): (c: Color)
    ensures e in AtomData ==> c == Color(AtomData[e].red, AtomData[e].green, AtomData[e].blue)
    ensures e !in AtomData ==> c == Color(0.0, 1.0, 0.0)
  {
    if e in AtomData then Color(AtomData[e].red, AtomData[e].green, AtomData[e].blue)
    else
      var d := [1.0, 0.0, 1.0, 0.0][1..4];
      Color(d[0], d[1], d[2])
  }

  /** A kind without symbols is drawn as `XX`, which the table lists: it
      gets radius 0.8 and grey, not the defaults. */
  lemma SymbollessKind(kind: Kind)
    requires |kind.symbols| == 0
    ensures Element2Radius(KindElement(kind)) == 0.8
    ensures Element2ColorThree(KindElement(kind)) == Color(0.3, 0.3, 0.3)
  {
  }
}
