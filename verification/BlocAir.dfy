/** The block coder of Devialet AIR audio packets, and the reading of what it
    writes (scripts/devialet-air-vecteurs.py). */
module BlocAir {
  import opened Commun
  import M = MorceauBinaire

  /** A 24-bit sample. */
  type Echantillon = x: int | -0x80_0000 <= x < 0x80_0000

  // -------------------------------------------------------- powers of two

  function Deux(n: nat): (p: nat)
    ensures p > 0
  {
    if n == 0 then 1 else 2 * Deux(n - 1)
  }

  lemma {:induction false} DeuxPlus(a: nat, b: nat)
    ensures Deux(a + b) == Deux(a) * Deux(b)
  {
    if a > 0 { DeuxPlus(a - 1, b); }
  }

  /** `int.bit_length`. */
  function Longueur(n: nat): nat { if n == 0 then 0 else 1 + Longueur(n / 2) }

  lemma {:induction false} LongueurBorne(n: nat, k: nat)
    ensures Longueur(n) <= k <==> n < Deux(k)
  {
    if n > 0 && k > 0 { LongueurBorne(n / 2, k - 1); }
  }

  // -------------------------------------------------------------- division

  function Abs(d: int): nat { if d < 0 then -d else d }

  function Quo(n: nat, p: nat): (q: nat)
    requires p > 0
  {
    n / p
  }

  function Rem(n: nat, p: nat): (r: nat)
    requires p > 0
    ensures r < p
  {
    n % p
  }

  /** A shift that rounds toward zero. */
  function Tz(d: int, s: nat): int {
    var q: int := Quo(Abs(d), Deux(s));
    if d < 0 then -q else q
  }

  lemma Quotient(d: nat, p: nat)
    requires p > 0
    ensures d == Quo(d, p) * p + Rem(d, p)
    ensures Quo(d, p) * p <= d < Quo(d, p) * p + p
  {
    assert d == d / p * p + d % p;
  }

  /** What is coded lies between nothing and the whole difference, and misses it
      by less than one step. */
  lemma TzBorne(d: int, s: nat)
    ensures var a := Tz(d, s) * Deux(s);
      && (d >= 0 ==> 0 <= a <= d < a + Deux(s))
      && (d < 0 ==> a - Deux(s) < d <= a <= 0)
  {
    Quotient(Abs(d), Deux(s));
  }

  // ---------------------------------------------------------------- fields

  /** Sign in the lowest bit, magnitude above. */
  function Champ(q: int): nat { 2 * Abs(q) + if q < 0 then 1 else 0 }

  function Lu(f: nat): int { if f % 2 == 1 then -(f / 2) else f / 2 }

  lemma ChampLu(q: int)
    ensures Lu(Champ(q)) == q
  {
  }

  function Champs(rec: int, xs: seq<int>, s: nat): (ch: seq<nat>)
    ensures |ch| == |xs|
    decreases |xs|
  {
    if xs == [] then [] else
      var q := Tz(xs[0] - rec, s);
      [Champ(q)] + Champs(rec + q * Deux(s), xs[1..], s)
  }

  /** What a reader reconstructs from the first sample and the fields. */
  function Derouler(rec: int, ch: seq<nat>, s: nat): (r: seq<int>)
    ensures |r| == |ch|
    decreases |ch|
  {
    if ch == [] then [] else
      var suivant := rec + Lu(ch[0]) * Deux(s);
      [suivant] + Derouler(suivant, ch[1..], s)
  }

  function Relu(rec: int, xs: seq<int>, s: nat): (r: seq<int>)
    ensures |r| == |xs|
  {
    Derouler(rec, Champs(rec, xs, s), s)
  }

  lemma ReluPas(rec: int, xs: seq<int>, s: nat)
    requires xs != []
    ensures var suivant := rec + Tz(xs[0] - rec, s) * Deux(s);
      Relu(rec, xs, s) == [suivant] + Relu(suivant, xs[1..], s)
  {
    ChampLu(Tz(xs[0] - rec, s));
  }

  ghost predicate Entre(xs: seq<int>, bas: int, haut: int) { forall i :: 0 <= i < |xs| ==> bas <= xs[i] <= haut }

  ghost predicate Proches(r: seq<int>, xs: seq<int>, pas: int) {
    |r| == |xs| && forall i :: 0 <= i < |xs| ==> -pas < r[i] - xs[i] < pas
  }

  /** The reconstruction stays among the samples and never strays from them by a
      whole step: the error does not add up. */
  lemma {:induction false} ReluProche(rec: int, xs: seq<int>, s: nat, bas: int, haut: int)
    requires bas <= rec <= haut && Entre(xs, bas, haut)
    ensures Proches(Relu(rec, xs, s), xs, Deux(s)) && Entre(Relu(rec, xs, s), bas, haut)
    decreases |xs|
  {
    if xs != [] {
      ReluPas(rec, xs, s);
      TzBorne(xs[0] - rec, s);
      var suivant := rec + Tz(xs[0] - rec, s) * Deux(s);
      hide Relu, Tz, Deux;
      assert bas <= xs[0] <= haut;
      assert Entre(xs[1..], bas, haut);
      ReluProche(suivant, xs[1..], s, bas, haut);
      ProcheAvant(suivant, xs, Relu(suivant, xs[1..], s), Deux(s), bas, haut);
    }
  }

  lemma ProcheAvant(y: int, xs: seq<int>, r: seq<int>, pas: int, bas: int, haut: int)
    requires xs != [] && -pas < y - xs[0] < pas && bas <= y <= haut
    requires Proches(r, xs[1..], pas) && Entre(r, bas, haut)
    ensures Proches([y] + r, xs, pas) && Entre([y] + r, bas, haut)
  {
    forall i | 0 <= i < |xs| ensures -pas < ([y] + r)[i] - xs[i] < pas {
      if i > 0 { assert xs[i] == xs[1..][i - 1]; }
    }
  }

  lemma {:induction false} ReluPrefixe(rec: int, xs: seq<int>, s: nat, n: nat)
    requires n <= |xs|
    ensures Relu(rec, xs, s)[..n] == Relu(rec, xs[..n], s)
    decreases n
  {
    if n > 0 {
      var suivant := rec + Tz(xs[0] - rec, s) * Deux(s);
      ReluPas(rec, xs, s);
      ReluPas(rec, xs[..n], s);
      assert xs[..n][1..] == xs[1..][..n - 1];
      ReluPrefixe(suivant, xs[1..], s, n - 1);
      hide Relu, Tz, Deux;
      assert Relu(rec, xs, s)[..n] == [suivant] + Relu(suivant, xs[1..], s)[..n - 1];
    }
  }

  // ------------------------------------------------------------- the shift

  function Maximum(ch: seq<nat>): (m: nat)
    ensures forall i :: 0 <= i < |ch| ==> ch[i] <= m
    ensures ch == [] || m in ch
  {
    if ch == [] then 0 else
      var m := Maximum(ch[..|ch| - 1]);
      if m < ch[|ch| - 1] then ch[|ch| - 1] else m
  }

  /** The width of the fields for one shift. */
  function Largeur(e: seq<Echantillon>, s: nat): nat
    requires e != []
  {
    Longueur(Maximum(Champs(e[0], e[1..], s)))
  }

  lemma QuotientBorne(n: nat, a: nat, p: nat)
    requires p > 0 && n < a * p
    ensures Quo(n, p) < a
  {
    hide Quo, Rem;
    Quotient(n, p);
    if Quo(n, p) >= a { ProduitCroit(a, Quo(n, p), p); }
  }

  lemma ProduitCroit(a: nat, b: nat, p: nat)
    requires a <= b
    ensures a * p <= b * p
  {
  }

  /** A difference of 24-bit samples shifted by s takes at most 25 - s bits. */
  lemma ChampBorne(d: int, s: nat)
    requires Abs(d) < Deux(24) && s <= 24
    ensures Champ(Tz(d, s)) < Deux(25 - s)
    ensures s == 24 ==> Tz(d, s) == 0
  {
    DeuxPlus(24 - s, s);
    QuotientBorne(Abs(d), Deux(24 - s), Deux(s));
    assert Deux(25 - s) == 2 * Deux(24 - s);
    TzAbs(d, s);
    DeuxUn();
    hide Deux, Tz;
  }

  lemma DeuxUn()
    ensures Deux(0) == 1
  {
  }

  lemma TzAbs(d: int, s: nat)
    ensures Abs(Tz(d, s)) == Quo(Abs(d), Deux(s))
  {
    hide Deux, Quo;
  }

  lemma {:induction false} ChampsBornes(rec: int, xs: seq<int>, s: nat)
    requires s <= 24 && -0x80_0000 <= rec < 0x80_0000 && Entre(xs, -0x80_0000, 0x7F_FFFF)
    ensures forall i :: 0 <= i < |xs| ==> Champs(rec, xs, s)[i] < Deux(25 - s)
    ensures s == 24 ==> forall i :: 0 <= i < |xs| ==> Champs(rec, xs, s)[i] == 0
    decreases |xs|
  {
    if xs != [] {
      assert -0x80_0000 <= xs[0] <= 0x7F_FFFF;
      assert Deux(24) == 0x100_0000 by { DeuxVingtQuatre(); }
      ChampBorne(xs[0] - rec, s);
      TzBorne(xs[0] - rec, s);
      var suivant := rec + Tz(xs[0] - rec, s) * Deux(s);
      hide Tz, Deux, Champ;
      assert Entre(xs[1..], -0x80_0000, 0x7F_FFFF);
      ChampsBornes(suivant, xs[1..], s);
      assert s == 24 ==> Champ(Tz(xs[0] - rec, s)) == Champ(0) == 0 by { ChampZero(); }
    }
  }

  lemma ChampZero()
    ensures Champ(0) == 0
  {
  }

  lemma DeuxVingtQuatre()
    ensures Deux(24) == 0x100_0000
  {
    assert Deux(6) == 64;
    assert Deux(12) == 64 * 64 by { DeuxPlus(6, 6); }
    DeuxPlus(12, 12);
  }

  lemma SontEntre(e: seq<Echantillon>)
    ensures Entre(e, -0x80_0000, 0x7F_FFFF)
  {
  }

  lemma LargeurBorne(e: seq<Echantillon>, s: nat)
    requires e != [] && s <= 24
    ensures Largeur(e, s) <= 25 - s
    ensures s == 24 ==> Largeur(e, s) == 0
  {
    SontEntre(e[1..]);
    ChampsBornes(e[0], e[1..], s);
    var ch := Champs(e[0], e[1..], s);
    LongueurBorne(Maximum(ch), 25 - s);
    hide Champs, Deux, Longueur;
    if ch == [] {
      MaximumVide();
    }
    assert Maximum(ch) < Deux(25 - s);
    LongueurZero();
  }

  lemma MaximumVide()
    ensures Maximum([]) == 0
  {
  }

  lemma LongueurZero()
    ensures Longueur(0) == 0
  {
  }

  predicate Convient(e: seq<Echantillon>, cap: Option<nat>, s: nat)
    requires e != []
  {
    cap.None? || Largeur(e, s) <= cap.value
  }

  /** The first shift that fits, from `s` on. */
  function Cherche(e: seq<Echantillon>, cap: Option<nat>, s: nat): (r: nat)
    requires e != [] && s <= 24
    ensures s <= r <= 24 && Convient(e, cap, r)
    ensures forall i :: s <= i < r ==> !Convient(e, cap, i)
    decreases 24 - s
  {
    LargeurBorne(e, s);
    if Convient(e, cap, s) then s else Cherche(e, cap, s + 1)
  }

  function Decalage(e: seq<Echantillon>, cap: Option<nat>): nat
    requires e != []
  {
    Cherche(e, cap, 0)
  }

  /** The search ends at the least shift that fits: at most 15 for a width of 10
      bits, none when the width is free, which then needs at most 25. */
  lemma RechercheBornee(e: seq<Echantillon>, cap: Option<nat>)
    requires e != []
    ensures var s := Decalage(e, cap);
      && Convient(e, cap, s) && (forall i :: 0 <= i < s ==> !Convient(e, cap, i))
      && (cap == Some(10) ==> s <= 15 && Largeur(e, s) <= 10)
      && (cap.None? ==> s == 0 && Largeur(e, s) <= 25)
      && s <= 24 && Largeur(e, s) <= 25
  {
    hide Largeur, Cherche;
    var s := Cherche(e, cap, 0);
    LargeurBorne(e, 15);
    LargeurBorne(e, s);
    if cap == Some(10) { assert Convient(e, cap, 15); }
    if cap.None? { assert Convient(e, cap, 0); }
  }

  // --------------------------------------------------------------- packing

  /** Fields of `b` bits side by side, most significant first. */
  function Accumule(ch: seq<nat>, b: nat): nat {
    if ch == [] then 0 else Accumule(ch[..|ch| - 1], b) * Deux(b) + ch[|ch| - 1]
  }

  function Depile(acc: nat, b: nat, n: nat): (ch: seq<nat>)
    ensures |ch| == n
    decreases n
  {
    hide Deux, Quo, Rem;
    if n == 0 then [] else Depile(Quo(acc, Deux(b)), b, n - 1) + [Rem(acc, Deux(b))]
  }

  ghost predicate Tiennent(ch: seq<nat>, b: nat) { forall i :: 0 <= i < |ch| ==> ch[i] < Deux(b) }

  lemma MemeQuotient(q: nat, r: nat, q': nat, r': nat, p: nat)
    requires r < p && r' < p && q * p + r == q' * p + r'
    ensures q == q' && r == r'
  {
    assert (q + 1) * p == q * p + p && (q' + 1) * p == q' * p + p;
    if q < q' { ProduitCroit(q + 1, q', p); }
    if q' < q { ProduitCroit(q' + 1, q, p); }
  }

  lemma DivMod(q: nat, r: nat, p: nat)
    requires r < p
    ensures Quo(q * p + r, p) == q && Rem(q * p + r, p) == r
  {
    hide Quo, Rem;
    Quotient(q * p + r, p);
    MemeQuotient(q, r, Quo(q * p + r, p), Rem(q * p + r, p), p);
  }

  lemma AccumulePas(ch: seq<nat>, b: nat)
    requires ch != [] && ch[|ch| - 1] < Deux(b)
    ensures Quo(Accumule(ch, b), Deux(b)) == Accumule(ch[..|ch| - 1], b)
    ensures Rem(Accumule(ch, b), Deux(b)) == ch[|ch| - 1]
  {
    hide Deux, Quo, Rem;
    DivMod(Accumule(ch[..|ch| - 1], b), ch[|ch| - 1], Deux(b));
  }

  lemma {:induction false} DepileAccumule(ch: seq<nat>, b: nat)
    requires Tiennent(ch, b)
    ensures Depile(Accumule(ch, b), b, |ch|) == ch
  {
    hide Deux, Quo, Rem, Accumule;
    if ch != [] {
      AccumulePas(ch, b);
      DepileAccumule(ch[..|ch| - 1], b);
      assert ch == ch[..|ch| - 1] + [ch[|ch| - 1]];
    }
  }

  lemma BornePas(x: nat, f: nat, a: nat, p: nat)
    requires x < a && f < p
    ensures x * p + f < a * p
  {
    ProduitCroit(x + 1, a, p);
    assert (x + 1) * p == x * p + p;
  }

  lemma Produits(b: nat, n: nat)
    ensures b * (n + 1) == b * n + b && b * 0 == 0
  {
  }

  lemma {:induction false} AccumuleBorne(ch: seq<nat>, b: nat)
    requires Tiennent(ch, b)
    ensures Accumule(ch, b) < Deux(b * |ch|)
  {
    hide Deux;
    if ch == [] {
      DeuxUn();
      Produits(b, 0);
    } else {
      var n := |ch| - 1;
      AccumuleBorne(ch[..n], b);
      Produits(b, n);
      DeuxPlus(b * n, b);
      BornePas(Accumule(ch[..n], b), ch[n], Deux(b * n), Deux(b));
    }
  }

  /** Bytes for `n` fields of `b` bits, and the bits left over in the last. */
  function NbOctets(b: nat, n: nat): nat { (b * n + 7) / 8 }

  function Reste(b: nat, n: nat): nat { NbOctets(b, n) * 8 - b * n }

  lemma {:induction false} PuissanceDeux(k: nat)
    ensures M.Puissance(k) == Deux(8 * k)
  {
    if k > 0 {
      PuissanceDeux(k - 1);
      DeuxPlus(8, 8 * (k - 1));
      assert Deux(8) == 256 by { assert Deux(4) == 16; DeuxPlus(4, 4); }
    }
  }

  function Serrer(ch: seq<nat>, b: nat): (o: seq<Octet>)
    ensures |o| == NbOctets(b, |ch|)
  {
    M.GrosBoutiste(Accumule(ch, b) * Deux(Reste(b, |ch|)), NbOctets(b, |ch|))
  }

  function Desserrer(o: seq<Octet>, b: nat, n: nat): (ch: seq<nat>)
    ensures |ch| == n
  {
    hide M.Valeur, Deux, Quo, Depile;
    Depile(Quo(M.Valeur(o), Deux(Reste(b, n))), b, n)
  }

  /** Unpacking undoes packing, padding included. */
  lemma Serre(ch: seq<nat>, b: nat)
    requires Tiennent(ch, b)
    ensures Desserrer(Serrer(ch, b), b, |ch|) == ch
  {
    hide Deux, Accumule, M.GrosBoutiste, M.Valeur, M.Puissance, Depile, Quo, Rem;
    var n := |ch|;
    var acc, nb, r := Accumule(ch, b), NbOctets(b, n), Reste(b, n);
    AccumuleBorne(ch, b);
    DeuxPlus(b * n, r);
    PuissanceDeux(nb);
    ProduitCroit(acc + 1, Deux(b * n), Deux(r));
    assert (acc + 1) * Deux(r) == acc * Deux(r) + Deux(r);
    M.ValeurDe(acc * Deux(r), nb);
    DivMod(acc, 0, Deux(r));
    DepileAccumule(ch, b);
  }

  // ----------------------------------------------------------------- blocks

  /** Two's complement on three bytes. */
  function Complement(x: Echantillon): (v: nat)
    ensures v < 0x100_0000
  {
    if x < 0 then x + 0x100_0000 else x
  }

  function Signe(v: nat): int { if v < 0x80_0000 then v else v - 0x100_0000 }

  function ChampsDe(e: seq<Echantillon>, s: nat): (ch: seq<nat>)
    requires e != []
    ensures |ch| == |e| - 1
  {
    Champs(e[0], e[1..], s)
  }

  /** `bloc`: the first sample, the shift and the width twice each, the fields. */
  function Bloc(e: seq<Echantillon>, cap: Option<nat>): seq<Octet>
    requires e != []
  {
    hide Largeur, Cherche, ChampsDe, Serrer, M.GrosBoutiste;
    RechercheBornee(e, cap);
    var s := Decalage(e, cap);
    var b := Largeur(e, s);
    M.GrosBoutiste(Complement(e[0]), 3) + [s, s, b, b] + Serrer(ChampsDe(e, s), b)
  }

  /** One pass over the samples, for one shift. */
  method Essayer(e: seq<Echantillon>, s: nat) returns (ch: seq<nat>)
    requires e != []
    ensures ch == ChampsDe(e, s)
  {
    hide Tz, Deux, Champ;
    var rec: int := e[0];
    ch := [];
    var i := 1;
    assert ch + Champs(rec, e[i..], s) == ChampsDe(e, s);
    while i < |e|
      invariant 1 <= i <= |e|
      invariant ch + Champs(rec, e[i..], s) == ChampsDe(e, s)
    {
      var q := Tz(e[i] - rec, s);
      assert e[i..][0] == e[i] && e[i..][1..] == e[i + 1..];
      assert Champs(rec, e[i..], s) == [Champ(q)] + Champs(rec + q * Deux(s), e[i + 1..], s);
      rec := rec + q * Deux(s);
      ch := ch + [Champ(q)];
      i := i + 1;
    }
    assert e[i..] == [];
  }

  /** The search of the source. */
  method Chercher(e: seq<Echantillon>, cap: Option<nat>) returns (s: nat, b: nat, ch: seq<nat>)
    requires e != []
    ensures s == Decalage(e, cap) && ch == ChampsDe(e, s) && b == Largeur(e, s)
  {
    hide Champs, Maximum, Longueur;
    s := 0;
    ch := Essayer(e, s);
    b := Longueur(Maximum(ch));
    while cap.Some? && b > cap.value
      invariant 0 <= s <= 24 && ch == ChampsDe(e, s) && b == Largeur(e, s)
      invariant Cherche(e, cap, s) == Decalage(e, cap)
      decreases 24 - s
    {
      LargeurBorne(e, s);
      s := s + 1;
      ch := Essayer(e, s);
      b := Longueur(Maximum(ch));
    }
  }

  /** The search, then the packing. */
  method CoderBloc(e: seq<Echantillon>, cap: Option<nat>) returns (octets: seq<Octet>)
    requires e != []
    ensures octets == Bloc(e, cap)
  {
    hide Cherche, Largeur, ChampsDe, Deux, M.GrosBoutiste;
    RechercheBornee(e, cap);
    var s, b, ch := Chercher(e, cap);
    var acc: nat, i := 0, 0;
    while i < |ch|
      invariant 0 <= i <= |ch| && acc == Accumule(ch[..i], b)
    {
      assert ch[..i + 1][..i] == ch[..i];
      acc := acc * Deux(b) + ch[i];
      i := i + 1;
    }
    assert ch[..i] == ch;
    var nb := NbOctets(b, |ch|);
    acc := acc * Deux(nb * 8 - b * |ch|);
    octets := M.GrosBoutiste(Complement(e[0]), 3) + [s, s, b, b] + M.GrosBoutiste(acc, nb);
  }

  /** Reads one block of `n` samples at the head of `d`: its own header tells its
      length. */
  function LireBloc(d: seq<Octet>, n: nat): Option<(seq<int>, seq<Octet>)>
    requires n > 0
  {
    if |d| < 7 || d[3] != d[4] || d[5] != d[6] then None
    else
      var s: nat, b: nat := d[3], d[5];
      var nb := NbOctets(b, n - 1);
      if |d| < 7 + nb then None else
      var x := Signe(M.Valeur(d[..3]));
      Some(([x] + Derouler(x, Desserrer(d[7..7 + nb], b, n - 1), s), d[7 + nb..]))
  }

  /** What a reader of the block hears. */
  function Entendu(e: seq<Echantillon>, cap: Option<nat>): (r: seq<int>)
    requires e != []
    ensures |r| == |e|
  {
    [e[0]] + Relu(e[0], e[1..], Decalage(e, cap))
  }

  lemma ChampsTiennent(e: seq<Echantillon>, s: nat)
    requires e != []
    ensures Tiennent(ChampsDe(e, s), Largeur(e, s))
  {
    hide Champs, Deux, Longueur;
    LongueurBorne(Maximum(ChampsDe(e, s)), Largeur(e, s));
  }

  lemma PremierRelu(x: Echantillon)
    ensures Signe(M.Valeur(M.GrosBoutiste(Complement(x), 3))) == x
  {
    assert M.Puissance(3) == 0x100_0000;
    M.ValeurDe(Complement(x), 3);
    hide M.Valeur, M.GrosBoutiste;
  }

  /** A block followed by anything is read back, and what follows is found. */
  lemma BlocRelu(e: seq<Echantillon>, cap: Option<nat>, suite: seq<Octet>)
    requires e != []
    ensures LireBloc(Bloc(e, cap) + suite, |e|) == Some((Entendu(e, cap), suite))
  {
    hide Decalage, Largeur, Serrer, Desserrer, ChampsDe, M.GrosBoutiste, M.Valeur, Derouler, Deux, Complement, Signe,
      NbOctets;
    RechercheBornee(e, cap);
    var s := Decalage(e, cap);
    var b := Largeur(e, s);
    var ch := ChampsDe(e, s);
    var d := Bloc(e, cap) + suite;
    var t := M.GrosBoutiste(Complement(e[0]), 3);
    assert d[..3] == t && d[3] == d[4] == s && d[5] == d[6] == b;
    var nb := NbOctets(b, |e| - 1);
    assert d[7..7 + nb] == Serrer(ch, b);
    assert d[7 + nb..] == suite;
    PremierRelu(e[0]);
    ChampsTiennent(e, s);
    Serre(ch, b);
    assert ch == Champs(e[0], e[1..], s) by { ChampsDef(e, s); }
  }

  lemma ChampsDef(e: seq<Echantillon>, s: nat)
    requires e != []
    ensures ChampsDe(e, s) == Champs(e[0], e[1..], s)
  {
  }
}
