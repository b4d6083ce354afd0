/** The strict base64 decoder of the relay (tune-bridge/src/ws_server.rs) against
    the encoding of section 4 of RFC 4648. Texts are bytes, as in the source. */
module Base64 {
  import opened Commun

  const EGAL: Octet := 61

  /** The value of one character of the alphabet. */
  function Valeur(c: Octet): Option<Octet> {
    if 65 <= c <= 90 then Some(c - 65)
    else if 97 <= c <= 122 then Some(c - 97 + 26)
    else if 48 <= c <= 57 then Some(c - 48 + 52)
    else if c == 43 then Some(62)
    else if c == 47 then Some(63)
    else None
  }

  /** The character of a 6-bit value. */
  function Lettre(v: nat): Octet
    requires v < 64
  {
    if v < 26 then 65 + v
    else if v < 52 then 97 + (v - 26)
    else if v < 62 then 48 + (v - 52)
    else if v == 62 then 43 else 47
  }

  /** The alphabet of section 4 of RFC 4648. */
  lemma Alphabet(v: nat)
    requires v < 64
    ensures v < 26 ==> Lettre(v) == 'A' as int + v
    ensures 26 <= v < 52 ==> Lettre(v) == 'a' as int + v - 26
    ensures 52 <= v < 62 ==> Lettre(v) == '0' as int + v - 52
    ensures [Lettre(62), Lettre(63), EGAL] == Ascii("+/=")
  {
  }

  lemma LettreValeur(v: nat)
    requires v < 64
    ensures Valeur(Lettre(v)) == Some(v) && Lettre(v) != EGAL
  {
  }

  lemma ValeurLettre(c: Octet)
    ensures Valeur(c).Some? ==> Valeur(c).value < 64 && Lettre(Valeur(c).value) == c && c != EGAL
  {
  }

  /** The encoding: three bytes to four characters, `=` to fill the last block. */
  function Encoder(b: seq<Octet>): (t: seq<Octet>)
    ensures |t| == (|b| + 2) / 3 * 4
  {
    if |b| == 0 then []
    else if |b| == 1 then [Lettre(b[0] / 4), Lettre(b[0] % 4 * 16), EGAL, EGAL]
    else if |b| == 2 then
      [Lettre(b[0] / 4), Lettre(b[0] % 4 * 16 + b[1] / 16), Lettre(b[1] % 16 * 4), EGAL]
    else
      [Lettre(b[0] / 4), Lettre(b[0] % 4 * 16 + b[1] / 16), Lettre(b[1] % 16 * 4 + b[2] / 64), Lettre(b[2] % 64)]
      + Encoder(b[3..])
  }

  /** The number of significant characters of a block, 0 when it is malformed:
      fewer than four only in the last block. */
  function Utiles(bloc: seq<Octet>, dernier: bool): (n: nat)
    requires |bloc| == 4
    ensures n <= 4 && n != 1
    ensures n != 0 ==> forall i :: 0 <= i < n ==> Valeur(bloc[i]).Some?
  {
    if Valeur(bloc[0]).None? || Valeur(bloc[1]).None? then 0
    else if bloc[2] == EGAL then (if dernier && bloc[3] == EGAL then 2 else 0)
    else if Valeur(bloc[2]).None? then 0
    else if bloc[3] == EGAL then (if dernier then 3 else 0)
    else if Valeur(bloc[3]).None? then 0
    else 4
  }

  /** The 24 bits of a block, missing characters counting as zero. */
  function Assemble(bloc: seq<Octet>, n: nat): (a: nat)
    requires |bloc| == 4 && 2 <= n <= 4
    requires forall i :: 0 <= i < n ==> Valeur(bloc[i]).Some?
    ensures a < 0x100_0000
  {
    ValeurLettre(bloc[0]);
    ValeurLettre(bloc[1]);
    ValeurLettre(bloc[2]);
    ValeurLettre(bloc[3]);
    Valeur(bloc[0]).value * 0x4_0000 + Valeur(bloc[1]).value * 0x1000
    + (if n > 2 then Valeur(bloc[2]).value * 0x40 else 0) + (if n > 3 then Valeur(bloc[3]).value else 0)
  }

  function OctetsDe(a: nat, n: nat): seq<Octet>
    requires a < 0x100_0000 && 2 <= n <= 4
  {
    [a / 0x1_0000] + (if n > 2 then [a / 0x100 % 0x100] else []) + (if n > 3 then [a % 0x100] else [])
  }

  /** The decoder, block by block. */
  function Decoder(t: seq<Octet>): (r: Option<seq<Octet>>)
    decreases |t|
  {
    if t == [] then Some([])
    else if |t| < 4 then None
    else
      var n := Utiles(t[..4], |t| == 4);
      if n == 0 then None else
      var suite := Decoder(t[4..]);
      if suite.None? then None
      else Some(OctetsDe(Assemble(t[..4], n), n) + suite.value)
  }

  function Apres(sortie: seq<Octet>, r: Option<seq<Octet>>): Option<seq<Octet>> {
    if r.None? then None else Some(sortie + r.value)
  }

  /** The loop of the source. */
  method DecoderBase64(t: seq<Octet>) returns (r: Option<seq<Octet>>)
    ensures r == Decoder(t)
  {
    if |t| % 4 != 0 {
      LongueurMultiple(t);
      return None;
    }
    var dernier := |t| / 4;
    var sortie: seq<Octet> := [];
    var rang := 0;
    Depart(t);
    while rang < dernier
      invariant 0 <= rang <= dernier
      invariant Decoder(t) == Apres(sortie, Decoder(t[4 * rang..]))
    {
      ghost var reste := t[4 * rang..];
      Decoupe(t, rang);
      var x := LireBloc(t[4 * rang..4 * rang + 4], rang + 1 == dernier);
      if x.None? {
        return None;
      }
      var (assemble, utiles) := x.value;
      ghost var octets := OctetsDe(assemble, utiles + 1);
      hide Utiles, Assemble, OctetsDe;
      assert Decoder(reste) == Apres(octets, Decoder(reste[4..]));
      Enchainer(sortie, octets, Decoder(reste[4..]));
      sortie := Pousser(sortie, assemble, utiles);
      rang := rang + 1;
    }
    Depart(sortie);
    assert t[4 * rang..] == [];
    return Some(sortie);
  }

  method Pousser(sortie: seq<Octet>, assemble: nat, utiles: nat) returns (r: seq<Octet>)
    requires assemble < 0x100_0000 && 1 <= utiles <= 3
    ensures r == sortie + OctetsDe(assemble, utiles + 1)
  {
    r := sortie + [assemble / 0x1_0000 % 0x100];
    if utiles > 1 {
      r := r + [assemble / 0x100 % 0x100];
    }
    if utiles > 2 {
      r := r + [assemble % 0x100];
    }
  }

  lemma Depart(t: seq<Octet>)
    ensures Decoder(t) == Apres([], Decoder(t[0..])) && t + [] == t
  {
    assert t[0..] == t;
    if Decoder(t).Some? {
      assert [] + Decoder(t).value == Decoder(t).value;
    }
  }

  lemma Decoupe(t: seq<Octet>, rang: nat)
    requires 4 * (rang + 1) <= |t|
    ensures t[4 * rang..][..4] == t[4 * rang..4 * rang + 4] && t[4 * rang..][4..] == t[4 * (rang + 1)..]
  {
  }

  lemma Enchainer(a: seq<Octet>, b: seq<Octet>, r: Option<seq<Octet>>)
    ensures Apres(a, Apres(b, r)) == Apres(a + b, r)
  {
    if r.Some? {
      assert a + (b + r.value) == a + b + r.value;
    }
  }

  /** The inner loop: the bits of a block and how many bytes they make. */
  method LireBloc(bloc: seq<Octet>, dernier: bool) returns (r: Option<(nat, nat)>)
    requires |bloc| == 4
    ensures var n := Utiles(bloc, dernier);
            r == if n == 0 then None else Some((Assemble(bloc, n), n - 1))
  {
    var assemble, utiles := 0, 3;
    var i := 0;
    while i < 4
      invariant 0 <= i <= 4 && utiles == 3
      invariant forall k :: 0 <= k < i ==> Valeur(bloc[k]).Some? && bloc[k] != EGAL
      invariant assemble == Somme4(bloc, i)
    {
      if bloc[i] == EGAL {
        if i < 2 || !dernier || exists d :: i <= d < 4 && bloc[d] != EGAL {
          return None;
        }
        utiles := i - 1;
        break;
      }
      if Valeur(bloc[i]).None? {
        return None;
      }
      var poids := if i == 0 then 0x4_0000 else if i == 1 then 0x1000 else if i == 2 then 0x40 else 1;
      assemble := assemble + Valeur(bloc[i]).value * poids;
      i := i + 1;
    }
    return Some((assemble, utiles));
  }

  ghost function Somme4(bloc: seq<Octet>, i: nat): nat
    requires |bloc| == 4 && i <= 4 && forall k :: 0 <= k < i ==> Valeur(bloc[k]).Some?
  {
    (if i > 0 then Valeur(bloc[0]).value * 0x4_0000 else 0) + (if i > 1 then Valeur(bloc[1]).value * 0x1000 else 0)
    + (if i > 2 then Valeur(bloc[2]).value * 0x40 else 0) + (if i > 3 then Valeur(bloc[3]).value else 0)
  }

  lemma {:induction false} LongueurMultiple(t: seq<Octet>)
    requires |t| % 4 != 0
    ensures Decoder(t).None?
    decreases |t|
  {
    if |t| > 4 {
      LongueurMultiple(t[4..]);
    }
  }

  // ------------------------------------------------------------ guarantees

  lemma {:induction false} DecoderEncoder(b: seq<Octet>)
    ensures Decoder(Encoder(b)) == Some(b)
    decreases |b|
  {
    hide *;
    if |b| >= 3 {
      DecoderEncoder(b[3..]);
      EncoderTrois(b);
      var t := Encoder(b);
      assert t[4..] == Encoder(b[3..]);
      assert t[..4] == Plein(b[0], b[1], b[2]);
      DecoderTrois(t, b[0], b[1], b[2], b[3..]);
      assert b == [b[0], b[1], b[2]] + b[3..];
    } else {
      EncoderCourt(b);
    }
  }

  lemma EncoderTrois(b: seq<Octet>)
    requires |b| >= 3
    ensures Encoder(b) == Plein(b[0], b[1], b[2]) + Encoder(b[3..])
  {
    hide Lettre;
  }

  lemma DecoderTrois(t: seq<Octet>, x: Octet, y: Octet, z: Octet, suite: seq<Octet>)
    requires |t| >= 4 && t[..4] == Plein(x, y, z) && Decoder(t[4..]) == Some(suite)
    ensures Decoder(t) == Some([x, y, z] + suite)
  {
    hide Lettre, Utiles, Assemble, OctetsDe, Plein;
    BlocPlein(x, y, z);
  }

  lemma EncoderCourt(b: seq<Octet>)
    requires |b| < 3
    ensures Decoder(Encoder(b)) == Some(b)
  {
    hide *;
    if |b| == 2 {
      assert b == [b[0], b[1]];
      EncoderDeux(b[0], b[1]);
    } else if |b| == 1 {
      assert b == [b[0]];
      EncoderUn(b[0]);
    } else {
      assert b == [];
      EncoderVide();
      DecoderVide();
    }
  }

  lemma EncoderDeux(x: Octet, y: Octet)
    ensures Decoder(Encoder([x, y])) == Some([x, y])
  {
    FormeDeux(x, y);
    hide *;
    BlocDeDeux(x, y);
  }

  lemma FormeDeux(x: Octet, y: Octet)
    ensures Encoder([x, y]) == [Lettre(x / 4), Lettre(x % 4 * 16 + y / 16), Lettre(y % 16 * 4), EGAL]
  {
    hide Lettre;
  }

  lemma EncoderUn(x: Octet)
    ensures Decoder(Encoder([x])) == Some([x])
  {
    FormeUn(x);
    hide *;
    BlocDUn(x);
  }

  lemma FormeUn(x: Octet)
    ensures Encoder([x]) == [Lettre(x / 4), Lettre(x % 4 * 16), EGAL, EGAL]
  {
    hide Lettre;
  }

  lemma EncoderVide()
    ensures Encoder([]) == []
  {
  }

  lemma DecoderVide()
    ensures Decoder([]) == Some([])
  {
  }

  function Plein(x: Octet, y: Octet, z: Octet): (bloc: seq<Octet>)
    ensures |bloc| == 4
  {
    [Lettre(x / 4), Lettre(x % 4 * 16 + y / 16), Lettre(y % 16 * 4 + z / 64), Lettre(z % 64)]
  }

  lemma Triple(x: Octet, y: Octet, z: Octet)
    ensures var a := x / 4 * 0x4_0000 + (x % 4 * 16 + y / 16) * 0x1000 + (y % 16 * 4 + z / 64) * 0x40 + z % 64;
            a / 0x1_0000 == x && a / 0x100 % 0x100 == y && a % 0x100 == z
  {
    var a := x / 4 * 0x4_0000 + (x % 4 * 16 + y / 16) * 0x1000 + (y % 16 * 4 + z / 64) * 0x40 + z % 64;
    assert a == x * 0x1_0000 + y * 0x100 + z by {
      Parts(x / 4, x % 4, y / 16, y % 16, z / 64, z % 64);
    }
    TroisOctets(x, y, z);
  }

  lemma Parts(p: nat, q: nat, r: nat, s: nat, t: nat, u: nat)
    ensures p * 0x4_0000 + (q * 16 + r) * 0x1000 + (s * 4 + t) * 0x40 + u
            == (4 * p + q) * 0x1_0000 + (16 * r + s) * 0x100 + (64 * t + u)
  {
  }

  lemma TroisOctets(x: Octet, y: Octet, z: Octet)
    ensures var a := x * 0x1_0000 + y * 0x100 + z;
            a / 0x1_0000 == x && a / 0x100 % 0x100 == y && a % 0x100 == z
  {
    var a := x * 0x1_0000 + y * 0x100 + z;
    assert a / 0x100 == x * 0x100 + y;
  }

  lemma BlocPlein(x: Octet, y: Octet, z: Octet)
    ensures forall d :: Utiles(Plein(x, y, z), d) == 4
    ensures OctetsDe(Assemble(Plein(x, y, z), 4), 4) == [x, y, z]
  {
    LettreValeur(x / 4);
    LettreValeur(x % 4 * 16 + y / 16);
    LettreValeur(y % 16 * 4 + z / 64);
    LettreValeur(z % 64);
    hide Lettre, Valeur;
    Triple(x, y, z);
  }

  /** A text of one block. */
  lemma UnBloc(t: seq<Octet>)
    requires |t| == 4
    ensures Decoder(t) == var n := Utiles(t, true); if n == 0 then None else Some(OctetsDe(Assemble(t, n), n))
  {
    assert t[..4] == t && t[4..] == [];
    var n := Utiles(t, true);
    if n != 0 {
      assert OctetsDe(Assemble(t, n), n) + [] == OctetsDe(Assemble(t, n), n);
    }
  }

  lemma BlocDeDeux(x: Octet, y: Octet)
    ensures Decoder([Lettre(x / 4), Lettre(x % 4 * 16 + y / 16), Lettre(y % 16 * 4), EGAL]) == Some([x, y])
  {
    LettreValeur(x / 4);
    LettreValeur(x % 4 * 16 + y / 16);
    LettreValeur(y % 16 * 4);
    var t := [Lettre(x / 4), Lettre(x % 4 * 16 + y / 16), Lettre(y % 16 * 4), EGAL];
    UnBloc(t);
    hide Lettre, Decoder, Valeur;
    Triple(x, y, 0);
    assert OctetsDe(Assemble(t, 3), 3) == [x, y];
  }

  lemma BlocDUn(x: Octet)
    ensures Decoder([Lettre(x / 4), Lettre(x % 4 * 16), EGAL, EGAL]) == Some([x])
  {
    LettreValeur(x / 4);
    LettreValeur(x % 4 * 16);
    var t := [Lettre(x / 4), Lettre(x % 4 * 16), EGAL, EGAL];
    UnBloc(t);
    hide Lettre, Decoder, Valeur;
    Triple(x, 0, 0);
    assert OctetsDe(Assemble(t, 2), 2) == [x];
  }

  /** Texts the decoder accepts: whole blocks over the alphabet, filled only in
      the last two places of the last block. */
  ghost predicate BienForme(t: seq<Octet>) {
    && |t| % 4 == 0
    && forall i :: 0 <= i < |t| ==>
         || Valeur(t[i]).Some?
         || (t[i] == EGAL && i == |t| - 1)
         || (t[i] == EGAL && i == |t| - 2 && t[|t| - 1] == EGAL)
  }

  function Remplissage(t: seq<Octet>): (k: nat)
    ensures k <= 2
  {
    if |t| >= 2 && t[|t| - 1] == EGAL then (if t[|t| - 2] == EGAL then 2 else 1) else 0
  }

  lemma {:induction false} AccepteExactement(t: seq<Octet>)
    ensures Decoder(t).Some? <==> BienForme(t)
    ensures Decoder(t).Some? ==> |Decoder(t).value| == |t| / 4 * 3 - Remplissage(t)
    decreases |t|
  {
    hide *;
    if |t| > 4 {
      AccepteExactement(t[4..]);
      BienFormeSuite(t);
      DecoderPas(t);
    } else {
      AccepteCourt(t);
    }
  }

  /** One block, then the rest. */
  lemma DecoderPas(t: seq<Octet>)
    requires |t| > 4
    ensures var n, s := Utiles(t[..4], false), Decoder(t[4..]);
      && (Decoder(t).Some? <==> n != 0 && s.Some?)
      && (Decoder(t).Some? ==> |Decoder(t).value| == 3 + |s.value|)
  {
    hide Valeur, Assemble;
  }

  lemma AccepteCourt(t: seq<Octet>)
    requires |t| <= 4
    ensures Decoder(t).Some? <==> BienForme(t)
    ensures Decoder(t).Some? ==> |Decoder(t).value| == |t| / 4 * 3 - Remplissage(t)
  {
    assert Valeur(EGAL).None?;
    hide Valeur, Assemble;
    if |t| == 4 { assert t[..4] == t && t[4..] == []; }
  }

  lemma BienFormeSuite(t: seq<Octet>)
    requires |t| > 4
    ensures BienForme(t) <==> BienForme(t[4..]) && Utiles(t[..4], false) != 0
    ensures |t| % 4 == 0 ==> Remplissage(t) == Remplissage(t[4..])
    ensures |t| % 4 == 0 <==> |t[4..]| % 4 == 0
    ensures BienForme(t) ==> |t| % 4 == 0
  {
    assert Valeur(EGAL).None?;
    hide Valeur;
    var s := t[4..];
    forall i | 0 <= i < |s| ensures s[i] == t[i + 4] {
    }
    if BienForme(s) && Utiles(t[..4], false) != 0 {
      forall i | 4 <= i < |t| ensures t[i] == s[i - 4] {
      }
      forall i | 0 <= i < 4 ensures t[i] == t[..4][i] {
      }
    }
  }

  /** Canonical: the bits of the last character that no byte uses are zero. */
  predicate Canonique(t: seq<Octet>) {
    var n := |t|;
    if n < 4 || t[n - 1] != EGAL then true
    else if t[n - 2] == EGAL then Valeur(t[n - 3]).Some? && Valeur(t[n - 3]).value % 16 == 0
    else Valeur(t[n - 2]).Some? && Valeur(t[n - 2]).value % 4 == 0
  }

  /** Encoding gives an accepted text back exactly when it is canonical: the
      decoder lets non-zero trailing bits through. */
  lemma {:induction false} EncoderDecoder(t: seq<Octet>)
    requires Decoder(t).Some?
    ensures Encoder(Decoder(t).value) == t <==> Canonique(t)
    decreases |t|
  {
    if |t| > 4 {
      EncoderDecoder(t[4..]);
      LongueursJustes(t);
      BlocRelu(t[..4]);
      hide Canonique, Valeur, Lettre, Assemble, OctetsDe;
      EncoderSuite(OctetsDe(Assemble(t[..4], 4), 4), Decoder(t[4..]).value);
      assert t == t[..4] + t[4..];
      hide Encoder;
      CanoniqueSuite(t);
    } else if |t| == 4 {
      UnBloc(t);
      DernierBloc(t);
    }
  }

  lemma EncoderSuite(b: seq<Octet>, c: seq<Octet>)
    requires |b| == 3
    ensures Encoder(b + c) == Encoder(b) + Encoder(c)
  {
    assert (b + c)[3..] == c && b[3..] == [];
  }

  lemma CanoniqueSuite(t: seq<Octet>)
    requires |t| >= 8
    ensures Canonique(t) == Canonique(t[4..])
  {
  }

  lemma LongueursJustes(t: seq<Octet>)
    requires Decoder(t).Some? && |t| > 4
    ensures |t| >= 8 && Utiles(t[..4], false) == 4
  {
    AccepteExactement(t);
  }

  lemma BlocRelu(bloc: seq<Octet>)
    requires |bloc| == 4 && Utiles(bloc, false) == 4
    ensures var b := OctetsDe(Assemble(bloc, 4), 4); |b| == 3 && Encoder(b) == bloc
  {
    ValeurLettre(bloc[0]);
    ValeurLettre(bloc[1]);
    ValeurLettre(bloc[2]);
    ValeurLettre(bloc[3]);
    hide Valeur, Lettre;
    Sextets(Valeur(bloc[0]).value, Valeur(bloc[1]).value, Valeur(bloc[2]).value, Valeur(bloc[3]).value);
    var b := OctetsDe(Assemble(bloc, 4), 4);
    assert b[3..] == [];
  }

  lemma Sextets(p: nat, q: nat, r: nat, s: nat)
    requires p < 64 && q < 64 && r < 64 && s < 64
    ensures var a := p * 0x4_0000 + q * 0x1000 + r * 0x40 + s;
            var x, y, z := a / 0x1_0000, a / 0x100 % 0x100, a % 0x100;
            x / 4 == p && x % 4 * 16 + y / 16 == q && y % 16 * 4 + z / 64 == r && z % 64 == s
  {
    Parts(p, q / 16, q % 16, r / 4, r % 4, s);
    TroisOctets(4 * p + q / 16, 16 * (q % 16) + r / 4, 64 * (r % 4) + s);
    Restes(p, q / 16, q % 16, r / 4, r % 4, s);
  }

  lemma Restes(p: nat, q: nat, r: nat, s: nat, t: nat, u: nat)
    requires q < 4 && r < 16 && s < 16 && t < 4 && u < 64
    ensures (4 * p + q) / 4 == p && (4 * p + q) % 4 == q
    ensures (16 * r + s) / 16 == r && (16 * r + s) % 16 == s
    ensures (64 * t + u) / 64 == t && (64 * t + u) % 64 == u
  {
  }

  lemma DernierBloc(t: seq<Octet>)
    requires |t| == 4 && Utiles(t, true) != 0
    ensures var n := Utiles(t, true); Encoder(OctetsDe(Assemble(t, n), n)) == t <==> Canonique(t)
  {
    var n := Utiles(t, true);
    ValeurLettre(t[0]);
    ValeurLettre(t[1]);
    ValeurLettre(t[2]);
    ValeurLettre(t[3]);
    if n == 4 {
      assert Utiles(t, false) == 4;
      BlocRelu(t);
    } else if n == 3 {
      var p, q, r := Valeur(t[0]).value, Valeur(t[1]).value, Valeur(t[2]).value;
      assert t == [Lettre(p), Lettre(q), Lettre(r), EGAL];
      BlocDeTrois(p, q, r);
      hide Valeur, Lettre, OctetsDe, Encoder;
    } else {
      var p, q := Valeur(t[0]).value, Valeur(t[1]).value;
      assert t == [Lettre(p), Lettre(q), EGAL, EGAL];
      BlocDeUn(p, q);
      hide Valeur, Lettre, OctetsDe, Encoder;
    }
  }

  lemma LettreInjective(v: nat, w: nat)
    requires v < 64 && w < 64
    ensures Lettre(v) == Lettre(w) <==> v == w
  {
    LettreValeur(v);
    LettreValeur(w);
    hide Valeur, Lettre;
  }

  lemma BlocDeTrois(p: nat, q: nat, r: nat)
    requires p < 64 && q < 64 && r < 64
    ensures var a := p * 0x4_0000 + q * 0x1000 + r * 0x40;
            Encoder(OctetsDe(a, 3)) == [Lettre(p), Lettre(q), Lettre(r), EGAL] <==> r % 4 == 0
  {
    var a := p * 0x4_0000 + q * 0x1000 + r * 0x40;
    var x, y := a / 0x1_0000, a / 0x100 % 0x100;
    assert x / 4 == p && x % 4 * 16 + y / 16 == q && y % 16 == r / 4 by { Sextets(p, q, r, 0); }
    assert OctetsDe(a, 3) == [x, y];
    assert Encoder([x, y]) == [Lettre(p), Lettre(q), Lettre(r / 4 * 4), EGAL];
    LettreInjective(r / 4 * 4, r);
    hide Lettre, Encoder, OctetsDe;
    assert [Lettre(p), Lettre(q), Lettre(r / 4 * 4), EGAL][2] == Lettre(r / 4 * 4);
    assert [Lettre(p), Lettre(q), Lettre(r), EGAL][2] == Lettre(r);
  }

  lemma BlocDeUn(p: nat, q: nat)
    requires p < 64 && q < 64
    ensures var a := p * 0x4_0000 + q * 0x1000;
            Encoder(OctetsDe(a, 2)) == [Lettre(p), Lettre(q), EGAL, EGAL] <==> q % 16 == 0
  {
    var a := p * 0x4_0000 + q * 0x1000;
    var x := a / 0x1_0000;
    assert x / 4 == p && x % 4 == q / 16;
    assert OctetsDe(a, 2) == [x];
    assert Encoder([x]) == [Lettre(p), Lettre(q / 16 * 16), EGAL, EGAL];
    LettreInjective(q / 16 * 16, q);
    hide Lettre, Encoder, OctetsDe;
    assert [Lettre(p), Lettre(q / 16 * 16), EGAL, EGAL][1] == Lettre(q / 16 * 16);
    assert [Lettre(p), Lettre(q), EGAL, EGAL][1] == Lettre(q);
  }

  /** A text the decoder accepts and encoding does not give back. */
  lemma BitsPerdus()
    ensures Decoder([65, 66, EGAL, EGAL]) == Some([0]) && Encoder([0]) == [65, 65, EGAL, EGAL]
  {
    var t: seq<Octet> := [65, 66, EGAL, EGAL];
    UnBloc(t);
    assert OctetsDe(Assemble(t, 2), 2) == [0];
  }
}
