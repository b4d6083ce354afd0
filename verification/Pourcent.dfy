/** Percent coding and the token in a query string
    (tune-bridge/src/api_proxy.rs). Texts are bytes. */
module Pourcent {
  import opened Commun

  type Octets = seq<Octet>

  const PLUS: Octet := 43
  const POURCENT: Octet := 37
  const ESPACE: Octet := 32
  const ET: Octet := 38
  const EGAL: Octet := 61

  // --------------------------------------------------------------- digits

  /** A hexadecimal digit, in either case. */
  function Hexa(c: Octet): Option<nat> {
    if 48 <= c <= 57 then Some(c - 48)
    else if 65 <= c <= 70 then Some(c - 55)
    else if 97 <= c <= 102 then Some(c - 87)
    else None
  }

  /** `{:X}` of one digit. */
  function Chiffre(v: nat): Octet
    requires v < 16
  {
    if v < 10 then 48 + v else 55 + v
  }

  /** `u8::from_str_radix(h, 16)` on two characters: a leading plus sign is a sign. */
  function DeuxChiffres(a: Octet, b: Octet): Option<Octet> {
    if a == PLUS then (if Hexa(b).Some? then Some(Hexa(b).value) else None)
    else if Hexa(a).Some? && Hexa(b).Some? then Some(16 * Hexa(a).value + Hexa(b).value)
    else None
  }

  // --------------------------------------------------------------- coding

  /** The unreserved characters of section 2.3 of RFC 3986. */
  predicate Libre(o: Octet) {
    48 <= o <= 57 || 65 <= o <= 90 || 97 <= o <= 122 || o in [45, 95, 46, 126]
  }

  function Code(o: Octet): Octets { if Libre(o) then [o] else [POURCENT, Chiffre(o / 16), Chiffre(o % 16)] }

  function Encoder(t: Octets): Octets {
    if t == [] then [] else Encoder(t[..|t| - 1]) + Code(t[|t| - 1])
  }

  method EncoderPourcent(t: Octets) returns (sortie: Octets)
    ensures sortie == Encoder(t)
  {
    sortie := [];
    var i := 0;
    while i < |t|
      invariant 0 <= i <= |t| && sortie == Encoder(t[..i])
    {
      assert t[..i + 1][..i] == t[..i];
      if Libre(t[i]) {
        sortie := sortie + [t[i]];
      } else {
        sortie := sortie + [POURCENT, Chiffre(t[i] / 16), Chiffre(t[i] % 16)];
      }
      i := i + 1;
    }
    assert t[..i] == t;
  }

  /** The byte a percent sequence stands for, when it is one. */
  function Sequence(t: Octets, i: nat): Option<Octet>
    requires i < |t|
  {
    if t[i] == POURCENT && i + 2 < |t| then DeuxChiffres(t[i + 1], t[i + 2]) else None
  }

  /** Decoding from place `i`: `+` is a space, a percent sequence a byte, anything
      else itself. */
  function Suite(t: Octets, i: nat): Octets
    decreases if i < |t| then |t| - i else 0
  {
    if i >= |t| then []
    else if t[i] == PLUS then [ESPACE] + Suite(t, i + 1)
    else if Sequence(t, i).Some? then [Sequence(t, i).value] + Suite(t, i + 3)
    else [t[i]] + Suite(t, i + 1)
  }

  function Decoder(t: Octets): Octets { Suite(t, 0) }

  method DecoderPourcent(t: Octets) returns (sortie: Octets)
    ensures sortie == Decoder(t)
  {
    hide Suite, Sequence, DeuxChiffres;
    sortie := [];
    var i := 0;
    assert [] + Suite(t, 0) == Suite(t, 0);
    while i < |t|
      invariant 0 <= i && sortie + Suite(t, i) == Decoder(t)
    {
      ghost var avant, j := sortie, i;
      UnPas(t, i);
      if t[i] == PLUS {
        sortie := sortie + [ESPACE];
      } else if t[i] == POURCENT && i + 2 < |t| {
        var o := DeuxChiffres(t[i + 1], t[i + 2]);
        if o.Some? {
          sortie := sortie + [o.value];
          i := i + 2;
        } else {
          sortie := sortie + [POURCENT];
        }
      } else {
        sortie := sortie + [t[i]];
      }
      i := i + 1;
      Joint(avant, sortie[|avant|], Suite(t, j), Suite(t, i));
    }
    FinDeSuite(t, i);
  }

  lemma UnPas(t: Octets, i: nat)
    requires i < |t|
    ensures t[i] == PLUS ==> Suite(t, i) == [ESPACE] + Suite(t, i + 1)
    ensures t[i] == POURCENT && i + 2 < |t| ==>
              var o := DeuxChiffres(t[i + 1], t[i + 2]);
              Suite(t, i) == if o.Some? then [o.value] + Suite(t, i + 3) else [POURCENT] + Suite(t, i + 1)
    ensures t[i] != PLUS && !(t[i] == POURCENT && i + 2 < |t|) ==> Suite(t, i) == [t[i]] + Suite(t, i + 1)
  {
    hide DeuxChiffres;
  }

  lemma Joint(avant: Octets, o: Octet, s: Octets, r: Octets)
    requires s == [o] + r
    ensures avant + s == avant + [o] + r
  {
  }

  // ---------------------------------------------------------- round trip

  lemma CodeLu(o: Octet)
    ensures !Libre(o) ==> DeuxChiffres(Chiffre(o / 16), Chiffre(o % 16)) == Some(o)
    ensures Libre(o) ==> o != PLUS && o != POURCENT
  {
  }

  /** A code at the head of what is left is read as its byte. */
  lemma PasLu(t: Octets, i: nat, o: Octet)
    requires i + |Code(o)| <= |t| && t[i..i + |Code(o)|] == Code(o)
    ensures Suite(t, i) == [o] + Suite(t, i + |Code(o)|)
  {
    CodeLu(o);
    assert t[i] == t[i..i + |Code(o)|][0];
    if !Libre(o) {
      assert t[i + 1] == t[i..i + 3][1] && t[i + 2] == t[i..i + 3][2];
    }
    hide Suite;
    hide Hexa, Chiffre;
  }

  lemma {:induction false} EncoderTete(t: Octets)
    requires t != []
    ensures Encoder(t) == Code(t[0]) + Encoder(t[1..])
  {
    hide Code;
    if |t| == 1 {
      assert t[..0] == [] && t[1..] == [];
    } else {
      EncoderTete(t[..|t| - 1]);
      assert t[..|t| - 1][1..] == t[1..][..|t| - 2];
    }
  }

  lemma {:induction false} SuiteEncodee(t: Octets, avant: Octets)
    ensures Suite(avant + Encoder(t), |avant|) == t
    decreases |t|
  {
    hide Code, Suite;
    var w := avant + Encoder(t);
    if t == [] {
      FinDeSuite(w, |avant|);
    } else {
      EncoderTete(t);
      var c := Code(t[0]);
      assert w == (avant + c) + Encoder(t[1..]);
      assert w[|avant|..|avant| + |c|] == c;
      PasLu(w, |avant|, t[0]);
      SuiteEncodee(t[1..], avant + c);
      assert t == [t[0]] + t[1..];
    }
  }

  lemma FinDeSuite(t: Octets, i: nat)
    requires i >= |t|
    ensures Suite(t, i) == []
  {
  }

  /** Decoding undoes encoding, on every byte string. */
  lemma DecoderEncoder(t: Octets)
    ensures Decoder(Encoder(t)) == t
  {
    hide Suite;
    assert [] + Encoder(t) == Encoder(t);
    SuiteEncodee(t, []);
  }

  /** What encoding writes is unreserved, percent signs apart. */
  lemma {:induction false} EncoderSur(t: Octets)
    ensures forall i :: 0 <= i < |Encoder(t)| ==> Libre(Encoder(t)[i]) || Encoder(t)[i] == POURCENT
  {
    if t != [] {
      EncoderSur(t[..|t| - 1]);
      CodeSur(t[|t| - 1]);
      hide Code, Libre;
    }
  }

  lemma CodeSur(o: Octet)
    ensures forall i :: 0 <= i < |Code(o)| ==> Libre(Code(o)[i]) || Code(o)[i] == POURCENT
  {
  }

  /** Coding, byte by byte: letters, digits and four signs stand for themselves, any
      other byte is a percent sign and its two digits in capitals. */
  lemma EncoderExact(a: Octets, o: Octet)
    ensures Encoder(a + [o]) == Encoder(a) + Code(o) && Encoder([]) == []
    ensures var libre := 'A' as int <= o <= 'Z' as int || 'a' as int <= o <= 'z' as int || '0' as int <= o <= '9' as int
                         || o in Ascii("-_.~");
      Code(o) == if libre then [o] else ['%' as int, Majuscule(o / 16), Majuscule(o % 16)]
  {
    assert (a + [o])[..|a|] == a;
    assert Ascii("-_.~") == [45, 95, 46, 126];
  }

  /** A hexadecimal digit, letters in capitals. */
  function Majuscule(v: nat): Octet
    requires v < 16
  {
    if v < 10 then '0' as int + v else 'A' as int + v - 10
  }

  /** The signs and names of a query. */
  lemma Signes()
    ensures [PLUS, POURCENT, ESPACE, ET, EGAL] == Ascii("+% &=")
    ensures TOKEN == Ascii("token") && BRIDGE_TOKEN == Ascii("bridge_token")
  {
  }

  // --------------------------------------------------------------- pairs

  /** `split('&')`. */
  function Paires(t: Octets): (ps: seq<Octets>)
    ensures ps != []
  {
    if t == [] then [[]]
    else
      var r := Paires(t[..|t| - 1]);
      if t[|t| - 1] == ET then r + [[]] else r[..|r| - 1] + [r[|r| - 1] + [t[|t| - 1]]]
  }

  /** `join("&")`. */
  function Joindre(ps: seq<Octets>): Octets {
    if ps == [] then [] else if |ps| == 1 then ps[0] else Joindre(ps[..|ps| - 1]) + [ET] + ps[|ps| - 1]
  }

  /** `split_once('=')`. */
  function Couper(p: Octets): Option<(Octets, Octets)> {
    if p == [] then None
    else if p[0] == EGAL then Some(([], p[1..]))
    else
      var r := Couper(p[1..]);
      if r.None? then None else Some(([p[0]] + r.value.0, r.value.1))
  }

  const TOKEN: Octets := [116, 111, 107, 101, 110]
  const BRIDGE_TOKEN: Octets := [98, 114, 105, 100, 103, 101, 95, 116, 111, 107, 101, 110]

  predicate NomDeJeton(nom: Octets) { nom == TOKEN || nom == BRIDGE_TOKEN }

  /** What a pair says the token is: the decoded value, replaced where it is not
      UTF-8 and trimmed. `texte` is that last part, which the theorems leave free. */
  function JetonDe(p: Octets, texte: Octets -> Octets): Option<Octets> {
    var c := Couper(p);
    if c.Some? && NomDeJeton(c.value.0) then Some(texte(Decoder(c.value.1))) else None
  }

  /** A pair says the token is `v` exactly when it is one of two names, an equals sign
      and a code of `v`. */
  lemma JetonExact(p: Octets, texte: Octets -> Octets, v: Octets)
    ensures JetonDe(p, texte) == Some(v) <==>
              exists a, b ::
                a in {Ascii("token"), Ascii("bridge_token")} && p == a + Ascii("=") + b && texte(Decoder(b)) == v
  {
    hide JetonDe, Decoder;
    Signes();
    JetonCoupe(p, texte, v, {Ascii("token"), Ascii("bridge_token")}, Ascii("="));
  }

  lemma JetonCoupe(p: Octets, texte: Octets -> Octets, v: Octets, noms: set<Octets>, egal: Octets)
    requires noms == {TOKEN, BRIDGE_TOKEN} && egal == [EGAL]
    ensures JetonDe(p, texte) == Some(v) <==> exists a, b :: a in noms && p == a + egal + b && texte(Decoder(b)) == v
  {
    hide Decoder, Couper;
    if JetonDe(p, texte) == Some(v) {
      var (a, b) := Couper(p).value;
      CouperExact(p, a, b);
    }
    if a, b :| a in noms && p == a + egal + b && texte(Decoder(b)) == v {
      CouperExact(p, a, b);
    }
  }

  /** The first token that is not empty. */
  function Premier(ps: seq<Octets>, texte: Octets -> Octets): Option<Octets> {
    if ps == [] then None
    else
      var j := JetonDe(ps[0], texte);
      if j.Some? && j.value != [] then j else Premier(ps[1..], texte)
  }

  function JetonDeRequete(requete: Option<Octets>, texte: Octets -> Octets): Option<Octets> {
    if requete.None? then None else Premier(Paires(requete.value), texte)
  }

  /** The pair does not carry the token, and is not empty. */
  predicate Garde(p: Octets, jeton: Octets, texte: Octets -> Octets) { p != [] && JetonDe(p, texte) != Some(jeton) }

  function Gardees(ps: seq<Octets>, jeton: Octets, texte: Octets -> Octets): seq<Octets> {
    if ps == [] then [] else
      var r := Gardees(ps[..|ps| - 1], jeton, texte);
      if Garde(ps[|ps| - 1], jeton, texte) then r + [ps[|ps| - 1]] else r
  }

  function RequeteSansJeton(requete: Option<Octets>, jeton: Octets, texte: Octets -> Octets): Option<Octets> {
    if requete.None? then None else
      var r := Gardees(Paires(requete.value), jeton, texte);
      if r == [] then None else Some(Joindre(r))
  }

  // ------------------------------------------------------- split and join

  ghost predicate SansEt(p: Octets) { forall i :: 0 <= i < |p| ==> p[i] != ET }

  lemma {:induction false} PairesSansEt(t: Octets)
    ensures forall i :: 0 <= i < |Paires(t)| ==> SansEt(Paires(t)[i])
  {
    if t != [] { PairesSansEt(t[..|t| - 1]); }
  }

  lemma {:induction false} UnePaire(t: Octets)
    requires SansEt(t)
    ensures Paires(t) == [t]
  {
    if t != [] {
      UnePaire(t[..|t| - 1]);
      assert t == t[..|t| - 1] + [t[|t| - 1]];
      assert [t[..|t| - 1]][..0] == [];
    }
  }

  lemma {:induction false} PairesSuite(a: Octets, b: Octets)
    requires SansEt(b)
    ensures Paires(a + [ET] + b) == Paires(a) + [b]
  {
    var t := a + [ET] + b;
    if b == [] {
      assert t[..|t| - 1] == a;
    } else {
      var c := b[..|b| - 1];
      assert t[..|t| - 1] == a + [ET] + c;
      PairesSuite(a, c);
      assert (Paires(a) + [c])[..|Paires(a)|] == Paires(a);
      assert b == c + [b[|b| - 1]];
    }
  }

  /** Splitting undoes joining. */
  lemma {:induction false} PairesJointes(ps: seq<Octets>)
    requires ps != [] && forall i :: 0 <= i < |ps| ==> SansEt(ps[i])
    ensures Paires(Joindre(ps)) == ps
  {
    hide Paires, SansEt;
    var n := |ps| - 1;
    if n == 0 {
      UnePaire(ps[0]);
    } else {
      PairesJointes(ps[..n]);
      PairesSuite(Joindre(ps[..n]), ps[n]);
      assert ps == ps[..n] + [ps[n]];
    }
  }

  /** Joining undoes splitting. */
  lemma {:induction false} JointesPaires(t: Octets)
    ensures Joindre(Paires(t)) == t
  {
    if t != [] {
      var p, c := t[..|t| - 1], t[|t| - 1];
      JointesPaires(p);
      var r := Paires(p);
      assert t == p + [c];
      if c == ET {
        assert (r + [[]])[..|r|] == r;
      } else {
        var s := r[..|r| - 1] + [r[|r| - 1] + [c]];
        assert s[..|s| - 1] == r[..|r| - 1];
      }
    }
  }

  // -------------------------------------------------------------- the token

  lemma {:induction false} GardeesDe(ps: seq<Octets>, jeton: Octets, texte: Octets -> Octets)
    ensures forall i :: 0 <= i < |Gardees(ps, jeton, texte)| ==>
              Garde(Gardees(ps, jeton, texte)[i], jeton, texte) && Gardees(ps, jeton, texte)[i] in ps
  {
    hide Garde;
    if ps != [] { GardeesDe(ps[..|ps| - 1], jeton, texte); }
  }

  /** In order, and with every occurrence: the number of kept pairs among the first
      `n` is the place of the next. */
  ghost function Rang(ps: seq<Octets>, n: nat, jeton: Octets, texte: Octets -> Octets): nat
    requires n <= |ps|
  {
    |Gardees(ps[..n], jeton, texte)|
  }

  /** A pair that is not empty and does not carry the token keeps its place among
      the others. */
  lemma {:induction false} GardeesEnOrdre(ps: seq<Octets>, i: nat, jeton: Octets, texte: Octets -> Octets)
    requires i < |ps| && Garde(ps[i], jeton, texte)
    ensures Rang(ps, i, jeton, texte) < |Gardees(ps, jeton, texte)|
    ensures Gardees(ps, jeton, texte)[Rang(ps, i, jeton, texte)] == ps[i]
  {
    hide Garde;
    var n := |ps| - 1;
    if i < n {
      GardeesEnOrdre(ps[..n], i, jeton, texte);
      assert ps[..n][..i] == ps[..i];
    }
  }

  /** The query that goes on: cut again, it is exactly the pairs kept, in order;
      there is none when nothing is kept. */
  lemma ResteExact(requete: Octets, jeton: Octets, texte: Octets -> Octets)
    ensures var g := Gardees(Paires(requete), jeton, texte);
      match RequeteSansJeton(Some(requete), jeton, texte)
      case None => g == []
      case Some(r) => g != [] && Paires(r) == g
  {
    hide Paires, Gardees, Joindre, SansEt;
    var ps := Paires(requete);
    var g := Gardees(ps, jeton, texte);
    PairesSansEt(requete);
    GardeesDe(ps, jeton, texte);
    if g != [] {
      forall i | 0 <= i < |g| ensures SansEt(g[i]) {
        assert g[i] in ps;
      }
      PairesJointes(g);
    }
  }

  lemma {:induction false} PremierParmi(ps: seq<Octets>, jeton: Octets, texte: Octets -> Octets)
    requires forall i :: 0 <= i < |ps| ==> JetonDe(ps[i], texte) != Some(jeton)
    ensures Premier(ps, texte) != Some(jeton)
  {
    hide JetonDe;
    if ps != [] { PremierParmi(ps[1..], jeton, texte); }
  }

  /** The query that goes on never yields the token that was taken out. */
  lemma JetonRetire(requete: Option<Octets>, jeton: Octets, texte: Octets -> Octets)
    ensures JetonDeRequete(RequeteSansJeton(requete, jeton, texte), texte) != Some(jeton)
  {
    hide Paires, Gardees, Joindre, JetonDe;
    if requete.Some? {
      var q := requete.value;
      ResteExact(q, jeton, texte);
      GardeesDe(Paires(q), jeton, texte);
      PremierParmi(Gardees(Paires(q), jeton, texte), jeton, texte);
    }
  }

  /** A query without the token and without empty pairs goes through unchanged. */
  lemma RequeteIntacte(requete: Octets, jeton: Octets, texte: Octets -> Octets)
    requires forall i :: 0 <= i < |Paires(requete)| ==> Garde(Paires(requete)[i], jeton, texte)
    ensures RequeteSansJeton(Some(requete), jeton, texte) == Some(requete)
  {
    hide Paires, Joindre, Garde;
    ToutesGardees(Paires(requete), jeton, texte);
    JointesPaires(requete);
  }

  lemma {:induction false} ToutesGardees(ps: seq<Octets>, jeton: Octets, texte: Octets -> Octets)
    requires forall i :: 0 <= i < |ps| ==> Garde(ps[i], jeton, texte)
    ensures Gardees(ps, jeton, texte) == ps
  {
    hide Garde;
    if ps != [] {
      ToutesGardees(ps[..|ps| - 1], jeton, texte);
      assert ps == ps[..|ps| - 1] + [ps[|ps| - 1]];
    }
  }

  // ------------------------------------------------------- reading in detail

  /** What is read from a place on does not depend on what comes before it. */
  lemma {:induction false} SuiteDecalee(a: Octets, t: Octets, i: nat)
    ensures Suite(a + t, |a| + i) == Suite(t, i)
    decreases if i < |t| then |t| - i else 0
  {
    hide Suite, DeuxChiffres;
    var w := a + t;
    if i >= |t| {
      FinDeSuite(t, i);
      FinDeSuite(w, |a| + i);
    } else {
      UnPas(t, i);
      UnPas(w, |a| + i);
      assert w[|a| + i] == t[i];
      assert i + 1 < |t| ==> w[|a| + i + 1] == t[i + 1];
      assert i + 2 < |t| ==> w[|a| + i + 2] == t[i + 2];
      SuiteDecalee(a, t, i + 1);
      SuiteDecalee(a, t, i + 3);
    }
  }

  predicate DeuxHexa(t: Octets) { |t| >= 2 && Hexa(t[0]).Some? && Hexa(t[1]).Some? }

  /** A plus sign, then a hexadecimal digit. */
  predicate PlusHexa(t: Octets) { |t| >= 2 && t[0] == PLUS && Hexa(t[1]).Some? }

  /** A plus sign is a space; a percent sign takes the two hexadecimal digits behind
      it, or the plus sign and the digit; anything else is itself; and what follows
      is read on its own. */
  lemma DecoderTete(o: Octet, t: Octets)
    ensures o == PLUS ==> Decoder([o] + t) == [ESPACE] + Decoder(t)
    ensures o == POURCENT && DeuxHexa(t) ==>
              Decoder([o] + t) == [16 * Hexa(t[0]).value + Hexa(t[1]).value] + Decoder(t[2..])
    ensures o == POURCENT && PlusHexa(t) ==> Decoder([o] + t) == [Hexa(t[1]).value] + Decoder(t[2..])
    ensures o != PLUS && !(o == POURCENT && (DeuxHexa(t) || PlusHexa(t))) ==> Decoder([o] + t) == [o] + Decoder(t)
  {
    hide Suite, Hexa;
    var w := [o] + t;
    PlusSansValeur();
    UnPas(w, 0);
    SuiteDecalee([o], t, 0);
    if |t| >= 2 {
      assert w == w[..3] + t[2..];
      SuiteDecalee(w[..3], t[2..], 0);
    }
  }

  lemma PlusSansValeur()
    ensures Hexa(PLUS).None?
  {
  }

  /** A percent sign not followed by two hexadecimal digits is kept, and what
      follows it read on its own, except in one family: a plus sign and one
      hexadecimal digit, which are read as that digit. */
  lemma InvalideGardee(t: Octets)
    requires !DeuxHexa(t)
    ensures Decoder([POURCENT] + t) == [POURCENT] + Decoder(t) <==> !PlusHexa(t)
    ensures PlusHexa(t) ==> Decoder([POURCENT] + t) == [Hexa(t[1]).value] + Decoder(t[2..])
  {
    hide Suite;
    DecoderTete(POURCENT, t);
    if PlusHexa(t) {
      assert Decoder([POURCENT] + t)[0] < 16;
    }
  }

  /** One of that family. */
  lemma PlusApresPourcent()
    ensures Decoder([POURCENT, PLUS, 53]) == [5]
  {
    var t: Octets := [PLUS, 53];
    assert [POURCENT, PLUS, 53] == [POURCENT] + t && t[2..] == [];
    InvalideGardee(t);
    hide Suite;
    FinDeSuite([], 0);
  }

  /** A pair is cut at its first equals sign, when it has one. */
  lemma {:induction false} CouperExact(p: Octets, a: Octets, b: Octets)
    ensures Couper(p) == Some((a, b)) <==> EGAL !in a && p == a + [EGAL] + b
    ensures Couper(p) == None <==> EGAL !in p
  {
    if p != [] && p[0] != EGAL {
      if a == [] {
        assert (a + [EGAL] + b)[0] == EGAL;
        CouperExact(p[1..], [], []);
      } else {
        CouperExact(p[1..], a[1..], b);
        assert p == a + [EGAL] + b <==> p[0] == a[0] && p[1..] == a[1..] + [EGAL] + b by {
          assert a + [EGAL] + b == [a[0]] + (a[1..] + [EGAL] + b);
          assert p == [p[0]] + p[1..];
        }
        assert EGAL !in a <==> a[0] != EGAL && EGAL !in a[1..] by { assert a == [a[0]] + a[1..]; }
        assert a == [a[0]] + a[1..];
      }
      assert p == [p[0]] + p[1..];
    } else if p != [] {
      assert p == [] + [EGAL] + p[1..];
      assert a != [] ==> a[0] in a && (a + [EGAL] + b)[0] == a[0];
      assert ([] + [EGAL] + b)[1..] == b;
    }
  }

  /** The token of a query is that of the first pair that names one which is not
      empty. */
  lemma {:induction false} PremierExact(ps: seq<Octets>, texte: Octets -> Octets, j: Octets)
    ensures Premier(ps, texte) == Some(j) <==>
            j != [] && exists i :: 0 <= i < |ps| && EstPremier(ps, i, texte) && JetonDe(ps[i], texte) == Some(j)
  {
    hide JetonDe;
    if ps != [] {
      PremierExact(ps[1..], texte, j);
      if Nomme(ps[0], texte) {
        assert EstPremier(ps, 0, texte);
      } else {
        forall i | 0 < i < |ps| ensures EstPremier(ps, i, texte) <==> EstPremier(ps[1..], i - 1, texte) {
          PremierDecale(ps, i, texte);
        }
        if i :| 0 <= i < |ps| - 1 && EstPremier(ps[1..], i, texte) && JetonDe(ps[1..][i], texte) == Some(j) {
          assert EstPremier(ps, i + 1, texte) && ps[i + 1] == ps[1..][i];
        }
      }
    }
  }

  lemma PremierDecale(ps: seq<Octets>, i: nat, texte: Octets -> Octets)
    requires 0 < i < |ps| && !Nomme(ps[0], texte)
    ensures EstPremier(ps, i, texte) <==> EstPremier(ps[1..], i - 1, texte)
  {
    hide Nomme;
    if EstPremier(ps, i, texte) {
      forall k | 0 <= k < i - 1 ensures !Nomme(ps[1..][k], texte) { assert !Nomme(ps[k + 1], texte); }
    }
    if EstPremier(ps[1..], i - 1, texte) {
      forall k | 0 <= k < i ensures !Nomme(ps[k], texte) {
        if k > 0 { assert !Nomme(ps[1..][k - 1], texte); }
      }
    }
  }

  /** The pair names a token that is not empty. */
  predicate Nomme(p: Octets, texte: Octets -> Octets) { JetonDe(p, texte).Some? && JetonDe(p, texte).value != [] }

  ghost predicate EstPremier(ps: seq<Octets>, i: nat, texte: Octets -> Octets)
    requires i < |ps|
  {
    Nomme(ps[i], texte) && forall k :: 0 <= k < i ==> !Nomme(ps[k], texte)
  }
}
