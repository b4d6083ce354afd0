/** The binary frames that carry stream chunks, and the expected rank of each
    stream (tune-bridge/src/morceau_binaire.rs). */
module MorceauBinaire {
  import opened Commun

  const VERSION: Octet := 1

  datatype Morceau = Morceau(id: seq<Octet>, seq_: nat, octets: seq<Octet>)

  // ------------------------------------------------------ 64-bit big-endian

  function Puissance(k: nat): nat { if k == 0 then 1 else 256 * Puissance(k - 1) }

  /** The value of a big-endian byte string. */
  function Valeur(b: seq<Octet>): (v: nat)
    ensures v < Puissance(|b|)
  {
    if b == [] then 0 else 256 * Valeur(b[..|b| - 1]) + b[|b| - 1]
  }

  function GrosBoutiste(v: nat, k: nat): (b: seq<Octet>)
    ensures |b| == k
  {
    if k == 0 then [] else GrosBoutiste(v / 256, k - 1) + [v % 256]
  }

  lemma {:induction false} ValeurDe(v: nat, k: nat)
    requires v < Puissance(k)
    ensures Valeur(GrosBoutiste(v, k)) == v
  {
    if k > 0 {
      ValeurDe(v / 256, k - 1);
      assert GrosBoutiste(v, k)[..k - 1] == GrosBoutiste(v / 256, k - 1);
    }
  }

  lemma {:induction false} OctetsDe(b: seq<Octet>)
    ensures GrosBoutiste(Valeur(b), |b|) == b
  {
    if b != [] {
      var p, x := b[..|b| - 1], b[|b| - 1];
      OctetsDe(p);
      Chiffres(Valeur(p), x);
      assert p + [x] == b;
    }
  }

  lemma Chiffres(v: nat, x: Octet)
    ensures (256 * v + x) / 256 == v && (256 * v + x) % 256 == x
  {
  }

  lemma Puissance8()
    ensures Puissance(8) == 0x1_0000_0000_0000_0000
  {
    assert Puissance(4) == 0x1_0000_0000;
  }

  // --------------------------------------------------------------- UTF-8

  predicate Suite(o: Octet) { 0x80 <= o <= 0xBF }

  /** The length of the well-formed character at the head (section 4 of RFC
      3629), 0 when there is none. */
  function Tete(b: seq<Octet>): (n: nat)
    ensures n <= |b|
  {
    if |b| >= 1 && b[0] < 0x80 then 1
    else if |b| >= 2 && 0xC2 <= b[0] <= 0xDF && Suite(b[1]) then 2
    else if |b| >= 3 && Suite(b[2])
      && ((b[0] == 0xE0 && 0xA0 <= b[1] <= 0xBF)
          || (0xE1 <= b[0] <= 0xEF && b[0] != 0xED && Suite(b[1]))
          || (b[0] == 0xED && 0x80 <= b[1] <= 0x9F)) then 3
    else if |b| >= 4 && Suite(b[2]) && Suite(b[3])
      && ((b[0] == 0xF0 && 0x90 <= b[1] <= 0xBF)
          || (0xF1 <= b[0] <= 0xF3 && Suite(b[1]))
          || (b[0] == 0xF4 && 0x80 <= b[1] <= 0x8F)) then 4
    else 0
  }

  predicate Utf8(b: seq<Octet>) { b == [] || (Tete(b) > 0 && Utf8(b[Tete(b)..])) }

  /** A Unicode scalar value, and how section 3 of RFC 3629 writes it. */
  predicate Scalaire(c: nat) { c < 0xD800 || 0xE000 <= c < 0x11_0000 }

  function Caractere(c: nat): (b: seq<Octet>)
    requires Scalaire(c)
    ensures 1 <= |b| <= 4
  {
    if c < 0x80 then [c]
    else if c < 0x800 then [0xC0 + c / 0x40, 0x80 + c % 0x40]
    else if c < 0x1_0000 then [0xE0 + c / 0x1000, 0x80 + c / 0x40 % 0x40, 0x80 + c % 0x40]
    else [0xF0 + c / 0x4_0000, 0x80 + c / 0x1000 % 0x40, 0x80 + c / 0x40 % 0x40, 0x80 + c % 0x40]
  }

  ghost predicate Scalaires(cs: seq<nat>) { forall i :: 0 <= i < |cs| ==> Scalaire(cs[i]) }

  function Ecrits(cs: seq<nat>): seq<Octet>
    requires Scalaires(cs)
  {
    if cs == [] then [] else Caractere(cs[0]) + Ecrits(cs[1..])
  }

  lemma TeteDeux(c: nat, suite: seq<Octet>)
    requires c < 0x800
    ensures Tete(Caractere(c) + suite) == |Caractere(c)|
  {
  }

  lemma TeteTrois(c: nat, suite: seq<Octet>)
    requires 0x800 <= c < 0x1_0000 && Scalaire(c)
    ensures Tete(Caractere(c) + suite) == 3
  {
  }

  lemma TeteQuatre(c: nat, suite: seq<Octet>)
    requires 0x1_0000 <= c < 0x11_0000
    ensures Tete(Caractere(c) + suite) == 4
  {
  }

  /** Six bits after some others. */
  function Six(x: nat, o: Octet): nat
    requires o >= 0x80
  {
    x * 0x40 + (o as int - 0x80)
  }

  /** The scalar value at the head. */
  function Lu(b: seq<Octet>): (c: nat)
    requires Tete(b) > 0
  {
    var o: int := b[0];
    match Tete(b)
    case 1 => o
    case 2 => Six(o - 0xC0, b[1])
    case 3 => Six(Six(o - 0xE0, b[1]), b[2])
    case _ => Six(Six(Six(o - 0xF0, b[1]), b[2]), b[3])
  }

  lemma SixBits(x: nat, o: Octet)
    requires 0x80 <= o < 0xC0
    ensures Six(x, o) / 0x40 == x && 0x80 + Six(x, o) % 0x40 == o
    ensures Six(x, o) / 0x1000 == x / 0x40 && Six(x, o) / 0x4_0000 == x / 0x1000
  {
  }

  lemma LuDeux(b: seq<Octet>)
    requires Tete(b) == 2
    ensures Scalaire(Lu(b)) && Caractere(Lu(b)) == b[..2]
  {
    SixBits(b[0] as int - 0xC0, b[1]);
  }

  lemma LuTrois(b: seq<Octet>)
    requires Tete(b) == 3
    ensures Scalaire(Lu(b)) && Caractere(Lu(b)) == b[..3]
  {
    var x: nat := b[0] as int - 0xE0;
    SixBits(x, b[1]);
    SixBits(Six(x, b[1]), b[2]);
  }

  lemma FormeQuatre(b: seq<Octet>)
    requires Tete(b) == 4
    ensures |b| >= 4 && 0xF0 <= b[0] <= 0xF4 && Suite(b[1]) && Suite(b[2]) && Suite(b[3])
    ensures (b[0] == 0xF0 ==> b[1] >= 0x90) && (b[0] == 0xF4 ==> b[1] <= 0x8F)
  {
  }

  lemma QuatreBits(x: nat, y: Octet, z: Octet, w: Octet)
    requires x <= 4 && Suite(y) && Suite(z) && Suite(w) && (x == 0 ==> y >= 0x90) && (x == 4 ==> y <= 0x8F)
    ensures var c := Six(Six(Six(x, y), z), w);
      0x1_0000 <= c < 0x11_0000 && Caractere(c) == [0xF0 + x, y, z, w]
  {
    hide Six, Caractere;
    SixBits(x, y);
    SixBits(Six(x, y), z);
    SixBits(Six(Six(x, y), z), w);
    BornesQuatre(x, y, z, w);
    CaractereQuatre(Six(Six(Six(x, y), z), w));
  }

  lemma BornesQuatre(x: nat, y: Octet, z: Octet, w: Octet)
    requires x <= 4 && Suite(y) && Suite(z) && Suite(w) && (x == 0 ==> y >= 0x90) && (x == 4 ==> y <= 0x8F)
    ensures 0x1_0000 <= Six(Six(Six(x, y), z), w) < 0x11_0000
  {
  }

  lemma CaractereQuatre(c: nat)
    requires 0x1_0000 <= c < 0x11_0000
    ensures Caractere(c) == [0xF0 + c / 0x4_0000, 0x80 + c / 0x1000 % 0x40, 0x80 + c / 0x40 % 0x40, 0x80 + c % 0x40]
  {
  }

  lemma LuQuatre(b: seq<Octet>)
    requires Tete(b) == 4
    ensures Scalaire(Lu(b)) && Caractere(Lu(b)) == b[..4]
  {
    hide Tete, Caractere, Six;
    FormeQuatre(b);
    QuatreBits(b[0] as int - 0xF0, b[1], b[2], b[3]);
  }

  lemma TeteLue(b: seq<Octet>)
    requires Tete(b) > 0
    ensures Scalaire(Lu(b)) && Caractere(Lu(b)) == b[..Tete(b)]
  {
    if Tete(b) == 2 { LuDeux(b); } else if Tete(b) == 3 { LuTrois(b); } else if Tete(b) == 4 { LuQuatre(b); }
  }

  /** Bytes are well formed exactly when they write some scalar values. */
  lemma {:induction false} Utf8Exact(b: seq<Octet>)
    ensures Utf8(b) <==> exists cs: seq<nat> :: Scalaires(cs) && Ecrits(cs) == b
    decreases |b|
  {
    hide Tete, Caractere, Lu, Scalaire;
    if b == [] {
      assert Ecrits([]) == [];
    } else if Tete(b) > 0 {
      var n := Tete(b);
      Utf8Exact(b[n..]);
      TeteLue(b);
      if Utf8(b) {
        var cs: seq<nat> :| Scalaires(cs) && Ecrits(cs) == b[n..];
        assert Ecrits([Lu(b)] + cs) == b by { assert ([Lu(b)] + cs)[1..] == cs && b == b[..n] + b[n..]; }
      }
      if cs: seq<nat> :| Scalaires(cs) && Ecrits(cs) == b {
        TeteEcrite(cs[0], Ecrits(cs[1..]));
        assert Ecrits(cs[1..]) == b[n..];
      }
    } else {
      if cs: seq<nat> :| Scalaires(cs) && Ecrits(cs) == b {
        TeteEcrite(cs[0], Ecrits(cs[1..]));
        assert false;
      }
    }
  }

  lemma TeteEcrite(c: nat, suite: seq<Octet>)
    requires Scalaire(c)
    ensures Tete(Caractere(c) + suite) == |Caractere(c)|
  {
    hide Tete;
    if c < 0x800 { TeteDeux(c, suite); } else if c < 0x1_0000 { TeteTrois(c, suite); } else { TeteQuatre(c, suite); }
  }

  // --------------------------------------------------------------- frames

  /** Reads a frame; None for anything that does not follow the layout. */
  function Lire(trame: seq<Octet>): Option<Morceau> {
    if |trame| == 0 || trame[0] != VERSION then None
    else if |trame| == 1 then None
    else
      var n: nat := trame[1];
      var reste := trame[2..];
      if n == 0 || |reste| < n + 8 then None
      else if !Utf8(reste[..n]) then None
      else Some(Morceau(reste[..n], Valeur(reste[n..n + 8]), reste[n + 8..]))
  }

  /** What the sender may put in a frame. */
  predicate Transmissible(m: Morceau) {
    1 <= |m.id| <= 255 && Utf8(m.id) && m.seq_ < 0x1_0000_0000_0000_0000
  }

  /** The documented layout: version, length of the id, id, rank, bytes. */
  function Trame(m: Morceau): seq<Octet>
    requires Transmissible(m)
  {
    [1, |m.id|] + m.id + GrosBoutiste(m.seq_, 8) + m.octets
  }

  /** Reading undoes writing. */
  lemma LireTrame(m: Morceau)
    requires Transmissible(m)
    ensures Lire(Trame(m)) == Some(m)
  {
    var t, n := Trame(m), |m.id|;
    Puissance8();
    ValeurDe(m.seq_, 8);
    hide Utf8, Valeur, GrosBoutiste, Puissance;
    var reste := t[2..];
    assert reste == m.id + GrosBoutiste(m.seq_, 8) + m.octets;
    assert reste[..n] == m.id;
    assert reste[n..n + 8] == GrosBoutiste(m.seq_, 8);
    assert reste[n + 8..] == m.octets;
  }

  /** A frame is accepted exactly when it is the writing of some chunk, which is
      then the chunk read. */
  lemma AccepteExactement(t: seq<Octet>)
    ensures Lire(t).Some? <==> exists m :: Transmissible(m) && Trame(m) == t
    ensures Lire(t).Some? ==> Transmissible(Lire(t).value) && Trame(Lire(t).value) == t
  {
    if Lire(t).Some? {
      var m := Lire(t).value;
      var n: nat := t[1];
      var reste := t[2..];
      Puissance8();
      OctetsDe(reste[n..n + 8]);
      assert Transmissible(m);
      hide Utf8, Valeur, GrosBoutiste, Puissance;
      assert reste == reste[..n] + reste[n..n + 8] + reste[n + 8..];
      assert t == [t[0], t[1]] + reste;
    }
    if m :| Transmissible(m) && Trame(m) == t {
      LireTrame(m);
    }
  }

  // ----------------------------------------------------------------- ranks

  /** `accepter` as a function on the table of expected ranks. */
  function Accepte<K>(attendus: map<K, nat>, id: K, seq_: nat): (map<K, nat>, bool) {
    if seq_ == 0 then (attendus[id := 1], true)
    else if id in attendus && attendus[id] == seq_ then (attendus[id := seq_ + 1], true)
    else (attendus - {id}, false)
  }

  class Rangs<K(==)> {
    var attendus: map<K, nat>

    constructor ()
      ensures attendus == map[]
    {
      attendus := map[];
    }

    method Accepter(id: K, seq_: nat) returns (b: bool)
      modifies this
      ensures (attendus, b) == Accepte(old(attendus), id, seq_)
    {
      if seq_ == 0 {
        attendus := attendus[id := 1];
        return true;
      }
      if id in attendus && attendus[id] == seq_ {
        attendus := attendus[id := attendus[id] + 1];
        return true;
      }
      attendus := attendus - {id};
      return false;
    }

    method Oublier(id: K)
      modifies this
      ensures attendus == old(attendus) - {id}
    {
      attendus := attendus - {id};
    }

    /** Keeps only the streams still open. */
    method NeGarderQue(ouverts: set<K>)
      modifies this
      ensures attendus.Keys == old(attendus.Keys) * ouverts
      ensures forall k :: k in attendus ==> attendus[k] == old(attendus)[k]
    {
      attendus := map k | k in attendus && k in ouverts :: attendus[k];
    }
  }
}
