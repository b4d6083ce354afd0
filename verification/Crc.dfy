/** The 16-bit cyclic redundancy check that closes every Devialet AIR packet
    (scripts/devialet-air-vecteurs.py): polynomial 0x1021, start 0xFFFF. */
module Crc {

  const DEPART: bv16 := 0xFFFF
  const POLYNOME: bv16 := 0x1021

  function Xor(a: bv16, b: bv16): bv16 { a ^ b }

  function Decale(c: bv16): bv16 { c << 1 }

  predicate Tete(c: bv16) { c & 0x8000 != 0 }

  function Haut(x: bv8): bv16 { (x as bv16) << 8 }

  function Bas(x: bv8): bv16 { x as bv16 }

  /** One bit shifted out. */
  function Bit(c: bv16): bv16 { if Tete(c) then Xor(Decale(c), POLYNOME) else Decale(c) }

  function Bits(c: bv16, n: nat): bv16 { if n == 0 then c else Bit(Bits(c, n - 1)) }

  function UnOctet(c: bv16, x: bv8): bv16 { Bits(Xor(c, Haut(x)), 8) }

  function Depuis(c: bv16, d: seq<bv8>): bv16
    decreases |d|
  {
    if d == [] then c else UnOctet(Depuis(c, d[..|d| - 1]), d[|d| - 1])
  }

  function Crc16(d: seq<bv8>): bv16 { Depuis(DEPART, d) }

  /** The loop of the source over the message. */
  method Calculer(d: seq<bv8>) returns (c: bv16)
    ensures c == Crc16(d)
  {
    hide UnOctet;
    c := DEPART;
    var i := 0;
    while i < |d|
      invariant 0 <= i <= |d| && c == Depuis(DEPART, d[..i])
    {
      assert d[..i + 1][..i] == d[..i];
      c := Avancer(c, d[i]);
      i := i + 1;
    }
    assert d[..i] == d;
  }

  /** Its inner loop, over the bits of one byte. */
  method Avancer(depart: bv16, x: bv8) returns (c: bv16)
    ensures c == UnOctet(depart, x)
  {
    hide Xor, Decale, Tete, Haut;
    c := Xor(depart, Haut(x));
    ghost var debut := c;
    var k := 0;
    while k < 8
      invariant 0 <= k <= 8 && c == Bits(debut, k)
    {
      c := if Tete(c) then Xor(Decale(c), POLYNOME) else Decale(c);
      k := k + 1;
    }
  }

  // ------------------------------------------------------------ bit algebra

  lemma XorEgal(p: bv16, q: bv16)
    ensures Xor(p, q) == 0 <==> p == q
  {
    hide Xor;
    XorPermute(p, q, q);
    XorNul(p);
    XorNul(q);
  }

  lemma XorPermute(p: bv16, q: bv16, r: bv16)
    ensures Xor(Xor(p, q), r) == Xor(p, Xor(q, r)) && Xor(p, q) == Xor(q, p)
  {
    assert (p ^ q) ^ r == p ^ (q ^ r);
    assert p ^ q == q ^ p;
  }

  lemma XorNul(p: bv16)
    ensures Xor(p, p) == 0 && Xor(p, 0) == p && Xor(0, p) == p
  {
  }

  lemma Carre(a: bv16, b: bv16, p: bv16, q: bv16)
    ensures Xor(Xor(a, p), Xor(b, q)) == Xor(Xor(a, b), Xor(p, q))
  {
    hide Xor;
    XorPermute(a, p, Xor(b, q));
    XorPermute(p, b, q);
    XorPermute(b, p, q);
    XorPermute(a, b, Xor(p, q));
  }

  lemma XorRetire(p: bv16, q: bv16, k: bv16)
    ensures Xor(Xor(p, k), Xor(q, k)) == Xor(p, q) && Xor(Xor(k, p), Xor(k, q)) == Xor(p, q)
    ensures Xor(Xor(p, k), q) == Xor(Xor(p, q), k) && Xor(p, Xor(q, k)) == Xor(Xor(p, q), k)
  {
    hide Xor;
    Carre(p, q, k, k);
    XorNul(k);
    XorNul(Xor(p, q));
    XorPermute(p, k, 0);
    XorPermute(q, k, 0);
    XorPermute(p, k, q);
    XorPermute(p, q, k);
    XorPermute(k, p, 0);
  }

  lemma XorDecale(a: bv16, b: bv16)
    ensures Decale(Xor(a, b)) == Xor(Decale(a), Decale(b))
    ensures Tete(Xor(a, b)) == (Tete(a) != Tete(b))
  {
    assert (a ^ b) << 1 == (a << 1) ^ (b << 1);
    XorTete(a, b);
  }

  lemma XorTete(a: bv16, b: bv16)
    ensures Tete(Xor(a, b)) == (Tete(a) != Tete(b))
  {
    assert (a ^ b) & 0x8000 == (a & 0x8000) ^ (b & 0x8000);
  }

  lemma XorHaut(x: bv8, y: bv8)
    ensures Xor(Haut(x), Haut(y)) == Haut(x ^ y)
  {
  }

  lemma HautBas(x: bv8, y: bv8)
    ensures Haut(x) == Bas(y) ==> x == 0 && y == 0
  {
  }

  lemma Egaux(x: bv8, y: bv8)
    ensures x ^ y == 0 <==> x == y
  {
  }

  lemma TeteVue(c: bv16)
    requires Tete(c)
    ensures Xor(Decale(c), POLYNOME) != 0 && c != 0
  {
  }

  lemma TeteNulle(c: bv16)
    requires !Tete(c)
    ensures Decale(c) == 0 <==> c == 0
  {
  }

  // ------------------------------------------------------------- one step

  /** The shift with feedback is linear... */
  lemma BitLineaire(a: bv16, b: bv16)
    ensures Bit(Xor(a, b)) == Xor(Bit(a), Bit(b))
  {
    hide Xor, Decale, Tete;
    XorDecale(a, b);
    XorRetire(Decale(a), Decale(b), POLYNOME);
  }

  /** ... and loses nothing. */
  lemma BitNoyau(c: bv16)
    ensures Bit(c) == 0 <==> c == 0
  {
    hide Xor, Decale, Tete;
    if Tete(c) { TeteVue(c); } else { TeteNulle(c); }
  }

  lemma {:induction false} BitsLineaire(a: bv16, b: bv16, n: nat)
    ensures Bits(Xor(a, b), n) == Xor(Bits(a, n), Bits(b, n))
  {
    hide Bit, Xor;
    if n > 0 {
      BitsLineaire(a, b, n - 1);
      BitLineaire(Bits(a, n - 1), Bits(b, n - 1));
    }
  }

  lemma {:induction false} BitsNoyau(c: bv16, n: nat)
    ensures Bits(c, n) == 0 <==> c == 0
  {
    hide Bit;
    if n > 0 {
      BitNoyau(Bits(c, n - 1));
      BitsNoyau(c, n - 1);
    }
  }

  lemma BitsInjectif(a: bv16, b: bv16, n: nat)
    ensures Bits(a, n) == Bits(b, n) <==> a == b
  {
    hide Bits, Xor;
    BitsLineaire(a, b, n);
    BitsNoyau(Xor(a, b), n);
    XorEgal(a, b);
    XorEgal(Bits(a, n), Bits(b, n));
  }

  /** Eight shifts of a low byte only move it up. */
  lemma BasMonte(x: bv8)
    ensures Bits(Bas(x), 8) == Haut(x)
  {
    Montee(x);
    hide Bit, Haut, Bas;
    var c := Bas(x);
    assert Bits(c, 2) == Bit(Bits(c, 1));
    assert Bits(c, 4) == Bit(Bits(c, 3));
    assert Bits(c, 6) == Bit(Bits(c, 5));
  }

  lemma Montee(x: bv8)
    ensures Bit(Bit(Bit(Bit(Bit(Bit(Bit(Bit(Bas(x))))))))) == Haut(x)
  {
    var c := Bas(x);
    assert Bit(c) == c << 1;
    assert Bit(c << 1) == c << 2;
    assert Bit(c << 2) == c << 3;
    assert Bit(c << 3) == c << 4;
    assert Bit(c << 4) == c << 5;
    assert Bit(c << 5) == c << 6;
    assert Bit(c << 6) == c << 7;
    assert Bit(c << 7) == c << 8;
  }

  lemma {:induction false} DepuisSuite(c: bv16, a: seq<bv8>, b: seq<bv8>)
    ensures Depuis(c, a + b) == Depuis(Depuis(c, a), b)
    decreases |b|
  {
    hide UnOctet;
    if b == [] {
      assert a + b == a;
    } else {
      assert (a + b)[..|a + b| - 1] == a + b[..|b| - 1];
      DepuisSuite(c, a, b[..|b| - 1]);
    }
  }

  lemma DeuxPas(c: bv16, x: bv8, y: bv8)
    ensures Depuis(c, [x, y]) == UnOctet(UnOctet(c, x), y)
  {
    hide UnOctet;
    assert [x, y][..1] == [x] && [x][..0] == [];
    assert Depuis(c, [x]) == UnOctet(Depuis(c, []), x);
    assert Depuis(c, [x, y]) == UnOctet(Depuis(c, [x]), y);
  }

  // ------------------------------------------------------------ guarantees

  function PoidsFort(c: bv16): bv8 { (c >> 8) as bv8 }

  function PoidsFaible(c: bv16): bv8 { (c & 0xFF) as bv8 }

  /** The two bytes of a check, most significant first. */
  function Octets(c: bv16): seq<bv8> { [PoidsFort(c), PoidsFaible(c)] }

  lemma Moities(c: bv16)
    ensures Xor(c, Haut(PoidsFort(c))) == Bas(PoidsFaible(c))
  {
  }

  lemma DeuxDerniers(c: bv16)
    ensures UnOctet(UnOctet(c, PoidsFort(c)), PoidsFaible(c)) == 0
  {
    hide Bits, Haut, Bas, Xor, PoidsFort, PoidsFaible;
    var l := PoidsFaible(c);
    Moities(c);
    BasMonte(l);
    XorEgal(Haut(l), Haut(l));
    BitsNoyau(0, 8);
  }

  /** A message followed by its own check has check zero. */
  lemma ResteNul(m: seq<bv8>)
    ensures Crc16(m + Octets(Crc16(m))) == 0
  {
    hide UnOctet, Depuis, PoidsFort, PoidsFaible;
    var c := Crc16(m);
    DepuisSuite(DEPART, m, Octets(c));
    DeuxPas(c, PoidsFort(c), PoidsFaible(c));
    DeuxDerniers(c);
  }

  lemma OctetInjectif(a: bv16, b: bv16, x: bv8)
    ensures UnOctet(a, x) == UnOctet(b, x) ==> a == b
  {
    hide Bits, Haut, Xor;
    BitsInjectif(Xor(a, Haut(x)), Xor(b, Haut(x)), 8);
    XorRetire(a, b, Haut(x));
    XorEgal(Xor(a, Haut(x)), Xor(b, Haut(x)));
    XorEgal(a, b);
  }

  /** Different states stay different through the same bytes. */
  lemma {:induction false} EtatsDistincts(a: bv16, b: bv16, d: seq<bv8>)
    ensures Depuis(a, d) == Depuis(b, d) ==> a == b
    decreases |d|
  {
    hide UnOctet;
    if d != [] {
      var p, x := d[..|d| - 1], d[|d| - 1];
      EtatsDistincts(a, b, p);
      OctetInjectif(Depuis(a, p), Depuis(b, p), x);
    }
  }

  /** Two states after one byte differ by the image of a difference in the high
      bits... */
  lemma EcartUn(c: bv16, x: bv8, x': bv8)
    ensures Xor(UnOctet(c, x), UnOctet(c, x')) == Bits(Haut(x ^ x'), 8)
  {
    hide Bits, Haut, Xor;
    BitsLineaire(Xor(c, Haut(x)), Xor(c, Haut(x')), 8);
    XorRetire(Haut(x), Haut(x'), c);
    XorHaut(x, x');
  }

  /** ... and two states one byte makes equal differ in the high bits only. */
  lemma EcartDeux(a: bv16, b: bv16, y: bv8, y': bv8)
    requires UnOctet(a, y) == UnOctet(b, y')
    ensures Xor(a, b) == Haut(y ^ y')
  {
    hide Bits, Haut, Xor;
    BitsInjectif(Xor(a, Haut(y)), Xor(b, Haut(y')), 8);
    XorHaut(y, y');
    Croise(a, b, Haut(y), Haut(y'));
  }

  lemma Croise(a: bv16, b: bv16, p: bv16, q: bv16)
    requires Xor(a, p) == Xor(b, q)
    ensures Xor(a, b) == Xor(p, q)
  {
    Carre(a, b, p, q);
    hide Xor;
    XorEgal(Xor(a, p), Xor(b, q));
    XorEgal(Xor(a, b), Xor(p, q));
  }

  /** Two bytes in a row are determined by the states around them. */
  lemma DeuxOctets(c: bv16, x: bv8, y: bv8, x': bv8, y': bv8)
    requires UnOctet(UnOctet(c, x), y) == UnOctet(UnOctet(c, x'), y')
    ensures x == x' && y == y'
  {
    hide UnOctet, Bits, Haut, Bas, Xor;
    EcartUn(c, x, x');
    EcartDeux(UnOctet(c, x), UnOctet(c, x'), y, y');
    BasMonte(y ^ y');
    BitsInjectif(Haut(x ^ x'), Bas(y ^ y'), 8);
    HautBas(x ^ x', y ^ y');
    Egaux(x, x');
    Egaux(y, y');
  }

  /** Any two messages that differ only within two neighbouring bytes have different
      checks. */
  lemma ErreurVue(debut: seq<bv8>, x: bv8, y: bv8, x': bv8, y': bv8, fin: seq<bv8>)
    requires x != x' || y != y'
    ensures Crc16(debut + [x, y] + fin) != Crc16(debut + [x', y'] + fin)
  {
    hide UnOctet, Depuis;
    var c := Depuis(DEPART, debut);
    Passage(debut, x, y, fin);
    Passage(debut, x', y', fin);
    EtatsDistincts(UnOctet(UnOctet(c, x), y), UnOctet(UnOctet(c, x'), y'), fin);
    if UnOctet(UnOctet(c, x), y) == UnOctet(UnOctet(c, x'), y') { DeuxOctets(c, x, y, x', y'); }
  }

  /** The same of a single byte, wherever it stands. */
  lemma ErreurSeuleVue(debut: seq<bv8>, x: bv8, x': bv8, fin: seq<bv8>)
    requires x != x'
    ensures Crc16(debut + [x] + fin) != Crc16(debut + [x'] + fin)
  {
    hide UnOctet, Depuis;
    var c := Depuis(DEPART, debut);
    UnPassage(debut, x, fin);
    UnPassage(debut, x', fin);
    EtatsDistincts(UnOctet(c, x), UnOctet(c, x'), fin);
    if UnOctet(c, x) == UnOctet(c, x') { DeuxOctets(c, x, 0, x', 0); }
  }

  lemma UnPassage(debut: seq<bv8>, x: bv8, fin: seq<bv8>)
    ensures Crc16(debut + [x] + fin) == Depuis(UnOctet(Depuis(DEPART, debut), x), fin)
  {
    hide UnOctet, Depuis;
    DepuisSuite(DEPART, debut + [x], fin);
    DepuisSuite(DEPART, debut, [x]);
    UnSeulPas(Depuis(DEPART, debut), x);
  }

  lemma UnSeulPas(c: bv16, x: bv8)
    ensures Depuis(c, [x]) == UnOctet(c, x)
  {
    hide UnOctet;
    assert [x][..0] == [];
    assert Depuis(c, [x]) == UnOctet(Depuis(c, []), x);
  }

  lemma Passage(debut: seq<bv8>, x: bv8, y: bv8, fin: seq<bv8>)
    ensures Crc16(debut + [x, y] + fin) == Depuis(UnOctet(UnOctet(Depuis(DEPART, debut), x), y), fin)
  {
    hide UnOctet, Depuis;
    DepuisSuite(DEPART, debut + [x, y], fin);
    DepuisSuite(DEPART, debut, [x, y]);
    DeuxPas(Depuis(DEPART, debut), x, y);
  }
}
