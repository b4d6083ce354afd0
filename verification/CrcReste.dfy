/** Which code the check is: the remainder of a division of polynomials over two
    elements by x^16 + x^12 + x^5 + 1 (scripts/devialet-air-vecteurs.py). */
module CrcReste {
  import Crc

  /** A polynomial over two elements: the exponents it holds. */
  type Poly = set<nat>

  function Plus(a: Poly, b: Poly): Poly { (a - b) + (b - a) }

  /** Times x^k. */
  function Monte(a: Poly, k: nat): Poly { set i | i in a :: i + k }

  /** Times x^16 + x^12 + x^5 + 1. */
  function FoisG(q: Poly): Poly { Plus(Plus(Monte(q, 16), Monte(q, 12)), Plus(Monte(q, 5), q)) }

  /** `r` is a remainder of `m`: what is left is a multiple, and `r` is short. */
  ghost predicate Reste(m: Poly, r: Poly) {
    (forall i :: i in r ==> i < 16) && exists q: Poly :: m == Plus(FoisG(q), r)
  }

  // ------------------------------------------------------------ membership

  predicate Decale(a: Poly, k: nat, i: nat) { i >= k && i - k in a }

  lemma MonteDans(a: Poly, k: nat, i: nat)
    ensures i in Monte(a, k) <==> Decale(a, k, i)
  {
    if i >= k && i - k in a { assert (i - k) + k == i; }
  }

  lemma FoisGDans(q: Poly, i: nat)
    ensures i in FoisG(q) <==>
              ((Decale(q, 16, i) != Decale(q, 12, i)) != (Decale(q, 5, i) != (i in q)))
  {
    MonteDans(q, 16, i);
    MonteDans(q, 12, i);
    MonteDans(q, 5, i);
    hide Monte;
  }

  lemma FoisGPlus(a: Poly, b: Poly)
    ensures FoisG(Plus(a, b)) == Plus(FoisG(a), FoisG(b))
  {
    hide FoisG;
    forall i: nat ensures i in FoisG(Plus(a, b)) <==> i in Plus(FoisG(a), FoisG(b)) {
      FoisGDans(a, i);
      FoisGDans(b, i);
      FoisGDans(Plus(a, b), i);
    }
  }

  lemma FoisGMonte(q: Poly, k: nat)
    ensures FoisG(Monte(q, k)) == Monte(FoisG(q), k)
  {
    hide FoisG, Monte;
    forall i: nat ensures i in FoisG(Monte(q, k)) <==> i in Monte(FoisG(q), k) {
      MonteDans(FoisG(q), k, i);
      FoisGDans(Monte(q, k), i);
      if i >= k { FoisGDans(q, i - k); }
      MonteDans(q, k, i);
      if i >= 5 { MonteDans(q, k, i - 5); }
      if i >= 12 { MonteDans(q, k, i - 12); }
      if i >= 16 { MonteDans(q, k, i - 16); }
    }
  }

  lemma MontePlus(a: Poly, b: Poly, k: nat)
    ensures Monte(Plus(a, b), k) == Plus(Monte(a, k), Monte(b, k))
  {
    hide Monte;
    forall i: nat ensures i in Monte(Plus(a, b), k) <==> i in Plus(Monte(a, k), Monte(b, k)) {
      MonteDans(Plus(a, b), k, i);
      MonteDans(a, k, i);
      MonteDans(b, k, i);
    }
  }

  lemma MonteMonte(a: Poly, k: nat, n: nat)
    ensures Monte(Monte(a, k), n) == Monte(a, k + n)
  {
    hide Monte;
    forall i: nat ensures i in Monte(Monte(a, k), n) <==> i in Monte(a, k + n) {
      MonteDans(Monte(a, k), n, i);
      if i >= n { MonteDans(a, k, i - n); }
      MonteDans(a, k + n, i);
    }
  }

  lemma MonteZero(a: Poly)
    ensures Monte(a, 0) == a
  {
  }

  lemma {:induction false} PlusHaut(a: Poly) returns (m: nat)
    requires a != {}
    ensures m in a && forall i :: i in a ==> i <= m
  {
    var x :| x in a;
    if a == {x} {
      m := x;
    } else {
      Autre(a, x);
      var y := PlusHaut(a - {x});
      m := if x < y then y else x;
      assert forall i :: i in a ==> i == x || i in a - {x};
    }
  }

  lemma Autre(a: Poly, x: nat)
    requires x in a && a != {x}
    ensures a - {x} != {}
  {
    assert a == {x} + (a - {x});
  }

  /** A multiple that is short is nothing. */
  lemma MultipleCourt(q: Poly)
    requires forall i :: i in FoisG(q) ==> i < 16
    ensures q == {}
  {
    if q != {} {
      var m := PlusHaut(q);
      FoisGDans(q, m + 16);
    }
  }

  /** There is only one remainder. */
  lemma ResteUnique(m: Poly, r: Poly, s: Poly)
    requires Reste(m, r) && Reste(m, s)
    ensures r == s
  {
    var q :| m == Plus(FoisG(q), r);
    var p :| m == Plus(FoisG(p), s);
    FoisGPlus(q, p);
    assert Plus(FoisG(q), FoisG(p)) == Plus(r, s) by {
      hide FoisG;
      Croisees(FoisG(q), r, FoisG(p), s);
    }
    MultipleCourt(Plus(q, p));
    assert q == p by { Annule(q, p); }
    hide FoisG;
    Annule(r, s);
    assert Plus(FoisG(q), FoisG(q)) == {};
  }

  lemma Croisees(a: Poly, r: Poly, b: Poly, s: Poly)
    requires Plus(a, r) == Plus(b, s)
    ensures Plus(a, b) == Plus(r, s)
  {
    forall i ensures i in Plus(a, b) <==> i in Plus(r, s) {
      assert i in Plus(a, r) <==> i in Plus(b, s);
    }
  }

  lemma Annule(a: Poly, b: Poly)
    ensures Plus(a, b) == {} <==> a == b
  {
    if Plus(a, b) == {} {
      forall i ensures i in a <==> i in b {
        assert i !in Plus(a, b);
      }
    }
  }

  // ---------------------------------------------------- words as polynomials

  const POIDS: seq<bv16> := [
    0x0001, 0x0002, 0x0004, 0x0008, 0x0010, 0x0020, 0x0040, 0x0080,
    0x0100, 0x0200, 0x0400, 0x0800, 0x1000, 0x2000, 0x4000, 0x8000]

  const POIDS_OCTET: seq<bv8> := [0x01, 0x02, 0x04, 0x08, 0x10, 0x20, 0x40, 0x80]

  function Et(c: bv16, m: bv16): bv16 { c & m }

  function Poids(i: nat): bv16
    requires i < 16
  {
    POIDS[i]
  }

  predicate Present(c: bv16, i: nat) { i < 16 && Et(c, Poids(i)) != 0 }

  function EtOctet(x: bv8, m: bv8): bv8 { x & m }

  function PoidsOctet(i: nat): bv8
    requires i < 8
  {
    POIDS_OCTET[i]
  }

  predicate PresentOctet(x: bv8, i: nat) { i < 8 && EtOctet(x, PoidsOctet(i)) != 0 }

  /** The polynomial of a word, most significant bit first. */
  function Mot(c: bv16): Poly { set i: nat | i < 16 && Present(c, i) }

  function DeOctet(x: bv8): Poly { set i: nat | i < 8 && PresentOctet(x, i) }

  /** The polynomial of a message, first byte highest. */
  function Message(d: seq<bv8>): Poly {
    if d == [] then {} else Plus(Monte(Message(d[..|d| - 1]), 8), DeOctet(d[|d| - 1]))
  }

  const SEIZE: Poly := set i: nat | i < 16

  /** The message shifted up by sixteen, its first sixteen bits complemented. */
  function Dividende(d: seq<bv8>): Poly { Plus(Monte(Message(d), 16), Monte(SEIZE, 8 * |d|)) }

  // ------------------------------------------------------ one bit, one byte

  lemma MotCourt(c: bv16)
    ensures forall i :: i in Mot(c) ==> i < 16
  {
  }

  /** One place of an exclusive or. */
  lemma PresentXor(a: bv16, b: bv16, i: nat)
    ensures Present(Crc.Xor(a, b), i) <==> i < 16 && Present(a, i) != Present(b, i)
  {
    hide Crc.Xor, Et, Poids;
    if i < 16 {
      EtXor(a, b, Poids(i));
      UnBit(a, i);
      UnBit(b, i);
      Crc.XorEgal(Et(a, Poids(i)), Et(b, Poids(i)));
    }
  }

  lemma EtXor(a: bv16, b: bv16, m: bv16)
    ensures Et(Crc.Xor(a, b), m) == Crc.Xor(Et(a, m), Et(b, m))
  {
  }

  lemma UnBit(c: bv16, i: nat)
    requires i < 16
    ensures Et(c, Poids(i)) == if Present(c, i) then Poids(i) else 0
  {
    hide Et, Poids;
    Simple(i);
    SeulBit(c, Poids(i));
  }

  lemma Simple(i: nat)
    requires i < 16
    ensures Et(Poids(i), Poids(i) - 1) == 0
  {
  }

  lemma SeulBit(c: bv16, m: bv16)
    requires Et(m, m - 1) == 0
    ensures Et(c, m) == 0 || Et(c, m) == m
  {
  }

  lemma MotXor(a: bv16, b: bv16)
    ensures Mot(Crc.Xor(a, b)) == Plus(Mot(a), Mot(b))
  {
    forall i: nat ensures i in Mot(Crc.Xor(a, b)) <==> i in Plus(Mot(a), Mot(b)) {
      PresentXor(a, b, i);
      hide Present, Crc.Xor;
    }
  }

  lemma HautOctet(x: bv8, i: nat)
    ensures Present(Crc.Haut(x), i) <==> 8 <= i < 16 && PresentOctet(x, i - 8)
  {
    hide Crc.Haut, Et, EtOctet, Poids, PoidsOctet;
    if 8 <= i < 16 {
      PoidsHaut(i);
      EtHaut(x, PoidsOctet(i - 8));
      HautNul(EtOctet(x, PoidsOctet(i - 8)));
    } else if i < 8 {
      PoidsBas(i);
      EtBas(x, PoidsOctet(i));
    }
  }

  lemma PoidsHaut(i: nat)
    requires 8 <= i < 16
    ensures Poids(i) == Crc.Haut(PoidsOctet(i - 8))
  {
    match i
    case 8 => case 9 => case 10 => case 11 => case 12 => case 13 => case 14 => case 15 =>
  }

  lemma PoidsBas(i: nat)
    requires i < 8
    ensures Poids(i) == Crc.Bas(PoidsOctet(i))
  {
    match i
    case 0 => case 1 => case 2 => case 3 => case 4 => case 5 => case 6 => case 7 =>
  }

  lemma EtHaut(x: bv8, m: bv8)
    ensures Et(Crc.Haut(x), Crc.Haut(m)) == Crc.Haut(EtOctet(x, m))
  {
  }

  lemma EtBas(x: bv8, n: bv8)
    ensures Et(Crc.Haut(x), Crc.Bas(n)) == 0
  {
  }

  lemma HautNul(x: bv8)
    ensures Crc.Haut(x) == 0 <==> x == 0
  {
  }

  lemma MotHaut(x: bv8)
    ensures Mot(Crc.Haut(x)) == Monte(DeOctet(x), 8)
  {
    hide Monte;
    forall i: nat ensures i in Mot(Crc.Haut(x)) <==> i in Monte(DeOctet(x), 8) {
      HautOctet(x, i);
      MonteDans(DeOctet(x), 8, i);
      hide Present, PresentOctet, Crc.Haut;
    }
  }

  lemma PresentDecale(c: bv16, i: nat)
    ensures Present(Crc.Decale(c), i) <==> 1 <= i < 16 && Present(c, i - 1)
    ensures Crc.Tete(c) <==> Present(c, 15)
  {
    hide Et, Poids, Crc.Decale, Crc.Tete;
    TetePoids(c);
    if i == 0 {
      DecaleBas(c);
    } else if i < 16 {
      PoidsDecale(i);
      EtDecale(c, Poids(i - 1));
      DecaleNul(c, Poids(i - 1));
    }
  }

  lemma TetePoids(c: bv16)
    ensures Crc.Tete(c) <==> Et(c, Poids(15)) != 0
  {
  }

  lemma DecaleBas(c: bv16)
    ensures Et(Crc.Decale(c), Poids(0)) == 0
  {
  }

  lemma PoidsDecale(i: nat)
    requires 1 <= i < 16
    ensures Poids(i) == Crc.Decale(Poids(i - 1)) && Et(Poids(i - 1), 0x8000) == 0
  {
    match i
    case 1 => case 2 => case 3 => case 4 => case 5 => case 6 => case 7 =>
    case 8 => case 9 => case 10 => case 11 => case 12 => case 13 => case 14 => case 15 =>
  }

  lemma EtDecale(c: bv16, m: bv16)
    ensures Et(Crc.Decale(c), Crc.Decale(m)) == Crc.Decale(Et(c, m))
  {
  }

  lemma DecaleNul(c: bv16, m: bv16)
    requires Et(m, 0x8000) == 0
    ensures Crc.Decale(Et(c, m)) == 0 <==> Et(c, m) == 0
  {
  }

  lemma MotDecale(c: bv16)
    ensures Monte(Mot(c), 1) == Plus(Mot(Crc.Decale(c)), if Crc.Tete(c) then {16} else {})
  {
    hide Monte;
    PresentDecale(c, 0);
    forall i: nat ensures i in Monte(Mot(c), 1) <==> i in Plus(Mot(Crc.Decale(c)), if Crc.Tete(c) then {16} else {}) {
      PresentDecale(c, i);
      MonteDans(Mot(c), 1, i);
      hide Present, Crc.Decale, Crc.Tete;
    }
  }

  lemma MotPolynome()
    ensures Mot(Crc.POLYNOME) == {0, 5, 12}
  {
    forall i: nat ensures i in Mot(Crc.POLYNOME) <==> i in {0, 5, 12} {
      if i < 16 {
        match i
        case 0 => case 1 => case 2 => case 3 => case 4 => case 5 => case 6 => case 7 =>
        case 8 => case 9 => case 10 => case 11 => case 12 => case 13 => case 14 => case 15 =>
      }
    }
  }

  lemma Generateur()
    ensures FoisG({0}) == {0, 5, 12, 16}
  {
    assert Monte({0}, 16) == {16} && Monte({0}, 12) == {12} && Monte({0}, 5) == {5};
  }

  /** One shift with feedback: times x, less the divisor when the top bit falls. */
  lemma MotBit(c: bv16)
    ensures Monte(Mot(c), 1) == Plus(FoisG(if Crc.Tete(c) then {0} else {}), Mot(Crc.Bit(c)))
  {
    hide Monte, FoisG, Mot, Crc.Tete, Crc.Decale, Crc.Xor;
    MotDecale(c);
    MotXor(Crc.Decale(c), Crc.POLYNOME);
    MotPolynome();
    Generateur();
    MotCourt(Crc.Decale(c));
    FoisGVide();
  }

  lemma FoisGVide()
    ensures FoisG({}) == {}
  {
  }

  /** `n` shifts: times x^n, less a multiple. */
  lemma {:induction false} MotBits(c: bv16, n: nat) returns (q: Poly)
    ensures Monte(Mot(c), n) == Plus(FoisG(q), Mot(Crc.Bits(c, n)))
  {
    hide Monte, FoisG, Mot, Crc.Bit;
    if n == 0 {
      q := {};
      FoisGVide();
      MonteZero(Mot(c));
    } else {
      var p := MotBits(c, n - 1);
      var r := Crc.Bits(c, n - 1);
      var b: Poly := if Crc.Tete(r) then {0} else {};
      MotBit(r);
      q := Plus(Monte(p, 1), b);
      MonteMonte(Mot(c), n - 1, 1);
      MontePlus(FoisG(p), Mot(r), 1);
      FoisGMonte(p, 1);
      FoisGPlus(Monte(p, 1), b);
      PlusAssocie(FoisG(Monte(p, 1)), FoisG(b), Mot(Crc.Bit(r)));
    }
  }

  lemma PlusAssocie(a: Poly, b: Poly, c: Poly)
    ensures Plus(Plus(a, b), c) == Plus(a, Plus(b, c)) && Plus(a, b) == Plus(b, a)
  {
  }

  /** The dividend after one more byte. */
  lemma DividendePlus(d: seq<bv8>, x: bv8)
    ensures Dividende(d + [x]) == Plus(Monte(Dividende(d), 8), Monte(DeOctet(x), 16))
  {
    hide Monte, DeOctet, SEIZE;
    assert (d + [x])[..|d|] == d;
    MontePlus(Monte(Message(d), 8), DeOctet(x), 16);
    MonteMonte(Message(d), 8, 16);
    MonteMonte(Message(d), 16, 8);
    MontePlus(Monte(Message(d), 16), Monte(SEIZE, 8 * |d|), 8);
    MonteMonte(SEIZE, 8 * |d|, 8);
    var a, b, c := Monte(Message(d), 24), Monte(DeOctet(x), 16), Monte(SEIZE, 8 * |d| + 8);
    PlusAssocie(a, b, c);
    PlusAssocie(a, c, b);
    PlusAssocie(b, c, a);
  }

  lemma MotDepart()
    ensures Mot(0xFFFF) == SEIZE
  {
    forall i: nat | i < 16 ensures Present(0xFFFF, i) {
      match i
      case 0 => case 1 => case 2 => case 3 => case 4 => case 5 => case 6 => case 7 =>
      case 8 => case 9 => case 10 => case 11 => case 12 => case 13 => case 14 => case 15 =>
    }
  }

  lemma MessageVide()
    ensures Dividende([]) == SEIZE
  {
    MonteZero(SEIZE);
  }

  lemma {:induction false} Division(d: seq<bv8>) returns (q: Poly)
    ensures Dividende(d) == Plus(FoisG(q), Mot(Crc.Crc16(d)))
    decreases |d|
  {
    hide Monte, FoisG, Mot, Crc.Bits, Dividende, Crc.Haut, DeOctet, SEIZE, Crc.Xor;
    if d == [] {
      q := {};
      FoisGVide();
      MotDepart();
      MessageVide();
    } else {
      var p, x := d[..|d| - 1], d[|d| - 1];
      var c := Crc.Crc16(p);
      var r := Division(p);
      assert d == p + [x];
      DividendePlus(p, x);
      var s := UnOctet(c, x);
      q := Plus(Monte(r, 8), s);
      MontePlus(FoisG(r), Mot(c), 8);
      FoisGMonte(r, 8);
      FoisGPlus(Monte(r, 8), s);
      PlusAssocie(FoisG(Monte(r, 8)), Monte(Mot(c), 8), Monte(DeOctet(x), 16));
      PlusAssocie(FoisG(Monte(r, 8)), FoisG(s), Mot(Crc.UnOctet(c, x)));
    }
  }

  /** One byte: times x^8, plus the byte times x^16, less a multiple. */
  lemma UnOctet(c: bv16, x: bv8) returns (q: Poly)
    ensures Plus(Monte(Mot(c), 8), Monte(DeOctet(x), 16)) == Plus(FoisG(q), Mot(Crc.UnOctet(c, x)))
  {
    hide Monte, FoisG, Mot, Crc.Bits, Crc.Haut, DeOctet, Crc.Xor;
    var k := Crc.Xor(c, Crc.Haut(x));
    q := MotBits(k, 8);
    MotXor(c, Crc.Haut(x));
    MotHaut(x);
    MontePlus(Mot(c), Monte(DeOctet(x), 8), 8);
    MonteMonte(DeOctet(x), 8, 8);
  }

  /** The check of a message is the remainder, and the only one, of the division
      by x^16 + x^12 + x^5 + 1 of the message shifted up by sixteen, its first
      sixteen bits complemented. */
  lemma CrcEstReste(d: seq<bv8>, r: Poly)
    ensures Reste(Dividende(d), r) <==> r == Mot(Crc.Crc16(d))
  {
    hide FoisG, Dividende, Crc.Crc16, Mot;
    var q := Division(d);
    MotCourt(Crc.Crc16(d));
    if Reste(Dividende(d), r) { ResteUnique(Dividende(d), r, Mot(Crc.Crc16(d))); }
  }

  /** The polynomial tells the word. */
  lemma MotInjectif(a: bv16, b: bv16)
    ensures Mot(a) == Mot(b) <==> a == b
  {
    hide Mot, Crc.Xor;
    MotXor(a, b);
    Annule(Mot(a), Mot(b));
    MotNul(Crc.Xor(a, b));
    Crc.XorEgal(a, b);
  }

  lemma MotNul(c: bv16)
    ensures Mot(c) == {} <==> c == 0
  {
    if Mot(c) == {} {
      forall i: nat | i < 16 ensures Et(c, Poids(i)) == 0 {
        assert i !in Mot(c);
      }
      hide Mot;
      SansBit(c);
    } else {
      var i :| i in Mot(c);
      EtNul(Poids(i));
    }
  }

  lemma EtNul(m: bv16)
    ensures Et(0, m) == 0
  {
  }

  lemma SansBit(c: bv16)
    requires forall i: nat :: i < 16 ==> Et(c, Poids(i)) == 0
    ensures c == 0
  {
    assert Et(c, Poids(0)) == 0 && Et(c, Poids(1)) == 0 && Et(c, Poids(2)) == 0 && Et(c, Poids(3)) == 0;
    assert Et(c, Poids(4)) == 0 && Et(c, Poids(5)) == 0 && Et(c, Poids(6)) == 0 && Et(c, Poids(7)) == 0;
    assert Et(c, Poids(8)) == 0 && Et(c, Poids(9)) == 0 && Et(c, Poids(10)) == 0 && Et(c, Poids(11)) == 0;
    assert Et(c, Poids(12)) == 0 && Et(c, Poids(13)) == 0 && Et(c, Poids(14)) == 0 && Et(c, Poids(15)) == 0;
  }

  // ------------------------------------------------------------ known values

  lemma HuitBits(c: bv16, x: bv8)
    ensures Crc.UnOctet(c, x) == Huit(Crc.Xor(c, Crc.Haut(x)))
  {
    hide Crc.Bit, Crc.Xor, Crc.Haut;
    var k := Crc.Xor(c, Crc.Haut(x));
    assert Crc.Bits(k, 0) == k;
    assert Crc.Bits(k, 1) == Crc.Bit(Crc.Bits(k, 0)) && Crc.Bits(k, 2) == Crc.Bit(Crc.Bits(k, 1));
    assert Crc.Bits(k, 3) == Crc.Bit(Crc.Bits(k, 2)) && Crc.Bits(k, 4) == Crc.Bit(Crc.Bits(k, 3));
    assert Crc.Bits(k, 5) == Crc.Bit(Crc.Bits(k, 4)) && Crc.Bits(k, 6) == Crc.Bit(Crc.Bits(k, 5));
    assert Crc.Bits(k, 7) == Crc.Bit(Crc.Bits(k, 6)) && Crc.Bits(k, 8) == Crc.Bit(Crc.Bits(k, 7));
  }

  function Huit(k: bv16): bv16 {
    Crc.Bit(Crc.Bit(Crc.Bit(Crc.Bit(Crc.Bit(Crc.Bit(Crc.Bit(Crc.Bit(k))))))))
  }

  /** The nine digits, one by one. */
  lemma Chiffres()
    ensures Huit(Crc.Xor(0xFFFF, Crc.Haut(0x31))) == 0xC782
    ensures Huit(Crc.Xor(0xC782, Crc.Haut(0x32))) == 0x3DBA
    ensures Huit(Crc.Xor(0x3DBA, Crc.Haut(0x33))) == 0x5BCE
    ensures Huit(Crc.Xor(0x5BCE, Crc.Haut(0x34))) == 0x5349
    ensures Huit(Crc.Xor(0x5349, Crc.Haut(0x35))) == 0x4560
    ensures Huit(Crc.Xor(0x4560, Crc.Haut(0x36))) == 0x2EF4
    ensures Huit(Crc.Xor(0x2EF4, Crc.Haut(0x37))) == 0x7718
    ensures Huit(Crc.Xor(0x7718, Crc.Haut(0x38))) == 0xA12B
    ensures Huit(Crc.Xor(0xA12B, Crc.Haut(0x39))) == 0x29B1
  {
  }

  /** The check of one null byte, and the value catalogues give for the nine digits. */
  lemma ValeursConnues()
    ensures Crc.Crc16([0]) == 0xE1F0
    ensures Crc.Crc16([0x31, 0x32, 0x33, 0x34, 0x35, 0x36, 0x37, 0x38, 0x39]) == 0x29B1
  {
    hide Crc.UnOctet, Crc.Depuis, Huit, Crc.Xor, Crc.Haut;
    Crc.UnSeulPas(0xFFFF, 0);
    HuitBits(0xFFFF, 0);
    Nul();
    Chiffres();
    var d: seq<bv8> := [0x31, 0x32, 0x33, 0x34, 0x35, 0x36, 0x37, 0x38, 0x39];
    assert d[..0] == [];
    assert Crc.Depuis(0xFFFF, []) == 0xFFFF by { Vide(); }
    Avance(d, 0, 0xFFFF, 0x31);
    Avance(d, 1, 0xC782, 0x32);
    Avance(d, 2, 0x3DBA, 0x33);
    Avance(d, 3, 0x5BCE, 0x34);
    Avance(d, 4, 0x5349, 0x35);
    Avance(d, 5, 0x4560, 0x36);
    Avance(d, 6, 0x2EF4, 0x37);
    Avance(d, 7, 0x7718, 0x38);
    Avance(d, 8, 0xA12B, 0x39);
    assert d[..9] == d;
  }

  lemma Vide()
    ensures Crc.Depuis(0xFFFF, []) == 0xFFFF
  {
  }

  lemma Nul()
    ensures Huit(Crc.Xor(0xFFFF, Crc.Haut(0))) == 0xE1F0
  {
  }

  lemma Avance(d: seq<bv8>, i: nat, c: bv16, x: bv8)
    requires i < |d| && d[i] == x && Crc.Depuis(0xFFFF, d[..i]) == c
    ensures Crc.Depuis(0xFFFF, d[..i + 1]) == Huit(Crc.Xor(c, Crc.Haut(x)))
  {
    hide Crc.UnOctet, Huit, Crc.Xor, Crc.Haut;
    assert d[..i + 1][..i] == d[..i];
    HuitBits(c, x);
  }
}
