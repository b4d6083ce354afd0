/** The audio packet of Devialet AIR: header, one block per channel, check,
    padding (scripts/devialet-air-vecteurs.py), and its reading. */
module PaquetAir {
  import opened Commun
  import opened BlocAir
  import Crc
  import M = MorceauBinaire

  type Trame = (Echantillon, Echantillon)

  /** The code of a sample rate; other rates have none. */
  function Code(frequence: nat): Option<nat> {
    match frequence
    case 44100 => Some(0)
    case 48000 => Some(1)
    case 88200 => Some(2)
    case 96000 => Some(3)
    case 176400 => Some(4)
    case 192000 => Some(5)
    case _ => None
  }

  function Frequence(code: nat): Option<nat> {
    match code
    case 0 => Some(44100)
    case 1 => Some(48000)
    case 2 => Some(88200)
    case 3 => Some(96000)
    case 4 => Some(176400)
    case 5 => Some(192000)
    case _ => None
  }

  /** Above 96 kHz the fields are at most 10 bits wide. */
  function Plafond(frequence: nat): Option<nat> { if frequence > 96000 then Some(10) else None }

  function Gauche(t: seq<Trame>): (e: seq<Echantillon>)
    ensures |e| == |t|
  {
    seq(|t|, i requires 0 <= i < |t| => t[i].0)
  }

  function Droite(t: seq<Trame>): (e: seq<Echantillon>)
    ensures |e| == |t|
  {
    seq(|t|, i requires 0 <= i < |t| => t[i].1)
  }

  function EnBv(d: seq<Octet>): seq<bv8> { seq(|d|, i requires 0 <= i < |d| => d[i] as bv8) }

  /** The check, as two bytes. */
  function Controle(d: seq<Octet>): (o: seq<Octet>)
    ensures |o| == 2
  {
    hide Crc.Depuis, Crc.PoidsFort, Crc.PoidsFaible;
    var c := Crc.Crc16(EnBv(d));
    [Crc.PoidsFort(c) as nat, Crc.PoidsFaible(c) as nat]
  }

  const ENTETE: seq<Octet> := [68, 109, 2]

  /** The padding that closes a packet. */
  function Zeros(n: nat): (z: seq<Octet>)
    ensures |z| == n && forall i :: 0 <= i < n ==> z[i] == 0
  {
    if n == 0 then [] else Zeros(n - 1) + [0]
  }

  /** What the source can write: anything else raises an exception. */
  predicate Ecrivable(flux: int, frequence: nat, position: int, t: seq<Trame>) {
    && Code(frequence).Some?
    && 0 <= flux < 0x1_0000_0000
    && 0 <= position < 0x1_0000_0000_0000_0000
    && 1 <= |t| < 0x1_0000
  }

  function Entete(session: seq<Octet>, flux: int, frequence: nat, lecture: bool, position: int, n: nat): (h: seq<Octet>)
    requires Code(frequence).Some? && flux >= 0 && position >= 0
    ensures |h| == |session| + 18
  {
    ENTETE + session + M.GrosBoutiste(flux, 4) + [2 * Code(frequence).value + if lecture then 1 else 0]
    + M.GrosBoutiste(position, 8) + M.GrosBoutiste(n, 2)
  }

  function Corps(session: seq<Octet>, flux: int, frequence: nat, lecture: bool, position: int, t: seq<Trame>)
    : seq<Octet>
    requires Ecrivable(flux, frequence, position, t)
  {
    hide Bloc, M.GrosBoutiste;
    Entete(session, flux, frequence, lecture, position, |t|)
    + Bloc(Gauche(t), Plafond(frequence)) + Bloc(Droite(t), Plafond(frequence))
  }

  /** `dm`. */
  function Dm(session: seq<Octet>, flux: int, frequence: nat, lecture: bool, position: int, t: seq<Trame>)
    : Option<seq<Octet>>
  {
    if !Ecrivable(flux, frequence, position, t) then None
    else
      var d := Corps(session, flux, frequence, lecture, position, t);
      Some(d + Controle(d) + Zeros(128))
  }

  // --------------------------------------------------------------- reading

  datatype Contenu = Contenu(
    session: seq<Octet>, flux: nat, frequence: nat, lecture: bool, position: nat, gauche: seq<int>, droite: seq<int>)

  function LireEntete(p: seq<Octet>): Option<(Contenu, nat)> {
    if |p| < 22 || p[..3] != Ascii("Dm") + [2] then None
    else
      var code: nat := p[11];
      var n := M.Valeur(p[20..22]);
      if Frequence(code / 2).None? || n == 0 then None
      else
        Some((Contenu(p[3..7], M.Valeur(p[7..11]), Frequence(code / 2).value, code % 2 == 1, M.Valeur(p[12..20]),
                      [], []), n))
  }

  /** Reads a packet: the second block starts where the header of the first says
      it ends. */
  function LireDm(p: seq<Octet>): Option<Contenu> {
    var h := LireEntete(p);
    if h.None? || h.value.1 == 0 || |p| < 22 then None else
    var c := h.value.0;
    var g := LireBloc(p[22..], h.value.1);
    if g.None? then None else
    var d := LireBloc(g.value.1, h.value.1);
    if d.None? then None else
    var fin := d.value.1;
    if |fin| != 130 || |p| < 130 || fin[..2] != Controle(p[..|p| - 130]) || fin[2..] != Zeros(128) then None
    else Some(c.(gauche := g.value.0, droite := d.value.0))
  }

  lemma CodeRelu(frequence: nat, lecture: bool)
    requires Code(frequence).Some?
    ensures var c := 2 * Code(frequence).value + if lecture then 1 else 0;
      c < 12 && Frequence(c / 2) == Some(frequence) && (c % 2 == 1) == lecture
  {
  }

  lemma Puissances()
    ensures M.Puissance(2) == 0x1_0000 && M.Puissance(4) == 0x1_0000_0000 && M.Puissance(8) == 0x1_0000_0000_0000_0000
  {
    assert M.Puissance(2) == 0x1_0000;
    assert M.Puissance(4) == 0x1_0000_0000;
    M.Puissance8();
  }

  lemma EntierRelu(v: nat, k: nat)
    requires k in {2, 4, 8} && (k == 2 ==> v < 0x1_0000) && (k == 4 ==> v < 0x1_0000_0000)
    requires k == 8 ==> v < 0x1_0000_0000_0000_0000
    ensures M.Valeur(M.GrosBoutiste(v, k)) == v
  {
    hide M.Valeur, M.GrosBoutiste, M.Puissance;
    Puissances();
    M.ValeurDe(v, k);
  }

  lemma EnteteRelu(session: seq<Octet>, flux: int, frequence: nat, lecture: bool, position: int, n: nat,
                   suite: seq<Octet>)
    requires |session| == 4 && Code(frequence).Some? && 0 <= flux < 0x1_0000_0000
    requires 0 <= position < 0x1_0000_0000_0000_0000 && 1 <= n < 0x1_0000
    ensures var h := Entete(session, flux, frequence, lecture, position, n);
      LireEntete(h + suite) == Some((Contenu(session, flux, frequence, lecture, position, [], []), n))
  {
    hide M.Valeur, M.GrosBoutiste, M.Puissance, Code, Frequence;
    EntierRelu(flux, 4);
    EntierRelu(position, 8);
    EntierRelu(n, 2);
    CodeRelu(frequence, lecture);
    var p := Entete(session, flux, frequence, lecture, position, n) + suite;
    assert p[..3] == ENTETE == Ascii("Dm") + [2];
    assert p[3..7] == session;
    assert p[7..11] == M.GrosBoutiste(flux, 4);
    assert p[11] == 2 * Code(frequence).value + if lecture then 1 else 0;
    assert p[12..20] == M.GrosBoutiste(position, 8);
    assert p[20..22] == M.GrosBoutiste(n, 2);
  }

  /** Everything written is read back: session, stream, rate, play flag, position
      and, in each channel, what the block coder lets through. */
  lemma DmRelu(session: seq<Octet>, flux: int, frequence: nat, lecture: bool, position: int, t: seq<Trame>)
    requires |session| == 4 && Ecrivable(flux, frequence, position, t)
    ensures LireDm(Dm(session, flux, frequence, lecture, position, t).value) ==
              Some(Contenu(session, flux, frequence, lecture, position,
                           Entendu(Gauche(t), Plafond(frequence)), Entendu(Droite(t), Plafond(frequence))))
  {
    hide Bloc, LireBloc, Entendu, Controle, LireEntete, M.GrosBoutiste, Code, Gauche, Droite, Zeros;
    var cap, n := Plafond(frequence), |t|;
    var h := Entete(session, flux, frequence, lecture, position, n);
    var g, d := Bloc(Gauche(t), cap), Bloc(Droite(t), cap);
    var corps := Corps(session, flux, frequence, lecture, position, t);
    var fin := Controle(corps) + Zeros(128);
    var p := Dm(session, flux, frequence, lecture, position, t).value;
    assert corps == h + g + d;
    assert p == h + (g + (d + fin));
    EnteteRelu(session, flux, frequence, lecture, position, n, g + (d + fin));
    assert p[22..] == g + (d + fin);
    BlocRelu(Gauche(t), cap, d + fin);
    BlocRelu(Droite(t), cap, fin);
    assert fin[..2] == Controle(corps) && fin[2..] == Zeros(128);
    assert p[..|p| - 130] == corps;
  }

  lemma EnBvSuite(a: seq<Octet>, b: seq<Octet>)
    ensures EnBv(a + b) == EnBv(a) + EnBv(b)
  {
  }

  lemma DeuxEnBits(x: bv8, y: bv8)
    ensures EnBv([x as nat, y as nat]) == [x, y]
  {
    OctetRevenu(x);
    OctetRevenu(y);
  }

  lemma OctetRevenu(x: bv8)
    ensures (x as nat) as bv8 == x
  {
  }

  lemma ControleEnBits(d: seq<Octet>)
    ensures EnBv(d + Controle(d)) == EnBv(d) + Crc.Octets(Crc.Crc16(EnBv(d)))
  {
    hide Crc.Depuis, Crc.PoidsFort, Crc.PoidsFaible, EnBv;
    var c := Crc.Crc16(EnBv(d));
    EnBvSuite(d, Controle(d));
    DeuxEnBits(Crc.PoidsFort(c), Crc.PoidsFaible(c));
  }

  /** Whatever the packet, all of it but its 128 null bytes has check zero. */
  lemma PaquetControle(session: seq<Octet>, flux: int, frequence: nat, lecture: bool, position: int, t: seq<Trame>)
    requires Ecrivable(flux, frequence, position, t)
    ensures var p := Dm(session, flux, frequence, lecture, position, t).value;
      && |p| >= 130 && (forall i :: |p| - 128 <= i < |p| ==> p[i] == 0)
      && Crc.Crc16(EnBv(p[..|p| - 128])) == 0
  {
    hide Corps, Controle, Crc.Crc16, Crc.Octets;
    var d := Corps(session, flux, frequence, lecture, position, t);
    var p := Dm(session, flux, frequence, lecture, position, t).value;
    assert p[..|p| - 128] == d + Controle(d);
    ControleEnBits(d);
    Crc.ResteNul(EnBv(d));
  }

  // --------------------------------------------------------------- fidelity

  lemma {:induction false} SansPerte(rec: int, xs: seq<int>)
    ensures Relu(rec, xs, 0) == xs
    decreases |xs|
  {
    hide Relu, Tz;
    if xs != [] {
      ReluPas(rec, xs, 0);
      TzBorne(xs[0] - rec, 0);
      DeuxUn();
      SansPerte(xs[0], xs[1..]);
      assert xs == [xs[0]] + xs[1..];
    } else {
      assert Relu(rec, xs, 0) == [];
    }
  }

  /** The samples up to place `i` lie between two bounds. */
  ghost predicate VuesEntre(e: seq<Echantillon>, i: nat, bas: int, haut: int)
    requires i < |e|
  {
    Entre(e[..i + 1], bas, haut)
  }

  ghost predicate Parmi(r: seq<int>, e: seq<Echantillon>) {
    |r| == |e| && forall i: nat, bas, haut :: i < |e| && VuesEntre(e, i, bas, haut) ==> bas <= r[i] <= haut
  }

  /** With a free width the block is exact; with 10 bits every sample is within
      one step of at most 2^15, and stays among the samples heard so far. */
  lemma EntenduFidele(e: seq<Echantillon>, cap: Option<nat>)
    requires e != []
    ensures cap.None? ==> Entendu(e, cap) == e
    ensures Proches(Entendu(e, cap), e, Deux(Decalage(e, cap)))
    ensures cap == Some(10) ==> Decalage(e, cap) <= 15
    ensures Parmi(Entendu(e, cap), e)
  {
    hide Relu, Decalage, Deux;
    var s := Decalage(e, cap);
    RechercheBornee(e, cap);
    if cap.None? {
      SansPerte(e[0], e[1..]);
      assert e == [e[0]] + e[1..];
    }
    ReluTout(e, s);
    forall i: nat, bas, haut | i < |e| && VuesEntre(e, i, bas, haut) ensures bas <= Entendu(e, cap)[i] <= haut {
      ReluParmi(e, s, i, bas, haut);
    }
  }

  lemma ReluTout(e: seq<Echantillon>, s: nat)
    requires e != []
    ensures Proches([e[0]] + Relu(e[0], e[1..], s), e, Deux(s))
  {
    hide Relu, Deux;
    SontEntre(e[1..]);
    ReluProche(e[0], e[1..], s, -0x80_0000, 0x7F_FFFF);
    var r := Relu(e[0], e[1..], s);
    var pas: int := Deux(s);
    forall i | 0 <= i < |e| ensures -pas < ([e[0]] + r)[i] - e[i] < pas {
      if i > 0 { assert e[i] == e[1..][i - 1]; }
    }
  }

  lemma ReluParmi(e: seq<Echantillon>, s: nat, i: nat, bas: int, haut: int)
    requires i < |e| && Entre(e[..i + 1], bas, haut)
    ensures bas <= ([e[0]] + Relu(e[0], e[1..], s))[i] <= haut
  {
    hide Relu, Deux;
    assert bas <= e[..i + 1][0] <= haut;
    if i > 0 {
      assert e[1..][..i] == e[..i + 1][1..];
      assert Entre(e[1..][..i], bas, haut);
      ReluPrefixe(e[0], e[1..], s, i);
      ReluProche(e[0], e[1..][..i], s, bas, haut);
      assert Relu(e[0], e[1..], s)[i - 1] == Relu(e[0], e[1..], s)[..i][i - 1];
    }
  }

  /** At 96 kHz and below a packet gives both channels back exactly. */
  lemma PaquetExact(session: seq<Octet>, flux: int, frequence: nat, lecture: bool, position: int, t: seq<Trame>)
    requires |session| == 4 && Ecrivable(flux, frequence, position, t) && frequence <= 96000
    ensures LireDm(Dm(session, flux, frequence, lecture, position, t).value) ==
              Some(Contenu(session, flux, frequence, lecture, position, Gauche(t), Droite(t)))
  {
    hide Entendu, LireDm, Dm;
    DmRelu(session, flux, frequence, lecture, position, t);
    EntenduFidele(Gauche(t), None);
    EntenduFidele(Droite(t), None);
  }

  /** Above, each channel comes back within a step of its own, at most 2^15. */
  lemma PaquetProche(session: seq<Octet>, flux: int, frequence: nat, lecture: bool, position: int, t: seq<Trame>)
    requires |session| == 4 && Ecrivable(flux, frequence, position, t) && frequence > 96000
    ensures LireDm(Dm(session, flux, frequence, lecture, position, t).value).Some?
    ensures var c := LireDm(Dm(session, flux, frequence, lecture, position, t).value).value;
      var sg, sd := Decalage(Gauche(t), Some(10)), Decalage(Droite(t), Some(10));
      && c == Contenu(session, flux, frequence, lecture, position, c.gauche, c.droite)
      && sg <= 15 && Proches(c.gauche, Gauche(t), Deux(sg))
      && sd <= 15 && Proches(c.droite, Droite(t), Deux(sd))
  {
    hide Entendu, LireDm, Dm, Decalage, Deux, Proches;
    DmRelu(session, flux, frequence, lecture, position, t);
    EntenduFidele(Gauche(t), Some(10));
    EntenduFidele(Droite(t), Some(10));
  }
}
