/** What every call keeps of the traffic ledger. */
module TraficProofs {
  import opened Commun
  import opened TraficSpec

  // ------------------------------------------------------ what is measured

  /** The amounts kept twice, globally and per server. */
  datatype Mesure = Entrees(c: Categorie) | Sorties(c: Categorie) | Ouvertes | Reprises | Terminees(fin: Fin)

  function Global(v: Globaux, x: Mesure): nat {
    match x
    case Entrees(c) => v.entree.De(c)
    case Sorties(c) => v.sortie.De(c)
    case Ouvertes => v.ouvertes
    case Reprises => v.reprises
    case Terminees(fin) =>
      match fin
      case Complete => v.completes
      case InterrompueParLeClient => v.interrompues
      case CoupeeCoteServeur => v.coupees
  }

  function DuServeur(k: Compteurs, x: Mesure): nat {
    match x
    case Entrees(c) => k.entree.De(c)
    case Sorties(c) => k.sortie.De(c)
    case Ouvertes => k.sessions
    case Reprises => k.reprises
    case Terminees(_) => 0
  }

  ghost function Part(objets: map<Oid, Compteurs>, serveurs: map<Sid, Oid>, x: Mesure): map<Sid, nat> {
    map s | s in serveurs && serveurs[s] in objets :: DuServeur(objets[serveurs[s]], x)
  }

  ghost function Cumul(ms: seq<Minute>, x: Mesure): nat {
    if ms == [] then 0 else Cumul(ms[..|ms| - 1], x) + Global(ms[|ms| - 1].globaux, x)
  }

  lemma {:induction false} CumulPlus(a: seq<Minute>, b: seq<Minute>, x: Mesure)
    ensures Cumul(a + b, x) == Cumul(a, x) + Cumul(b, x)
    decreases |b|
  {
    if b == [] {
      assert a + b == a;
    } else {
      assert (a + b)[..|a + b| - 1] == a + b[..|b| - 1];
      CumulPlus(a, b[..|b| - 1], x);
    }
  }

  /** Bytes ever counted in one direction and one category. */
  ghost function Passes(ms: seq<Mouvement>, entrant: bool, c: Categorie): nat {
    if ms == [] then 0 else
      var m := ms[|ms| - 1];
      Passes(ms[..|ms| - 1], entrant, c) + if m.entrant == entrant && m.c == c then m.n else 0
  }

  // ------------------------------------------------------------ invariants

  /** Every handle leads to the object the map holds, and an object outside the
      map is idle and held by nobody. */
  ghost predicate Carte(objets: map<Oid, Compteurs>, serveurs: map<Sid, Oid>, tenus: map<Oid, nat>,
                        sessions: map<Sess, Fiche>)
  {
    && (forall s :: s in serveurs ==> serveurs[s] in objets && objets[serveurs[s]].sid == s)
    && (forall o :: Tenu(tenus, sessions, o) ==> o in objets)
    && (forall o :: o in objets && !(objets[o].sid in serveurs && serveurs[objets[o].sid] == o) ==>
          !Actif(objets[o]) && !Tenu(tenus, sessions, o))
  }

  ghost predicate Double(vif: Globaux, objets: map<Oid, Compteurs>, serveurs: map<Sid, Oid>) {
    forall x: Mesure :: !x.Terminees? ==> Global(vif, x) == Somme(Part(objets, serveurs, x))
  }

  /** What a row of a minute and the global totals both tell. */
  datatype Colonne = BytesIn | BytesOut | StreamOut | NbSessions | Resumes

  function DansLigne(l: Ligne, col: Colonne): nat {
    match col
    case BytesIn => l.bytesIn
    case BytesOut => l.bytesOut
    case StreamOut => l.streamOut
    case NbSessions => l.sessions
    case Resumes => l.resumes
  }

  function DansGlobaux(v: Globaux, col: Colonne): nat {
    match col
    case BytesIn => v.entree.audio + v.entree.cercle + v.entree.api + v.entree.images
    case BytesOut => v.sortie.audio + v.sortie.cercle + v.sortie.api + v.sortie.images
    case StreamOut => v.sortie.audio + v.sortie.cercle
    case NbSessions => v.ouvertes
    case Resumes => v.reprises
  }

  ghost function Releves(servers: map<Sid, Ligne>, col: Colonne): map<Sid, nat> {
    map s | s in servers :: DansLigne(servers[s], col)
  }

  /** A closed minute: the global totals are the sums of the rows. */
  ghost predicate MinuteJuste(m: Minute) {
    forall col: Colonne :: DansGlobaux(m.globaux, col) == Somme(Releves(m.servers, col))
  }

  ghost predicate MinutesJustes(ms: seq<Minute>) { forall m :: m in ms ==> MinuteJuste(m) }

  ghost predicate Octets(mouvements: seq<Mouvement>, closes: seq<Minute>, vif: Globaux) {
    forall c: Categorie ::
      && Passes(mouvements, true, c) == Cumul(closes, Entrees(c)) + Global(vif, Entrees(c))
      && Passes(mouvements, false, c) == Cumul(closes, Sorties(c)) + Global(vif, Sorties(c))
  }

  ghost function Issues(finies: map<Sess, Issue>, fin: Fin): set<Sess> { set s | s in finies && finies[s].fin == fin }

  ghost predicate Ecoutes(sessions: map<Sess, Fiche>, finies: map<Sess, Issue>, reprises: map<Sess, Sess>,
                          closes: seq<Minute>, vif: Globaux)
  {
    && sessions.Keys !! finies.Keys
    && |sessions| + |finies| == Cumul(closes, Ouvertes) + Global(vif, Ouvertes)
    && |reprises| == Cumul(closes, Reprises) + Global(vif, Reprises)
    && forall fin: Fin :: |Issues(finies, fin)| == Cumul(closes, Terminees(fin)) + Global(vif, Terminees(fin))
  }

  /** A cut waiting to be resumed is the end, not complete and not resumed yet, of
      a session of that server on that stream. */
  ghost predicate CoupureVraie(c: Coupure, o: Oid, finies: map<Sess, Issue>, reprises: map<Sess, Sess>) {
    && c.session in finies && c.session !in reprises
    && finies[c.session].fin != Complete
    && finies[c.session].t == c.t
    && finies[c.session].fiche.cle == c.cle
    && finies[c.session].fiche.oid == o
  }

  ghost predicate Distinctes(cs: seq<Coupure>) {
    forall i, j :: 0 <= i < j < |cs| ==> cs[i].session != cs[j].session
  }

  ghost predicate CoupuresVraies(cs: seq<Coupure>, o: Oid, finies: map<Sess, Issue>, reprises: map<Sess, Sess>) {
    && |cs| <= COUPURES_GARDEES
    && Distinctes(cs)
    && forall i :: 0 <= i < |cs| ==> CoupureVraie(cs[i], o, finies, reprises)
  }

  ghost predicate Coupures(objets: map<Oid, Compteurs>, finies: map<Sess, Issue>, reprises: map<Sess, Sess>) {
    forall o :: o in objets ==> CoupuresVraies(objets[o].coupures, o, finies, reprises)
  }

  ghost function FicheDe(sessions: map<Sess, Fiche>, finies: map<Sess, Issue>, s: Sess): Option<Fiche> {
    if s in sessions then Some(sessions[s]) else if s in finies then Some(finies[s].fiche) else None
  }

  /** A resume: session `n` reopened, soon enough, the stream that session `s` had
      left before its end, on the same server. */
  ghost predicate RepriseVraie(s: Sess, n: Sess, sessions: map<Sess, Fiche>, finies: map<Sess, Issue>) {
    && s in finies && finies[s].fin != Complete
    && FicheDe(sessions, finies, n).Some?
    && var f, g := finies[s].fiche, FicheDe(sessions, finies, n).value;
      g.oid == f.oid && g.cle == f.cle && g.ouverteA - finies[s].t < FENETRE_DE_REPRISE && s != n
  }

  ghost predicate ReprisesVraies(sessions: map<Sess, Fiche>, finies: map<Sess, Issue>, reprises: map<Sess, Sess>) {
    && (forall s :: s in reprises ==> RepriseVraie(s, reprises[s], sessions, finies))
    && (forall s, r :: s in reprises && r in reprises && reprises[s] == reprises[r] ==> s == r)
  }

  ghost predicate Croissantes(ms: seq<Minute>) { forall i, j :: 0 <= i < j < |ms| ==> ms[i].minute < ms[j].minute }

  /** The queue is the end of what was closed; the rest was accepted or dropped,
      each minute once. */
  ghost predicate File(minutes: seq<Minute>, closes: seq<Minute>, acceptees: seq<Minute>, perdues: seq<Minute>) {
    && |minutes| <= MINUTES_GARDEES
    && |minutes| <= |closes|
    && minutes == closes[|closes| - |minutes|..]
    && multiset(acceptees) + multiset(perdues) == multiset(closes[..|closes| - |minutes|])
    && forall x: Mesure :: Cumul(acceptees, x) + Cumul(perdues, x) == Cumul(closes[..|closes| - |minutes|], x)
  }

  ghost predicate Inv(e: Etat) {
    && Carte(e.objets, e.serveurs, e.tenus, e.sessions)
    && Double(e.vif, e.objets, e.serveurs)
    && MinutesJustes(e.closes)
    && Octets(e.mouvements, e.closes, e.vif)
    && Ecoutes(e.sessions, e.finies, e.reprises, e.closes, e.vif)
    && Coupures(e.objets, e.finies, e.reprises)
    && ReprisesVraies(e.sessions, e.finies, e.reprises)
    && (Croissantes(e.closes) ==> File(e.minutes, e.closes, e.acceptees, e.perdues))
  }
  // ------------------------------------------------ one object of the map

  ghost predicate Logee(objets: map<Oid, Compteurs>, serveurs: map<Sid, Oid>, o: Oid) {
    o in objets && objets[o].sid in serveurs && serveurs[objets[o].sid] == o
  }

  ghost predicate BienNommes(objets: map<Oid, Compteurs>, serveurs: map<Sid, Oid>) {
    forall s :: s in serveurs ==> serveurs[s] in objets && objets[serveurs[s]].sid == s
  }

  lemma TenuLogee(e: Etat, o: Oid)
    requires Inv(e) && Tenu(e.tenus, e.sessions, o)
    ensures Logee(e.objets, e.serveurs, o)
  {
    hide Tenu, Actif, Double, MinutesJustes, Octets, Ecoutes, Coupures, ReprisesVraies, File, Croissantes;
  }

  lemma Nommes(e: Etat)
    requires Inv(e)
    ensures BienNommes(e.objets, e.serveurs)
  {
    hide Tenu, Actif, Double, MinutesJustes, Octets, Ecoutes, Coupures, ReprisesVraies, File, Croissantes;
  }

  /** A change to one object of the map changes one term of the sum. */
  lemma PartMaj(objets: map<Oid, Compteurs>, serveurs: map<Sid, Oid>, o: Oid, k: Compteurs, x: Mesure)
    requires BienNommes(objets, serveurs) && Logee(objets, serveurs, o) && k.sid == objets[o].sid
    ensures Somme(Part(objets[o := k], serveurs, x))
         == Somme(Part(objets, serveurs, x)) - DuServeur(objets[o], x) + DuServeur(k, x)
  {
    var p := Part(objets, serveurs, x);
    assert Part(objets[o := k], serveurs, x) == p[k.sid := DuServeur(k, x)] by { hide DuServeur; }
    assert k.sid in p && p[k.sid] == DuServeur(objets[o], x);
    hide Part, DuServeur;
    SommeMaj(p, k.sid, DuServeur(k, x));
  }

  /** The two books move together. */
  ghost predicate MemeEcart(vif: Globaux, vif': Globaux, k: Compteurs, k': Compteurs) {
    && k'.sid == k.sid
    && forall x: Mesure :: !x.Terminees? ==> Global(vif', x) - Global(vif, x) == DuServeur(k', x) - DuServeur(k, x)
  }

  lemma DoubleMaj(vif: Globaux, vif': Globaux, objets: map<Oid, Compteurs>, serveurs: map<Sid, Oid>, o: Oid,
                  k: Compteurs)
    requires Double(vif, objets, serveurs) && BienNommes(objets, serveurs) && Logee(objets, serveurs, o)
    requires MemeEcart(vif, vif', objets[o], k)
    ensures Double(vif', objets[o := k], serveurs)
  {
    forall x: Mesure | !x.Terminees? ensures Global(vif', x) == Somme(Part(objets[o := k], serveurs, x)) {
      PartMaj(objets, serveurs, o, k, x);
    }
  }

  lemma CarteMaj(objets: map<Oid, Compteurs>, serveurs: map<Sid, Oid>, tenus: map<Oid, nat>, sessions: map<Sess, Fiche>,
                 o: Oid, k: Compteurs)
    requires Carte(objets, serveurs, tenus, sessions) && Logee(objets, serveurs, o) && k.sid == objets[o].sid
    ensures Carte(objets[o := k], serveurs, tenus, sessions) && Logee(objets[o := k], serveurs, o)
    ensures BienNommes(objets, serveurs)
  {
    hide Tenu, Actif;
  }

  /** Holding less, or holding objects of the map. */
  lemma CarteTenus(objets: map<Oid, Compteurs>, serveurs: map<Sid, Oid>, tenus: map<Oid, nat>,
                   sessions: map<Sess, Fiche>,
                   tenus': map<Oid, nat>, sessions': map<Sess, Fiche>)
    requires Carte(objets, serveurs, tenus, sessions)
    requires forall o :: Tenu(tenus', sessions', o) ==> Tenu(tenus, sessions, o) || Logee(objets, serveurs, o)
    ensures Carte(objets, serveurs, tenus', sessions')
  {
    hide Tenu, Actif;
  }

  lemma CoupuresMaj(objets: map<Oid, Compteurs>, o: Oid, k: Compteurs, finies: map<Sess, Issue>,
                    reprises: map<Sess, Sess>)
    requires Coupures(objets, finies, reprises) && CoupuresVraies(k.coupures, o, finies, reprises)
    ensures Coupures(objets[o := k], finies, reprises)
  {
    hide CoupuresVraies;
  }

  /** One object of the map changes, in step with the global counters. */
  lemma ObjetTient(e: Etat, vif: Globaux, sessions: map<Sess, Fiche>, o: Oid, k: Compteurs)
    requires Carte(e.objets, e.serveurs, e.tenus, sessions) && Double(e.vif, e.objets, e.serveurs)
    requires Coupures(e.objets, e.finies, e.reprises)
    requires Logee(e.objets, e.serveurs, o) && MemeEcart(e.vif, vif, e.objets[o], k)
    requires CoupuresVraies(k.coupures, o, e.finies, e.reprises)
    ensures Carte(e.objets[o := k], e.serveurs, e.tenus, sessions)
    ensures Double(vif, e.objets[o := k], e.serveurs) && Logee(e.objets[o := k], e.serveurs, o)
    ensures Coupures(e.objets[o := k], e.finies, e.reprises)
  {
    assert k.sid == e.objets[o].sid;
    hide Carte, Double, Coupures, MemeEcart, CoupuresVraies, BienNommes, Logee;
    CarteMaj(e.objets, e.serveurs, e.tenus, sessions, o, k);
    DoubleMaj(e.vif, vif, e.objets, e.serveurs, o, k);
    CoupuresMaj(e.objets, o, k, e.finies, e.reprises);
  }

  lemma CoupuresDe(e: Etat, o: Oid)
    requires Inv(e) && o in e.objets
    ensures CoupuresVraies(e.objets[o].coupures, o, e.finies, e.reprises)
  {
    hide Carte, Double, MinutesJustes, Octets, Ecoutes, ReprisesVraies, File, Croissantes, CoupuresVraies;
  }

  lemma QuatrePlus(q: Quatre, c: Categorie, n: nat)
    ensures forall d: Categorie :: q.Plus(c, n).De(d) == q.De(d) + if d == c then n else 0
  {
  }

  // ------------------------------------------------------------- handles

  lemma TenuMoins(tenus: map<Oid, nat>, sessions: map<Sess, Fiche>, o: Oid, n: nat)
    requires o in tenus && n <= tenus[o]
    ensures forall p :: Tenu(tenus[o := n], sessions, p) ==> Tenu(tenus, sessions, p)
  {
  }

  lemma LacherTient(e: Etat, o: Oid)
    requires Inv(e)
    ensures Inv(Lacher(e, o))
    ensures Logee(e.objets, e.serveurs, o) ==> Logee(Lacher(e, o).objets, Lacher(e, o).serveurs, o)
  {
    var f := Lacher(e, o);
    hide Carte, Double, MinutesJustes, Octets, Ecoutes, Coupures, ReprisesVraies, File, Croissantes, Tenu;
    if f != e { TenuMoins(e.tenus, e.sessions, o, e.tenus[o] - 1); }
    CarteTenus(e.objets, e.serveurs, e.tenus, e.sessions, f.tenus, f.sessions);
  }

  lemma PrendreTient(e: Etat, o: Oid)
    requires Inv(e) && Logee(e.objets, e.serveurs, o)
    ensures Inv(Prendre(e, o))
  {
    var f := Prendre(e, o);
    hide Carte, Double, MinutesJustes, Octets, Ecoutes, Coupures, ReprisesVraies, File, Croissantes;
    assert forall p :: Tenu(f.tenus, f.sessions, p) ==> Tenu(e.tenus, e.sessions, p) || p == o;
    CarteTenus(e.objets, e.serveurs, e.tenus, e.sessions, f.tenus, f.sessions);
  }

  lemma TenuNeuf(tenus: map<Oid, nat>, sessions: map<Sess, Fiche>, o: Oid)
    ensures forall p :: p != o ==> (Tenu(tenus[o := 1], sessions, p) <==> Tenu(tenus, sessions, p))
  {
  }

  lemma CarteNeuve(objets: map<Oid, Compteurs>, serveurs: map<Sid, Oid>, tenus: map<Oid, nat>,
                   sessions: map<Sess, Fiche>,
                   sid: Sid, o: Oid, k: Compteurs)
    requires Carte(objets, serveurs, tenus, sessions) && sid !in serveurs && o !in objets && k.sid == sid
    ensures Carte(objets[o := k], serveurs[sid := o], tenus[o := 1], sessions)
  {
    TenuNeuf(tenus, sessions, o);
    hide Tenu, Actif;
    var objets', serveurs' := objets[o := k], serveurs[sid := o];
    forall p | p in objets' && !(objets'[p].sid in serveurs' && serveurs'[objets'[p].sid] == p)
      ensures !Actif(objets'[p]) && !Tenu(tenus[o := 1], sessions, p)
    {
      assert p != o && p in objets;
    }
  }

  lemma DoubleNeuf(e: Etat, sid: Sid, o: Oid)
    requires Double(e.vif, e.objets, e.serveurs) && sid !in e.serveurs && o !in e.objets
    requires BienNommes(e.objets, e.serveurs)
    ensures var f := Creer(e, sid, o); Double(f.vif, f.objets, f.serveurs)
  {
    hide Part, Global;
    var f := Creer(e, sid, o);
    forall x: Mesure | !x.Terminees? ensures Global(f.vif, x) == Somme(Part(f.objets, f.serveurs, x)) {
      PartNeuve(e.objets, e.serveurs, sid, o, x);
      SommeMaj(Part(e.objets, e.serveurs, x), sid, 0);
    }
  }

  lemma PartNeuve(objets: map<Oid, Compteurs>, serveurs: map<Sid, Oid>, sid: Sid, o: Oid, x: Mesure)
    requires BienNommes(objets, serveurs) && sid !in serveurs && o !in objets
    ensures sid !in Part(objets, serveurs, x)
    ensures Part(objets[o := Compteurs(sid, ZERO, ZERO, 0, 0, 0, [])], serveurs[sid := o], x)
         == Part(objets, serveurs, x)[sid := 0]
  {
    var k := Compteurs(sid, ZERO, ZERO, 0, 0, 0, []);
    assert DuServeur(k, x) == 0;
    hide DuServeur;
  }

  lemma CreerTient(e: Etat, sid: Sid, o: Oid)
    requires Inv(e) && sid !in e.serveurs && o !in e.objets
    ensures Inv(Creer(e, sid, o))
  {
    Nommes(e);
    var k := Compteurs(sid, ZERO, ZERO, 0, 0, 0, []);
    assert CoupuresVraies(k.coupures, o, e.finies, e.reprises);
    hide Carte, Double, MinutesJustes, Octets, Ecoutes, Coupures, ReprisesVraies, File, Croissantes, CoupuresVraies,
      Tenu, BienNommes;
    CarteNeuve(e.objets, e.serveurs, e.tenus, e.sessions, sid, o, k);
    DoubleNeuf(e, sid, o);
    CoupuresMaj(e.objets, o, k, e.finies, e.reprises);
  }

  lemma ServeurTient(e: Etat, sid: Sid, neuf: Oid)
    requires Inv(e) && neuf !in e.objets
    ensures Inv(Serveur(e, sid, neuf))
  {
    Nommes(e);
    hide Inv;
    if sid in e.serveurs { PrendreTient(e, e.serveurs[sid]); } else { CreerTient(e, sid, neuf); }
  }

  // --------------------------------------------------------------- bytes

  lemma OctetsPlus(ms: seq<Mouvement>, m: Mouvement, closes: seq<Minute>, vif: Globaux, vif': Globaux)
    requires Octets(ms, closes, vif)
    requires forall c: Categorie ::
      && Global(vif', Entrees(c)) == Global(vif, Entrees(c)) + (if m.entrant && m.c == c then m.n else 0)
      && Global(vif', Sorties(c)) == Global(vif, Sorties(c)) + (if !m.entrant && m.c == c then m.n else 0)
    ensures Octets(ms + [m], closes, vif')
  {
    assert (ms + [m])[..|ms|] == ms;
    hide Cumul, Global;
  }

  lemma EntrerEcart(e: Etat, o: Oid, c: Categorie, n: nat)
    requires o in e.objets
    ensures var f := Entrer(e, o, c, n);
      && MemeEcart(e.vif, f.vif, e.objets[o], f.objets[o])
      && (Octets(e.mouvements, e.closes, e.vif) ==> Octets(f.mouvements, f.closes, f.vif))
  {
    var f := Entrer(e, o, c, n);
    QuatrePlus(e.vif.entree, c, n);
    QuatrePlus(e.objets[o].entree, c, n);
    if Octets(e.mouvements, e.closes, e.vif) {
      OctetsPlus(e.mouvements, Mouvement(true, c, o, n), e.closes, e.vif, f.vif);
    }
    hide Octets;
  }

  lemma EntrerTient(e: Etat, o: Oid, c: Categorie, n: nat)
    requires Inv(e) && Logee(e.objets, e.serveurs, o)
    ensures Inv(Entrer(e, o, c, n))
  {
    var f := Entrer(e, o, c, n);
    CoupuresDe(e, o);
    EntrerEcart(e, o, c, n);
    hide Carte, Double, MinutesJustes, Octets, Ecoutes, Coupures, ReprisesVraies, File, Croissantes, CoupuresVraies,
      MemeEcart, Logee;
    ObjetTient(e, f.vif, e.sessions, o, f.objets[o]);
    EcoutesMeme(e, f);
  }

  lemma SortirEcart(e: Etat, o: Oid, c: Categorie, n: nat)
    requires o in e.objets
    ensures var f := Sortir(e, o, c, n);
      && MemeEcart(e.vif, f.vif, e.objets[o], f.objets[o])
      && (Octets(e.mouvements, e.closes, e.vif) ==> Octets(f.mouvements, f.closes, f.vif))
  {
    var f := Sortir(e, o, c, n);
    QuatrePlus(e.vif.sortie, c, n);
    QuatrePlus(e.objets[o].sortie, c, n);
    if Octets(e.mouvements, e.closes, e.vif) {
      OctetsPlus(e.mouvements, Mouvement(false, c, o, n), e.closes, e.vif, f.vif);
    }
    hide Octets;
  }

  lemma SortirTient(e: Etat, o: Oid, c: Categorie, n: nat)
    requires Inv(e) && Logee(e.objets, e.serveurs, o)
    ensures Inv(Sortir(e, o, c, n))
  {
    var f := Sortir(e, o, c, n);
    CoupuresDe(e, o);
    SortirEcart(e, o, c, n);
    hide Carte, Double, MinutesJustes, Octets, Ecoutes, Coupures, ReprisesVraies, File, Croissantes, CoupuresVraies,
      MemeEcart, Logee;
    ObjetTient(e, f.vif, e.sessions, o, f.objets[o]);
    EcoutesMeme(e, f);
  }

  lemma EcoutesMeme(e: Etat, f: Etat)
    requires Ecoutes(e.sessions, e.finies, e.reprises, e.closes, e.vif)
    requires f.sessions.Keys == e.sessions.Keys && f.finies == e.finies && f.reprises == e.reprises
    requires f.closes == e.closes
    requires f.vif.(entree := e.vif.entree, sortie := e.vif.sortie) == e.vif
    ensures Ecoutes(f.sessions, f.finies, f.reprises, f.closes, f.vif)
  {
    assert |f.sessions| == |f.sessions.Keys| && |e.sessions| == |e.sessions.Keys|;
    hide Cumul, Issues;
  }

  // ------------------------------------------------------------- sessions

  lemma TenuSession(tenus: map<Oid, nat>, sessions: map<Sess, Fiche>, s: Sess, f: Fiche)
    ensures forall p :: Tenu(tenus, sessions[s := f], p) ==> Tenu(tenus, sessions, p) || p == f.oid
    ensures forall p :: Tenu(tenus, sessions - {s}, p) ==> Tenu(tenus, sessions, p)
    ensures s in sessions ==> Tenu(tenus, sessions, sessions[s].oid)
  {
    forall p | Tenu(tenus, sessions[s := f], p) && !(p in tenus && tenus[p] > 0) && p != f.oid
      ensures Tenu(tenus, sessions, p)
    {
      var r :| r in sessions[s := f] && sessions[s := f][r].oid == p;
      assert r in sessions && sessions[r].oid == p;
    }
    forall p | Tenu(tenus, sessions - {s}, p) && !(p in tenus && tenus[p] > 0)
      ensures Tenu(tenus, sessions, p)
    {
      var r :| r in sessions - {s} && (sessions - {s})[r].oid == p;
      assert r in sessions && sessions[r].oid == p;
    }
  }

  lemma EcoutesOuvrir(sessions: map<Sess, Fiche>, finies: map<Sess, Issue>, reprises: map<Sess, Sess>,
                      closes: seq<Minute>, vif: Globaux, s: Sess, f: Fiche)
    requires Ecoutes(sessions, finies, reprises, closes, vif) && s !in sessions && s !in finies
    ensures Ecoutes(sessions[s := f], finies, reprises, closes, vif.(ouvertes := vif.ouvertes + 1))
  {
    ClesMaj(sessions, s, f);
    assert |sessions[s := f]| == |sessions| + 1;
    hide Cumul, Issues;
  }

  lemma ReprisesOuvrir(sessions: map<Sess, Fiche>, finies: map<Sess, Issue>, reprises: map<Sess, Sess>, s: Sess,
                       f: Fiche)
    requires ReprisesVraies(sessions, finies, reprises) && s !in sessions && s !in finies
    ensures ReprisesVraies(sessions[s := f], finies, reprises)
    ensures forall r :: r in reprises ==> reprises[r] != s
  {
  }

  lemma OuvrirEcart(e: Etat, s: Sess, f: Fiche)
    requires f.oid in e.objets
    ensures MemeEcart(e.vif, OuvrirNeuve(e, s, f).vif, e.objets[f.oid], OuvrirNeuve(e, s, f).objets[f.oid])
  {
  }

  lemma CarteSession(e: Etat, s: Sess, f: Fiche)
    requires Carte(e.objets, e.serveurs, e.tenus, e.sessions) && Logee(e.objets, e.serveurs, f.oid)
    ensures Carte(e.objets, e.serveurs, e.tenus, e.sessions[s := f])
  {
    TenuSession(e.tenus, e.sessions, s, f);
    hide Tenu, Carte;
    CarteTenus(e.objets, e.serveurs, e.tenus, e.sessions, e.tenus, e.sessions[s := f]);
  }

  lemma OuvrirLivres(e: Etat, s: Sess, f: Fiche)
    requires Inv(e) && Logee(e.objets, e.serveurs, f.oid)
    ensures var g := OuvrirNeuve(e, s, f);
      && Carte(g.objets, g.serveurs, g.tenus, g.sessions) && Double(g.vif, g.objets, g.serveurs)
      && Coupures(g.objets, g.finies, g.reprises) && Logee(g.objets, g.serveurs, f.oid)
  {
    hide Carte, Double, MinutesJustes, Octets, Ecoutes, Coupures, ReprisesVraies, File, Croissantes, CoupuresVraies,
      MemeEcart, Tenu;
    CoupuresDe(e, f.oid);
    OuvrirEcart(e, s, f);
    CarteSession(e, s, f);
    hide Logee;
    var g := OuvrirNeuve(e, s, f);
    ObjetTient(e, g.vif, g.sessions, f.oid, g.objets[f.oid]);
  }

  lemma OuvrirReste(e: Etat, s: Sess, f: Fiche)
    requires f.oid in e.objets && s !in e.sessions && s !in e.finies
    requires Octets(e.mouvements, e.closes, e.vif) && Ecoutes(e.sessions, e.finies, e.reprises, e.closes, e.vif)
    requires ReprisesVraies(e.sessions, e.finies, e.reprises)
    ensures var g := OuvrirNeuve(e, s, f);
      && Octets(g.mouvements, g.closes, g.vif) && Ecoutes(g.sessions, g.finies, g.reprises, g.closes, g.vif)
      && ReprisesVraies(g.sessions, g.finies, g.reprises)
    ensures forall r :: r in e.reprises ==> e.reprises[r] != s
  {
    hide Octets, Ecoutes, ReprisesVraies;
    OctetsMeme(e, OuvrirNeuve(e, s, f));
    EcoutesOuvrir(e.sessions, e.finies, e.reprises, e.closes, e.vif, s, f);
    ReprisesOuvrir(e.sessions, e.finies, e.reprises, s, f);
  }

  lemma OuvrirNeuveTient(e: Etat, s: Sess, f: Fiche)
    requires Inv(e) && Logee(e.objets, e.serveurs, f.oid) && s !in e.sessions && s !in e.finies
    ensures Inv(OuvrirNeuve(e, s, f)) && Logee(OuvrirNeuve(e, s, f).objets, e.serveurs, f.oid)
    ensures forall r :: r in e.reprises ==> e.reprises[r] != s
  {
    hide Carte, Double, MinutesJustes, Octets, Ecoutes, Coupures, ReprisesVraies, File, Croissantes;
    OuvrirLivres(e, s, f);
    OuvrirReste(e, s, f);
  }

  lemma OctetsMeme(e: Etat, f: Etat)
    requires Octets(e.mouvements, e.closes, e.vif)
    requires f.mouvements == e.mouvements && f.closes == e.closes
    requires f.vif.entree == e.vif.entree && f.vif.sortie == e.vif.sortie
    ensures Octets(f.mouvements, f.closes, f.vif)
  {
    hide Cumul, Passes;
  }

  // ----------------------------------------------------------------- cuts

  lemma {:induction false} RecentesVraies(cs: seq<Coupure>, heure: int, o: Oid, finies: map<Sess, Issue>,
                                          reprises: map<Sess, Sess>)
    requires CoupuresVraies(cs, o, finies, reprises)
    ensures CoupuresVraies(Recentes(cs, heure), o, finies, reprises)
  {
    if cs != [] {
      var p, c := cs[..|cs| - 1], cs[|cs| - 1];
      hide CoupureVraie, CoupuresVraies, Distinctes;
      DebutVrai(cs, o, finies, reprises);
      RecentesVraies(p, heure, o, finies, reprises);
      UneDePlus(cs, Recentes(p, heure), o, finies, reprises);
    }
  }

  lemma DebutVrai(cs: seq<Coupure>, o: Oid, finies: map<Sess, Issue>, reprises: map<Sess, Sess>)
    requires CoupuresVraies(cs, o, finies, reprises) && cs != []
    ensures CoupuresVraies(cs[..|cs| - 1], o, finies, reprises)
  {
    hide CoupureVraie;
  }

  /** The last cut after some of those before it. */
  lemma UneDePlus(cs: seq<Coupure>, r: seq<Coupure>, o: Oid, finies: map<Sess, Issue>, reprises: map<Sess, Sess>)
    requires CoupuresVraies(cs, o, finies, reprises) && CoupuresVraies(r, o, finies, reprises)
    requires |r| < |cs| && forall x :: x in r ==> x in cs[..|cs| - 1]
    ensures CoupuresVraies(r + [cs[|cs| - 1]], o, finies, reprises)
  {
    hide CoupureVraie;
    var n := |cs| - 1;
    forall k | 0 <= k < |r| ensures r[k].session != cs[n].session {
      assert r[k] in r && r[k] in cs[..n];
      var i :| 0 <= i < n && cs[i] == r[k];
    }
  }

  lemma SansUne(cs: seq<Coupure>, i: nat, o: Oid, finies: map<Sess, Issue>, reprises: map<Sess, Sess>, n: Sess)
    requires CoupuresVraies(cs, o, finies, reprises) && i < |cs|
    ensures CoupuresVraies(cs[..i] + cs[i + 1..], o, finies, reprises[cs[i].session := n])
  {
    var r := cs[..i] + cs[i + 1..];
    forall k | 0 <= k < |r|
      ensures r[k] == cs[if k < i then k else k + 1] && r[k].session != cs[i].session
    {
    }
  }

  /** A cut taken from one server is in no other's list. */
  lemma CoupuresReprendre(objets: map<Oid, Compteurs>, finies: map<Sess, Issue>, reprises: map<Sess, Sess>,
                          o: Oid, k: Compteurs, c: Coupure, n: Sess)
    requires Coupures(objets, finies, reprises) && CoupureVraie(c, o, finies, reprises)
    requires CoupuresVraies(k.coupures, o, finies, reprises[c.session := n])
    ensures Coupures(objets[o := k], finies, reprises[c.session := n])
  {
    forall p | p in objets && p != o ensures CoupuresVraies(objets[p].coupures, p, finies, reprises[c.session := n]) {
      assert CoupuresVraies(objets[p].coupures, p, finies, reprises);
    }
    hide CoupuresVraies, CoupureVraie;
  }

  lemma ReprisesPlus(sessions: map<Sess, Fiche>, finies: map<Sess, Issue>, reprises: map<Sess, Sess>, s: Sess, n: Sess)
    requires ReprisesVraies(sessions, finies, reprises) && RepriseVraie(s, n, sessions, finies)
    requires forall r :: r in reprises ==> reprises[r] != n
    ensures ReprisesVraies(sessions, finies, reprises[s := n])
  {
    hide RepriseVraie;
  }

  lemma EcoutesReprendre(sessions: map<Sess, Fiche>, finies: map<Sess, Issue>, reprises: map<Sess, Sess>,
                         closes: seq<Minute>, vif: Globaux, s: Sess, n: Sess)
    requires Ecoutes(sessions, finies, reprises, closes, vif) && s !in reprises
    ensures Ecoutes(sessions, finies, reprises[s := n], closes, vif.(reprises := vif.reprises + 1))
  {
    ClesMaj(reprises, s, n);
    assert |reprises[s := n]| == |reprises| + 1;
    hide Cumul, Issues;
  }

  lemma ReprendreEcart(e: Etat, s: Sess, o: Oid, cle: Cle)
    requires o in e.objets
    ensures MemeEcart(e.vif, Reprendre(e, s, o, cle).vif, e.objets[o], Reprendre(e, s, o, cle).objets[o])
  {
    hide Recentes, Place, MemeEcart;
    var k := e.objets[o];
    var cs := Recentes(k.coupures, e.heure);
    var i := Place(cs, cle);
    EcartReprise(e.vif, k, if i == |cs| then cs else cs[..i] + cs[i + 1..]);
  }

  lemma EcartReprise(v: Globaux, k: Compteurs, cs: seq<Coupure>)
    ensures MemeEcart(v, v, k, k.(coupures := cs))
    ensures MemeEcart(v, v.(reprises := v.reprises + 1), k, k.(coupures := cs, reprises := k.reprises + 1))
  {
  }

  lemma CoupureRecente(cs: seq<Coupure>, heure: int, cle: Cle)
    ensures var r := Recentes(cs, heure);
      var i := Place(r, cle);
      i < |r| ==> r[i].cle == cle && heure - r[i].t < FENETRE_DE_REPRISE
  {
    var r := Recentes(cs, heure);
    var i := Place(r, cle);
    if i < |r| { assert r[i] in r; }
  }

  /** What the search for a cut gives, when there is one. */
  lemma CoupureTrouvee(e: Etat, s: Sess, o: Oid, cle: Cle)
    requires Inv(e) && o in e.objets
    requires s in e.sessions && e.sessions[s].oid == o && e.sessions[s].cle == cle && e.sessions[s].ouverteA == e.heure
    requires s !in e.finies
    ensures var cs := Recentes(e.objets[o].coupures, e.heure);
      var i := Place(cs, cle);
      && CoupuresVraies(cs, o, e.finies, e.reprises)
      && (i < |cs| ==>
            && CoupureVraie(cs[i], o, e.finies, e.reprises)
            && RepriseVraie(cs[i].session, s, e.sessions, e.finies)
            && CoupuresVraies(cs[..i] + cs[i + 1..], o, e.finies, e.reprises[cs[i].session := s]))
  {
    hide Inv, Recentes, Place, CoupuresVraies, CoupureVraie, RepriseVraie;
    CoupuresDe(e, o);
    RecentesVraies(e.objets[o].coupures, e.heure, o, e.finies, e.reprises);
    CoupureRecente(e.objets[o].coupures, e.heure, cle);
    var cs := Recentes(e.objets[o].coupures, e.heure);
    var i := Place(cs, cle);
    if i < |cs| {
      VraieDe(cs, i, o, e.finies, e.reprises);
      RepriseDe(cs[i], s, e);
      SansUne(cs, i, o, e.finies, e.reprises, s);
    }
  }

  lemma VraieDe(cs: seq<Coupure>, i: nat, o: Oid, finies: map<Sess, Issue>, reprises: map<Sess, Sess>)
    requires CoupuresVraies(cs, o, finies, reprises) && i < |cs|
    ensures CoupureVraie(cs[i], o, finies, reprises)
  {
  }

  lemma RepriseDe(c: Coupure, s: Sess, e: Etat)
    requires s in e.sessions && e.sessions[s].cle == c.cle && e.sessions[s].ouverteA == e.heure && s !in e.finies
    requires CoupureVraie(c, e.sessions[s].oid, e.finies, e.reprises) && e.heure - c.t < FENETRE_DE_REPRISE
    ensures RepriseVraie(c.session, s, e.sessions, e.finies)
  {
  }

  lemma SansReprise(e: Etat, f: Etat, o: Oid)
    requires Inv(e) && Logee(e.objets, e.serveurs, o) && o in f.objets && f == e.(objets := e.objets[o := f.objets[o]])
    requires MemeEcart(e.vif, e.vif, e.objets[o], f.objets[o])
    requires CoupuresVraies(f.objets[o].coupures, o, e.finies, e.reprises)
    ensures Inv(f)
  {
    hide Carte, Double, MinutesJustes, Octets, Ecoutes, Coupures, ReprisesVraies, File, Croissantes, CoupuresVraies,
      MemeEcart, Logee;
    ObjetTient(e, e.vif, e.sessions, o, f.objets[o]);
  }

  /** The state once cut `c` has been resumed by session `s`. */
  ghost function Reprise(e: Etat, o: Oid, k: Compteurs, c: Coupure, s: Sess): Etat {
    e.(vif := e.vif.(reprises := e.vif.reprises + 1), objets := e.objets[o := k],
       reprises := e.reprises[c.session := s])
  }

  lemma RepriseLivres(e: Etat, o: Oid, k: Compteurs, c: Coupure, s: Sess)
    requires Inv(e) && Logee(e.objets, e.serveurs, o)
    requires MemeEcart(e.vif, Reprise(e, o, k, c, s).vif, e.objets[o], k)
    requires CoupureVraie(c, o, e.finies, e.reprises)
    requires CoupuresVraies(k.coupures, o, e.finies, e.reprises[c.session := s])
    ensures var f := Reprise(e, o, k, c, s);
      && Carte(f.objets, f.serveurs, f.tenus, f.sessions) && Double(f.vif, f.objets, f.serveurs)
      && Coupures(f.objets, f.finies, f.reprises)
  {
    assert k.sid == e.objets[o].sid;
    hide Carte, Double, MinutesJustes, Octets, Ecoutes, Coupures, ReprisesVraies, File, Croissantes, CoupuresVraies,
      CoupureVraie, MemeEcart, Logee, BienNommes;
    CarteMaj(e.objets, e.serveurs, e.tenus, e.sessions, o, k);
    DoubleMaj(e.vif, Reprise(e, o, k, c, s).vif, e.objets, e.serveurs, o, k);
    CoupuresReprendre(e.objets, e.finies, e.reprises, o, k, c, s);
  }

  lemma RepriseReste(e: Etat, o: Oid, k: Compteurs, c: Coupure, s: Sess)
    requires Octets(e.mouvements, e.closes, e.vif) && Ecoutes(e.sessions, e.finies, e.reprises, e.closes, e.vif)
    requires ReprisesVraies(e.sessions, e.finies, e.reprises) && c.session !in e.reprises
    requires RepriseVraie(c.session, s, e.sessions, e.finies) && forall r :: r in e.reprises ==> e.reprises[r] != s
    ensures var f := Reprise(e, o, k, c, s);
      && Octets(f.mouvements, f.closes, f.vif) && Ecoutes(f.sessions, f.finies, f.reprises, f.closes, f.vif)
      && ReprisesVraies(f.sessions, f.finies, f.reprises)
  {
    hide Octets, Ecoutes, ReprisesVraies, RepriseVraie;
    OctetsMeme(e, Reprise(e, o, k, c, s));
    EcoutesReprendre(e.sessions, e.finies, e.reprises, e.closes, e.vif, c.session, s);
    ReprisesPlus(e.sessions, e.finies, e.reprises, c.session, s);
  }

  lemma AvecReprise(e: Etat, o: Oid, k: Compteurs, c: Coupure, s: Sess)
    requires Inv(e) && Logee(e.objets, e.serveurs, o)
    requires MemeEcart(e.vif, Reprise(e, o, k, c, s).vif, e.objets[o], k)
    requires CoupureVraie(c, o, e.finies, e.reprises) && c.session !in e.reprises
    requires RepriseVraie(c.session, s, e.sessions, e.finies) && forall r :: r in e.reprises ==> e.reprises[r] != s
    requires CoupuresVraies(k.coupures, o, e.finies, e.reprises[c.session := s])
    ensures Inv(Reprise(e, o, k, c, s))
  {
    hide Carte, Double, MinutesJustes, Octets, Ecoutes, Coupures, ReprisesVraies, File, Croissantes, CoupuresVraies,
      CoupureVraie, RepriseVraie, MemeEcart, Logee;
    RepriseLivres(e, o, k, c, s);
    RepriseReste(e, o, k, c, s);
  }

  lemma ReprendreForme(e: Etat, s: Sess, o: Oid, cle: Cle)
    requires o in e.objets
    ensures var cs := Recentes(e.objets[o].coupures, e.heure);
      var i := Place(cs, cle);
      var f := Reprendre(e, s, o, cle);
      && o in f.objets
      && if i == |cs| then f == e.(objets := e.objets[o := f.objets[o]]) && f.objets[o].coupures == cs
         else f == Reprise(e, o, f.objets[o], cs[i], s) && f.objets[o].coupures == cs[..i] + cs[i + 1..]
  {
    hide Recentes, Place;
  }

  lemma ReprendreTient(e: Etat, s: Sess, o: Oid, cle: Cle)
    requires Inv(e) && Logee(e.objets, e.serveurs, o)
    requires s in e.sessions && e.sessions[s].oid == o && e.sessions[s].cle == cle && e.sessions[s].ouverteA == e.heure
    requires s !in e.finies && forall r :: r in e.reprises ==> e.reprises[r] != s
    ensures Inv(Reprendre(e, s, o, cle))
  {
    assert o in e.objets;
    hide Inv, Recentes, Place, MemeEcart, CoupureVraie, RepriseVraie, CoupuresVraies, Reprendre, Logee;
    ReprendreForme(e, s, o, cle);
    ReprendreEcart(e, s, o, cle);
    CoupureTrouvee(e, s, o, cle);
    var f := Reprendre(e, s, o, cle);
    var cs := Recentes(e.objets[o].coupures, e.heure);
    var i := Place(cs, cle);
    if i == |cs| {
      SansReprise(e, f, o);
    } else {
      assert cs[i].session !in e.reprises by { NonReprise(cs[i], o, e.finies, e.reprises); }
      AvecReprise(e, o, f.objets[o], cs[i], s);
    }
  }

  lemma NonReprise(c: Coupure, o: Oid, finies: map<Sess, Issue>, reprises: map<Sess, Sess>)
    requires CoupureVraie(c, o, finies, reprises)
    ensures c.session !in reprises
  {
  }

  lemma OuvrirSessionTient(e: Etat, s: Sess, o: Oid, c: Categorie, cle: Cle, horsDebut: bool)
    requires Inv(e) && Logee(e.objets, e.serveurs, o) && s !in e.sessions && s !in e.finies
    ensures Inv(OuvrirSession(e, s, o, c, cle, horsDebut))
  {
    assert o in e.objets;
    hide Inv, Logee, Reprendre;
    var f := Fiche(o, c, cle, e.heure, false, false);
    var e0 := Lacher(e, o);
    LacherTient(e, o);
    assert e0 == e.(tenus := e0.tenus);
    hide Lacher;
    OuvrirNeuveTient(e0, s, f);
    if horsDebut { ReprendreTient(OuvrirNeuve(e0, s, f), s, o, cle); }
  }

  // ------------------------------------------------------------ the ends

  lemma IssuesPlus(finies: map<Sess, Issue>, s: Sess, i: Issue, fin: Fin)
    requires s !in finies
    ensures |Issues(finies[s := i], fin)| == |Issues(finies, fin)| + if fin == i.fin then 1 else 0
  {
    assert Issues(finies[s := i], fin) == Issues(finies, fin) + if fin == i.fin then {s} else {};
  }

  lemma SansSession(sessions: map<Sess, Fiche>, finies: map<Sess, Issue>, s: Sess, i: Issue)
    requires s in sessions && s !in finies && sessions.Keys !! finies.Keys
    ensures |sessions - {s}| + |finies[s := i]| == |sessions| + |finies|
    ensures (sessions - {s}).Keys !! finies[s := i].Keys
  {
    ClesMaj(finies, s, i);
    assert (sessions - {s}).Keys == sessions.Keys - {s};
    assert |finies[s := i].Keys| == |finies.Keys| + 1;
  }

  lemma CompterFin(v: Globaux, fin: Fin)
    ensures forall x: Mesure :: Global(Compter(v, fin), x) == Global(v, x) + if x == Terminees(fin) then 1 else 0
  {
  }

  lemma EcoutesFinir(sessions: map<Sess, Fiche>, finies: map<Sess, Issue>, reprises: map<Sess, Sess>,
                     closes: seq<Minute>, vif: Globaux, s: Sess, i: Issue)
    requires Ecoutes(sessions, finies, reprises, closes, vif) && s in sessions
    ensures Ecoutes(sessions - {s}, finies[s := i], reprises, closes, Compter(vif, i.fin))
  {
    SansSession(sessions, finies, s, i);
    CompterFin(vif, i.fin);
    forall fin: Fin
      ensures |Issues(finies[s := i], fin)| ==
                Cumul(closes, Terminees(fin)) + Global(Compter(vif, i.fin), Terminees(fin))
    {
      IssuesPlus(finies, s, i, fin);
      hide Cumul, Issues, Global, Compter;
    }
    hide Cumul, Issues, Global, Compter;
  }

  lemma ReprisesFinir(sessions: map<Sess, Fiche>, finies: map<Sess, Issue>, reprises: map<Sess, Sess>, s: Sess,
                      i: Issue)
    requires ReprisesVraies(sessions, finies, reprises) && s in sessions && s !in finies && i.fiche == sessions[s]
    ensures ReprisesVraies(sessions - {s}, finies[s := i], reprises)
  {
    forall n ensures FicheDe(sessions - {s}, finies[s := i], n) == FicheDe(sessions, finies, n) {
    }
    hide FicheDe;
  }

  lemma FinPlus(c: Coupure, o: Oid, finies: map<Sess, Issue>, reprises: map<Sess, Sess>, s: Sess, i: Issue)
    requires CoupureVraie(c, o, finies, reprises) && s !in finies
    ensures CoupureVraie(c, o, finies[s := i], reprises) && c.session != s
  {
  }

  lemma CoupuresFin(cs: seq<Coupure>, o: Oid, finies: map<Sess, Issue>, reprises: map<Sess, Sess>, s: Sess, i: Issue)
    requires CoupuresVraies(cs, o, finies, reprises) && s !in finies
    ensures CoupuresVraies(cs, o, finies[s := i], reprises)
    ensures forall k :: 0 <= k < |cs| ==> cs[k].session != s
  {
    forall k | 0 <= k < |cs| ensures CoupureVraie(cs[k], o, finies[s := i], reprises) && cs[k].session != s {
      FinPlus(cs[k], o, finies, reprises, s, i);
    }
    hide CoupureVraie;
  }

  lemma NoterVraie(cs: seq<Coupure>, o: Oid, finies: map<Sess, Issue>, reprises: map<Sess, Sess>, c: Coupure)
    requires CoupuresVraies(cs, o, finies, reprises) && CoupureVraie(c, o, finies, reprises)
    requires forall k :: 0 <= k < |cs| ==> cs[k].session != c.session
    ensures CoupuresVraies(Noter(cs, c), o, finies, reprises)
  {
    hide CoupureVraie;
  }

  lemma CoupuresFinir(objets: map<Oid, Compteurs>, finies: map<Sess, Issue>, reprises: map<Sess, Sess>,
                      o: Oid, k: Compteurs, s: Sess, i: Issue)
    requires Coupures(objets, finies, reprises) && s !in finies
    requires CoupuresVraies(k.coupures, o, finies[s := i], reprises)
    ensures Coupures(objets[o := k], finies[s := i], reprises)
  {
    forall p | p in objets ensures CoupuresVraies(objets[p].coupures, p, finies[s := i], reprises) {
      CoupuresFin(objets[p].coupures, p, finies, reprises, s, i);
    }
    hide CoupuresVraies;
  }

  lemma TomberCoupures(e: Etat, s: Sess)
    requires Inv(e) && s in e.sessions && e.sessions[s].oid in e.objets && s !in e.finies
    requires s !in e.reprises
    ensures var f := Tomber(e, s); Coupures(f.objets, f.finies, f.reprises)
  {
    var o := e.sessions[s].oid;
    var f, i := Tomber(e, s), Issue(e.sessions[s], e.heure, FinDe(e.sessions[s]));
    CoupuresDe(e, o);
    var cs := e.objets[o].coupures;
    assert Coupures(e.objets, e.finies, e.reprises);
    hide Inv;
    CoupuresFin(cs, o, e.finies, e.reprises, s, i);
    if i.fin != Complete {
      var c := Coupure(i.fiche.cle, e.heure, s);
      assert CoupureVraie(c, o, f.finies, f.reprises);
      NoterVraie(cs, o, f.finies, f.reprises, c);
    }
    hide CoupuresVraies, Coupures;
    CoupuresFinir(e.objets, e.finies, e.reprises, o, f.objets[o], s, i);
  }

  lemma TomberLivres(e: Etat, s: Sess)
    requires Inv(e) && s in e.sessions
    ensures e.sessions[s].oid in e.objets
    ensures var f := Tomber(e, s);
      Carte(f.objets, f.serveurs, f.tenus, f.sessions) && Double(f.vif, f.objets, f.serveurs)
  {
    TenuSession(e.tenus, e.sessions, s, e.sessions[s]);
    var o := e.sessions[s].oid;
    TenuLogee(e, o);
    var f := Tomber(e, s);
    TomberEcart(e, s);
    hide Carte, Double, MinutesJustes, Octets, Ecoutes, Coupures, ReprisesVraies, File, Croissantes, MemeEcart, Tenu,
      Tomber;
    CarteTenus(e.objets, e.serveurs, e.tenus, e.sessions, f.tenus, f.sessions);
    CarteMaj(e.objets, e.serveurs, e.tenus, f.sessions, o, f.objets[o]);
    DoubleMaj(e.vif, f.vif, e.objets, e.serveurs, o, f.objets[o]);
  }

  lemma TomberEcart(e: Etat, s: Sess)
    requires s in e.sessions && e.sessions[s].oid in e.objets
    ensures var f, o := Tomber(e, s), e.sessions[s].oid;
      && f.serveurs == e.serveurs && f.tenus == e.tenus && f.sessions == e.sessions - {s}
      && o in f.objets && f.objets == e.objets[o := f.objets[o]] && f.objets[o].sid == e.objets[o].sid
      && MemeEcart(e.vif, f.vif, e.objets[o], f.objets[o])
  {
    hide Noter;
  }

  lemma TomberReste(e: Etat, s: Sess)
    requires Inv(e) && s in e.sessions && e.sessions[s].oid in e.objets
    ensures s !in e.finies && s !in e.reprises
    ensures var f := Tomber(e, s);
      && Octets(f.mouvements, f.closes, f.vif) && Ecoutes(f.sessions, f.finies, f.reprises, f.closes, f.vif)
      && ReprisesVraies(f.sessions, f.finies, f.reprises)
  {
    SessionVive(e, s);
    hide Carte, Double, MinutesJustes, Octets, Ecoutes, Coupures, ReprisesVraies, File, Croissantes;
    var f := Tomber(e, s);
    OctetsMeme(e, f);
    EcoutesFinir(e.sessions, e.finies, e.reprises, e.closes, e.vif, s, f.finies[s]);
    ReprisesFinir(e.sessions, e.finies, e.reprises, s, f.finies[s]);
  }

  lemma SessionVive(e: Etat, s: Sess)
    requires Inv(e) && s in e.sessions
    ensures s !in e.finies && s !in e.reprises
  {
    assert s !in e.finies by { hide Carte, Double, MinutesJustes, Octets, Coupures, ReprisesVraies, File, Croissantes; }
    hide Carte, Double, MinutesJustes, Octets, Coupures, File, Croissantes, Ecoutes;
  }

  lemma TomberTient(e: Etat, s: Sess)
    requires Inv(e) && s in e.sessions && e.sessions[s].oid in e.objets
    ensures Inv(Tomber(e, s))
  {
    TomberReste(e, s);
    TomberLivres(e, s);
    TomberCoupures(e, s);
    hide Carte, Double, MinutesJustes, Octets, Ecoutes, Coupures, ReprisesVraies, File, Croissantes;
  }

  /** A flag of an open session says nothing the ledger depends on. */
  lemma DrapeauTient(e: Etat, s: Sess, f: Fiche)
    requires Inv(e) && s in e.sessions && f.oid == e.sessions[s].oid && f.cle == e.sessions[s].cle
    requires f.ouverteA == e.sessions[s].ouverteA
    ensures Inv(e.(sessions := e.sessions[s := f]))
  {
    var g := e.(sessions := e.sessions[s := f]);
    TenuSession(e.tenus, e.sessions, s, f);
    TenuLogee(e, f.oid);
    ReprisesDrapeau(e.sessions, e.finies, e.reprises, s, f) by {
      hide Carte, Double, MinutesJustes, Octets, Ecoutes, Coupures, ReprisesVraies, File, Croissantes;
    }
    hide Carte, Double, MinutesJustes, Octets, Ecoutes, Coupures, ReprisesVraies, File, Croissantes, Tenu, Logee;
    CarteSession(e, s, f);
    ClesMaj(e.sessions, s, f);
    assert g.sessions.Keys == e.sessions.Keys;
    EcoutesMeme(e, g);
  }

  lemma ReprisesDrapeau(sessions: map<Sess, Fiche>, finies: map<Sess, Issue>, reprises: map<Sess, Sess>, s: Sess,
                        f: Fiche)
    requires ReprisesVraies(sessions, finies, reprises) && s in sessions
    requires f.oid == sessions[s].oid && f.cle == sessions[s].cle && f.ouverteA == sessions[s].ouverteA
    ensures ReprisesVraies(sessions[s := f], finies, reprises)
  {
  }

  // --------------------------------------------------------- the roll-over

  /** A column over every server, idle ones included. */
  ghost function Pleine(objets: map<Oid, Compteurs>, serveurs: map<Sid, Oid>, col: Colonne): map<Sid, nat> {
    map s | s in serveurs && serveurs[s] in objets :: DansLigne(LigneDe(objets[serveurs[s]]), col)
  }

  lemma RelevesPleines(objets: map<Oid, Compteurs>, serveurs: map<Sid, Oid>, col: Colonne)
    ensures Somme(Releves(Lignes(objets, serveurs), col)) == Somme(Pleine(objets, serveurs, col))
  {
    SommeRestreinte(Pleine(objets, serveurs, col), Releves(Lignes(objets, serveurs), col));
  }

  /** Half of a column: two categories. */
  ghost function DemiEntree(objets: map<Oid, Compteurs>, serveurs: map<Sid, Oid>, c: Categorie, d: Categorie)
    : map<Sid, nat>
  {
    map s | s in serveurs && serveurs[s] in objets ::
      DuServeur(objets[serveurs[s]], Entrees(c)) + DuServeur(objets[serveurs[s]], Entrees(d))
  }

  lemma PleineEntree(objets: map<Oid, Compteurs>, serveurs: map<Sid, Oid>)
    ensures Somme(Pleine(objets, serveurs, BytesIn)) ==
              Somme(Part(objets, serveurs, Entrees(Audio))) + Somme(Part(objets, serveurs, Entrees(Cercle)))
              + Somme(Part(objets, serveurs, Entrees(Api))) + Somme(Part(objets, serveurs, Entrees(Images)))
  {
    hide Somme;
    SommePlus(Part(objets, serveurs, Entrees(Audio)), Part(objets, serveurs, Entrees(Cercle)),
              DemiEntree(objets, serveurs, Audio, Cercle));
    SommePlus(Part(objets, serveurs, Entrees(Api)), Part(objets, serveurs, Entrees(Images)),
              DemiEntree(objets, serveurs, Api, Images));
    SommePlus(DemiEntree(objets, serveurs, Audio, Cercle), DemiEntree(objets, serveurs, Api, Images),
              Pleine(objets, serveurs, BytesIn));
  }

  /** Half of a column: two categories. */
  ghost function DemiSortie(objets: map<Oid, Compteurs>, serveurs: map<Sid, Oid>, c: Categorie, d: Categorie)
    : map<Sid, nat>
  {
    map s | s in serveurs && serveurs[s] in objets ::
      DuServeur(objets[serveurs[s]], Sorties(c)) + DuServeur(objets[serveurs[s]], Sorties(d))
  }

  lemma PleineSortie(objets: map<Oid, Compteurs>, serveurs: map<Sid, Oid>)
    ensures Somme(Pleine(objets, serveurs, BytesOut)) ==
              Somme(Part(objets, serveurs, Sorties(Audio))) + Somme(Part(objets, serveurs, Sorties(Cercle)))
              + Somme(Part(objets, serveurs, Sorties(Api))) + Somme(Part(objets, serveurs, Sorties(Images)))
  {
    hide Somme;
    SommePlus(Part(objets, serveurs, Sorties(Audio)), Part(objets, serveurs, Sorties(Cercle)),
              DemiSortie(objets, serveurs, Audio, Cercle));
    SommePlus(Part(objets, serveurs, Sorties(Api)), Part(objets, serveurs, Sorties(Images)),
              DemiSortie(objets, serveurs, Api, Images));
    SommePlus(DemiSortie(objets, serveurs, Audio, Cercle), DemiSortie(objets, serveurs, Api, Images),
              Pleine(objets, serveurs, BytesOut));
  }

  lemma PleineReste(objets: map<Oid, Compteurs>, serveurs: map<Sid, Oid>)
    ensures Somme(Pleine(objets, serveurs, StreamOut)) ==
              Somme(Part(objets, serveurs, Sorties(Audio))) + Somme(Part(objets, serveurs, Sorties(Cercle)))
    ensures Pleine(objets, serveurs, NbSessions) == Part(objets, serveurs, Ouvertes)
    ensures Pleine(objets, serveurs, Resumes) == Part(objets, serveurs, Reprises)
  {
    hide Somme;
    SommePlus(Part(objets, serveurs, Sorties(Audio)), Part(objets, serveurs, Sorties(Cercle)),
              Pleine(objets, serveurs, StreamOut));
  }

  lemma PleineSomme(vif: Globaux, objets: map<Oid, Compteurs>, serveurs: map<Sid, Oid>, col: Colonne)
    requires Double(vif, objets, serveurs)
    ensures DansGlobaux(vif, col) == Somme(Pleine(objets, serveurs, col))
  {
    PleineEntree(objets, serveurs);
    PleineSortie(objets, serveurs);
    PleineReste(objets, serveurs);
    hide Somme, Part, Pleine;
    assert forall c: Categorie ::
        && vif.entree.De(c) == Global(vif, Entrees(c)) == Somme(Part(objets, serveurs, Entrees(c)))
        && vif.sortie.De(c) == Global(vif, Sorties(c)) == Somme(Part(objets, serveurs, Sorties(c)));
    assert Global(vif, Ouvertes) == Somme(Part(objets, serveurs, Ouvertes));
    assert Global(vif, Reprises) == Somme(Part(objets, serveurs, Reprises));
    assert vif.entree.De(Audio) == vif.entree.audio && vif.entree.De(Cercle) == vif.entree.cercle
        && vif.entree.De(Api) == vif.entree.api && vif.entree.De(Images) == vif.entree.images;
    assert vif.sortie.De(Audio) == vif.sortie.audio && vif.sortie.De(Cercle) == vif.sortie.cercle
        && vif.sortie.De(Api) == vif.sortie.api && vif.sortie.De(Images) == vif.sortie.images;
    hide Double;
  }

  lemma CloreJuste(e: Etat, minute: int)
    requires Double(e.vif, e.objets, e.serveurs)
    ensures MinuteJuste(Minute(minute, e.vif, Lignes(e.objets, e.serveurs)))
  {
    forall col: Colonne ensures DansGlobaux(e.vif, col) == Somme(Releves(Lignes(e.objets, e.serveurs), col)) {
      RelevesPleines(e.objets, e.serveurs, col);
      PleineSomme(e.vif, e.objets, e.serveurs, col);
    }
  }

  lemma CloreDouble(e: Etat)
    ensures Double(RIEN, Remis(e.objets, e.serveurs), Restants(e))
  {
    hide Tenu, Remis, Restants, Part, Vide;
    var objets, serveurs := Remis(e.objets, e.serveurs), Restants(e);
    forall x: Mesure | !x.Terminees? ensures Global(RIEN, x) == Somme(Part(objets, serveurs, x)) {
      RestantsVides(e, x);
      SommeNulle(Part(objets, serveurs, x));
    }
  }

  lemma RestantsVides(e: Etat, x: Mesure)
    ensures var p := Part(Remis(e.objets, e.serveurs), Restants(e), x); forall s :: s in p ==> p[s] == 0
  {
    hide Tenu, Actif;
    var objets, serveurs := Remis(e.objets, e.serveurs), Restants(e);
    forall s | s in serveurs ensures objets[serveurs[s]] == Vide(e.objets[serveurs[s]]) {
      assert serveurs[s] == e.serveurs[s] && e.serveurs[s] in e.serveurs.Values;
    }
  }

  lemma RemisObjet(objets: map<Oid, Compteurs>, serveurs: map<Sid, Oid>, o: Oid)
    requires BienNommes(objets, serveurs) && o in objets
    ensures var k := Remis(objets, serveurs)[o];
      && k.sid == objets[o].sid && k.coupures == objets[o].coupures
      && (Logee(objets, serveurs, o) ==> k == Vide(objets[o]) && !Actif(k))
      && (!Logee(objets, serveurs, o) ==> k == objets[o])
  {
    if o in serveurs.Values {
      var s :| s in serveurs && serveurs[s] == o;
      assert objets[serveurs[s]].sid == s;
    }
    if Logee(objets, serveurs, o) {
      assert serveurs[objets[o].sid] in serveurs.Values;
    }
  }

  lemma CloreCarte(e: Etat)
    requires Carte(e.objets, e.serveurs, e.tenus, e.sessions)
    ensures Carte(Remis(e.objets, e.serveurs), Restants(e), e.tenus, e.sessions)
  {
    hide Tenu, Actif, Remis, Restants;
    var objets, serveurs := Remis(e.objets, e.serveurs), Restants(e);
    RestantsDe(e);
    forall o | o in e.objets
      ensures objets[o].sid == e.objets[o].sid
      ensures Logee(objets, serveurs, o) || (!Actif(objets[o]) && !Tenu(e.tenus, e.sessions, o))
    {
      CloreObjet(e, o);
    }
  }

  lemma RestantsDe(e: Etat)
    ensures Remis(e.objets, e.serveurs).Keys == e.objets.Keys
    ensures forall s :: s in Restants(e) ==> s in e.serveurs && Restants(e)[s] == e.serveurs[s]
  {
    hide Tenu, Actif, Vide;
  }

  lemma CloreObjet(e: Etat, o: Oid)
    requires BienNommes(e.objets, e.serveurs) && o in e.objets
    requires Logee(e.objets, e.serveurs, o) || (!Actif(e.objets[o]) && !Tenu(e.tenus, e.sessions, o))
    ensures var objets := Remis(e.objets, e.serveurs);
      && objets[o].sid == e.objets[o].sid
      && (Logee(objets, Restants(e), o) || (!Actif(objets[o]) && !Tenu(e.tenus, e.sessions, o)))
  {
    hide Tenu, Actif, Remis;
    RestantsDe(e);
    RemisObjet(e.objets, e.serveurs, o);
  }

  lemma CloreCoupures(e: Etat)
    requires Coupures(e.objets, e.finies, e.reprises)
    ensures Coupures(Remis(e.objets, e.serveurs), e.finies, e.reprises)
  {
    hide CoupuresVraies;
  }

  lemma CloreOctets(e: Etat, m: Minute)
    requires Octets(e.mouvements, e.closes, e.vif) && m.globaux == e.vif
    ensures Octets(e.mouvements, e.closes + [m], RIEN)
  {
    assert (e.closes + [m])[..|e.closes|] == e.closes;
    forall x: Mesure ensures Cumul(e.closes + [m], x) + Global(RIEN, x) == Cumul(e.closes, x) + Global(e.vif, x) {
    }
    hide Cumul, Global, Passes;
  }

  lemma CloreEcoutes(e: Etat, m: Minute)
    requires Ecoutes(e.sessions, e.finies, e.reprises, e.closes, e.vif) && m.globaux == e.vif
    ensures Ecoutes(e.sessions, e.finies, e.reprises, e.closes + [m], RIEN)
  {
    assert (e.closes + [m])[..|e.closes|] == e.closes;
    forall x: Mesure ensures Cumul(e.closes + [m], x) + Global(RIEN, x) == Cumul(e.closes, x) + Global(e.vif, x) {
    }
    hide Cumul, Global, Issues;
  }

  lemma CroissantesPrefixe(ms: seq<Minute>, n: nat)
    requires Croissantes(ms) && n <= |ms|
    ensures Croissantes(ms[..n])
  {
  }

  lemma FileClose(file: seq<Minute>, closes: seq<Minute>, acceptees: seq<Minute>, perdues: seq<Minute>, m: Minute)
    requires File(file, closes, acceptees, perdues)
    ensures var n := Debord(file); File(file[n..] + [m], closes + [m], acceptees, perdues + file[..n])
  {
    hide Cumul;
    var n, k := Debord(file), |closes| - |file|;
    var file', closes' := file[n..] + [m], closes + [m];
    assert closes'[|closes'| - |file'|..] == file';
    assert closes'[..|closes'| - |file'|] == closes[..k] + file[..n];
    FilePlus(acceptees, perdues, closes[..k], file[..n]);
  }

  /** Minutes leave the queue in order, dropped... */
  lemma FilePlus(acceptees: seq<Minute>, perdues: seq<Minute>, sorties: seq<Minute>, p: seq<Minute>)
    requires multiset(acceptees) + multiset(perdues) == multiset(sorties)
    requires forall x: Mesure :: Cumul(acceptees, x) + Cumul(perdues, x) == Cumul(sorties, x)
    ensures multiset(acceptees) + multiset(perdues + p) == multiset(sorties + p)
    ensures multiset(acceptees + p) + multiset(perdues) == multiset(sorties + p)
    ensures forall x: Mesure :: Cumul(acceptees, x) + Cumul(perdues + p, x) == Cumul(sorties + p, x)
    ensures forall x: Mesure :: Cumul(acceptees + p, x) + Cumul(perdues, x) == Cumul(sorties + p, x)
  {
    forall x: Mesure
      ensures Cumul(perdues + p, x) == Cumul(perdues, x) + Cumul(p, x)
      ensures Cumul(sorties + p, x) == Cumul(sorties, x) + Cumul(p, x)
      ensures Cumul(acceptees + p, x) == Cumul(acceptees, x) + Cumul(p, x)
    {
      CumulPlus(perdues, p, x);
      CumulPlus(sorties, p, x);
      CumulPlus(acceptees, p, x);
    }
    hide Cumul;
  }

  lemma CloreTient(e: Etat, minute: int)
    requires Inv(e)
    ensures Inv(Clore(e, minute))
  {
    hide Carte, Double, MinutesJustes, Octets, Ecoutes, Coupures, ReprisesVraies, File, Croissantes;
    var m := Minute(minute, e.vif, Lignes(e.objets, e.serveurs));
    CloreCarte(e);
    CloreCoupures(e);
    CloreDouble(e);
    CloreSuite(e, m);
    assert MinutesJustes(e.closes + [m]) by {
      CloreJuste(e, minute);
      MinutesPlus(e.closes, m);
    }
    hide Lignes, Remis, Restants;
  }

  lemma MinutesPlus(ms: seq<Minute>, m: Minute)
    requires MinutesJustes(ms) && MinuteJuste(m)
    ensures MinutesJustes(ms + [m])
  {
    hide MinuteJuste;
  }

  lemma CloreSuite(e: Etat, m: Minute)
    requires Octets(e.mouvements, e.closes, e.vif) && Ecoutes(e.sessions, e.finies, e.reprises, e.closes, e.vif)
    requires Croissantes(e.closes) ==> File(e.minutes, e.closes, e.acceptees, e.perdues)
    requires m.globaux == e.vif
    ensures Octets(e.mouvements, e.closes + [m], RIEN)
    ensures Ecoutes(e.sessions, e.finies, e.reprises, e.closes + [m], RIEN)
    ensures var n := Debord(e.minutes);
      Croissantes(e.closes + [m]) ==>
        File(e.minutes[n..] + [m], e.closes + [m], e.acceptees, e.perdues + e.minutes[..n])
  {
    CloreOctets(e, m);
    CloreEcoutes(e, m);
    if Croissantes(e.closes + [m]) {
      CroissantesPrefixe(e.closes + [m], |e.closes|);
      assert (e.closes + [m])[..|e.closes|] == e.closes;
      hide File;
      FileClose(e.minutes, e.closes, e.acceptees, e.perdues, m);
    }
  }

  // --------------------------------------------------------------- sending

  lemma {:induction false} RetenuesPlus(a: seq<Minute>, b: seq<Minute>, ids: seq<int>)
    ensures Retenues(a + b, ids) == Retenues(a, ids) + Retenues(b, ids)
    decreases |b|
  {
    if b == [] {
      assert a + b == a;
    } else {
      assert (a + b)[..|a + b| - 1] == a + b[..|b| - 1];
      RetenuesPlus(a, b[..|b| - 1], ids);
      hide Designe;
    }
  }

  ghost predicate AucuneDesignee(ms: seq<Minute>, ids: seq<int>) { forall i :: 0 <= i < |ms| ==> !Designe(ids, ms[i]) }

  lemma {:induction false} RetenuesTout(ms: seq<Minute>, ids: seq<int>)
    ensures Retenues(ms, ids) == ms <==> AucuneDesignee(ms, ids)
  {
    if ms != [] {
      var p, m := ms[..|ms| - 1], ms[|ms| - 1];
      assert ms == p + [m];
      RetenuesTout(p, ids);
      hide Designe;
      assert AucuneDesignee(ms, ids) <==> AucuneDesignee(p, ids) && !Designe(ids, m) by {
        assert forall i :: 0 <= i < |p| ==> ms[i] == p[i];
      }
      hide AucuneDesignee;
    }
  }

  lemma {:induction false} RetenuesRien(ms: seq<Minute>, ids: seq<int>)
    requires forall i :: 0 <= i < |ms| ==> Designe(ids, ms[i])
    ensures Retenues(ms, ids) == []
  {
    if ms != [] {
      RetenuesRien(ms[..|ms| - 1], ids);
      hide Designe;
    }
  }

  lemma PaquetDesigne(p: seq<Minute>)
    ensures Retenues(p, Ids(p)) == []
  {
    var ids := Ids(p);
    forall i | 0 <= i < |p| ensures Designe(ids, p[i]) {
      assert ids[i] == p[i].minute;
    }
    RetenuesRien(p, ids);
  }

  /** Acknowledging a packet removes exactly the packet when, and only when, no
      minute behind it bears the same number as one in it. */
  lemma AcquitterExact(file: seq<Minute>, n: nat)
    requires n <= |file|
    ensures Retenues(file, Ids(file[..n])) == file[n..] <==> AucuneDesignee(file[n..], Ids(file[..n]))
  {
    var ids := Ids(file[..n]);
    assert file == file[..n] + file[n..];
    RetenuesPlus(file[..n], file[n..], ids);
    PaquetDesigne(file[..n]);
    RetenuesTout(file[n..], ids);
    hide Retenues, Designe, Ids;
    assert [] + Retenues(file[n..], ids) == Retenues(file[n..], ids);
  }

  lemma CroissantesSepare(file: seq<Minute>, n: nat)
    requires Croissantes(file) && n <= |file|
    ensures Retenues(file, Ids(file[..n])) == file[n..]
  {
    AcquitterExact(file, n);
  }

  lemma CroissantesSuite(ms: seq<Minute>, k: nat)
    requires Croissantes(ms) && k <= |ms|
    ensures Croissantes(ms[k..])
  {
  }

  lemma FileAcceptee(file: seq<Minute>, closes: seq<Minute>, acceptees: seq<Minute>, perdues: seq<Minute>, n: nat)
    requires File(file, closes, acceptees, perdues) && n <= |file|
    ensures File(file[n..], closes, acceptees + file[..n], perdues)
  {
    var k := |closes| - |file|;
    assert closes[..k + n] == closes[..k] + file[..n];
    FilePlus(acceptees, perdues, closes[..k], file[..n]);
    hide Cumul;
  }

  lemma FilePaquet(file: seq<Minute>, closes: seq<Minute>, acceptees: seq<Minute>, perdues: seq<Minute>)
    requires File(file, closes, acceptees, perdues) && Croissantes(closes)
    ensures var p := Paquet(file); File(Retenues(file, Ids(p)), closes, acceptees + p, perdues)
    ensures Retenues(file, Ids(Paquet(file))) == file[|Paquet(file)|..]
  {
    var n := |Paquet(file)|;
    assert file == closes[|closes| - |file|..] by { hide Cumul; }
    CroissantesSuite(closes, |closes| - |file|);
    hide Cumul, Retenues, Ids, Croissantes, File;
    CroissantesSepare(file, n);
    FileAcceptee(file, closes, acceptees, perdues, n);
  }

  /** A packet accepted. */
  ghost function Acquitte(e: Etat): Etat {
    e.(minutes := Retenues(e.minutes, Ids(Paquet(e.minutes))), acceptees := e.acceptees + Paquet(e.minutes))
  }

  lemma AcquitteTient(e: Etat)
    requires Inv(e)
    ensures Inv(Acquitte(e))
  {
    hide Carte, Double, MinutesJustes, Octets, Ecoutes, Coupures, ReprisesVraies, File, Croissantes, Retenues, Ids,
      Paquet;
    if Croissantes(e.closes) { FilePaquet(e.minutes, e.closes, e.acceptees, e.perdues); }
  }

  /** Sending only moves minutes. */
  lemma {:induction false} PaquetsForme(e: Etat, tours: nat, rs: seq<Reponse>, acceptees: nat)
    ensures var f := Paquets(e, tours, rs, acceptees).0; f == e.(minutes := f.minutes, acceptees := f.acceptees)
    decreases tours
  {
    hide Retenues, Ids;
    var p := Paquet(e.minutes);
    var r := if rs == [] then SansReponse else rs[0];
    if tours != 0 && p != [] && Succes(r) {
      PaquetsForme(Acquitte(e), tours - 1, rs[1..], acceptees + |p|);
    }
  }

  lemma PousserForme(e: Etat, jeton: bool, rs: seq<Reponse>)
    ensures var f := Pousser(e, jeton, rs).0; f == e.(minutes := f.minutes, acceptees := f.acceptees)
  {
    PaquetsForme(e, Tours(|e.minutes|), rs, 0);
    hide Paquets;
  }

  lemma {:induction false} PaquetsTient(e: Etat, tours: nat, rs: seq<Reponse>, acceptees: nat)
    requires Inv(e)
    ensures Inv(Paquets(e, tours, rs, acceptees).0)
    decreases tours
  {
    hide Inv, Retenues, Ids;
    var p := Paquet(e.minutes);
    var r := if rs == [] then SansReponse else rs[0];
    if tours != 0 && p != [] && Succes(r) {
      AcquitteTient(e);
      PaquetsTient(Acquitte(e), tours - 1, rs[1..], acceptees + |p|);
    }
  }

  lemma PousserTient(e: Etat, jeton: bool, rs: seq<Reponse>)
    requires Inv(e)
    ensures Inv(Pousser(e, jeton, rs).0)
  {
    hide Inv, Paquets;
    PaquetsTient(e, Tours(|e.minutes|), rs, 0);
  }

  // -------------------------------------------------------------- the runs

  lemma InitialLivres(heure: int)
    ensures var e := Initial(heure);
      Carte(e.objets, e.serveurs, e.tenus, e.sessions) && Double(e.vif, e.objets, e.serveurs)
  {
    var e := Initial(heure);
    forall x: Mesure ensures Part(e.objets, e.serveurs, x) == map[] {
    }
  }

  lemma InitialEcoutes()
    ensures Ecoutes(map[], map[], map[], [], RIEN)
  {
    forall fin: Fin ensures Issues(map[], fin) == {} {
    }
  }

  lemma InitialTient(heure: int)
    ensures Inv(Initial(heure))
  {
    InitialLivres(heure);
    InitialEcoutes();
    hide Carte, Double, Ecoutes;
  }

  lemma AppelSession(e: Etat, a: Appel)
    requires Inv(e)
    requires match a case MorceauRendu(s, _) => s in e.sessions case FinDuFlux(s) => s in e.sessions
                     case FinPropre(s) => s in e.sessions case FinSession(s) => s in e.sessions case _ => false
    ensures Inv(Pas(e, a))
  {
    hide Inv, Sortir, Tomber, Tenu;
    var s := a.s;
    TenuSession(e.tenus, e.sessions, s, e.sessions[s]);
    TenuLogee(e, e.sessions[s].oid);
    match a
    case MorceauRendu(_, n) => SortirTient(e, e.sessions[s].oid, e.sessions[s].categorie, n);
    case FinDuFlux(_) => DrapeauTient(e, s, e.sessions[s].(finAtteinte := true));
    case FinPropre(_) => DrapeauTient(e, s, e.sessions[s].(finPropre := true));
    case FinSession(_) => TomberTient(e, s);
  }

  lemma AppelPoignee(e: Etat, a: Appel)
    requires Inv(e) && Permis(e, a)
    requires a.ClonerServeur? || a.EntreeDe? || a.SortieDe? || a.Ouverture?
    ensures Inv(Pas(e, a))
  {
    hide Inv, Logee, Prendre, Entrer, Sortir, OuvrirSession;
    TenuLogee(e, a.o);
    match a
    case ClonerServeur(o) => PrendreTient(e, o);
    case EntreeDe(o, c, n) => EntrerTient(e, o, c, n);
    case SortieDe(o, c, n) => SortirTient(e, o, c, n);
    case Ouverture(s, o, c, cle, horsDebut) => OuvrirSessionTient(e, s, o, c, cle, horsDebut);
  }

  lemma AttendreTient(e: Etat, t: int)
    requires Inv(e)
    ensures Inv(e.(heure := t))
  {
    hide Carte, Double, MinutesJustes, Octets, Ecoutes, Coupures, ReprisesVraies, File, Croissantes;
  }

  /** Every permitted call keeps the ledger. */
  lemma PasTient(e: Etat, a: Appel)
    requires Inv(e) && Permis(e, a)
    ensures Inv(Pas(e, a))
  {
    hide Inv, Serveur, Lacher, Clore, Pousser;
    match a
    case Attendre(t) => AttendreTient(e, t);
    case DemanderServeur(sid, neuf) => ServeurTient(e, sid, neuf);
    case LacherServeur(o) => LacherTient(e, o);
    case CloreMinute(minute) => CloreTient(e, minute);
    case PousserAuSite(jeton, rs) => PousserTient(e, jeton, rs);
    case MorceauRendu(_, _) => AppelSession(e, a);
    case FinDuFlux(_) => AppelSession(e, a);
    case FinPropre(_) => AppelSession(e, a);
    case FinSession(_) => AppelSession(e, a);
    case _ => AppelPoignee(e, a);
  }

  lemma {:induction false} ExecutionTient(es: seq<Etat>, appels: seq<Appel>, i: nat)
    requires Execution(es, appels) && i < |es|
    ensures Inv(es[i])
    decreases i
  {
    hide Inv, Pas, Permis;
    if i == 0 {
      InitialTient(es[0].heure);
    } else {
      ExecutionTient(es, appels, i - 1);
      PasTient(es[i - 1], appels[i - 1]);
    }
  }
}
