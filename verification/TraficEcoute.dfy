/** Listening time over every run: what the minutes and the live counters of a
    server hold is what its finished sessions lasted. */
module TraficEcoute {
  import opened Commun
  import opened TraficSpec
  import opened TraficProofs

  /** How long a session lasted. */
  ghost function Duree(i: Issue): nat { Max(0, i.t - i.fiche.ouverteA) }

  ghost predicate Chez(objets: map<Oid, Compteurs>, o: Oid, sid: Sid) { o in objets && objets[o].sid == sid }

  /** The finished sessions of a server, and how long each lasted. */
  ghost function Durees(finies: map<Sess, Issue>, objets: map<Oid, Compteurs>, sid: Sid): map<Sess, nat> {
    map s | s in finies && Chez(objets, finies[s].fiche.oid, sid) :: Duree(finies[s])
  }

  function Notee(m: Minute, sid: Sid): nat { if sid in m.servers then m.servers[sid].listening else 0 }

  /** Milliseconds in the rows of a server. */
  ghost function Notees(ms: seq<Minute>, sid: Sid): nat {
    if ms == [] then 0 else Notees(ms[..|ms| - 1], sid) + Notee(ms[|ms| - 1], sid)
  }

  /** Milliseconds in the live counters of a server. */
  function EnCours(objets: map<Oid, Compteurs>, serveurs: map<Sid, Oid>, sid: Sid): nat {
    if sid in serveurs && serveurs[sid] in objets then objets[serveurs[sid]].ecoute else 0
  }

  ghost predicate Juste(ms: seq<Minute>, objets: map<Oid, Compteurs>, serveurs: map<Sid, Oid>, finies: map<Sess, Issue>,
                        sid: Sid)
  {
    Notees(ms, sid) + EnCours(objets, serveurs, sid) == Somme(Durees(finies, objets, sid))
  }

  ghost predicate Temps(ms: seq<Minute>, objets: map<Oid, Compteurs>, serveurs: map<Sid, Oid>, finies: map<Sess, Issue>)
  {
    && (forall s :: s in finies ==> finies[s].fiche.oid in objets)
    && forall sid :: Juste(ms, objets, serveurs, finies, sid)
  }

  ghost predicate TempsDe(e: Etat) { Temps(e.closes, e.objets, e.serveurs, e.finies) }

  // ------------------------------------------------------ what leaves it alone

  ghost predicate MemeEcoute(objets: map<Oid, Compteurs>, objets': map<Oid, Compteurs>) {
    && objets.Keys == objets'.Keys
    && forall o :: o in objets ==> objets'[o].sid == objets[o].sid && objets'[o].ecoute == objets[o].ecoute
  }

  lemma MemesDurees(finies: map<Sess, Issue>, objets: map<Oid, Compteurs>, objets': map<Oid, Compteurs>, sid: Sid)
    requires forall s :: s in finies ==> finies[s].fiche.oid in objets
    requires forall o :: o in objets ==> o in objets' && objets'[o].sid == objets[o].sid
    ensures Durees(finies, objets', sid) == Durees(finies, objets, sid)
  {
  }

  lemma TempsMeme(e: Etat, f: Etat)
    requires TempsDe(e) && Neutre(e, f)
    ensures TempsDe(f)
  {
    forall sid ensures Juste(f.closes, f.objets, f.serveurs, f.finies, sid) {
      assert Juste(e.closes, e.objets, e.serveurs, e.finies, sid);
      MemesDurees(e.finies, e.objets, f.objets, sid);
      hide Notees, Durees;
    }
  }

  lemma ObjetEcoute(objets: map<Oid, Compteurs>, o: Oid, k: Compteurs)
    requires o in objets && k.sid == objets[o].sid && k.ecoute == objets[o].ecoute
    ensures MemeEcoute(objets, objets[o := k])
  {
  }

  /** A call that moves no listening time. */
  ghost predicate Neutre(e: Etat, f: Etat) {
    MemeEcoute(e.objets, f.objets) && f.closes == e.closes && f.serveurs == e.serveurs && f.finies == e.finies
  }

  lemma CompterEcoute(e: Etat, o: Oid, c: Categorie, n: nat)
    requires o in e.objets
    ensures Neutre(e, Entrer(e, o, c, n)) && Neutre(e, Sortir(e, o, c, n))
  {
    hide MemeEcoute;
    ObjetEcoute(e.objets, o, e.objets[o].(entree := e.objets[o].entree.Plus(c, n)));
    ObjetEcoute(e.objets, o, e.objets[o].(sortie := e.objets[o].sortie.Plus(c, n)));
  }

  lemma ReprendreEcoute(e: Etat, s: Sess, o: Oid, cle: Cle)
    requires o in e.objets
    ensures Neutre(e, Reprendre(e, s, o, cle))
  {
    hide Recentes, Place, MemeEcoute;
    var k := e.objets[o];
    var cs := Recentes(k.coupures, e.heure);
    var i := Place(cs, cle);
    if i == |cs| {
      ObjetEcoute(e.objets, o, k.(coupures := cs));
    } else {
      ObjetEcoute(e.objets, o, k.(coupures := cs[..i] + cs[i + 1..], reprises := k.reprises + 1));
    }
  }

  lemma OuvrirNeuveEcoute(e: Etat, s: Sess, f: Fiche)
    requires f.oid in e.objets
    ensures f.oid in Lacher(e, f.oid).objets && Neutre(e, OuvrirNeuve(Lacher(e, f.oid), s, f))
    ensures f.oid in OuvrirNeuve(Lacher(e, f.oid), s, f).objets
  {
    hide MemeEcoute;
    ObjetEcoute(e.objets, f.oid, e.objets[f.oid].(sessions := e.objets[f.oid].sessions + 1));
  }

  lemma NeutreSuite(e: Etat, f: Etat, g: Etat)
    requires Neutre(e, f) && Neutre(f, g)
    ensures Neutre(e, g)
  {
  }

  lemma OuvrirEcoute(e: Etat, s: Sess, o: Oid, c: Categorie, cle: Cle, horsDebut: bool)
    requires o in e.objets
    ensures Neutre(e, OuvrirSession(e, s, o, c, cle, horsDebut))
  {
    hide Reprendre, OuvrirNeuve, Lacher, Neutre;
    var f := Fiche(o, c, cle, e.heure, false, false);
    OuvrirNeuveEcoute(e, s, f);
    if horsDebut {
      var e1 := OuvrirNeuve(Lacher(e, o), s, f);
      ReprendreEcoute(e1, s, o, cle);
      NeutreSuite(e, e1, Reprendre(e1, s, o, cle));
    }
  }

  lemma Immobile(e: Etat, f: Etat)
    requires f.objets == e.objets && f.closes == e.closes && f.serveurs == e.serveurs && f.finies == e.finies
    ensures Neutre(e, f)
  {
  }

  /** Only a new server, an end and the roll-over touch listening time. */
  lemma PasNeutre(e: Etat, a: Appel)
    requires !a.DemanderServeur? && !a.FinSession? && !a.CloreMinute?
    ensures Neutre(e, Pas(e, a))
  {
    hide Neutre, Entrer, Sortir, OuvrirSession, Pousser;
    match a
    case EntreeDe(o, c, n) => if o in e.objets { CompterEcoute(e, o, c, n); } else { Immobile(e, e); }
    case SortieDe(o, c, n) => if o in e.objets { CompterEcoute(e, o, c, n); } else { Immobile(e, e); }
    case MorceauRendu(s, n) =>
      if s in e.sessions && e.sessions[s].oid in e.objets {
        CompterEcoute(e, e.sessions[s].oid, e.sessions[s].categorie, n);
      } else {
        Immobile(e, e);
      }
    case Ouverture(s, o, c, cle, horsDebut) =>
      if o in e.objets { OuvrirEcoute(e, s, o, c, cle, horsDebut); } else { Immobile(e, e); }
    case PousserAuSite(jeton, rs) =>
      PousserForme(e, jeton, rs);
      Immobile(e, Pas(e, a));
    case _ => Immobile(e, Pas(e, a));
  }

  // ------------------------------------------------------------- what counts

  lemma CreerTemps(e: Etat, sid: Sid, o: Oid)
    requires TempsDe(e) && sid !in e.serveurs && o !in e.objets
    requires BienNommes(e.objets, e.serveurs)
    ensures TempsDe(Creer(e, sid, o))
  {
    var f := Creer(e, sid, o);
    forall p ensures Juste(f.closes, f.objets, f.serveurs, f.finies, p) {
      assert Juste(e.closes, e.objets, e.serveurs, e.finies, p);
      MemesDurees(e.finies, e.objets, f.objets, p);
      assert EnCours(f.objets, f.serveurs, p) == EnCours(e.objets, e.serveurs, p);
      hide Notees, Durees, EnCours;
    }
  }

  /** One more session has finished. */
  lemma DureesPlus(finies: map<Sess, Issue>, objets: map<Oid, Compteurs>, objets': map<Oid, Compteurs>, sid: Sid,
                   s: Sess, i: Issue)
    requires forall s :: s in finies ==> finies[s].fiche.oid in objets
    requires forall o :: o in objets ==> o in objets' && objets'[o].sid == objets[o].sid
    requires s !in finies && i.fiche.oid in objets
    ensures Somme(Durees(finies[s := i], objets', sid))
         == Somme(Durees(finies, objets, sid)) + if objets[i.fiche.oid].sid == sid then Duree(i) else 0
  {
    var d := Durees(finies, objets, sid);
    assert Durees(finies[s := i], objets', sid) ==
             if objets[i.fiche.oid].sid == sid then d[s := Duree(i)] else d by { hide Duree; }
    assert s !in d;
    hide Durees, Duree;
    SommeMaj(d, s, Duree(i));
  }

  lemma TomberEcoute(e: Etat, s: Sess)
    requires s in e.sessions && e.sessions[s].oid in e.objets
    ensures var f, o := Tomber(e, s), e.sessions[s].oid;
      && f.closes == e.closes && f.serveurs == e.serveurs
      && f.finies == e.finies[s := Issue(e.sessions[s], e.heure, FinDe(e.sessions[s]))]
      && f.objets.Keys == e.objets.Keys && (forall p :: p in e.objets ==> f.objets[p].sid == e.objets[p].sid)
      && (forall p :: p in e.objets ==>
            f.objets[p].ecoute == e.objets[p].ecoute + if p == o then Duree(f.finies[s]) else 0)
  {
    hide Noter, FinDe, Compter;
  }

  lemma TomberTemps(e: Etat, s: Sess)
    requires TempsDe(e) && BienNommes(e.objets, e.serveurs)
    requires s in e.sessions && s !in e.finies && Logee(e.objets, e.serveurs, e.sessions[s].oid)
    ensures TempsDe(Tomber(e, s))
  {
    var o, f := e.sessions[s].oid, Tomber(e, s);
    TomberEcoute(e, s);
    hide Tomber;
    forall sid ensures Juste(f.closes, f.objets, f.serveurs, f.finies, sid) {
      assert Juste(e.closes, e.objets, e.serveurs, e.finies, sid);
      DureesPlus(e.finies, e.objets, f.objets, sid, s, f.finies[s]);
      assert EnCours(f.objets, f.serveurs, sid) ==
               EnCours(e.objets, e.serveurs, sid) + if e.objets[o].sid == sid then Duree(f.finies[s]) else 0 by {
        hide Duree;
      }
      hide Notees, Durees, EnCours, Duree;
    }
  }

  /** What the live counter held goes to the row; without a row there was nothing. */
  lemma CloreEcoute(e: Etat, minute: int, sid: Sid)
    requires BienNommes(e.objets, e.serveurs)
    ensures Notee(Minute(minute, e.vif, Lignes(e.objets, e.serveurs)), sid) == EnCours(e.objets, e.serveurs, sid)
    ensures EnCours(Remis(e.objets, e.serveurs), Restants(e), sid) == 0
  {
    if sid in Restants(e) { assert e.serveurs[sid] in e.serveurs.Values; }
    hide Tenu;
  }

  lemma CloreTemps(e: Etat, minute: int)
    requires TempsDe(e) && BienNommes(e.objets, e.serveurs)
    ensures TempsDe(Clore(e, minute))
  {
    var f := Clore(e, minute);
    assert f.closes[..|e.closes|] == e.closes;
    assert f.objets.Keys == e.objets.Keys;
    forall sid ensures Juste(f.closes, f.objets, f.serveurs, f.finies, sid) {
      assert Juste(e.closes, e.objets, e.serveurs, e.finies, sid);
      MemesDurees(e.finies, e.objets, f.objets, sid);
      CloreEcoute(e, minute, sid);
      hide Durees, EnCours, Remis, Restants, Lignes;
    }
  }

  // ---------------------------------------------------------------- the runs

  lemma FichePresente(e: Etat, s: Sess)
    requires Inv(e) && s in e.sessions
    ensures s !in e.finies && Logee(e.objets, e.serveurs, e.sessions[s].oid)
  {
    hide Carte, Double, MinutesJustes, Octets, Coupures, ReprisesVraies, File, Croissantes, Issues, Cumul, Global,
      Logee;
    TenuLogee(e, e.sessions[s].oid);
  }

  lemma PasTemps(e: Etat, a: Appel)
    requires Inv(e) && TempsDe(e) && Permis(e, a)
    ensures TempsDe(Pas(e, a))
  {
    hide Inv, TempsDe, BienNommes, Logee, Tenu, Neutre, OuvrirSession, Tomber, Clore, Pousser, Prendre, Creer;
    Nommes(e);
    match a
    case DemanderServeur(sid, neuf) =>
      if sid in e.serveurs { PrendreTemps(e, e.serveurs[sid]); } else { CreerTemps(e, sid, neuf); }
    case FinSession(s) =>
      FichePresente(e, s);
      if e.sessions[s].oid in e.objets { TomberTemps(e, s); }
    case CloreMinute(minute) => CloreTemps(e, minute);
    case _ =>
      PasNeutre(e, a);
      TempsMeme(e, Pas(e, a));
  }

  lemma PrendreTemps(e: Etat, o: Oid)
    requires TempsDe(e)
    ensures TempsDe(Prendre(e, o))
  {
    hide TempsDe, Neutre;
    Immobile(e, Prendre(e, o));
    TempsMeme(e, Prendre(e, o));
  }

  lemma {:induction false} ExecutionTemps(es: seq<Etat>, appels: seq<Appel>, i: nat)
    requires Execution(es, appels) && i < |es|
    ensures TempsDe(es[i])
    decreases i
  {
    hide Inv, Pas, Permis;
    if i == 0 {
      InitialTemps(es[0].heure);
    } else {
      ExecutionTemps(es, appels, i - 1);
      ExecutionTient(es, appels, i - 1);
      hide TempsDe;
      PasTemps(es[i - 1], appels[i - 1]);
    }
  }

  lemma InitialTemps(heure: int)
    ensures TempsDe(Initial(heure))
  {
    forall sid ensures Durees(map[], map[], sid) == map[] {
    }
  }

  /** Listening ledger. For every server, whatever the clock: the milliseconds in
      the rows of the closed minutes and in the live counter are those its
      finished sessions lasted, each counted once, from opening to end and never
      less than zero; and every finished session belongs to one server. */
  lemma DureesConservees(es: seq<Etat>, appels: seq<Appel>, i: nat, sid: Sid)
    requires Execution(es, appels) && i < |es|
    ensures var e := es[i];
      && Notees(e.closes, sid) + EnCours(e.objets, e.serveurs, sid) == Somme(Durees(e.finies, e.objets, sid))
      && forall s :: s in e.finies ==> e.finies[s].fiche.oid in e.objets
  {
    hide Notees, EnCours, Durees, Execution;
    ExecutionTemps(es, appels, i);
    assert Juste(es[i].closes, es[i].objets, es[i].serveurs, es[i].finies, sid);
  }
}
