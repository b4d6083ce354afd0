/** The traffic ledger read off the calls of a run: how sessions began and ended,
    and what was counted. */
module TraficAppels {
  import opened Commun
  import opened TraficSpec
  import opened TraficProofs

  // ------------------------------------------------- how sessions end

  /** What the flags of a session say of the calls made. */
  predicate Drapeaux(f: Fiche, s: Sess, appels: seq<Appel>) {
    && (f.finAtteinte <==> FinDuFlux(s) in appels)
    && (f.finPropre <==> FinPropre(s) in appels)
  }

  /** How a session ended, by the calls made: the listener left before the end of the
      stream, or the end came, clean or not. */
  predicate Classe(fin: Fin, s: Sess, appels: seq<Appel>) {
    && (fin == InterrompueParLeClient <==> FinDuFlux(s) !in appels)
    && (fin == Complete <==> FinDuFlux(s) in appels && FinPropre(s) in appels)
    && (fin == CoupeeCoteServeur <==> FinDuFlux(s) in appels && FinPropre(s) !in appels)
  }

  ghost predicate OuverteDans(s: Sess, appels: seq<Appel>) { exists a :: a in appels && a.Ouverture? && a.s == s }

  ghost predicate Dites(sessions: map<Sess, Fiche>, finies: map<Sess, Issue>, appels: seq<Appel>) {
    && (forall s :: s in sessions ==> Drapeaux(sessions[s], s, appels))
    && (forall s :: s in finies ==> Classe(finies[s].fin, s, appels))
    && (forall s :: s !in sessions && s !in finies ==> FinDuFlux(s) !in appels && FinPropre(s) !in appels)
    && (forall s :: s in finies <==> FinSession(s) in appels)
    && (forall s :: s in sessions || s in finies <==> OuverteDans(s, appels))
    && (forall a :: a in appels && a.Ouverture? && a.s in sessions ==> Conforme(sessions[a.s], a))
    && (forall a :: a in appels && a.Ouverture? && a.s in finies ==> Conforme(finies[a.s].fiche, a))
  }

  /** The session is the one that call opened. */
  predicate Conforme(f: Fiche, a: Appel) { a.Ouverture? && f.oid == a.o && f.categorie == a.c && f.cle == a.cle }

  lemma OuvertePlus(appels: seq<Appel>, a: Appel)
    ensures forall s :: OuverteDans(s, appels + [a]) <==> OuverteDans(s, appels) || (a.Ouverture? && a.s == s)
  {
    forall s ensures OuverteDans(s, appels + [a]) <==> OuverteDans(s, appels) || (a.Ouverture? && a.s == s) {
      if OuverteDans(s, appels) {
        var b :| b in appels && b.Ouverture? && b.s == s;
        assert b in appels + [a];
      }
      if a.Ouverture? && a.s == s { assert a in appels + [a]; }
    }
  }

  /** A call that neither opens, flags nor ends a session. */
  predicate Etranger(a: Appel) { !a.Ouverture? && !a.FinDuFlux? && !a.FinPropre? && !a.FinSession? }

  lemma DitesEtranger(sessions: map<Sess, Fiche>, finies: map<Sess, Issue>, appels: seq<Appel>, a: Appel)
    requires Dites(sessions, finies, appels) && Etranger(a)
    ensures Dites(sessions, finies, appels + [a])
  {
    hide OuverteDans;
    OuvertePlus(appels, a);
  }

  lemma DitesOuverture(sessions: map<Sess, Fiche>, finies: map<Sess, Issue>, appels: seq<Appel>, a: Appel, f: Fiche)
    requires Dites(sessions, finies, appels) && a.Ouverture? && a.s !in sessions && a.s !in finies
    requires !f.finAtteinte && !f.finPropre && Conforme(f, a)
    ensures Dites(sessions[a.s := f], finies, appels + [a])
  {
    hide OuverteDans, Conforme;
    NonOuverte(a.s, appels);
    OuvertePlus(appels, a);
  }

  lemma NonOuverte(s: Sess, appels: seq<Appel>)
    requires !OuverteDans(s, appels)
    ensures forall b :: b in appels && b.Ouverture? ==> b.s != s
  {
  }

  lemma DitesDrapeau(sessions: map<Sess, Fiche>, finies: map<Sess, Issue>, appels: seq<Appel>, s: Sess, propre: bool)
    requires Dites(sessions, finies, appels) && s in sessions && s !in finies
    ensures var f := if propre then sessions[s].(finPropre := true) else sessions[s].(finAtteinte := true);
      Dites(sessions[s := f], finies, appels + [if propre then FinPropre(s) else FinDuFlux(s)])
  {
    hide OuverteDans;
    OuvertePlus(appels, if propre then FinPropre(s) else FinDuFlux(s));
  }

  lemma DitesFin(sessions: map<Sess, Fiche>, finies: map<Sess, Issue>, appels: seq<Appel>, s: Sess, t: int)
    requires Dites(sessions, finies, appels) && s in sessions && s !in finies
    ensures Dites(sessions - {s}, finies[s := Issue(sessions[s], t, FinDe(sessions[s]))], appels + [FinSession(s)])
  {
    hide OuverteDans;
    OuvertePlus(appels, FinSession(s));
  }

  lemma MemesSessions(e: Etat, a: Appel)
    requires Etranger(a)
    ensures Pas(e, a).sessions == e.sessions && Pas(e, a).finies == e.finies
  {
    hide Pousser, Remis, Restants, Lignes;
    if a.PousserAuSite? { PousserForme(e, a.jeton, a.rs); }
  }

  lemma OuvertureSessions(e: Etat, s: Sess, o: Oid, c: Categorie, cle: Cle, horsDebut: bool)
    requires o in e.objets
    ensures var f := OuvrirSession(e, s, o, c, cle, horsDebut);
      f.sessions == e.sessions[s := Fiche(o, c, cle, e.heure, false, false)] && f.finies == e.finies
      && f.mouvements == e.mouvements
  {
    hide Reprendre;
    ReprendreSessions(OuvrirNeuve(Lacher(e, o), s, Fiche(o, c, cle, e.heure, false, false)), s, o, cle);
  }

  lemma ReprendreSessions(e: Etat, s: Sess, o: Oid, cle: Cle)
    requires o in e.objets
    ensures var f := Reprendre(e, s, o, cle);
      f.sessions == e.sessions && f.finies == e.finies && f.mouvements == e.mouvements
  {
    hide Recentes, Place;
  }

  lemma PasDites(e: Etat, a: Appel, appels: seq<Appel>)
    requires Inv(e) && Permis(e, a) && Dites(e.sessions, e.finies, appels)
    ensures Dites(Pas(e, a).sessions, Pas(e, a).finies, appels + [a])
  {
    hide Inv, Dites, OuvrirSession, Tenu, Clore, Pousser, Entrer, Sortir, Serveur, Lacher, Prendre;
    if Etranger(a) {
      MemesSessions(e, a);
      DitesEtranger(e.sessions, e.finies, appels, a);
    } else {
      SessionConnue(e, a);
      match a
      case Ouverture(s, o, c, cle, horsDebut) =>
        OuvertureSessions(e, s, o, c, cle, horsDebut);
        DitesOuverture(e.sessions, e.finies, appels, a, Fiche(o, c, cle, e.heure, false, false));
      case FinDuFlux(s) => DitesDrapeau(e.sessions, e.finies, appels, s, false);
      case FinPropre(s) => DitesDrapeau(e.sessions, e.finies, appels, s, true);
      case FinSession(s) => DitesFin(e.sessions, e.finies, appels, s, e.heure);
    }
  }

  /** What a permitted call can rely on. */
  lemma SessionConnue(e: Etat, a: Appel)
    requires Inv(e) && Permis(e, a)
    ensures a.Ouverture? ==> a.o in e.objets
    ensures a.EntreeDe? ==> a.o in e.objets
    ensures a.SortieDe? ==> a.o in e.objets
    ensures a.MorceauRendu? || a.FinDuFlux? || a.FinPropre? || a.FinSession? ==>
              a.s in e.sessions && a.s !in e.finies && e.sessions[a.s].oid in e.objets
  {
    hide Inv, Tenu;
    TenusConnus(e);
    Separes(e);
    TenusDits(e);
  }

  lemma TenusDits(e: Etat)
    ensures forall s :: s in e.sessions ==> Tenu(e.tenus, e.sessions, e.sessions[s].oid)
    ensures forall o :: o in e.tenus && e.tenus[o] > 0 ==> Tenu(e.tenus, e.sessions, o)
  {
  }

  lemma TenusConnus(e: Etat)
    requires Inv(e)
    ensures forall o :: Tenu(e.tenus, e.sessions, o) ==> o in e.objets
  {
    hide Tenu, Actif, Double, MinutesJustes, Octets, Ecoutes, Coupures, ReprisesVraies, File, Croissantes;
  }

  lemma Separes(e: Etat)
    requires Inv(e)
    ensures e.sessions.Keys !! e.finies.Keys
  {
    hide Carte, Double, MinutesJustes, Octets, Coupures, ReprisesVraies, File, Croissantes, Issues, Cumul, Global;
  }

  lemma {:induction false} ExecutionDites(es: seq<Etat>, appels: seq<Appel>, i: nat)
    requires Execution(es, appels) && i < |es|
    ensures Dites(es[i].sessions, es[i].finies, appels[..i])
    decreases i
  {
    hide Inv, Pas, Permis;
    if i == 0 {
      assert es[0].sessions == map[] && es[0].finies == map[];
    } else {
      hide Dites;
      ExecutionDites(es, appels, i - 1);
      ExecutionTient(es, appels, i - 1);
      PasDites(es[i - 1], appels[i - 1], appels[..i - 1]);
      assert appels[..i] == appels[..i - 1] + [appels[i - 1]];
    }
  }

  /** How sessions end, by the calls alone: a session has ended when its end was
      called, is open when it was opened and its end was not; ended, it was left by
      the listener if and only if the end of its stream was never called, complete if
      and only if that end and its clean mark both were, cut by the server otherwise. */
  lemma FinsParAppels(es: seq<Etat>, appels: seq<Appel>, i: nat, s: Sess)
    requires Execution(es, appels) && i < |es|
    ensures var e, dits := es[i], appels[..i];
      && (s in e.finies <==> FinSession(s) in dits)
      && (s in e.sessions <==> OuverteDans(s, dits) && FinSession(s) !in dits)
      && (s in e.finies ==> Classe(e.finies[s].fin, s, dits))
      && (forall a :: a in dits && a.Ouverture? && a.s == s ==>
            Conforme(if s in e.sessions then e.sessions[s] else e.finies[s].fiche, a))
  {
    hide Inv, Pas, Permis, Conforme, OuverteDans, Classe, Drapeaux;
    ExecutionDites(es, appels, i);
    ExecutionTient(es, appels, i);
    Separes(es[i]);
    forall a | a in appels[..i] && a.Ouverture? && a.s == s ensures OuverteDans(s, appels[..i]) {
      UneOuverture(appels[..i], a);
    }
  }

  lemma UneOuverture(appels: seq<Appel>, a: Appel)
    requires a in appels && a.Ouverture?
    ensures OuverteDans(a.s, appels)
  {
  }

  // --------------------------------------------------------- what was counted

  /** Bytes a call brings in, in one category. */
  function Entrant(a: Appel, c: Categorie): nat { if a.EntreeDe? && a.c == c then a.n else 0 }

  /** Bytes a call sends out, in one category; those of a session are of the category
      it was opened with. */
  ghost function Sortant(avant: seq<Appel>, a: Appel, c: Categorie): nat {
    if a.SortieDe? && a.c == c then a.n
    else if a.MorceauRendu? && OuverteEn(a.s, c, avant) then a.n
    else 0
  }

  ghost predicate OuverteEn(s: Sess, c: Categorie, appels: seq<Appel>) {
    exists a :: a in appels && a.Ouverture? && a.s == s && a.c == c
  }

  ghost function Entres(appels: seq<Appel>, c: Categorie): nat {
    if appels == [] then 0 else Entres(appels[..|appels| - 1], c) + Entrant(appels[|appels| - 1], c)
  }

  ghost function Sortis(appels: seq<Appel>, c: Categorie): nat {
    if appels == [] then 0 else
    var avant := appels[..|appels| - 1];
    Sortis(avant, c) + Sortant(avant, appels[|appels| - 1], c)
  }

  function NbOuvertures(appels: seq<Appel>): nat {
    if appels == [] then 0
    else NbOuvertures(appels[..|appels| - 1]) + if appels[|appels| - 1].Ouverture? then 1 else 0
  }

  lemma CategorieDite(e: Etat, s: Sess, c: Categorie, appels: seq<Appel>)
    requires Dites(e.sessions, e.finies, appels) && s in e.sessions
    ensures OuverteEn(s, c, appels) <==> e.sessions[s].categorie == c
  {
    assert OuverteDans(s, appels);
    hide Classe, Drapeaux;
  }

  lemma PassesPlus(ms: seq<Mouvement>, m: Mouvement, entrant: bool, c: Categorie)
    ensures Passes(ms + [m], entrant, c) == Passes(ms, entrant, c) + if m.entrant == entrant && m.c == c then m.n else 0
  {
    assert (ms + [m])[..|ms|] == ms;
  }

  lemma PasPasses(e: Etat, a: Appel, appels: seq<Appel>, c: Categorie)
    requires Inv(e) && Permis(e, a) && Dites(e.sessions, e.finies, appels)
    ensures Passes(Pas(e, a).mouvements, true, c) == Passes(e.mouvements, true, c) + Entrant(a, c)
    ensures Passes(Pas(e, a).mouvements, false, c) == Passes(e.mouvements, false, c) + Sortant(appels, a, c)
  {
    hide Inv, Dites, OuvrirSession, Tenu, Clore, Pousser, Serveur, Lacher, Prendre, OuverteEn, Passes, Tomber;
    SessionConnue(e, a);
    match a
    case EntreeDe(o, k, n) =>
      PassesPlus(e.mouvements, Mouvement(true, k, o, n), true, c);
      PassesPlus(e.mouvements, Mouvement(true, k, o, n), false, c);
    case SortieDe(o, k, n) =>
      PassesPlus(e.mouvements, Mouvement(false, k, o, n), true, c);
      PassesPlus(e.mouvements, Mouvement(false, k, o, n), false, c);
    case MorceauRendu(s, n) =>
      var f := e.sessions[s];
      CategorieDite(e, s, c, appels);
      PassesPlus(e.mouvements, Mouvement(false, f.categorie, f.oid, n), true, c);
      PassesPlus(e.mouvements, Mouvement(false, f.categorie, f.oid, n), false, c);
    case Ouverture(s, o, k, cle, horsDebut) => OuvertureSessions(e, s, o, k, cle, horsDebut);
    case _ => MouvementsMemes(e, a);
  }

  lemma MouvementsMemes(e: Etat, a: Appel)
    requires !a.EntreeDe? && !a.SortieDe? && !a.MorceauRendu? && !a.Ouverture?
    ensures Pas(e, a).mouvements == e.mouvements
  {
    hide Pousser, Remis, Restants, Lignes, Noter;
    if a.PousserAuSite? { PousserForme(e, a.jeton, a.rs); }
  }

  lemma {:induction false} PassesDits(es: seq<Etat>, appels: seq<Appel>, i: nat, c: Categorie)
    requires Execution(es, appels) && i < |es|
    ensures Passes(es[i].mouvements, true, c) == Entres(appels[..i], c)
    ensures Passes(es[i].mouvements, false, c) == Sortis(appels[..i], c)
    decreases i
  {
    hide Inv, Pas, Permis, Dites, Entrant, Sortant;
    if i > 0 {
      var n := i - 1;
      PassesDits(es, appels, n, c);
      ExecutionTient(es, appels, n);
      ExecutionDites(es, appels, n);
      PasPasses(es[n], appels[n], appels[..n], c);
      assert appels[..i][..n] == appels[..n];
    }
  }

  /** Sessions opened so far are as many as the calls that opened one. */
  lemma {:induction false} NombreDit(es: seq<Etat>, appels: seq<Appel>, i: nat)
    requires Execution(es, appels) && i < |es|
    ensures |es[i].sessions| + |es[i].finies| == NbOuvertures(appels[..i])
    decreases i
  {
    hide Inv, Pas, Permis;
    if i > 0 {
      var n := i - 1;
      NombreDit(es, appels, n);
      ExecutionTient(es, appels, n);
      assert Permis(es[n], appels[n]) && es[i] == Pas(es[n], appels[n]);
      PasNombre(es[n], appels[n]);
      assert appels[..i][..n] == appels[..n];
    }
  }

  lemma PasNombre(e: Etat, a: Appel)
    requires Inv(e) && Permis(e, a)
    ensures |Pas(e, a).sessions| + |Pas(e, a).finies| == |e.sessions| + |e.finies| + if a.Ouverture? then 1 else 0
  {
    hide Inv, OuvrirSession, Tenu, Clore, Pousser, Entrer, Sortir, Serveur, Lacher, Prendre;
    if Etranger(a) {
      MemesSessions(e, a);
    } else {
      SessionConnue(e, a);
      match a
      case Ouverture(s, o, c, cle, horsDebut) =>
        OuvertureSessions(e, s, o, c, cle, horsDebut);
        TailleMaj(e.sessions, s, Fiche(o, c, cle, e.heure, false, false));
      case FinDuFlux(s) => TailleMaj(e.sessions, s, e.sessions[s].(finAtteinte := true));
      case FinPropre(s) => TailleMaj(e.sessions, s, e.sessions[s].(finPropre := true));
      case FinSession(s) =>
        TailleMaj(e.finies, s, Issue(e.sessions[s], e.heure, FinDe(e.sessions[s])));
        TailleMoins(e.sessions, s);
    }
  }

  lemma TailleMaj<V>(m: map<Sess, V>, s: Sess, v: V)
    ensures |m[s := v]| == |m| + if s in m then 0 else 1
  {
    assert m[s := v].Keys == m.Keys + {s};
    assert |m[s := v]| == |m[s := v].Keys| && |m| == |m.Keys|;
  }

  lemma TailleMoins<V>(m: map<Sess, V>, s: Sess)
    requires s in m
    ensures |m - {s}| == |m| - 1
  {
    assert (m - {s}).Keys == m.Keys - {s};
    assert |m - {s}| == |(m - {s}).Keys| && |m| == |m.Keys|;
  }

  // ------------------------------------------------------------------ dates

  ghost predicate OuverteA(es: seq<Etat>, appels: seq<Appel>, i: nat, s: Sess, t: int)
    requires i <= |appels| && i <= |es|
  {
    exists k :: 0 <= k < i && appels[k].Ouverture? && appels[k].s == s && es[k].heure == t
  }

  ghost predicate FinieA(es: seq<Etat>, appels: seq<Appel>, i: nat, s: Sess, t: int)
    requires i <= |appels| && i <= |es|
  {
    exists k :: 0 <= k < i && appels[k] == FinSession(s) && es[k].heure == t
  }

  /** Where a session after a call comes from. */
  lemma PasFiches(e: Etat, a: Appel)
    requires Inv(e) && Permis(e, a)
    ensures var f := Pas(e, a);
      && (forall s :: s in f.sessions ==>
            || (s in e.sessions && f.sessions[s].ouverteA == e.sessions[s].ouverteA)
            || (a.Ouverture? && a.s == s && f.sessions[s].ouverteA == e.heure))
      && (forall s :: s in f.finies ==>
            || (s in e.finies && f.finies[s] == e.finies[s])
            || (&& a == FinSession(s) && s in e.sessions && f.finies[s].t == e.heure
                && f.finies[s].fiche == e.sessions[s]))
  {
    hide Inv, OuvrirSession, Tenu, Clore, Pousser, Entrer, Sortir, Serveur, Lacher, Prendre;
    if Etranger(a) {
      MemesSessions(e, a);
    } else {
      SessionConnue(e, a);
      if a.Ouverture? { OuvertureSessions(e, a.s, a.o, a.c, a.cle, a.horsDebut); }
    }
  }

  /** A session is dated by the call that opened it, its end by the call that ended
      it. */
  lemma {:induction false} DatesDites(es: seq<Etat>, appels: seq<Appel>, i: nat)
    requires Execution(es, appels) && i < |es|
    ensures forall s :: s in es[i].sessions ==> OuverteA(es, appels, i, s, es[i].sessions[s].ouverteA)
    ensures forall s :: s in es[i].finies ==>
              OuverteA(es, appels, i, s, es[i].finies[s].fiche.ouverteA) && FinieA(es, appels, i, s, es[i].finies[s].t)
    decreases i
  {
    hide Inv, Pas, Permis;
    if i > 0 {
      var n := i - 1;
      DatesDites(es, appels, n);
      ExecutionTient(es, appels, n);
      assert Permis(es[n], appels[n]) && es[i] == Pas(es[n], appels[n]);
      PasFiches(es[n], appels[n]);
      forall s, t | OuverteA(es, appels, n, s, t) ensures OuverteA(es, appels, i, s, t) {
      }
      forall s, t | FinieA(es, appels, n, s, t) ensures FinieA(es, appels, i, s, t) {
      }
    }
  }

  // ---------------------------------------------------------------- handles

  /** Handles on counters a call gives, less those it takes: a request for a server
      and a copy give one, letting go and opening a session take one. */
  ghost function Donnees(f: Etat, a: Appel, o: Oid): int {
    if a.DemanderServeur? then (if a.sid in f.serveurs && f.serveurs[a.sid] == o then 1 else 0)
    else if a == ClonerServeur(o) then 1
    else if a == LacherServeur(o) || (a.Ouverture? && a.o == o) then -1
    else 0
  }

  ghost function Poignees(es: seq<Etat>, appels: seq<Appel>, o: Oid): int
    requires |es| == |appels| + 1
  {
    if appels == [] then 0 else
    var n := |appels| - 1;
    Poignees(es[..n + 1], appels[..n], o) + Donnees(es[n + 1], appels[n], o)
  }

  function Tenues(tenus: map<Oid, nat>, o: Oid): nat { if o in tenus then tenus[o] else 0 }

  lemma TenuesConnues(e: Etat, o: Oid)
    requires Inv(e) && o !in e.objets
    ensures Tenues(e.tenus, o) == 0
  {
    TenusConnus(e);
    hide Inv;
    assert !Tenu(e.tenus, e.sessions, o);
  }

  lemma PasTenues(e: Etat, a: Appel, o: Oid)
    requires Inv(e) && Permis(e, a)
    ensures Tenues(Pas(e, a).tenus, o) == Tenues(e.tenus, o) + Donnees(Pas(e, a), a, o)
  {
    hide Inv, Tenu, Pousser, Clore, Tomber, OuvrirSession, Serveur, Entrer, Sortir;
    SessionConnue(e, a);
    match a
    case DemanderServeur(sid, neuf) => DemandeTenus(e, sid, neuf, o);
    case Ouverture(s, p, c, cle, horsDebut) => OuvertureTenus(e, s, p, c, cle, horsDebut);
    case LacherServeur(_) =>
    case ClonerServeur(_) =>
    case _ => AutresTenus(e, a);
  }

  lemma DemandeTenus(e: Etat, sid: Sid, neuf: Oid, o: Oid)
    requires Inv(e) && neuf !in e.objets
    ensures var f := Serveur(e, sid, neuf);
      Tenues(f.tenus, o) == Tenues(e.tenus, o) + if sid in f.serveurs && f.serveurs[sid] == o then 1 else 0
  {
    hide Inv;
    TenuesConnues(e, neuf);
  }

  lemma OuvertureTenus(e: Etat, s: Sess, o: Oid, c: Categorie, cle: Cle, horsDebut: bool)
    requires o in e.objets
    ensures OuvrirSession(e, s, o, c, cle, horsDebut).tenus == Lacher(e, o).tenus
  {
    hide Reprendre;
    ReprendreTenus(OuvrirNeuve(Lacher(e, o), s, Fiche(o, c, cle, e.heure, false, false)), s, o, cle);
  }

  lemma AutresTenus(e: Etat, a: Appel)
    requires !a.DemanderServeur? && !a.LacherServeur? && !a.ClonerServeur? && !a.Ouverture?
    ensures Pas(e, a).tenus == e.tenus
  {
    hide Pousser, Remis, Restants, Lignes, Noter;
    if a.PousserAuSite? { PousserForme(e, a.jeton, a.rs); }
  }

  lemma ReprendreTenus(e: Etat, s: Sess, o: Oid, cle: Cle)
    requires o in e.objets
    ensures Reprendre(e, s, o, cle).tenus == e.tenus
  {
    hide Recentes, Place;
  }

  /** The handles held outside the map and the sessions are those the calls gave and
      did not take back. */
  lemma {:induction false} PoigneesDites(es: seq<Etat>, appels: seq<Appel>, i: nat, o: Oid)
    requires Execution(es, appels) && i < |es|
    ensures Tenues(es[i].tenus, o) == Poignees(es[..i + 1], appels[..i], o)
    decreases i
  {
    hide Inv, Pas, Permis, Donnees;
    if i > 0 {
      var n := i - 1;
      PoigneesDites(es, appels, n, o);
      ExecutionTient(es, appels, n);
      assert Permis(es[n], appels[n]) && es[i] == Pas(es[n], appels[n]);
      PasTenues(es[n], appels[n], o);
      assert appels[..i][..n] == appels[..n] && es[..i + 1][..n + 1] == es[..n + 1];
    }
  }
}
