/** What the traffic ledger guarantees, over every run. */
module TraficTheoremes {
  import opened Commun
  import opened TraficSpec
  import opened TraficProofs
  import A = TraficAppels

  /** An amount ever counted globally: in the minutes closed, and still live. */
  ghost function Total(e: Etat, x: Mesure): nat { Cumul(e.closes, x) + Global(e.vif, x) }

  // ----------------------------------------------------------------- bytes

  /** Byte ledger. Whatever the clock, every byte the calls brought in or sent out is
      in a closed minute or in the live counters, under its category; and when
      minutes were closed in increasing order, in an accepted minute, a waiting one,
      one dropped by the bound of the queue, or the live counters. */
  lemma OctetsConserves(es: seq<Etat>, appels: seq<Appel>, i: nat, c: Categorie)
    requires Execution(es, appels) && i < |es|
    ensures var e := es[i];
      && A.Entres(appels[..i], c) == Passes(e.mouvements, true, c) == Total(e, Entrees(c))
      && A.Sortis(appels[..i], c) == Passes(e.mouvements, false, c) == Total(e, Sorties(c))
      && (Croissantes(e.closes) ==>
            && Passes(e.mouvements, true, c) == Cumul(e.acceptees, Entrees(c)) + Cumul(e.minutes, Entrees(c))
                 + Cumul(e.perdues, Entrees(c)) + e.vif.entree.De(c)
            && Passes(e.mouvements, false, c) == Cumul(e.acceptees, Sorties(c)) + Cumul(e.minutes, Sorties(c))
                 + Cumul(e.perdues, Sorties(c)) + e.vif.sortie.De(c))
  {
    var e := es[i];
    ExecutionTient(es, appels, i);
    if Croissantes(e.closes) {
      FileCumul(e, Entrees(c));
      FileCumul(e, Sorties(c));
    }
    OctetsDe(e, c);
    A.PassesDits(es, appels, i, c);
    hide Execution, Inv, Cumul, Passes, A.Entres, A.Sortis;
  }

  lemma OctetsDe(e: Etat, c: Categorie)
    requires Inv(e)
    ensures Passes(e.mouvements, true, c) == Total(e, Entrees(c))
    ensures Passes(e.mouvements, false, c) == Total(e, Sorties(c))
  {
    assert Octets(e.mouvements, e.closes, e.vif);
    hide Inv, Cumul, Passes;
  }

  lemma FileCumul(e: Etat, x: Mesure)
    requires Inv(e) && Croissantes(e.closes)
    ensures Cumul(e.closes, x) == Cumul(e.acceptees, x) + Cumul(e.minutes, x) + Cumul(e.perdues, x)
  {
    hide *;
    FileEntiere(e);
    FileSortie(e, x);
    var k := |e.closes| - |e.minutes|;
    assert e.closes == e.closes[..k] + e.minutes;
    CumulPlus(e.closes[..k], e.minutes, x);
  }

  lemma FileSortie(e: Etat, x: Mesure)
    requires Inv(e) && Croissantes(e.closes) && |e.minutes| <= |e.closes|
    ensures Cumul(e.acceptees, x) + Cumul(e.perdues, x) == Cumul(e.closes[..|e.closes| - |e.minutes|], x)
  {
    hide Inv, Cumul, Croissantes;
    FileDe(e);
  }

  /** Each minute closed is waiting, accepted or dropped, exactly once, and the
      queue, never longer than its bound, holds the last ones in order. */
  lemma MinutesConservees(es: seq<Etat>, appels: seq<Appel>, i: nat)
    requires Execution(es, appels) && i < |es| && Croissantes(es[i].closes)
    ensures var e := es[i];
      && |e.minutes| <= MINUTES_GARDEES && |e.minutes| <= |e.closes|
      && e.minutes == e.closes[|e.closes| - |e.minutes|..]
      && multiset(e.closes) == multiset(e.acceptees) + multiset(e.perdues) + multiset(e.minutes)
  {
    hide Inv, Execution, Croissantes;
    ExecutionTient(es, appels, i);
    FileEntiere(es[i]);
  }

  lemma FileDe(e: Etat)
    requires Inv(e) && Croissantes(e.closes)
    ensures File(e.minutes, e.closes, e.acceptees, e.perdues)
  {
    hide Carte, Double, MinutesJustes, Octets, Ecoutes, Coupures, ReprisesVraies, File, Croissantes;
  }

  lemma FileEntiere(e: Etat)
    requires Inv(e) && Croissantes(e.closes)
    ensures |e.minutes| <= MINUTES_GARDEES && |e.minutes| <= |e.closes|
    ensures e.minutes == e.closes[|e.closes| - |e.minutes|..]
    ensures multiset(e.closes) == multiset(e.acceptees) + multiset(e.perdues) + multiset(e.minutes)
  {
    hide Inv, Cumul, Croissantes;
    FileDe(e);
    var k := |e.closes| - |e.minutes|;
    assert e.closes == e.closes[..k] + e.minutes;
  }

  /** Double entry: in every closed minute, bytes in, bytes out, stream bytes,
      sessions and resumes are the sums of the rows of the servers. */
  lemma DoubleEcriture(es: seq<Etat>, appels: seq<Appel>, i: nat, m: Minute, col: Colonne)
    requires Execution(es, appels) && i < |es| && m in es[i].closes
    ensures DansGlobaux(m.globaux, col) == Somme(Releves(m.servers, col))
  {
    ExecutionTient(es, appels, i);
    assert MinutesJustes(es[i].closes);
    hide Inv, Execution;
    assert MinuteJuste(m);
  }

  /** A handle always leads to the counters the map holds for that server; and
      counters outside the map are at zero, with nobody holding them. */
  lemma PoigneesDansLaCarte(es: seq<Etat>, appels: seq<Appel>, i: nat, o: Oid)
    requires Execution(es, appels) && i < |es| && o in es[i].objets
    ensures var e := es[i];
      var dedans := e.objets[o].sid in e.serveurs && e.serveurs[e.objets[o].sid] == o;
      && (Tenu(e.tenus, e.sessions, o) ==> dedans)
      && (!dedans ==> !Actif(e.objets[o]) && !Tenu(e.tenus, e.sessions, o))
  {
    ExecutionTient(es, appels, i);
    assert Carte(es[i].objets, es[i].serveurs, es[i].tenus, es[i].sessions);
    hide Inv, Execution, Tenu, Actif;
  }

  /** A server leaves the map only at the close of a minute in which it counted
      nothing, and held by nobody. */
  lemma DepartOisif(es: seq<Etat>, appels: seq<Appel>, i: nat, s: Sid)
    requires Execution(es, appels) && i < |appels| && s in es[i].serveurs && s !in es[i + 1].serveurs
    ensures appels[i].CloreMinute? && es[i].serveurs[s] in es[i].objets
    ensures !Actif(es[i].objets[es[i].serveurs[s]]) && !Tenu(es[i].tenus, es[i].sessions, es[i].serveurs[s])
  {
    hide Inv, Pas, Permis, Initial, Tenu, Actif;
    ExecutionTient(es, appels, i);
    assert es[i + 1] == Pas(es[i], appels[i]);
    hide Execution;
    DepartUn(es[i], appels[i], s);
  }

  lemma DepartUn(e: Etat, a: Appel, s: Sid)
    requires Inv(e) && s in e.serveurs && s !in Pas(e, a).serveurs
    ensures a.CloreMinute? && e.serveurs[s] in e.objets
    ensures !Actif(e.objets[e.serveurs[s]]) && !Tenu(e.tenus, e.sessions, e.serveurs[s])
  {
    Nommes(e);
    hide Inv, Tenu, Actif;
    if a.CloreMinute? {
      CarteClose(e, a.minute, s);
    } else {
      CarteGarde(e, a, s);
    }
  }

  lemma CarteClose(e: Etat, minute: int, s: Sid)
    requires BienNommes(e.objets, e.serveurs) && s in e.serveurs && s !in Clore(e, minute).serveurs
    ensures !Actif(e.objets[e.serveurs[s]]) && !Tenu(e.tenus, e.sessions, e.serveurs[s])
  {
    assert Clore(e, minute).serveurs == Restants(e);
    hide Tenu, Actif, Clore;
  }

  lemma CarteGarde(e: Etat, a: Appel, s: Sid)
    requires s in e.serveurs && !a.CloreMinute?
    ensures s in Pas(e, a).serveurs
  {
    hide Pousser, Recentes, Place, Noter, Clore, Entrer, Sortir, FinDe, Compter;
    if a.PousserAuSite? { PousserForme(e, a.jeton, a.rs); }
    if a.EntreeDe? || a.SortieDe? || a.MorceauRendu? { CompterServeurs(e); }
  }

  lemma CompterServeurs(e: Etat)
    ensures forall o, c, n :: o in e.objets ==>
              Entrer(e, o, c, n).serveurs == e.serveurs && Sortir(e, o, c, n).serveurs == e.serveurs
  {
  }

  // ----------------------------------------------------------- the roll-over

  /** Counters that have counted something. */
  predicate Occupe(k: Compteurs) {
    || (exists c: Categorie :: k.entree.De(c) > 0 || k.sortie.De(c) > 0)
    || k.sessions > 0 || k.ecoute > 0 || k.reprises > 0
  }

  lemma OccupeActif(k: Compteurs)
    ensures Occupe(k) <==> Actif(k)
  {
    if Actif(k) && k.sessions == 0 && k.ecoute == 0 && k.reprises == 0 {
      assert k.entree.De(Audio) > 0 || k.entree.De(Cercle) > 0 || k.entree.De(Api) > 0 || k.entree.De(Images) > 0
          || k.sortie.De(Audio) > 0 || k.sortie.De(Cercle) > 0 || k.sortie.De(Api) > 0 || k.sortie.De(Images) > 0;
    }
  }

  /** The row of a server. */
  predicate LigneJuste(l: Ligne, k: Compteurs) {
    && l.bytesIn == k.entree.audio + k.entree.cercle + k.entree.api + k.entree.images
    && l.bytesOut == k.sortie.audio + k.sortie.cercle + k.sortie.api + k.sortie.images
    && l.streamOut == k.sortie.audio + k.sortie.cercle
    && l.sessions == k.sessions && l.listening == k.ecoute && l.resumes == k.reprises
  }

  /** Counters read, or left as they were. */
  predicate Remise(k: Compteurs, k': Compteurs, lus: bool) {
    k' == if lus then Compteurs(k.sid, Quatre(0, 0, 0, 0), Quatre(0, 0, 0, 0), 0, 0, 0, k.coupures) else k
  }

  /** The close of a minute, in full: a row for each server of the map that counted
      something, and no other; every counter of the map and of the whole back to
      zero, the cuts kept; a server stays if and only if it had a row or is held; and
      the queue keeps its last 1440 minutes. */
  lemma ClotureExacte(e: Etat, minute: int)
    requires forall s :: s in e.serveurs ==> e.serveurs[s] in e.objets
    ensures var f := Clore(e, minute);
      && |f.closes| == |e.closes| + 1 && f.closes[..|e.closes|] == e.closes
      && var m := f.closes[|e.closes|];
      && m.minute == minute && m.globaux == e.vif
      && (forall s :: s in m.servers <==> s in e.serveurs && Occupe(e.objets[e.serveurs[s]]))
      && (forall s :: s in m.servers ==> LigneJuste(m.servers[s], e.objets[e.serveurs[s]]))
      && f.vif == Globaux(Quatre(0, 0, 0, 0), Quatre(0, 0, 0, 0), 0, 0, 0, 0, 0)
      && f.objets.Keys == e.objets.Keys
      && (forall o :: o in e.objets ==>
            Remise(e.objets[o], f.objets[o], exists s :: s in e.serveurs && e.serveurs[s] == o))
      && (forall s :: s in f.serveurs <==>
            s in e.serveurs && (s in m.servers || Tenu(e.tenus, e.sessions, e.serveurs[s])))
      && (forall s :: s in f.serveurs ==> f.serveurs[s] == e.serveurs[s])
      && f.minutes == (if |e.minutes| < 1440 then e.minutes else e.minutes[|e.minutes| - 1439..]) + [m]
      && f.perdues == e.perdues + if |e.minutes| < 1440 then [] else e.minutes[..|e.minutes| - 1439]
  {
    hide Occupe, LigneJuste, Remise, Actif, Tenu, LigneDe, Vide;
    forall k ensures Occupe(k) <==> Actif(k) {
      OccupeActif(k);
    }
    forall k ensures LigneJuste(LigneDe(k), k) && Remise(k, Vide(k), true) && Remise(k, k, false) {
      LigneLue(k);
    }
    forall o ensures o in e.serveurs.Values <==> exists s :: s in e.serveurs && e.serveurs[s] == o {
    }
    hide Remis, Restants, Lignes;
    ClotureServeurs(e);
    assert e.minutes[0..] == e.minutes && e.minutes[..0] == [];
  }

  lemma LigneLue(k: Compteurs)
    ensures LigneJuste(LigneDe(k), k) && Remise(k, Vide(k), true) && Remise(k, k, false)
  {
  }

  lemma ClotureServeurs(e: Etat)
    requires forall s :: s in e.serveurs ==> e.serveurs[s] in e.objets
    ensures var l := Lignes(e.objets, e.serveurs);
      && (forall s :: s in l <==> s in e.serveurs && Actif(e.objets[e.serveurs[s]]))
      && (forall s :: s in l ==> l[s] == LigneDe(e.objets[e.serveurs[s]]))
    ensures var r := Remis(e.objets, e.serveurs);
      && r.Keys == e.objets.Keys
      && forall o :: o in e.objets ==> r[o] == if o in e.serveurs.Values then Vide(e.objets[o]) else e.objets[o]
    ensures var r := Restants(e);
      && (forall s :: s in r <==> s in e.serveurs &&
                                  (Actif(e.objets[e.serveurs[s]]) || Tenu(e.tenus, e.sessions, e.serveurs[s])))
      && (forall s :: s in r ==> r[s] == e.serveurs[s])
  {
    hide Actif, Tenu, LigneDe, Vide;
  }

  // -------------------------------------------------------------- listening

  lemma TroisFins(finies: map<Sess, Issue>)
    ensures |finies| == |Issues(finies, Complete)| + |Issues(finies, InterrompueParLeClient)|
                        + |Issues(finies, CoupeeCoteServeur)|
    ensures finies.Keys == Issues(finies, Complete) + Issues(finies, InterrompueParLeClient)
                           + Issues(finies, CoupeeCoteServeur)
  {
    assert finies.Keys ==
           Issues(finies, Complete) + (Issues(finies, InterrompueParLeClient) + Issues(finies, CoupeeCoteServeur));
    assert |finies| == |finies.Keys|;
  }

  /** The way a session ended as the calls class it. */
  predicate ParAppels(fin: Fin, s: Sess, dits: seq<Appel>) {
    match fin
    case Complete => FinDuFlux(s) in dits && FinPropre(s) in dits
    case InterrompueParLeClient => FinDuFlux(s) !in dits
    case CoupeeCoteServeur => FinDuFlux(s) in dits && FinPropre(s) !in dits
  }

  /** Listening ledger: sessions started, as many as the calls that opened one, less
      those ended in each of the three ways, are the sessions open; and the counters
      of each way count the sessions the calls ended that way. */
  lemma EcoutesConservees(es: seq<Etat>, appels: seq<Appel>, i: nat)
    requires Execution(es, appels) && i < |es|
    ensures var e := es[i];
      && |e.sessions| == Total(e, Ouvertes) - Total(e, Terminees(Complete))
                         - Total(e, Terminees(InterrompueParLeClient)) - Total(e, Terminees(CoupeeCoteServeur))
      && Total(e, Ouvertes) == A.NbOuvertures(appels[..i])
      && (forall fin: Fin :: Total(e, Terminees(fin)) == |Issues(e.finies, fin)|)
      && (forall fin: Fin :: Issues(e.finies, fin) == set s | s in e.finies && ParAppels(fin, s, appels[..i]))
      && (forall s :: s in e.finies <==> FinSession(s) in appels[..i])
      && e.sessions.Keys !! e.finies.Keys
  {
    hide Inv, Pas, Permis, Cumul, Issues, ParAppels;
    ExecutionTient(es, appels, i);
    EcoutesDe(es[i]);
    A.NombreDit(es, appels, i);
    IssuesDites(es, appels, i);
  }

  lemma EcoutesDe(e: Etat)
    requires Inv(e)
    ensures |e.sessions| == Total(e, Ouvertes) - Total(e, Terminees(Complete))
                            - Total(e, Terminees(InterrompueParLeClient)) - Total(e, Terminees(CoupeeCoteServeur))
    ensures Total(e, Ouvertes) == |e.sessions| + |e.finies|
    ensures forall fin: Fin :: Total(e, Terminees(fin)) == |Issues(e.finies, fin)|
    ensures e.sessions.Keys !! e.finies.Keys
  {
    hide Carte, Double, MinutesJustes, Octets, Coupures, ReprisesVraies, File, Croissantes, Issues, Cumul;
    TroisFins(e.finies);
  }

  lemma IssuesDites(es: seq<Etat>, appels: seq<Appel>, i: nat)
    requires Execution(es, appels) && i < |es|
    ensures forall fin: Fin :: Issues(es[i].finies, fin) == set s | s in es[i].finies && ParAppels(fin, s, appels[..i])
    ensures forall s :: s in es[i].finies <==> FinSession(s) in appels[..i]
  {
    hide Pas, Permis, A.Conforme, A.OuverteDans;
    A.ExecutionDites(es, appels, i);
  }

  /** Resumes: each consumed an end, not complete, of the same stream on the same
      server less than sixty seconds before; no end was consumed twice and no
      session resumes two ends; so there are never more resumes than such ends. */
  lemma ReprisesBornees(es: seq<Etat>, appels: seq<Appel>, i: nat)
    requires Execution(es, appels) && i < |es|
    ensures var e := es[i];
      && (forall s :: s in e.reprises ==> RepriseVraie(s, e.reprises[s], e.sessions, e.finies))
      && (forall s, r :: s in e.reprises && r in e.reprises && e.reprises[s] == e.reprises[r] ==> s == r)
      && Total(e, Reprises) == |e.reprises|
      && Total(e, Reprises) <= Total(e, Terminees(InterrompueParLeClient)) + Total(e, Terminees(CoupeeCoteServeur))
  {
    var e := es[i];
    ExecutionTient(es, appels, i);
    assert ReprisesVraies(e.sessions, e.finies, e.reprises) &&
           Ecoutes(e.sessions, e.finies, e.reprises, e.closes, e.vif);
    var fins := Issues(e.finies, InterrompueParLeClient) + Issues(e.finies, CoupeeCoteServeur);
    assert e.reprises.Keys <= fins;
    hide Inv, Execution, Cumul;
    CardinalSous(e.reprises.Keys, fins);
    assert |e.reprises| == |e.reprises.Keys|;
  }

  /** Each server keeps at most thirty-two cuts, all real and none consumed. */
  lemma CoupuresGardees(es: seq<Etat>, appels: seq<Appel>, i: nat, o: Oid)
    requires Execution(es, appels) && i < |es| && o in es[i].objets
    ensures CoupuresVraies(es[i].objets[o].coupures, o, es[i].finies, es[i].reprises)
  {
    ExecutionTient(es, appels, i);
    CoupuresDe(es[i], o);
  }

  lemma UnPasGarde(e: Etat, a: Appel, s: Sess)
    requires Permis(e, a) && s in e.finies && e.sessions.Keys !! e.finies.Keys
    ensures s in Pas(e, a).finies && Pas(e, a).finies[s] == e.finies[s]
  {
    if a.PousserAuSite? { PousserForme(e, a.jeton, a.rs); }
    if a.FinSession? { assert a.s != s; }
    hide Pousser, Recentes, Place, Noter, Remis, Restants, Lignes, Tenu;
  }

  /** A session ends once: how it ended never changes, and it is never open
      again. */
  lemma {:induction false} FinUneFois(es: seq<Etat>, appels: seq<Appel>, i: nat, k: nat, s: Sess)
    requires Execution(es, appels) && i <= k < |es| && s in es[i].finies
    ensures s in es[k].finies && es[k].finies[s] == es[i].finies[s] && s !in es[k].sessions
    decreases k
  {
    hide Inv, Pas, Permis, Initial;
    if i < k {
      FinUneFois(es, appels, i, k - 1, s);
      UnPasFin(es, appels, k - 1, s);
    }
    hide Execution;
    ExecutionTient(es, appels, k);
    Separees(es[k]);
  }

  lemma UnPasFin(es: seq<Etat>, appels: seq<Appel>, k: nat, s: Sess)
    requires Execution(es, appels) && k + 1 < |es| && s in es[k].finies
    ensures s in es[k + 1].finies && es[k + 1].finies[s] == es[k].finies[s]
  {
    hide Inv, Pas, Permis, Initial;
    ExecutionTient(es, appels, k);
    Separees(es[k]);
    assert Permis(es[k], appels[k]) && es[k + 1] == Pas(es[k], appels[k]);
    UnPasGarde(es[k], appels[k], s);
  }

  lemma Separees(e: Etat)
    requires Inv(e)
    ensures e.sessions.Keys !! e.finies.Keys
  {
    assert Ecoutes(e.sessions, e.finies, e.reprises, e.closes, e.vif);
    hide Inv, Cumul, Issues;
  }

  // ---------------------------------------------------------------- sending

  /** What a send leaves: the first `k` minutes accepted, in order, the others
      still queued. */
  ghost predicate Envoyees(e: Etat, f: Etat, k: nat) {
    k <= |e.minutes| && f.minutes == e.minutes[k..] && f.acceptees == e.acceptees + e.minutes[..k]
  }

  lemma EnvoyeesEnsuite(e: Etat, f: Etat, g: Etat, n: nat, k: nat)
    requires Envoyees(e, f, n) && Envoyees(f, g, k)
    ensures Envoyees(e, g, n + k)
  {
    assert e.minutes[n..][k..] == e.minutes[n + k..];
    assert e.minutes[..n + k] == e.minutes[..n] + e.minutes[n..][..k];
  }

  /** A status from 200 to 299. */
  predicate Reussie(r: Reponse) { r.Statut? && 200 <= r.code <= 299 }

  /** The answers that succeed in a row. */
  function Reussites(rs: seq<Reponse>): (j: nat)
    ensures j <= |rs| && (forall i :: 0 <= i < j ==> Reussie(rs[i])) && (j < |rs| ==> !Reussie(rs[j]))
  {
    if rs == [] || !Reussie(rs[0]) then 0 else 1 + Reussites(rs[1..])
  }

  /** The first answer that does not succeed, none when the site says nothing. */
  function Refus(rs: seq<Reponse>): Option<nat> {
    var j := Reussites(rs);
    if j < |rs| && rs[j].Statut? then Some(rs[j].code) else None
  }

  /** How many of `n` minutes go out. */
  function Partent(n: nat, rs: seq<Reponse>): (k: nat)
    ensures k <= n
  {
    Min(n, 120 * Reussites(rs))
  }

  function Resultat(n: nat, rs: seq<Reponse>, acceptees: nat): Envoi {
    if Partent(n, rs) < n then Echec(Refus(rs)) else if acceptees + n == 0 then Rien else Accepte(acceptees + n)
  }

  lemma UnPaquet(n: nat, rs: seq<Reponse>, acceptees: nat)
    requires n > 0 && rs != [] && Reussie(rs[0])
    ensures var p := Min(n, MINUTES_PAR_ENVOI);
      && Tours(n) > 0 && Tours(n - p) == Tours(n) - 1
      && Partent(n, rs) == p + Partent(n - p, rs[1..])
      && Resultat(n, rs, acceptees) == Resultat(n - p, rs[1..], acceptees + p)
  {
    var j := Reussites(rs[1..]);
    assert Reussites(rs) == 1 + j;
    assert 1 + j < |rs| ==> rs[1 + j] == rs[1..][j];
  }

  lemma PaquetAccepte(e: Etat)
    requires Croissantes(e.minutes)
    ensures var n := |Paquet(e.minutes)|; Envoyees(e, Acquitte(e), n) && Croissantes(Acquitte(e).minutes)
  {
    var n := |Paquet(e.minutes)|;
    CroissantesSepare(e.minutes, n);
    CroissantesSuite(e.minutes, n);
    hide Croissantes, Retenues, Ids;
  }

  lemma PaquetsArret(e: Etat, tours: nat, rs: seq<Reponse>, acceptees: nat)
    requires tours == Tours(|e.minutes|) && (e.minutes == [] || rs == [] || !Reussie(rs[0]))
    ensures Envoyees(e, Paquets(e, tours, rs, acceptees).0, Partent(|e.minutes|, rs))
    ensures Paquets(e, tours, rs, acceptees).1 == Resultat(|e.minutes|, rs, acceptees)
  {
    assert e.minutes[0..] == e.minutes && e.acceptees + e.minutes[..0] == e.acceptees;
    hide Retenues, Ids;
  }

  lemma PaquetsSuite(e: Etat, tours: nat, rs: seq<Reponse>, acceptees: nat)
    requires tours > 0 && e.minutes != [] && rs != [] && Reussie(rs[0])
    ensures Paquets(e, tours, rs, acceptees)
         == Paquets(Acquitte(e), tours - 1, rs[1..], acceptees + |Paquet(e.minutes)|)
  {
    hide Retenues, Ids;
  }

  lemma PremierPaquet(e: Etat, tours: nat, rs: seq<Reponse>, acceptees: nat) returns (f: Etat, p: nat)
    requires Croissantes(e.minutes) && tours == Tours(|e.minutes|)
    requires e.minutes != [] && rs != [] && Reussie(rs[0])
    ensures tours > 0 && p <= |e.minutes| && |f.minutes| == |e.minutes| - p && tours - 1 == Tours(|f.minutes|)
    ensures Envoyees(e, f, p) && Croissantes(f.minutes)
    ensures Partent(|e.minutes|, rs) == p + Partent(|f.minutes|, rs[1..])
    ensures Resultat(|e.minutes|, rs, acceptees) == Resultat(|f.minutes|, rs[1..], acceptees + p)
    ensures Paquets(e, tours, rs, acceptees) == Paquets(f, tours - 1, rs[1..], acceptees + p)
  {
    f, p := Acquitte(e), |Paquet(e.minutes)|;
    UnPaquet(|e.minutes|, rs, acceptees);
    PaquetAccepte(e);
    PaquetsSuite(e, tours, rs, acceptees);
    assert p == Min(|e.minutes|, MINUTES_PAR_ENVOI) && |f.minutes| == |e.minutes| - p;
    hide *;
  }

  lemma {:induction false} PaquetsBilan(e: Etat, tours: nat, rs: seq<Reponse>, acceptees: nat)
    requires Croissantes(e.minutes) && tours == Tours(|e.minutes|)
    ensures Envoyees(e, Paquets(e, tours, rs, acceptees).0, Partent(|e.minutes|, rs))
    ensures Paquets(e, tours, rs, acceptees).1 == Resultat(|e.minutes|, rs, acceptees)
    decreases tours, 1
  {
    hide *;
    if e.minutes == [] || rs == [] || !Reussie(rs[0]) {
      PaquetsArret(e, tours, rs, acceptees);
    } else {
      var f, p := PremierPaquet(e, tours, rs, acceptees);
      BilanSuite(e, f, |f.minutes|, p, tours - 1, rs[1..], acceptees + p);
    }
  }

  /** The first packet, then the rest. */
  lemma {:induction false} BilanSuite(e: Etat, f: Etat, n: nat, p: nat, tours: nat, rs: seq<Reponse>, acceptees: nat)
    requires Envoyees(e, f, p) && Croissantes(f.minutes) && n == |f.minutes| && tours == Tours(n)
    ensures Envoyees(e, Paquets(f, tours, rs, acceptees).0, p + Partent(n, rs))
    ensures Paquets(f, tours, rs, acceptees).1 == Resultat(n, rs, acceptees)
    decreases tours, 2
  {
    hide *;
    PaquetsBilan(f, tours, rs, acceptees);
    EnvoyeesEnsuite(e, f, Paquets(f, tours, rs, acceptees).0, p, Partent(n, rs));
  }

  /** A send, in full: without a token nothing is done; otherwise one packet goes
      out for each answer that succeeds in a row, in order, until the queue is
      empty or an answer fails. A failed send leaves the end of the queue; a full
      success empties it. */
  lemma EnvoiExact(e: Etat, jeton: bool, rs: seq<Reponse>)
    requires Croissantes(e.minutes)
    ensures var (f, r) := Pousser(e, jeton, rs);
      var n := |e.minutes|;
      var k := if jeton then Partent(n, rs) else 0;
      && Envoyees(e, f, k)
      && (k == n > 0 ==> r == Accepte(n) && f.minutes == [])
      && (!jeton || n == 0 ==> r == Rien)
      && (jeton && k < n ==> r == Echec(Refus(rs)) && k == 120 * Reussites(rs))
  {
    hide Paquets, Croissantes;
    if jeton {
      PaquetsBilan(e, Tours(|e.minutes|), rs, 0);
    } else {
      assert e.minutes[0..] == e.minutes && e.acceptees + e.minutes[..0] == e.acceptees;
    }
  }

  /** The limit: were two minutes to bear one number (a clock set back), accepting
      a packet that holds the first would lose the second, never sent. */
  lemma MinuteJamaisEnvoyee(m: Minute)
    ensures var file := seq(MINUTES_PAR_ENVOI + 1, i => m.(minute := if i == MINUTES_PAR_ENVOI then 0 else 60 * i));
      Retenues(file, Ids(Paquet(file))) == []
  {
    var file := seq(MINUTES_PAR_ENVOI + 1, i => m.(minute := if i == MINUTES_PAR_ENVOI then 0 else 60 * i));
    var ids := Ids(Paquet(file));
    assert ids[0] == 0;
    forall i | 0 <= i < |file| ensures Designe(ids, file[i]) {
      if i < MINUTES_PAR_ENVOI { assert ids[i] == file[i].minute; }
    }
    RetenuesRien(file, ids);
  }

  // ------------------------------------------------------------ the clock

  /** The loop reads the clock, sleeps to the next minute, closes the one before. */
  function Prochaine(maintenant: nat): nat { (maintenant / 60 + 1) * 60 }

  /** With a clock that does not go back and a sleep that lasts as asked, minutes
      are closed in increasing order. */
  lemma BoucleCroissante(lectures: seq<nat>, ms: seq<Minute>)
    requires |ms| == |lectures| && forall i :: 0 <= i < |ms| ==> ms[i].minute == Prochaine(lectures[i]) - 60
    requires forall i :: 0 < i < |lectures| ==> Prochaine(lectures[i - 1]) <= lectures[i]
    ensures Croissantes(ms)
  {
    forall i, j | 0 <= i < j < |ms| ensures ms[i].minute < ms[j].minute {
      LecturesCroissantes(lectures, i, j);
    }
  }

  lemma {:induction false} LecturesCroissantes(lectures: seq<nat>, i: nat, j: nat)
    requires i < j < |lectures|
    requires forall k :: 0 < k < |lectures| ==> Prochaine(lectures[k - 1]) <= lectures[k]
    ensures Prochaine(lectures[i]) <= lectures[j] < Prochaine(lectures[j])
    decreases j
  {
    assert Prochaine(lectures[j - 1]) <= lectures[j];
    if i < j - 1 { LecturesCroissantes(lectures, i, j - 1); }
  }
}
