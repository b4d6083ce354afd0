/** The guarantees of the session table, stated over whole runs. */
module SessionsTheoremes {
  import opened Commun
  import opened SessionsSpec
  import opened SessionsProofs
  import X = SessionsExactes

  // ------------------------------------------- what a step never takes back

  /** Sessions keep their identity, expiries only grow, the dead stay dead and
      the journal is only appended to. */
  ghost predicate Garde(e: Etat, e': Etat) {
    && e.journal <= e'.journal
    && e.fiches.Keys <= e'.fiches.Keys
    && (forall j :: j in e.fiches ==> MemeSession(e.fiches[j], e'.fiches[j]))
    && (forall j :: j in e.fiches && j !in e.ouvertes ==> j !in e'.ouvertes)
  }

  ghost predicate MemeSession(f: Fiche, g: Fiche) {
    g.sid == f.sid && g.sub == f.sub && g.did == f.did && g.pk == f.pk && f.exp <= g.exp
  }

  lemma GardeTrans(a: Etat, b: Etat, c: Etat)
    requires Garde(a, b) && Garde(b, c)
    ensures Garde(a, c)
  {
  }

  /** Everything but opening: no new session, and the kept ones keep themselves. */
  lemma GardeSimple(e: Etat, e': Etat)
    requires e.journal <= e'.journal && e'.fiches.Keys == e.fiches.Keys && e'.ouvertes <= e.ouvertes
    requires forall j :: j in e.fiches ==> MemeSession(e.fiches[j], e'.fiches[j])
    ensures Garde(e, e')
  {
  }

  lemma GardeMeme(e: Etat, e': Etat)
    requires e.journal <= e'.journal && e'.fiches == e.fiches && e'.ouvertes <= e.ouvertes
    ensures Garde(e, e')
  {
    GardeSimple(e, e');
  }

  lemma CreerGarde(e: Etat, r: Revendications, defi: Id, site: Option<Id>, nom: Option<Id>, secours: bool,
                   alea: Option<Id>)
    requires Frais(e, alea) && e.fiches.Keys <= e.tires
    ensures Garde(e, Creer(e, r, defi, site, nom, secours, alea).0)
  {
    if alea.Some? {
      assert alea.value !in e.fiches;
    }
  }

  lemma AdmettreGarde(e: Etat, cle: Option<Id>, corps: Corps, expire: bool, rep: Option<ReponseOuverture>,
                      alea: Option<Id>)
    requires Frais(e, alea) && e.fiches.Keys <= e.tires
    ensures Garde(e, Admettre(e, cle, corps, expire, rep, alea).0)
  {
    hide Garde, Creer, Revoque, AppareilConnu, Designation, FicheDe;
    var r := corps.lp.r;
    forall echec
      ensures Garde(e, Contacter(e, echec))
    {
      GardeSimple(e, Contacter(e, echec));
    }
    GardeSimple(e, e);
    CreerGarde(e, r, corps.defi, None, None, true, alea);
    CreerGarde(Contacter(e, true), r, corps.defi, None, None, false, alea);
    GardeTrans(e, Contacter(e, true), Creer(Contacter(e, true), r, corps.defi, None, None, false, alea).0);
    if rep.Some? {
      var e2 := Confirmer(Contacter(e, false), r.did, e.heure);
      GardeSimple(e, e2);
      var c := Creer(e2, r, corps.defi, rep.value.sessionId, rep.value.appareil, false, alea);
      CreerGarde(e2, r, corps.defi, rep.value.sessionId, rep.value.appareil, false, alea);
      GardeTrans(e, e2, c.0);
      var rejet := Coupee(RepriseAilleurs,
                          Some(Designation(FicheDe(r, rep.value.sessionId, rep.value.appareil, false))));
      GardeSimple(c.0, CouperSites(c.0, rep.value.couper, rejet));
      GardeTrans(e, c.0, CouperSites(c.0, rep.value.couper, rejet));
    }
  }

  lemma OuvrirGarde(e: Etat, sid: Id, cle: Option<Id>, corps: Corps, sonde: bool, rep: Option<ReponseOuverture>,
                    alea: Option<Id>)
    requires Frais(e, alea) && e.fiches.Keys <= e.tires
    ensures Garde(e, Ouvrir(e, sid, cle, corps, sonde, rep, alea).0)
  {
    hide Garde, Admettre, DefiBon;
    var e1 := SansDefi(e, corps.defi);
    var e2 := Contacter(e1, sonde);
    GardeSimple(e, e1);
    GardeSimple(e, e2);
    AdmettreGarde(e1, cle, corps, false, rep, alea);
    GardeTrans(e, e1, Admettre(e1, cle, corps, false, rep, alea).0);
    AdmettreGarde(e2, cle, corps, true, rep, alea);
    GardeTrans(e, e2, Admettre(e2, cle, corps, true, rep, alea).0);
  }

  lemma RejouerUneGarde(e: Etat, j: Id, rep: ReponseOuverture)
    requires j in e.fiches
    ensures Garde(e, RejouerUne(e, j, rep))
  {
    ClesMaj(e.fiches, j, FicheRejouee(e.fiches[j], rep));
    GardeSimple(e, RejouerUne(e, j, rep)) by { hide Garde; }
  }

  lemma {:induction false} RejouerGarde(e: Etat, liste: seq<Id>, reps: map<Id, ReponseOuverture>)
    ensures Garde(e, Rejouer(e, liste, reps))
    decreases |liste|
  {
    hide Garde, RejouerUne;
    GardeSimple(e, e);
    if liste != [] {
      GardeSimple(e, Contacter(e, true));
      if liste[0] in e.fiches && liste[0] in reps {
        var e1 := RejouerUne(e, liste[0], reps[liste[0]]);
        RejouerUneGarde(e, liste[0], reps[liste[0]]);
        RejouerGarde(e1, liste[1..], reps);
        GardeTrans(e, e1, Rejouer(e1, liste[1..], reps));
      }
    }
  }

  lemma EnvoiGarde(e: Etat, ordre: seq<Id>, reps: map<Id, ReponseOuverture>)
    ensures Garde(e, BattreEnvoyer(e, ordre, reps))
  {
    hide Garde, Rejouer, ARejouer;
    var e1 := Menage(e);
    var e2 := Rejouer(e1, ARejouer(e1, ordre), reps);
    GardeSimple(e, e1);
    RejouerGarde(e1, ARejouer(e1, ordre), reps);
    GardeTrans(e, e1, e2);
    GardeSimple(e2, Relever(e2));
    GardeTrans(e, e2, Relever(e2));
  }

  lemma {:induction false} CouperListeSous(e: Etat, cs: seq<Coupure>)
    ensures CouperListe(e, cs).ouvertes <= e.ouvertes
    decreases |cs|
  {
    if cs != [] {
      var motif := if cs[0].motif.Some? then cs[0].motif.value else CoupeeParLeSite;
      CouperListeSous(CouperSites(e, [cs[0].sessionId], Coupee(motif, None)), cs[1..]);
    }
  }

  lemma ReponseGarde(e: Etat, rep: Option<ReponseBattement>, relecture: Option<bool>)
    requires e.vol.Some?
    ensures Garde(e, BattreRepondre(e, rep, relecture))
  {
    hide Garde, CouperListe;
    if rep.Some? {
      var v := e.vol.value;
      CouperListeSous(Journaliser(Contacter(e.(vol := None), false), Acceptee(v.releves, v.herites)), rep.value.couper);
    }
    GardeSimple(e, BattreRepondre(e, rep, relecture));
  }

  /** One session replaced by a later version of itself. */
  lemma FicheGarde(e: Etat, j: Id, g: Fiche, e': Etat)
    requires j in e.fiches && MemeSession(e.fiches[j], g)
    requires e'.fiches == e.fiches[j := g] && e.journal <= e'.journal && e'.ouvertes <= e.ouvertes
    ensures Garde(e, e')
  {
    hide Garde;
    ClesMaj(e.fiches, j, g);
    GardeSimple(e, e');
  }

  lemma RenouvelerGarde(e: Etat, jeton: Id, corps: Corps)
    ensures Garde(e, Renouveler(e, jeton, corps).0)
  {
    hide Garde, DefiBon, Verifier, MemeSession, Revoque;
    var x := Renouveler(e, jeton, corps);
    if x.1.Ok? {
      var g := FicheRenouvelee(e.fiches[jeton], corps.lp.r);
      Renouvelable(e.fiches[jeton], corps.lp.r);
      FicheGarde(e, jeton, g, x.0);
    } else {
      RefusSansEffet(e, jeton, corps);
      hide Renouveler;
      GardeMeme(e, x.0);
    }
  }

  /** A refused renewal changes no session; at most it cuts the one presented. */
  lemma RefusSansEffet(e: Etat, jeton: Id, corps: Corps)
    requires Renouveler(e, jeton, corps).1.Err?
    ensures var e' := Renouveler(e, jeton, corps).0;
            e'.fiches == e.fiches && e'.journal == e.journal && e.ouvertes - {jeton} <= e'.ouvertes <= e.ouvertes
  {
    hide DefiBon, Verifier, Revoque;
  }

  lemma Renouvelable(f: Fiche, r: Revendications)
    ensures MemeSession(f, FicheRenouvelee(f, r))
  {
  }

  lemma AudioGarde(e: Etat, jeton: Id)
    requires jeton in e.fiches
    ensures Garde(e, Audio(e, jeton))
  {
    hide Garde, AudioActif, AutreEcoute;
    FicheGarde(e, jeton, e.fiches[jeton].(dernierAudio := Some(e.heure)), Audio(e, jeton));
  }

  lemma CompterGarde(e: Etat, jeton: Id, n: nat)
    requires jeton in e.fiches
    ensures Garde(e, Compter(e, jeton, n))
  {
    hide Garde;
    FicheGarde(e, jeton, e.fiches[jeton].(octets := e.fiches[jeton].octets + n), Compter(e, jeton, n));
  }

  lemma ChercherGarde(e: Etat, jeton: Id, sid: Id)
    ensures Garde(e, Chercher(e, jeton, sid).0)
  {
    hide Garde, EncoreValable, Couper;
    var rejet := Nouveau(401, SessionExpiree);
    GardeMeme(e, e);
    GardeMeme(e, Couper(e, {jeton}, rejet)) by { CouperChamps(e, {jeton}, rejet); }
    if jeton in e.fiches {
      var ev := Servie(jeton, e.fiches[jeton].sid, e.fiches[jeton].did, e.heure);
      GardeMeme(e, Journaliser(e, ev));
    }
  }

  lemma NouveauDefiGarde(e: Etat, sid: Id, alea: Option<Id>)
    ensures Garde(e, NouveauDefi(e, sid, alea).0)
  {
    hide Garde, GarderDefis;
    var e1 := if |e.defis| >= DEFIS_MAX then e.(defis := GarderDefis(e.defis, e.heure)) else e;
    GardeMeme(e, e1);
    if |e1.defis| < DEFIS_MAX && alea.Some? {
      var e2 := e1.(defis := e1.defis[alea.value := (sid, e.heure + DUREE_DEFI_S)], tires := e1.tires + {alea.value});
      GardeMeme(e, Journaliser(e2, DefiEmis(alea.value, sid, e.heure)));
    }
  }

  lemma PasGarde(e: Etat, a: Appel)
    requires Permis(e, a) && e.fiches.Keys <= e.tires
    ensures Garde(e, Pas(e, a))
  {
    hide Garde, Ouvrir, Renouveler, Audio, Compter, NouveauDefi, Chercher, BattreEnvoyer, BattreRepondre;
    match a
    case DemanderOuverture(sid, cle, corps, sonde, rep, alea) => OuvrirGarde(e, sid, cle, corps, sonde, rep, alea);
    case Envoi(ordre, reps) => EnvoiGarde(e, ordre, reps);
    case Reponse(retour, relecture) => ReponseGarde(e, retour, relecture);
    case DemanderRenouvellement(j, corps) => RenouvelerGarde(e, j, corps);
    case JouerAudio(j) => AudioGarde(e, j);
    case ServirOctets(j, n) => CompterGarde(e, j, n);
    case DemanderDefi(sid, alea) => NouveauDefiGarde(e, sid, alea);
    case Presenter(j, sid) => ChercherGarde(e, j, sid);
    case Attendre(t) => GardeMeme(e, Pas(e, a));
    case RequeteHeritee(sid) => GardeMeme(e, Pas(e, a));
    case RafraichirJeu(echec) => GardeMeme(e, Pas(e, a));
  }

  lemma UnPasGarde(es: seq<Etat>, appels: seq<Appel>, k: nat)
    requires Execution(es, appels) && k + 1 < |es|
    ensures Garde(es[k], es[k + 1])
  {
    hide Inv, Garde, Pas, Permis, Initial;
    assert Permis(es[k], appels[k]) && es[k + 1] == Pas(es[k], appels[k]);
    ExecutionTient(es, appels, k);
    hide Execution;
    ClesTirees(es[k]);
    PasGarde(es[k], appels[k]);
  }

  lemma GardeReflexive(e: Etat)
    ensures Garde(e, e)
  {
  }

  lemma {:induction false} ExecutionGarde(es: seq<Etat>, appels: seq<Appel>, i: nat, k: nat)
    requires Execution(es, appels) && i <= k < |es|
    ensures Garde(es[i], es[k])
    decreases k
  {
    hide *;
    if i == k {
      GardeReflexive(es[i]);
    } else {
      ExecutionGarde(es, appels, i, k - 1);
      UnPasGarde(es, appels, k - 1);
      GardeTrans(es[i], es[k - 1], es[k]);
    }
  }

  lemma ClesTirees(e: Etat)
    requires Inv(e)
    ensures e.fiches.Keys <= e.tires
  {
  }

  // ----------------------------------------------------------- the theorems

  /** At most one session per account plays, in every reachable state. */
  lemma UneEcouteParCompte(es: seq<Etat>, appels: seq<Appel>, i: nat, a: Id, b: Id)
    requires Execution(es, appels) && i < |es|
    requires a in es[i].ouvertes && b in es[i].ouvertes
    ensures a in es[i].fiches && b in es[i].fiches
    ensures var f, g := es[i].fiches[a], es[i].fiches[b];
            f.sub == g.sub && AudioActif(f, es[i].heure) && AudioActif(g, es[i].heure) ==> a == b
  {
    ExecutionTient(es, appels, i);
    hide Execution, Comptes, Fiches, Defis, Connus, JournalSain, DernierContact;
  }

  /** Sound through a session of the table takes over: the sessions that leave the
      table are exactly the others of its account that were playing, and it is
      then the one that plays. */
  lemma EcouteReprise(es: seq<Etat>, appels: seq<Appel>, i: nat, j: Id, a: Id)
    requires Execution(es, appels) && i < |es| && j in es[i].ouvertes && a in es[i].ouvertes
    ensures j in es[i].fiches && a in es[i].fiches
    ensures var e, f := es[i], Audio(es[i], j);
            && (a in f.ouvertes <==>
                  a == j || e.fiches[a].sub != e.fiches[j].sub || !AudioActif(e.fiches[a], e.heure))
            && (a !in f.ouvertes ==> a in f.coupees && f.coupees[a].0.motif == Some(RepriseAilleurs))
            && j in f.ouvertes && j in f.fiches && AudioActif(f.fiches[j], f.heure)
  {
    hide Execution;
    UneEcouteParCompte(es, appels, i, a, j);
  }

  /** No session of the table carries a revoked device or a revoked pass; a cut
      token is never in the table; both tables stay bounded. */
  lemma TableSaine(es: seq<Etat>, appels: seq<Appel>, i: nat)
    requires Execution(es, appels) && i < |es|
    ensures es[i].ouvertes <= es[i].fiches.Keys && es[i].ouvertes !! es[i].coupees.Keys
    ensures forall j :: j in es[i].ouvertes ==>
              es[i].fiches[j].did !in es[i].revDid && es[i].fiches[j].jti !in es[i].revJti
    ensures |es[i].ouvertes| <= SESSIONS_MAX && |es[i].defis| <= DEFIS_MAX
  {
    ExecutionTient(es, appels, i);
    hide Execution, Comptes, Fiches, Defis, Connus, JournalSain, DernierContact, UneEcoute;
  }

  /** Every opening consumed a challenge issued for its server at most 60 s
      before, which served nothing earlier. Granted as an emergency, it comes
      right after a failed probe of the site made at the same instant, for a
      device the site confirmed at most 7 days before and a pass expired for
      less than 24 h; granted otherwise, the pass was not expired. */
  lemma OuvertureJustifiee(es: seq<Etat>, appels: seq<Appel>, i: nat, k: nat)
    requires Execution(es, appels) && i < |es|
    requires k < |es[i].journal| && es[i].journal[k].Ouverte?
    ensures var jn, ev := es[i].journal, es[i].journal[k];
            && (exists t0 :: DefiEmis(ev.defi, ev.sid, t0) in jn[..k] && t0 <= ev.t <= t0 + DUREE_DEFI_S)
            && (forall x :: x in jn[..k] && (x.Ouverte? || x.Renouvelee?) ==> x.defi != ev.defi)
            && (forall x :: x in jn[..k] && x.Ouverte? ==> x.jeton != ev.jeton)
            && (!ev.secours ==> ev.t <= ev.exp + TOLERANCE_HORLOGE_S)
            && (ev.secours ==>
                  && k > 0 && jn[k - 1] == Contact(true, ev.t)
                  && ev.exp + TOLERANCE_HORLOGE_S < ev.t <= ev.exp + TOLERANCE_HORLOGE_S + SECOURS_S
                  && exists t1 :: Confirme(ev.did, t1) in jn[..k] && t1 <= ev.t <= t1 + APPAREIL_CONNU_S)
  {
    JournalDit(es, appels, i, k);
    hide Execution;
    JamaisServi(es[i].journal[..k], es[i].journal[k].defi);
    JamaisOuvert(es[i].journal[..k], es[i].journal[k].jeton);
    hide DefiServi, JetonOuvert;
  }

  lemma JournalDit(es: seq<Etat>, appels: seq<Appel>, i: nat, k: nat)
    requires Execution(es, appels) && i < |es| && k < |es[i].journal|
    ensures Sain(es[i].journal[..k], es[i].journal[k])
  {
    ExecutionTient(es, appels, i);
    hide Execution, Sain, Forme, RienDeRevoque, Comptes, Fiches, Defis, Connus, DernierContact, UneEcoute;
  }

  lemma JamaisServi(pre: seq<Evenement>, defi: Id)
    ensures !DefiServi(pre, defi) ==> forall x :: x in pre && (x.Ouverte? || x.Renouvelee?) ==> x.defi != defi
  {
    if x :| x in pre && (x.Ouverte? || x.Renouvelee?) && x.defi == defi {
      assert Sert(x, defi);
    }
  }

  lemma JamaisOuvert(pre: seq<Evenement>, jeton: Id)
    ensures !JetonOuvert(pre, jeton) ==> forall x :: x in pre && x.Ouverte? ==> x.jeton != jeton
  {
    if x :| x in pre && x.Ouverte? && x.jeton == jeton {
      assert EstOuverture(x, jeton);
    }
  }

  /** Every renewal consumed such a challenge too, for a session opened before
      with the same server and device, and a pass not expired. */
  lemma RenouvellementJustifie(es: seq<Etat>, appels: seq<Appel>, i: nat, k: nat)
    requires Execution(es, appels) && i < |es|
    requires k < |es[i].journal| && es[i].journal[k].Renouvelee?
    ensures var jn, ev := es[i].journal, es[i].journal[k];
            && (exists t0 :: DefiEmis(ev.defi, ev.sid, t0) in jn[..k] && t0 <= ev.t <= t0 + DUREE_DEFI_S)
            && (forall x :: x in jn[..k] && (x.Ouverte? || x.Renouvelee?) ==> x.defi != ev.defi)
            && (exists x :: x in jn[..k] && x.Ouverte? && x.jeton == ev.jeton && x.sid == ev.sid && x.did == ev.did)
            && ev.t <= ev.exp + TOLERANCE_HORLOGE_S
  {
    JournalDit(es, appels, i, k);
    hide Execution;
    JamaisServi(es[i].journal[..k], es[i].journal[k].defi);
    hide DefiServi;
  }

  /** A session is served within the latest expiry granted to its token, or, for
      at most 24 h more, while the last exchange with the site had failed and
      for a device the site confirmed at most 7 days before. */
  lemma ServieJustifiee(es: seq<Etat>, appels: seq<Appel>, i: nat, k: nat)
    requires Execution(es, appels) && i < |es|
    requires k < |es[i].journal| && es[i].journal[k].Servie?
    ensures var jn, ev := es[i].journal, es[i].journal[k];
            && (exists x :: x in jn[..k] && x.Ouverte? && x.jeton == ev.jeton && x.sid == ev.sid && x.did == ev.did)
            && ExpDe(jn[..k], ev.jeton).Some?
            && var fin := ExpDe(jn[..k], ev.jeton).value + TOLERANCE_HORLOGE_S;
               ev.t <= fin
               || (&& DernierContact(jn[..k]) && ev.t <= fin + SECOURS_S
                   && exists t1 :: Confirme(ev.did, t1) in jn[..k] && t1 <= ev.t <= t1 + APPAREIL_CONNU_S)
  {
    JournalDit(es, appels, i, k);
    hide Execution, ExpDe, DernierContact;
  }

  /** The heartbeat ledger: what was ever counted is what the site accepted, plus
      what is in flight, plus what waits in the counter. */
  lemma BilanDesBattements(es: seq<Etat>, appels: seq<Appel>, i: nat, j: Id, s: Id)
    requires Execution(es, appels) && i < |es|
    ensures Servis(es[i].journal, j)
            == ServisAcceptes(es[i].journal, j) + ReleveEnVol(es[i].vol, j)
               + (if j in es[i].fiches then es[i].fiches[j].octets else 0)
    ensures Heritees(es[i].journal, s)
            == HeritesAcceptes(es[i].journal, s) + HeriteEnVol(es[i].vol, s) + Valeur(es[i].herite, s)
  {
    ExecutionTient(es, appels, i);
    hide Execution, Servis, Heritees, ServisAcceptes, HeritesAcceptes, Fiches, Defis, Connus, JournalSain,
      DernierContact, UneEcoute;
  }

  /** A session keeps its server, account, device and key for ever, and its
      expiry never goes back. */
  lemma IdentiteGardee(es: seq<Etat>, appels: seq<Appel>, i: nat, k: nat, j: Id)
    requires Execution(es, appels) && i <= k < |es| && j in es[i].fiches
    ensures j in es[k].fiches && MemeSession(es[i].fiches[j], es[k].fiches[j])
    ensures es[i].journal <= es[k].journal
  {
    hide Execution;
    ExecutionGarde(es, appels, i, k);
  }

  /** Once out of the table, a token never again yields or renews a session. */
  lemma CoupeePourToujours(es: seq<Etat>, appels: seq<Appel>, i: nat, k: nat, j: Id, sid: Id, corps: Corps)
    requires Execution(es, appels) && i <= k < |es|
    requires j in es[i].fiches && j !in es[i].ouvertes
    ensures j !in es[k].ouvertes
    ensures Chercher(es[k], j, sid).1 != Ok(Some(j)) && Renouveler(es[k], j, corps).1.Err?
  {
    hide Execution;
    ExecutionGarde(es, appels, i, k);
    hide MemeSession;
  }

  /** The entry that records an opening granted to these claims. */
  function EntreeDe(x: Accord, corps: Corps, sid: Id, heure: int): Evenement {
    Ouverte(x.jeton, corps.defi, sid, corps.lp.r.did, x.expire, x.secours, heure)
  }

  /** Replies say what the journal says: an opening is granted exactly when it is
      recorded, with the token, challenge and expiry of the reply. Granted as an
      emergency, the call itself probed the site, which failed, and wrote nothing
      else. */
  lemma OuvertureDite(e: Etat, sid: Id, cle: Option<Id>, corps: Corps, sonde: bool,
                      rep: Option<ReponseOuverture>, alea: Option<Id>)
    ensures var x := Ouvrir(e, sid, cle, corps, sonde, rep, alea);
            && e.journal <= x.0.journal
            && (x.1.Ok? ==>
                  && |e.journal| < |x.0.journal|
                  && x.0.journal[|x.0.journal| - 1] == EntreeDe(x.1.value, corps, sid, e.heure)
                  && forall k :: |e.journal| <= k < |x.0.journal| - 1 ==> !x.0.journal[k].Ouverte?)
            && (x.1.Err? ==> forall k :: |e.journal| <= k < |x.0.journal| ==> !x.0.journal[k].Ouverte?)
            && (x.1.Ok? && x.1.value.secours ==>
                  && sonde
                  && x.0.journal == e.journal + [Contact(true, e.heure), EntreeDe(x.1.value, corps, sid, e.heure)])
  {
    hide DefiBon, Admettre;
    var e1 := SansDefi(e, corps.defi);
    AdmettreDit(e1, cle, corps, false, rep, alea);
    AdmettreDit(Contacter(e1, sonde), cle, corps, true, rep, alea);
    if sonde && Admettre(Contacter(e1, sonde), cle, corps, true, rep, alea).1.Ok? {
      var accord := Admettre(Contacter(e1, sonde), cle, corps, true, rep, alea).1.value;
      var a := EntreeDe(accord, corps, corps.lp.r.sid, e.heure);
      assert e.journal + [Contact(true, e.heure)] + [a] == e.journal + [Contact(true, e.heure), a];
    }
  }

  lemma AdmettreDit(e: Etat, cle: Option<Id>, corps: Corps, expire: bool,
                    rep: Option<ReponseOuverture>, alea: Option<Id>)
    ensures var x := Admettre(e, cle, corps, expire, rep, alea);
            && e.journal <= x.0.journal
            && (x.1.Ok? ==>
                  && |e.journal| < |x.0.journal|
                  && x.0.journal[|x.0.journal| - 1] == EntreeDe(x.1.value, corps, corps.lp.r.sid, e.heure)
                  && x.1.value.secours == expire
                  && forall k :: |e.journal| <= k < |x.0.journal| - 1 ==> !x.0.journal[k].Ouverte?)
            && (x.1.Ok? && expire ==> x.0.journal == e.journal + [EntreeDe(x.1.value, corps, corps.lp.r.sid, e.heure)])
            && (x.1.Err? ==> forall k :: |e.journal| <= k < |x.0.journal| ==> !x.0.journal[k].Ouverte?)
  {
    hide Revoque, AppareilConnu, Designation, FicheDe, Creer;
    var r := corps.lp.r;
    if rep.Some? {
      var e2 := Confirmer(Contacter(e, false), r.did, e.heure);
      CreerDit(e2, corps, rep.value.sessionId, rep.value.appareil, false, alea);
    }
    CreerDit(e, corps, None, None, true, alea);
    CreerDit(Contacter(e, true), corps, None, None, false, alea);
  }

  lemma CreerDit(e: Etat, corps: Corps, site: Option<Id>, nom: Option<Id>, secours: bool, alea: Option<Id>)
    ensures var x := Creer(e, corps.lp.r, corps.defi, site, nom, secours, alea);
            && (x.1.Ok? ==>
                  && x.0.journal == e.journal + [EntreeDe(x.1.value, corps, corps.lp.r.sid, e.heure)]
                  && x.1.value.secours == secours)
            && (x.1.Err? ==> x.0 == e)
  {
  }

  // ------------------------------------------------- each opening has its call

  /** The history grew without an opening. */
  ghost predicate SansOuverture(a: seq<Evenement>, b: seq<Evenement>) {
    a <= b && forall k :: |a| <= k < |b| ==> !b[k].Ouverte?
  }

  lemma SansSuite(a: seq<Evenement>, b: seq<Evenement>, c: seq<Evenement>)
    requires SansOuverture(a, b) && SansOuverture(b, c)
    ensures SansOuverture(a, c)
  {
  }

  lemma SansUn(a: seq<Evenement>, ev: Evenement)
    requires !ev.Ouverte?
    ensures SansOuverture(a, a + [ev]) && SansOuverture(a, a)
  {
  }

  lemma RejouerUneSans(e: Etat, j: Id, rep: ReponseOuverture)
    requires j in e.fiches
    ensures SansOuverture(e.journal, RejouerUne(e, j, rep).journal)
  {
    hide Constante, Designation, FicheRejouee;
  }

  lemma {:induction false} RejouerSans(e: Etat, liste: seq<Id>, reps: map<Id, ReponseOuverture>)
    ensures SansOuverture(e.journal, Rejouer(e, liste, reps).journal)
    decreases |liste|
  {
    hide SansOuverture, RejouerUne;
    SansUn(e.journal, Contact(true, e.heure));
    if liste != [] && liste[0] in e.fiches && liste[0] in reps {
      var e1 := RejouerUne(e, liste[0], reps[liste[0]]);
      RejouerUneSans(e, liste[0], reps[liste[0]]);
      RejouerSans(e1, liste[1..], reps);
      SansSuite(e.journal, e1.journal, Rejouer(e1, liste[1..], reps).journal);
    }
  }

  lemma EnvoiSans(e: Etat, ordre: seq<Id>, reps: map<Id, ReponseOuverture>)
    ensures SansOuverture(e.journal, BattreEnvoyer(e, ordre, reps).journal)
  {
    hide SansOuverture, Rejouer, ARejouer;
    RejouerSans(Menage(e), ARejouer(Menage(e), ordre), reps);
  }

  lemma ReponseSans(e: Etat, rep: Option<ReponseBattement>, relecture: Option<bool>)
    requires e.vol.Some?
    ensures SansOuverture(e.journal, BattreRepondre(e, rep, relecture).journal)
  {
    hide CouperListe, FichesRemises, HeriteRemis, Constante;
  }

  lemma CouperJournal(e: Etat)
    ensures forall js, rejet :: Couper(e, js, rejet).journal == e.journal
  {
  }

  lemma RenouvelerSans(e: Etat, jeton: Id, corps: Corps)
    ensures SansOuverture(e.journal, Renouveler(e, jeton, corps).0.journal)
  {
    hide SansOuverture, Renouveler;
    if Renouveler(e, jeton, corps).1.Err? {
      RefusSansEffet(e, jeton, corps);
      SansUn(e.journal, Contact(true, e.heure));
    } else {
      RenouveleDit(e, jeton, corps);
      var f := e.fiches[jeton];
      SansUn(e.journal, Renouvelee(jeton, corps.defi, f.sid, f.did, corps.lp.r.exp, e.heure));
    }
  }

  lemma RenouveleDit(e: Etat, jeton: Id, corps: Corps)
    requires Renouveler(e, jeton, corps).1.Ok?
    ensures jeton in e.fiches
    ensures var f := e.fiches[jeton];
      Renouveler(e, jeton, corps).0.journal ==
      e.journal + [Renouvelee(jeton, corps.defi, f.sid, f.did, corps.lp.r.exp, e.heure)]
  {
    hide Verifier, DefiBon, Revoque, Couper;
  }

  lemma NouveauDefiSans(e: Etat, sid: Id, alea: Option<Id>)
    ensures SansOuverture(e.journal, NouveauDefi(e, sid, alea).0.journal)
  {
    hide GarderDefis, SansOuverture;
    SansUn(e.journal, if alea.Some? then DefiEmis(alea.value, sid, e.heure) else Contact(true, e.heure));
  }

  lemma ChercherSans(e: Etat, jeton: Id, sid: Id)
    ensures SansOuverture(e.journal, Chercher(e, jeton, sid).0.journal)
  {
    hide EncoreValable, Couper, SansOuverture;
    CouperJournal(e);
    if jeton in e.fiches { SansUn(e.journal, Servie(jeton, e.fiches[jeton].sid, e.fiches[jeton].did, e.heure)); }
    SansUn(e.journal, Contact(true, e.heure));
  }

  lemma AudioSans(e: Etat, jeton: Id)
    requires jeton in e.fiches
    ensures SansOuverture(e.journal, Audio(e, jeton).journal)
  {
    hide AudioActif, AutreEcoute, Couper;
    CouperJournal(e.(fiches := e.fiches[jeton := e.fiches[jeton].(dernierAudio := Some(e.heure))]));
  }

  lemma AutreSans(e: Etat, a: Appel)
    requires Permis(e, a) && !a.DemanderOuverture?
    ensures SansOuverture(e.journal, Pas(e, a).journal)
  {
    hide NouveauDefi, Renouveler, Chercher, Audio, BattreEnvoyer, BattreRepondre;
    match a
    case DemanderDefi(sid, alea) => NouveauDefiSans(e, sid, alea);
    case DemanderRenouvellement(j, corps) => RenouvelerSans(e, j, corps);
    case Presenter(j, sid) => ChercherSans(e, j, sid);
    case JouerAudio(j) => AudioSans(e, j);
    case Envoi(ordre, reps) => EnvoiSans(e, ordre, reps);
    case Reponse(retour, relecture) => ReponseSans(e, retour, relecture);
    case _ =>
  }

  /** The call of a run that wrote an opening into the history: it asked for that
      opening with everything it takes, signature included, was granted it, wrote it
      last, and, when it is an emergency, made the failed probe just before it. */
  ghost predicate SonAppel(e: Etat, a: Appel, suite: Etat, k: nat) {
    && a.DemanderOuverture? && k + 1 == |suite.journal| && |e.journal| <= k
    && X.Ouvrable(e, a.sid, a.cle, a.corps, a.sonde, a.rep, a.alea) && a.corps.signatureBonne
    && var ev, x := suite.journal[k], Ouvrir(e, a.sid, a.cle, a.corps, a.sonde, a.rep, a.alea);
      && x.0 == suite && x.1.Ok? && ev == EntreeDe(x.1.value, a.corps, a.sid, e.heure)
      && (x.1.value.secours ==>
            a.sonde && k == |e.journal| + 1 && suite.journal[k - 1] == Contact(true, e.heure))
  }

  lemma UnAppel(e: Etat, a: Appel, k: nat)
    requires Permis(e, a) && |e.journal| <= k < |Pas(e, a).journal| && Pas(e, a).journal[k].Ouverte?
    ensures SonAppel(e, a, Pas(e, a), k)
  {
    hide Ouvrir, Renouveler, BattreEnvoyer, BattreRepondre, NouveauDefi, Chercher, Audio, Compter, NoterHerite,
      Contacter;
    if a.DemanderOuverture? {
      OuvertureDite(e, a.sid, a.cle, a.corps, a.sonde, a.rep, a.alea);
      X.OuvertureExacte(e, a.sid, a.cle, a.corps, a.sonde, a.rep, a.alea);
    } else {
      AutreSans(e, a);
    }
  }

  /** Every opening of the history was written by one call of the run that asked for
      it with everything it takes, its signature good; an emergency opening follows a
      failed probe made in that same call. */
  lemma {:induction false} OuvertureParSonAppel(es: seq<Etat>, appels: seq<Appel>, i: nat, k: nat) returns (m: nat)
    requires Execution(es, appels) && i < |es|
    requires k < |es[i].journal| && es[i].journal[k].Ouverte?
    ensures m < i && k < |es[m + 1].journal| && es[m + 1].journal[k] == es[i].journal[k]
    ensures SonAppel(es[m], appels[m], es[m + 1], k)
    decreases i
  {
    hide Garde, Pas, Permis, SonAppel;
    if i == 0 {
      assert false;
    }
    assert Permis(es[i - 1], appels[i - 1]) && es[i] == Pas(es[i - 1], appels[i - 1]);
    if k < |es[i - 1].journal| {
      JournalGarde(es, appels, i - 1, i);
      m := OuvertureParSonAppel(es, appels, i - 1, k);
    } else {
      m := i - 1;
      UnAppel(es[m], appels[m], k);
    }
  }

  lemma JournalGarde(es: seq<Etat>, appels: seq<Appel>, i: nat, k: nat)
    requires Execution(es, appels) && i <= k < |es|
    ensures es[i].journal <= es[k].journal
  {
    hide Execution;
    ExecutionGarde(es, appels, i, k);
  }
}
