/** The session table read off the calls of a run: counters, and who is served. */
module SessionsAppels {
  import opened Commun
  import opened SessionsSpec
  import opened SessionsProofs
  import X = SessionsExactes

  // ------------------------------------------------------- what a step writes

  /** An entry that counts nothing and settles nothing. */
  predicate Discret(ev: Evenement) { !ev.Compte? && !ev.Heritee? && !ev.Acceptee? }

  /** A device confirmed now is known from now on. */
  predicate Retenu(ev: Evenement, heure: int, connus: map<Id, int>) {
    ev.Confirme? ==> ev.t == heure && ev.did in connus && ev.t <= connus[ev.did]
  }

  /** A known device is not forgotten within a week, nor dated back. */
  ghost predicate PasOublies(connus: map<Id, int>, connus': map<Id, int>, heure: int) {
    forall d :: d in connus ==> (d in connus' && connus[d] <= connus'[d]) || heure > connus[d] + 604_800
  }

  ghost predicate Ecrit(a: seq<Evenement>, b: seq<Evenement>, heure: int, connus: map<Id, int>) {
    a <= b && forall k :: |a| <= k < |b| ==> Discret(b[k]) && Retenu(b[k], heure, connus)
  }

  ghost predicate Dates(e: Etat) { forall d :: d in e.connus ==> e.connus[d] <= e.heure }

  ghost predicate Suit(e: Etat, f: Etat) {
    Dates(e) ==>
      && Dates(f) && f.heure == e.heure && Ecrit(e.journal, f.journal, e.heure, f.connus)
      && PasOublies(e.connus, f.connus, e.heure)
  }

  lemma SuitTrans(e: Etat, f: Etat, g: Etat)
    requires Suit(e, f) && Suit(f, g)
    ensures Suit(e, g)
  {
  }

  lemma SuitMeme(e: Etat, f: Etat)
    requires f.heure == e.heure && f.journal == e.journal && f.connus == e.connus
    ensures Suit(e, f)
  {
  }

  lemma SuitUn(e: Etat, f: Etat, ev: Evenement)
    requires f.heure == e.heure && f.journal == e.journal + [ev] && f.connus == e.connus
    requires Discret(ev) && !ev.Confirme?
    ensures Suit(e, f)
  {
  }

  lemma SuitContacter(e: Etat, echec: bool)
    ensures Suit(e, Contacter(e, echec))
  {
    hide Suit;
    SuitUn(e, Contacter(e, echec), Contact(echec, e.heure));
  }

  lemma SuitConfirmer(e: Etat, did: Id)
    ensures Suit(e, Confirmer(e, did, e.heure))
  {
  }

  lemma SuitSites(e: Etat, ids: seq<Id>, rejet: Rejet)
    ensures Suit(e, CouperSites(e, ids, rejet))
  {
    hide Suit;
    SuitMeme(e, CouperSites(e, ids, rejet));
  }

  lemma SuitCouper(e: Etat, js: set<Id>, rejet: Rejet)
    ensures Suit(e, Couper(e, js, rejet))
  {
    hide Suit;
    SuitMeme(e, Couper(e, js, rejet));
  }

  lemma SuitCreer(e: Etat, r: Revendications, defi: Id, site: Option<Id>, nom: Option<Id>, secours: bool,
                  alea: Option<Id>)
    ensures Suit(e, Creer(e, r, defi, site, nom, secours, alea).0)
  {
    hide Suit;
    if alea.Some? {
      SuitUn(e, Creer(e, r, defi, site, nom, secours, alea).0,
             Ouverte(alea.value, defi, r.sid, r.did, r.exp, secours, e.heure));
    } else {
      SuitMeme(e, e);
    }
  }

  // ----------------------------------------------------------- call by call

  lemma SuitDefi(e: Etat, sid: Id, alea: Option<Id>)
    ensures Suit(e, NouveauDefi(e, sid, alea).0)
  {
    hide Suit, GarderDefis, NouveauDefi;
    var restent := if |e.defis| < 10_000 then e.defis else GarderDefis(e.defis, e.heure);
    X.DefiForme(e, sid, alea, restent);
    var f := NouveauDefi(e, sid, alea).0;
    if |restent| < 10_000 && alea.Some? { SuitUn(e, f, DefiEmis(alea.value, sid, e.heure)); } else { SuitMeme(e, f); }
  }

  lemma SuitReponse(e: Etat, corps: Corps, rep: ReponseOuverture, alea: Option<Id>)
    ensures Suit(e, ReponseAdmise(e, corps, rep, alea).0)
  {
    hide Suit, Contacter, Confirmer, Creer, CouperSites, FicheDe, Designation;
    var r := corps.lp.r;
    var e1 := Contacter(e, false);
    SuitContacter(e, false);
    assert e1.heure == e.heure by { ContacterHeure(e, false); }
    var e2 := Confirmer(e1, r.did, e.heure);
    SuitConfirmer(e1, r.did);
    SuitTrans(e, e1, e2);
    var c := Creer(e2, r, corps.defi, rep.sessionId, rep.appareil, false, alea);
    SuitCreer(e2, r, corps.defi, rep.sessionId, rep.appareil, false, alea);
    SuitTrans(e, e2, c.0);
    var rejet := Coupee(RepriseAilleurs, Some(Designation(FicheDe(r, rep.sessionId, rep.appareil, false))));
    SuitSites(c.0, rep.couper, rejet);
    SuitTrans(e, c.0, CouperSites(c.0, rep.couper, rejet));
  }

  lemma ContacterHeure(e: Etat, echec: bool)
    ensures Contacter(e, echec).heure == e.heure
  {
  }

  lemma SuitAdmettre(e: Etat, cle: Option<Id>, corps: Corps, expire: bool, rep: Option<ReponseOuverture>,
                     alea: Option<Id>)
    ensures Suit(e, Admettre(e, cle, corps, expire, rep, alea).0)
  {
    hide Suit, Contacter, Creer, ReponseAdmise, Revoque, AppareilConnu;
    var r, e1 := corps.lp.r, Contacter(e, true);
    SuitMeme(e, e);
    SuitCreer(e, r, corps.defi, None, None, true, alea);
    SuitContacter(e, true);
    SuitCreer(e1, r, corps.defi, None, None, false, alea);
    SuitTrans(e, e1, Creer(e1, r, corps.defi, None, None, false, alea).0);
    if rep.Some? { SuitReponse(e, corps, rep.value, alea); }
  }

  lemma SuitOuvrir(e: Etat, sid: Id, cle: Option<Id>, corps: Corps, sonde: bool,
                   rep: Option<ReponseOuverture>, alea: Option<Id>)
    ensures Suit(e, Ouvrir(e, sid, cle, corps, sonde, rep, alea).0)
  {
    hide Suit, Contacter, Admettre, DefiBon, Verifier;
    var e1 := SansDefi(e, corps.defi);
    var e2 := Contacter(e1, sonde);
    SuitMeme(e, e1);
    hide SansDefi;
    SuitContacter(e1, sonde);
    SuitTrans(e, e1, e2);
    SuitAdmettre(e1, cle, corps, false, rep, alea);
    SuitTrans(e, e1, Admettre(e1, cle, corps, false, rep, alea).0);
    SuitAdmettre(e2, cle, corps, true, rep, alea);
    SuitTrans(e, e2, Admettre(e2, cle, corps, true, rep, alea).0);
  }

  lemma SuitRenouveler(e: Etat, jeton: Id, corps: Corps)
    ensures Suit(e, Renouveler(e, jeton, corps).0)
  {
    hide Suit, Renouveler, Couper, SansDefi, X.Renouvelant, X.Prolongation;
    var (f, x) := Renouveler(e, jeton, corps);
    var e1, rejet := SansDefi(e, corps.defi), Rejet(401, SessionCoupee, Some(Motif.Revoquee), None);
    X.RenouvelerForme(e, jeton, corps);
    X.RenouvellementExact(e, jeton, corps);
    X.DefiSeul(e, corps.defi, true);
    SansDefiJournal(e, corps.defi);
    SuitMeme(e, e);
    SuitMeme(e, e1);
    SuitCouper(e1, {jeton}, rejet);
    SuitTrans(e, e1, Couper(e1, {jeton}, rejet));
    if x.Ok? {
      var g := X.Prolongation(e.fiches[jeton], corps.lp.r);
      SuitUn(e, f, Renouvelee(jeton, corps.defi, g.sid, g.did, corps.lp.r.exp, e.heure));
    }
  }

  lemma SansDefiJournal(e: Etat, defi: Id)
    ensures SansDefi(e, defi).journal == e.journal
  {
  }

  lemma SuitChercher(e: Etat, jeton: Id, sid: Id)
    ensures Suit(e, Chercher(e, jeton, sid).0)
  {
    hide Suit, EncoreValable, Couper;
    SuitMeme(e, e);
    SuitCouper(e, {jeton}, Nouveau(401, SessionExpiree));
    if jeton in e.fiches {
      var ev := Servie(jeton, e.fiches[jeton].sid, e.fiches[jeton].did, e.heure);
      SuitUn(e, Journaliser(e, ev), ev);
    }
  }

  lemma SuitAudio(e: Etat, jeton: Id)
    requires jeton in e.fiches
    ensures Suit(e, Audio(e, jeton))
  {
    hide Suit, AudioActif, AutreEcoute, Couper;
    var f := e.fiches[jeton];
    var e1 := e.(fiches := e.fiches[jeton := f.(dernierAudio := Some(e.heure))]);
    var rejet := Coupee(RepriseAilleurs, Some(Designation(f)));
    var js := set j | j in e1.ouvertes && AutreEcoute(e1, jeton, f.sub, j);
    SuitMeme(e, e1);
    SuitCouper(e1, js, rejet);
    SuitTrans(e, e1, Couper(e1, js, rejet));
  }

  lemma SuitMenage(e: Etat)
    ensures Suit(e, Menage(e))
  {
    hide EncoreValable;
  }

  lemma SuitRejouerUne(e: Etat, j: Id, rep: ReponseOuverture)
    requires j in e.fiches
    ensures Suit(e, RejouerUne(e, j, rep))
  {
    hide Suit, Contacter, Confirmer, CouperSites, Couper, Designation, FicheRejouee;
    var e1 := Contacter(e, false);
    SuitContacter(e, false);
    ContacterHeure(e, false);
    SuitCouper(e1, {j}, Coupee(if rep.motif.Some? then rep.motif.value else SansMotif, None));
    SuitTrans(e, e1, Couper(e1, {j}, Coupee(if rep.motif.Some? then rep.motif.value else SansMotif, None)));
    ContacterFiches(e, false);
    var g := FicheRejouee(e.fiches[j], rep);
    var e2 := e1.(fiches := e1.fiches[j := g]);
    SuitMeme(e1, e2);
    SuitTrans(e, e1, e2);
    var e3 := Confirmer(e2, g.did, e.heure);
    SuitConfirmer(e2, g.did);
    SuitTrans(e, e2, e3);
    var rejet := Coupee(RepriseAilleurs, Some(Designation(g)));
    SuitSites(e3, rep.couper, rejet);
    SuitTrans(e, e3, CouperSites(e3, rep.couper, rejet));
  }

  lemma ContacterFiches(e: Etat, echec: bool)
    ensures Contacter(e, echec).fiches == e.fiches
  {
  }

  lemma {:induction false} SuitRejouer(e: Etat, liste: seq<Id>, reps: map<Id, ReponseOuverture>)
    ensures Suit(e, Rejouer(e, liste, reps))
    decreases |liste|
  {
    hide Suit, RejouerUne, Contacter;
    SuitMeme(e, e);
    SuitContacter(e, true);
    if liste != [] && liste[0] in e.fiches && liste[0] in reps {
      var e1 := RejouerUne(e, liste[0], reps[liste[0]]);
      SuitRejouerUne(e, liste[0], reps[liste[0]]);
      SuitRejouer(e1, liste[1..], reps);
      SuitTrans(e, e1, Rejouer(e1, liste[1..], reps));
    }
  }

  lemma SuitEnvoi(e: Etat, ordre: seq<Id>, reps: map<Id, ReponseOuverture>)
    ensures Suit(e, BattreEnvoyer(e, ordre, reps))
  {
    hide Suit, Menage, Rejouer, ARejouer;
    var e1 := Menage(e);
    var e2 := Rejouer(e1, ARejouer(e1, ordre), reps);
    SuitMenage(e);
    SuitRejouer(e1, ARejouer(e1, ordre), reps);
    SuitTrans(e, e1, e2);
    SuitMeme(e2, Relever(e2));
    SuitTrans(e, e2, Relever(e2));
  }

  lemma {:induction false} SuitListe(e: Etat, cs: seq<Coupure>)
    ensures Suit(e, CouperListe(e, cs))
    decreases |cs|
  {
    hide *;
    SuitMeme(e, e);
    X.CouperListePas(e, cs);
    if cs != [] {
      var e1 := X.UneDe(e, cs[0]);
      SuitUneDe(e, cs[0]);
      SuitListe(e1, cs[1..]);
      SuitTrans(e, e1, CouperListe(e1, cs[1..]));
    }
  }

  lemma SuitUneDe(e: Etat, c: Coupure)
    ensures Suit(e, X.UneDe(e, c))
  {
    hide Suit, CouperSites;
    SuitSites(e, [c.sessionId], X.RejetDUne(c));
  }

  lemma SuitRevoquer(e: Etat, jti: set<Id>, did: set<Id>, t: int)
    ensures Suit(e, Revoquer(e, jti, did, t))
  {
    hide Suit, Revoque, Constante;
    SuitMeme(e, Revoquer(e, jti, did, t));
  }

  /** The half that answers: one entry settles the counters, the others are
      discreet. */
  lemma SuitRetour(e: Etat, rep: ReponseBattement, relecture: Option<bool>)
    requires e.vol.Some?
    ensures var v := e.vol.value;
      var e1 := Journaliser(Contacter(e.(vol := None), false), Acceptee(v.releves, v.herites));
      Suit(e, Contacter(e.(vol := None), false)) && Suit(e1, BattreRepondre(e, Some(rep), relecture))
  {
    hide Suit, Contacter, CouperListe, Revoquer, Journaliser;
    var v, e0 := e.vol.value, e.(vol := None);
    var e1 := Journaliser(Contacter(e0, false), Acceptee(v.releves, v.herites));
    SuitMeme(e, e0);
    SuitContacter(e0, false);
    SuitTrans(e, e0, Contacter(e0, false));
    var e2 := CouperListe(e1, rep.couper);
    SuitListe(e1, rep.couper);
    var e3 := Revoquer(e2, rep.jti, rep.did, v.t);
    SuitRevoquer(e2, rep.jti, rep.did, v.t);
    SuitTrans(e1, e2, e3);
    if relecture.Some? {
      SuitContacter(e3, relecture.value);
      SuitTrans(e1, e3, Contacter(e3, relecture.value));
    }
  }

  lemma SuitSilence(e: Etat, relecture: Option<bool>)
    requires e.vol.Some?
    ensures Suit(e, BattreRepondre(e, None, relecture))
  {
    hide Suit, Remettre, Contacter;
    var e0 := e.(vol := None);
    SuitMeme(e, e0);
    SuitContacter(e0, true);
    SuitTrans(e, e0, Contacter(e0, true));
    RemettreMeme(Contacter(e0, true), e.vol.value);
    SuitMeme(Contacter(e0, true), Remettre(Contacter(e0, true), e.vol.value));
    SuitTrans(e, Contacter(e0, true), Remettre(Contacter(e0, true), e.vol.value));
  }

  lemma RemettreMeme(e: Etat, v: Vol)
    ensures var f := Remettre(e, v); f.heure == e.heure && f.journal == e.journal && f.connus == e.connus
  {
  }

  // --------------------------------------------------------- the counters

  lemma {:induction false} LecturesDiscretes(a: seq<Evenement>, b: seq<Evenement>, k: Id)
    requires a <= b && forall i :: |a| <= i < |b| ==> Discret(b[i])
    ensures Servis(b, k) == Servis(a, k) && Heritees(b, k) == Heritees(a, k)
    ensures ServisAcceptes(b, k) == ServisAcceptes(a, k) && HeritesAcceptes(b, k) == HeritesAcceptes(a, k)
    decreases |b|
  {
    if a != b { LecturesDiscretes(a, b[..|b| - 1], k); }
  }

  /** What one step adds to the four readings of the history. */
  ghost predicate Ajoute(a: seq<Evenement>, b: seq<Evenement>, k: Id, servis: nat, herites: nat, acceptes: nat,
                         rendus: nat)
  {
    && Servis(b, k) == Servis(a, k) + servis && Heritees(b, k) == Heritees(a, k) + herites
    && ServisAcceptes(b, k) == ServisAcceptes(a, k) + acceptes
    && HeritesAcceptes(b, k) == HeritesAcceptes(a, k) + rendus
  }

  lemma SuitAjoute(e: Etat, f: Etat, k: Id)
    requires Suit(e, f) && Dates(e)
    ensures Ajoute(e.journal, f.journal, k, 0, 0, 0, 0) && Dates(f) && f.heure == e.heure
  {
    LecturesDiscretes(e.journal, f.journal, k);
    hide Servis, Heritees, ServisAcceptes, HeritesAcceptes;
  }

  /** A heartbeat accepted by this call: what it carried. */
  function Accepte(e: Etat, a: Appel): Option<Vol> { if a.Reponse? && a.retour.Some? then e.vol else None }

  function Servi(a: Appel, j: Id): nat { if a.ServirOctets? && a.jeton == j then a.n else 0 }

  function Herite(a: Appel, s: Id): nat { if a.RequeteHeritee? && a.sid == s then 1 else 0 }

  function Porte(v: Option<Vol>, j: Id): nat { if v.Some? then Valeur(v.value.releves, j) else 0 }

  function PorteHerite(v: Option<Vol>, s: Id): nat { if v.Some? then Valeur(v.value.herites, s) else 0 }

  lemma PasAjoute(e: Etat, a: Appel, k: Id)
    requires Permis(e, a) && Dates(e)
    ensures Ajoute(e.journal, Pas(e, a).journal, k, Servi(a, k), Herite(a, k), Porte(Accepte(e, a), k),
                   PorteHerite(Accepte(e, a), k))
  {
    hide Ajoute, Suit, Dates, NouveauDefi, Ouvrir, Renouveler, Chercher, Audio, BattreEnvoyer, BattreRepondre, Compter,
      NoterHerite, Contacter;
    PasSuit(e, a);
    match a
    case ServirOctets(j, n) =>
      UneEntree(e.journal, Compte(j, n), k);
      CompterJournal(e, j, n);
    case RequeteHeritee(sid) =>
      UneEntree(e.journal, Heritee(sid), k);
      HeriterJournal(e, sid);
    case Reponse(retour, relecture) =>
      if retour.Some? { RetourAjoute(e, retour.value, relecture, k); } else { SuitAjoute(e, Pas(e, a), k); }
    case Attendre(_) => AjouteRien(e.journal, k);
    case _ => SuitAjoute(e, Pas(e, a), k);
  }

  lemma AjouteRien(jn: seq<Evenement>, k: Id)
    ensures Ajoute(jn, jn, k, 0, 0, 0, 0)
  {
  }

  /** Every call but the wait, the two counts and an accepted heartbeat is discreet. */
  lemma PasSuit(e: Etat, a: Appel)
    requires Permis(e, a)
    ensures !a.Attendre? && !a.ServirOctets? && !a.RequeteHeritee? && !(a.Reponse? && a.retour.Some?) ==>
              Suit(e, Pas(e, a))
  {
    hide Suit, NouveauDefi, Ouvrir, Renouveler, Chercher, Audio, BattreEnvoyer, BattreRepondre, Compter, NoterHerite,
      Contacter;
    match a
    case DemanderDefi(sid, alea) => SuitDefi(e, sid, alea);
    case DemanderOuverture(sid, cle, corps, sonde, rep, alea) => SuitOuvrir(e, sid, cle, corps, sonde, rep, alea);
    case DemanderRenouvellement(j, corps) => SuitRenouveler(e, j, corps);
    case Presenter(j, sid) => SuitChercher(e, j, sid);
    case JouerAudio(j) => SuitAudio(e, j);
    case RafraichirJeu(echec) => SuitContacter(e, echec);
    case Envoi(ordre, reps) => SuitEnvoi(e, ordre, reps);
    case Reponse(retour, relecture) => if retour.None? { SuitSilence(e, relecture); }
    case _ =>
  }

  lemma UneEntree(jn: seq<Evenement>, ev: Evenement, k: Id)
    ensures Ajoute(jn, jn + [ev], k, if ev.Compte? && ev.jeton == k then ev.n else 0,
                   if ev.Heritee? && ev.sid == k then 1 else 0,
                   if ev.Acceptee? then Valeur(ev.releves, k) else 0, if ev.Acceptee? then Valeur(ev.herites, k) else 0)
  {
    assert (jn + [ev])[..|jn|] == jn;
  }

  lemma CompterJournal(e: Etat, j: Id, n: nat)
    requires j in e.fiches
    ensures Compter(e, j, n).journal == e.journal + [Compte(j, n)]
  {
  }

  lemma HeriterJournal(e: Etat, sid: Id)
    ensures NoterHerite(e, sid).journal == e.journal + [Heritee(sid)]
  {
  }

  lemma RetourAjoute(e: Etat, rep: ReponseBattement, relecture: Option<bool>, k: Id)
    requires e.vol.Some? && Dates(e)
    ensures Ajoute(e.journal, BattreRepondre(e, Some(rep), relecture).journal, k, 0, 0,
                   Valeur(e.vol.value.releves, k), Valeur(e.vol.value.herites, k))
  {
    hide Ajoute, Suit, BattreRepondre, Contacter, Dates;
    var v := e.vol.value;
    var c := Contacter(e.(vol := None), false);
    var e1 := Journaliser(c, Acceptee(v.releves, v.herites));
    SuitRetour(e, rep, relecture);
    SuitAjoute(e, c, k);
    UneEntree(c.journal, Acceptee(v.releves, v.herites), k);
    assert e1.heure == c.heure && e1.connus == c.connus;
    DatesMeme(c, e1);
    SuitAjoute(e1, BattreRepondre(e, Some(rep), relecture), k);
    AjouteTrois(e.journal, c.journal, e1.journal, BattreRepondre(e, Some(rep), relecture).journal, k,
                Valeur(v.releves, k), Valeur(v.herites, k));
  }

  lemma DatesMeme(e: Etat, f: Etat)
    requires Dates(e) && f.heure == e.heure && f.connus == e.connus
    ensures Dates(f)
  {
  }

  lemma AjouteTrois(a: seq<Evenement>, b: seq<Evenement>, c: seq<Evenement>, d: seq<Evenement>, k: Id, x: nat, y: nat)
    requires Ajoute(a, b, k, 0, 0, 0, 0) && Ajoute(b, c, k, 0, 0, x, y) && Ajoute(c, d, k, 0, 0, 0, 0)
    ensures Ajoute(a, d, k, 0, 0, x, y)
  {
    hide Servis, Heritees, ServisAcceptes, HeritesAcceptes;
  }

  // ------------------------------------------------------------- over a run

  /** Bytes the calls of a run counted for a session, and what its accepted heartbeats
      carried of it; the same for the requests of a server on the inherited link. */
  ghost function ServisDits(appels: seq<Appel>, j: Id): nat {
    if appels == [] then 0 else ServisDits(appels[..|appels| - 1], j) + Servi(appels[|appels| - 1], j)
  }

  ghost function HeritesDits(appels: seq<Appel>, s: Id): nat {
    if appels == [] then 0 else HeritesDits(appels[..|appels| - 1], s) + Herite(appels[|appels| - 1], s)
  }

  ghost function PortesDits(es: seq<Etat>, appels: seq<Appel>, j: Id): nat
    requires |es| >= |appels|
  {
    if appels == [] then 0 else
    var n := |appels| - 1;
    PortesDits(es[..n], appels[..n], j) + Porte(Accepte(es[n], appels[n]), j)
  }

  ghost function HeritesPortesDits(es: seq<Etat>, appels: seq<Appel>, s: Id): nat
    requires |es| >= |appels|
  {
    if appels == [] then 0 else
    var n := |appels| - 1;
    HeritesPortesDits(es[..n], appels[..n], s) + PorteHerite(Accepte(es[n], appels[n]), s)
  }

  lemma DatesDe(e: Etat)
    requires Inv(e)
    ensures Dates(e)
  {
    hide Forme, UneEcoute, RienDeRevoque, Defis, Fiches, Comptes, JournalSain, DernierContact;
  }

  lemma {:induction false} JournalDit(es: seq<Etat>, appels: seq<Appel>, i: nat, k: Id)
    requires Execution(es, appels) && i < |es|
    ensures Servis(es[i].journal, k) == ServisDits(appels[..i], k)
    ensures Heritees(es[i].journal, k) == HeritesDits(appels[..i], k)
    ensures ServisAcceptes(es[i].journal, k) == PortesDits(es[..i], appels[..i], k)
    ensures HeritesAcceptes(es[i].journal, k) == HeritesPortesDits(es[..i], appels[..i], k)
    decreases i
  {
    hide Inv, Pas, Permis, Dates, Servi, Herite, Porte, PorteHerite, Accepte;
    if i > 0 {
      var n := i - 1;
      JournalDit(es, appels, n, k);
      ExecutionTient(es, appels, n);
      DatesDe(es[n]);
      assert Permis(es[n], appels[n]) && es[i] == Pas(es[n], appels[n]);
      PasAjoute(es[n], appels[n], k);
      assert appels[..i][..n] == appels[..n] && es[..i][..n] == es[..n];
    }
  }

  /** The heartbeat ledger, read off the calls: what the calls of a run counted for a
      session is what its accepted heartbeats carried, plus what is in flight, plus
      what waits in the counter; the same for a server. */
  lemma BilanDesAppels(es: seq<Etat>, appels: seq<Appel>, i: nat, j: Id, s: Id)
    requires Execution(es, appels) && i < |es|
    ensures var e := es[i];
      && ServisDits(appels[..i], j)
         == PortesDits(es[..i], appels[..i], j) + Porte(e.vol, j) + (if j in e.fiches then e.fiches[j].octets else 0)
      && HeritesDits(appels[..i], s)
         == HeritesPortesDits(es[..i], appels[..i], s) + PorteHerite(e.vol, s) + Valeur(e.herite, s)
  {
    JournalDit(es, appels, i, j);
    JournalDit(es, appels, i, s);
    ExecutionTient(es, appels, i);
    ComptesDe(es[i], j, s);
    hide *;
  }

  lemma ComptesDe(e: Etat, j: Id, s: Id)
    requires Inv(e)
    ensures Servis(e.journal, j)
         == ServisAcceptes(e.journal, j) + Porte(e.vol, j) + (if j in e.fiches then e.fiches[j].octets else 0)
    ensures Heritees(e.journal, s) == HeritesAcceptes(e.journal, s) + PorteHerite(e.vol, s) + Valeur(e.herite, s)
  {
    hide Forme, UneEcoute, RienDeRevoque, Defis, Connus, Fiches, JournalSain, DernierContact, Servis, Heritees,
      ServisAcceptes, HeritesAcceptes, Valeur;
  }

  // ------------------------------------------------------------ who is served

  /** Nothing confirmed within a week is forgotten. */
  ghost predicate Souvenirs(jn: seq<Evenement>, connus: map<Id, int>, heure: int) {
    forall d, t :: Confirme(d, t) in jn ==> t <= heure && ((d in connus && t <= connus[d]) || heure > t + 604_800)
  }

  lemma SouvenirsSuit(e: Etat, f: Etat)
    requires Suit(e, f) && Dates(e) && Souvenirs(e.journal, e.connus, e.heure)
    ensures Souvenirs(f.journal, f.connus, f.heure)
  {
    forall d, t | Confirme(d, t) in f.journal
      ensures t <= f.heure && ((d in f.connus && t <= f.connus[d]) || f.heure > t + 604_800)
    {
      var k :| 0 <= k < |f.journal| && f.journal[k] == Confirme(d, t);
      if k < |e.journal| {
        assert e.journal[k] == f.journal[k];
        assert Confirme(d, t) in e.journal;
      } else {
        assert Retenu(f.journal[k], e.heure, f.connus);
      }
    }
  }

  lemma SouvenirsUn(e: Etat, f: Etat, ev: Evenement)
    requires Souvenirs(e.journal, e.connus, e.heure) && f.journal == e.journal + [ev] && !ev.Confirme?
    requires f.connus == e.connus && f.heure == e.heure
    ensures Souvenirs(f.journal, f.connus, f.heure)
  {
    forall d, t | Confirme(d, t) in f.journal ensures Confirme(d, t) in e.journal {
    }
  }

  lemma PasSouvenirs(e: Etat, a: Appel)
    requires Permis(e, a) && Dates(e) && Souvenirs(e.journal, e.connus, e.heure)
    ensures var f := Pas(e, a); Souvenirs(f.journal, f.connus, f.heure)
  {
    hide Suit, Dates, Souvenirs, NouveauDefi, Ouvrir, Renouveler, Chercher, Audio, BattreEnvoyer, BattreRepondre,
      Contacter;
    PasSuit(e, a);
    match a
    case Attendre(t) => SouvenirsAttendre(e, t);
    case ServirOctets(j, n) => SouvenirsUn(e, Compter(e, j, n), Compte(j, n));
    case RequeteHeritee(sid) => SouvenirsUn(e, NoterHerite(e, sid), Heritee(sid));
    case Reponse(retour, relecture) =>
      if retour.Some? { RetourSouvenirs(e, retour.value, relecture); } else { SouvenirsSuit(e, Pas(e, a)); }
    case _ => SouvenirsSuit(e, Pas(e, a));
  }

  lemma SouvenirsAttendre(e: Etat, t: int)
    requires e.heure <= t && Souvenirs(e.journal, e.connus, e.heure)
    ensures Souvenirs(e.journal, e.connus, t)
  {
  }

  lemma RetourSouvenirs(e: Etat, rep: ReponseBattement, relecture: Option<bool>)
    requires e.vol.Some? && Dates(e) && Souvenirs(e.journal, e.connus, e.heure)
    ensures var f := BattreRepondre(e, Some(rep), relecture); Souvenirs(f.journal, f.connus, f.heure)
  {
    hide Suit, BattreRepondre, Contacter, Dates, Souvenirs;
    var v := e.vol.value;
    var c := Contacter(e.(vol := None), false);
    var e1 := Journaliser(c, Acceptee(v.releves, v.herites));
    SuitRetour(e, rep, relecture);
    SouvenirsSuit(e, c);
    DatesSuit(e, c);
    SouvenirsUn(c, e1, Acceptee(v.releves, v.herites));
    DatesMeme(c, e1);
    SouvenirsSuit(e1, BattreRepondre(e, Some(rep), relecture));
  }

  lemma DatesSuit(e: Etat, f: Etat)
    requires Suit(e, f) && Dates(e)
    ensures Dates(f)
  {
  }

  lemma {:induction false} ExecutionSouvenirs(es: seq<Etat>, appels: seq<Appel>, i: nat)
    requires Execution(es, appels) && i < |es|
    ensures Souvenirs(es[i].journal, es[i].connus, es[i].heure)
    decreases i
  {
    hide Inv, Pas, Permis, Dates;
    if i > 0 {
      ExecutionSouvenirs(es, appels, i - 1);
      ExecutionTient(es, appels, i - 1);
      DatesDe(es[i - 1]);
      assert Permis(es[i - 1], appels[i - 1]) && es[i] == Pas(es[i - 1], appels[i - 1]);
      hide Souvenirs;
      PasSouvenirs(es[i - 1], appels[i - 1]);
    }
  }

  /** A device is known exactly when the site confirmed it within a week. */
  lemma ConnuExactement(es: seq<Etat>, appels: seq<Appel>, i: nat, did: Id)
    requires Execution(es, appels) && i < |es|
    ensures X.AppareilVu(es[i], did) <==> ConfirmeDepuis(es[i].journal, did, es[i].heure)
  {
    hide Execution;
    ExecutionSouvenirs(es, appels, i);
    ExecutionTient(es, appels, i);
    ConnusDe(es[i]);
  }

  ghost predicate ConfirmeDepuis(jn: seq<Evenement>, did: Id, heure: int) {
    exists t0 :: Confirme(did, t0) in jn && heure <= t0 + 604_800
  }

  lemma ConnusDe(e: Etat)
    requires Inv(e)
    ensures Connus(e.journal, e.connus, e.heure)
  {
    hide Forme, UneEcoute, RienDeRevoque, Defis, Connus, Fiches, Comptes, JournalSain, DernierContact;
  }

  /** Who is served, in every reachable state: a token yields its session if and only
      if the session is in the table, of the server presented, and within the latest
      expiry the history grants it, or within a day of it when the last exchange
      failed and the site had confirmed the device within a week. */
  lemma ServiceExactement(es: seq<Etat>, appels: seq<Appel>, i: nat, j: Id, sid: Id)
    requires Execution(es, appels) && i < |es|
    ensures var e := es[i];
      Chercher(e, j, sid).1 == Ok(Some(j)) <==>
        && j in e.ouvertes && j in e.fiches && e.fiches[j].sid == sid && ExpDe(e.journal, j).Some?
        && var fin := ExpDe(e.journal, j).value + 120;
           e.heure <= fin
           || (&& DernierContact(e.journal) && e.heure <= fin + 86_400
               && ConfirmeDepuis(e.journal, e.fiches[j].did, e.heure))
  {
    hide Execution, X.AppareilVu, ConfirmeDepuis, Chercher;
    var e := es[i];
    ExecutionTient(es, appels, i);
    X.ServiceExact(e, j, sid);
    if j in e.fiches { ConnuExactement(es, appels, i, e.fiches[j].did); }
    FichesDe(e);
  }

  lemma FichesDe(e: Etat)
    requires Inv(e)
    ensures forall j :: j in e.fiches ==> ExpDe(e.journal, j) == Some(e.fiches[j].exp)
    ensures e.injoignable == DernierContact(e.journal)
  {
    hide Forme, UneEcoute, RienDeRevoque, Defis, Connus, Comptes, JournalSain, DernierContact, ExpDe;
  }
}
