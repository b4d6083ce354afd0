/** What each call of the remote-listening session table does, as a function
    from state to state (tune-bridge/src/sessions.rs). The state carries its
    own history: `journal` records the events other parties can observe, and
    `tires` the random strings drawn so far. */
module SessionsSpec {
  import opened Commun

  /** Tokens, challenges, the identifiers of accounts, devices, servers and
      site sessions, and the names of devices: texts that are only ever compared,
      so the model numbers them. */
  datatype Id = Id(n: nat)

  datatype Code =
    | Defi | NonAutorise | SessionCoupee | SessionExpiree | TropDeDefis | AleatoireIndisponible
    | AutreServeur | LpExpire | LpRevoque | TropDeSessions | CloudUnavailable | RefuseParLeSite
    | AutreAppareil | AutreRefus(n: nat)

  datatype Motif = RepriseAilleurs | Revoquee | SansMotif | CoupeeParLeSite | DitParLeSite(n: nat)

  const DUREE_DEFI_S := 60
  const DEFIS_MAX := 10_000
  const SESSIONS_MAX := 10_000
  const SECOURS_S := 24 * 3600
  const APPAREIL_CONNU_S := 7 * 24 * 3600
  const AUDIO_ACTIF_S := 120
  const REVOCATION_GARDEE_S := 3600
  const COUPURE_GARDEE_S := 600
  const TOLERANCE_HORLOGE_S := 120

  datatype Rejet = Rejet(statut: nat, code: Code, motif: Option<Motif>, appareil: Option<Id>)

  function Nouveau(statut: nat, code: Code): Rejet { Rejet(statut, code, None, None) }

  function Coupee(motif: Motif, appareil: Option<Id>): Rejet {
    Rejet(401, SessionCoupee, Some(motif), appareil)
  }

  /** The claims of a pass. */
  datatype Revendications = Revendications(
    sid: Id, sub: Id, did: Id, jti: Id, exp: int, pk: Id, srvPk: Option<Id>)

  /** A presented pass: its claims, and what the checks that need keys or the
      text of the pass answer, before the server check, between it and the
      expiry check, and after the expiry check. */
  datatype LaissezPasser = LaissezPasser(
    r: Revendications, avant: Option<Rejet>, milieu: Option<Rejet>, apres: Option<Rejet>)

  datatype EchecVerif = Expire | Autre(rejet: Rejet)

  function RejetDe(x: EchecVerif): Rejet {
    match x case Expire => Nouveau(401, LpExpire) case Autre(r) => r
  }

  datatype Corps = Corps(lp: LaissezPasser, defi: Id, signatureBonne: bool)

  datatype ReponseOuverture = ReponseOuverture(
    ok: bool, sessionId: Option<Id>, couper: seq<Id>, motif: Option<Motif>, appareil: Option<Id>)

  datatype Coupure = Coupure(sessionId: Id, motif: Option<Motif>)

  datatype ReponseBattement = ReponseBattement(couper: seq<Coupure>, jti: set<Id>, did: set<Id>)

  datatype Accord = Accord(jeton: Id, expire: int, secours: bool)

  /** One session as the table sees it. */
  datatype Fiche = Fiche(
    sid: Id, sub: Id, did: Id, pk: Id, jti: Id, exp: int,
    nom: Option<Id>, site: Option<Id>, aRejouer: bool, secours: bool,
    octets: nat, dernierAudio: Option<int>)

  /** A heartbeat sent and not yet answered: the counters it carries. */
  datatype Vol = Vol(t: int, releves: map<Id, nat>, herites: map<Id, nat>)

  datatype Evenement =
    | DefiEmis(defi: Id, sid: Id, t: int)
    | Contact(echec: bool, t: int)
    | Confirme(did: Id, t: int)
    | Ouverte(jeton: Id, defi: Id, sid: Id, did: Id, exp: int, secours: bool, t: int)
    | Renouvelee(jeton: Id, defi: Id, sid: Id, did: Id, exp: int, t: int)
    | Servie(jeton: Id, sid: Id, did: Id, t: int)
    | Compte(jeton: Id, n: nat)
    | Heritee(sid: Id)
    | Acceptee(releves: map<Id, nat>, herites: map<Id, nat>)

  /** `fiches` holds every session ever created; `ouvertes` the tokens still in
      the table. A cut session lives on while a body holds it. */
  datatype Etat = Etat(
    heure: int,
    fiches: map<Id, Fiche>,
    ouvertes: set<Id>,
    defis: map<Id, (Id, int)>,
    connus: map<Id, int>,
    revJti: map<Id, int>,
    revDid: map<Id, int>,
    coupees: map<Id, (Rejet, int)>,
    herite: map<Id, nat>,
    injoignable: bool,
    vol: Option<Vol>,
    tires: set<Id>,
    journal: seq<Evenement>)

  function Initial(heure: int): Etat {
    Etat(heure, map[], {}, map[], map[], map[], map[], map[], map[], false, None, {}, [])
  }

  // ------------------------------------------------------------ small parts

  function Journaliser(e: Etat, ev: Evenement): Etat { e.(journal := e.journal + [ev]) }

  function Contacter(e: Etat, echec: bool): Etat {
    Journaliser(e.(injoignable := echec), Contact(echec, e.heure))
  }

  function Confirmer(e: Etat, did: Id, t: int): Etat {
    Journaliser(e.(connus := e.connus[did := t]), Confirme(did, t))
  }

  function Couper(e: Etat, js: set<Id>, rejet: Rejet): Etat {
    e.(ouvertes := e.ouvertes - js,
       coupees := e.coupees + Constante(js, (rejet, e.heure)))
  }

  predicate DuSite(e: Etat, j: Id, ids: seq<Id>) {
    j in e.fiches && e.fiches[j].site.Some? && e.fiches[j].site.value in ids
  }

  function CouperSites(e: Etat, ids: seq<Id>, rejet: Rejet): Etat {
    Couper(e, (set j | j in e.ouvertes && DuSite(e, j, ids)), rejet)
  }

  predicate AppareilConnu(e: Etat, did: Id) {
    did in e.connus && e.heure - e.connus[did] <= APPAREIL_CONNU_S
  }

  predicate AudioActif(f: Fiche, heure: int) {
    f.dernierAudio.Some? && heure - f.dernierAudio.value <= AUDIO_ACTIF_S
  }

  predicate EncoreValable(e: Etat, f: Fiche) {
    var exp := f.exp + TOLERANCE_HORLOGE_S;
    e.heure <= exp || (e.injoignable && e.heure <= exp + SECOURS_S && AppareilConnu(e, f.did))
  }

  predicate Revoque(e: Etat, did: Id, jti: Id) { jti in e.revJti || did in e.revDid }

  function Designation(f: Fiche): Id {
    match f.nom case Some(n) => n case None => f.did
  }

  function Verifier(lp: LaissezPasser, sid: Id, heure: int, grace: int): Result<Revendications, EchecVerif> {
    if lp.avant.Some? then Err(Autre(lp.avant.value))
    else if lp.r.sid != sid then Err(Autre(Nouveau(401, AutreServeur)))
    else if lp.milieu.Some? then Err(Autre(lp.milieu.value))
    else if heure > lp.r.exp + TOLERANCE_HORLOGE_S + Max(grace, 0) then Err(Expire)
    else if lp.apres.Some? then Err(Autre(lp.apres.value))
    else Ok(lp.r)
  }

  function GarderDefis(defis: map<Id, (Id, int)>, heure: int): map<Id, (Id, int)> {
    map d | d in defis && defis[d].1 >= heure :: defis[d]
  }

  function GarderRecents(m: map<Id, int>, heure: int, duree: int): map<Id, int> {
    map k | k in m && heure - m[k] <= duree :: m[k]
  }

  function GarderCoupees(m: map<Id, (Rejet, int)>, heure: int): map<Id, (Rejet, int)> {
    map k | k in m && heure - m[k].1 <= COUPURE_GARDEE_S :: m[k]
  }

  // ------------------------------------------------------------------ calls

  function NouveauDefi(e: Etat, sid: Id, alea: Option<Id>): (Etat, Result<(Id, int), Rejet>) {
    var e1 := if |e.defis| >= DEFIS_MAX then e.(defis := GarderDefis(e.defis, e.heure)) else e;
    if |e1.defis| >= DEFIS_MAX then (e1, Err(Nouveau(503, TropDeDefis)))
    else if alea.None? then (e1, Err(Nouveau(503, AleatoireIndisponible)))
    else
      var fin := e.heure + DUREE_DEFI_S;
      var e2 := e1.(defis := e1.defis[alea.value := (sid, fin)], tires := e1.tires + {alea.value});
      (Journaliser(e2, DefiEmis(alea.value, sid, e.heure)), Ok((alea.value, fin)))
  }

  predicate DefiBon(e: Etat, sid: Id, defi: Id) {
    defi in e.defis && e.defis[defi].0 == sid && e.defis[defi].1 >= e.heure
  }

  function SansDefi(e: Etat, defi: Id): Etat { e.(defis := e.defis - {defi}) }

  function FicheDe(r: Revendications, site: Option<Id>, nom: Option<Id>, secours: bool): Fiche {
    Fiche(r.sid, r.sub, r.did, r.pk, r.jti, r.exp, nom, site, site.None?, secours, 0, None)
  }

  function Creer(e: Etat, r: Revendications, defi: Id, site: Option<Id>, nom: Option<Id>,
                 secours: bool, alea: Option<Id>): (Etat, Result<Accord, Rejet>) {
    if alea.None? then (e, Err(Nouveau(503, AleatoireIndisponible))) else
    var j := alea.value;
    var e1 := e.(fiches := e.fiches[j := FicheDe(r, site, nom, secours)],
                 ouvertes := e.ouvertes + {j}, tires := e.tires + {j});
    (Journaliser(e1, Ouverte(j, defi, r.sid, r.did, r.exp, secours, e.heure)), Ok(Accord(j, r.exp, secours)))
  }

  /** What an admission does with the site's answer. */
  function ReponseAdmise(e: Etat, corps: Corps, rep: ReponseOuverture, alea: Option<Id>)
    : (Etat, Result<Accord, Rejet>)
  {
    var r := corps.lp.r;
    var e1 := Contacter(e, false);
    if !rep.ok then
      (e1, Err(Rejet(403, RefuseParLeSite, Some(if rep.motif.Some? then rep.motif.value else SansMotif), None)))
    else
      var c := Creer(Confirmer(e1, r.did, e.heure), r, corps.defi, rep.sessionId, rep.appareil, false, alea);
      if c.1.Err? then c else
      var nom := Designation(FicheDe(r, rep.sessionId, rep.appareil, false));
      (CouperSites(c.0, rep.couper, Coupee(RepriseAilleurs, Some(nom))), c.1)
  }

  function Admettre(e: Etat, cle: Option<Id>, corps: Corps, expire: bool,
                    rep: Option<ReponseOuverture>, alea: Option<Id>): (Etat, Result<Accord, Rejet>) {
    var r := corps.lp.r;
    if !corps.signatureBonne then (e, Err(Nouveau(401, Defi)))
    else if Revoque(e, r.did, r.jti) then (e, Err(Nouveau(403, LpRevoque)))
    else if cle.Some? && r.srvPk.Some? && cle.value != r.srvPk.value then (e, Err(Nouveau(401, AutreServeur)))
    else if |e.ouvertes| >= SESSIONS_MAX then (e, Err(Nouveau(503, TropDeSessions)))
    else if expire then
      if !AppareilConnu(e, r.did) then (e, Err(Nouveau(503, CloudUnavailable)))
      else Creer(e, r, corps.defi, None, None, true, alea)
    else
      match rep
      case None => Creer(Contacter(e, true), r, corps.defi, None, None, false, alea)
      case Some(rep) => ReponseAdmise(e, corps, rep, alea)
  }

  /** `sonde`: what the probe of the site answers if it is made (true: down).
      `rep`: the site's answer to the opening; None when it is unreachable. */
  function Ouvrir(e: Etat, sid: Id, cle: Option<Id>, corps: Corps, sonde: bool,
                  rep: Option<ReponseOuverture>, alea: Option<Id>): (Etat, Result<Accord, Rejet>) {
    var e1 := SansDefi(e, corps.defi);
    if !DefiBon(e, sid, corps.defi) then (e1, Err(Nouveau(401, Defi))) else
    match Verifier(corps.lp, sid, e.heure, 0)
    case Ok(_) => Admettre(e1, cle, corps, false, rep, alea)
    case Err(Autre(r)) => (e1, Err(r))
    case Err(Expire) =>
      var e2 := Contacter(e1, sonde);
      if !sonde then (e2, Err(RejetDe(Expire))) else
      match Verifier(corps.lp, sid, e.heure, SECOURS_S)
      case Ok(_) => Admettre(e2, cle, corps, true, rep, alea)
      case Err(x) => (e2, Err(RejetDe(x)))
  }

  function Renouveler(e: Etat, jeton: Id, corps: Corps): (Etat, Result<Accord, Rejet>) {
    if jeton !in e.ouvertes || jeton !in e.fiches then
      (e, Err(if jeton in e.coupees then e.coupees[jeton].0 else Nouveau(401, NonAutorise)))
    else
      var f := e.fiches[jeton];
      var r := corps.lp.r;
      var e1 := SansDefi(e, corps.defi);
      if !DefiBon(e, f.sid, corps.defi) then (e1, Err(Nouveau(401, Defi))) else
      match Verifier(corps.lp, f.sid, e.heure, 0)
      case Err(x) => (e1, Err(RejetDe(x)))
      case Ok(_) =>
        if !corps.signatureBonne then (e1, Err(Nouveau(401, Defi)))
        else if r.sub != f.sub || r.did != f.did || r.pk != f.pk then (e1, Err(Nouveau(401, AutreAppareil)))
        else if Revoque(e, r.did, r.jti) then
          (Couper(e1, {jeton}, Coupee(Motif.Revoquee, None)), Err(Nouveau(403, LpRevoque)))
        else
          var g := f.(exp := Max(f.exp, r.exp), jti := r.jti, secours := false);
          (Journaliser(e1.(fiches := e1.fiches[jeton := g]),
                       Renouvelee(jeton, corps.defi, f.sid, f.did, r.exp, e.heure)),
           Ok(Accord(jeton, g.exp, false)))
  }

  /** The session of a token; `Ok(None)` when it is no session token. */
  function Chercher(e: Etat, jeton: Id, sid: Id): (Etat, Result<Option<Id>, Rejet>) {
    if jeton in e.ouvertes && jeton in e.fiches then
      var f := e.fiches[jeton];
      var rejet := Nouveau(401, SessionExpiree);
      if f.sid != sid then (e, Err(Nouveau(401, NonAutorise)))
      else if !EncoreValable(e, f) then (Couper(e, {jeton}, rejet), Err(rejet))
      else (Journaliser(e, Servie(jeton, f.sid, f.did, e.heure)), Ok(Some(jeton)))
    else if jeton in e.coupees then (e, Err(e.coupees[jeton].0))
    else (e, Ok(None))
  }

  predicate AutreEcoute(e: Etat, jeton: Id, sub: Id, j: Id) {
    j in e.fiches && j != jeton && e.fiches[j].sub == sub && AudioActif(e.fiches[j], e.heure)
  }

  function Audio(e: Etat, jeton: Id): Etat
    requires jeton in e.fiches
  {
    var f := e.fiches[jeton];
    var e1 := e.(fiches := e.fiches[jeton := f.(dernierAudio := Some(e.heure))]);
    if AudioActif(f, e.heure) then e1 else
    Couper(e1, (set j | j in e1.ouvertes && AutreEcoute(e1, jeton, f.sub, j)),
           Coupee(RepriseAilleurs, Some(Designation(f))))
  }

  function Compter(e: Etat, jeton: Id, n: nat): Etat
    requires jeton in e.fiches
  {
    var f := e.fiches[jeton];
    Journaliser(e.(fiches := e.fiches[jeton := f.(octets := f.octets + n)]), Compte(jeton, n))
  }

  function Valeur(m: map<Id, nat>, k: Id): nat { if k in m then m[k] else 0 }

  function NoterHerite(e: Etat, sid: Id): Etat {
    Journaliser(e.(herite := e.herite[sid := Valeur(e.herite, sid) + 1]), Heritee(sid))
  }

  // -------------------------------------------------------------- heartbeat

  /** Housekeeping at the start of a round. */
  function Menage(e: Etat): Etat {
    var e1 := Couper(e, (set j | j in e.ouvertes && j in e.fiches && !EncoreValable(e, e.fiches[j])),
                     Nouveau(401, SessionExpiree));
    e1.(defis := GarderDefis(e1.defis, e.heure),
        coupees := GarderCoupees(e1.coupees, e.heure),
        revJti := GarderRecents(e1.revJti, e.heure, REVOCATION_GARDEE_S),
        revDid := GarderRecents(e1.revDid, e.heure, REVOCATION_GARDEE_S),
        connus := GarderRecents(e1.connus, e.heure, APPAREIL_CONNU_S))
  }

  function FicheRejouee(f: Fiche, rep: ReponseOuverture): Fiche {
    f.(site := rep.sessionId, nom := if rep.appareil.Some? then rep.appareil else f.nom, aRejouer := false)
  }

  function RejouerUne(e: Etat, j: Id, rep: ReponseOuverture): (e': Etat)
    requires j in e.fiches
  {
    var e1 := Contacter(e, false);
    if !rep.ok then
      Couper(e1, {j}, Coupee(if rep.motif.Some? then rep.motif.value else SansMotif, None))
    else
      var g := FicheRejouee(e.fiches[j], rep);
      var e2 := e1.(fiches := e1.fiches[j := g]);
      CouperSites(Confirmer(e2, g.did, e.heure), rep.couper, Coupee(RepriseAilleurs, Some(Designation(g))))
  }

  /** Openings accepted during an outage are presented again, until the site
      fails to answer (a token without an answer in `reps`). */
  function Rejouer(e: Etat, liste: seq<Id>, reps: map<Id, ReponseOuverture>): (e': Etat)
    decreases |liste|
  {
    if liste == [] then e
    else if liste[0] !in e.fiches || liste[0] !in reps then Contacter(e, true)
    else Rejouer(RejouerUne(e, liste[0], reps[liste[0]]), liste[1..], reps)
  }

  function ARejouer(e: Etat, ordre: seq<Id>): (r: seq<Id>) {
    if ordre == [] then []
    else if ordre[0] in e.ouvertes && ordre[0] in e.fiches && e.fiches[ordre[0]].aRejouer
    then [ordre[0]] + ARejouer(e, ordre[1..])
    else ARejouer(e, ordre[1..])
  }

  predicate Releve(e: Etat, j: Id) { j in e.ouvertes && j in e.fiches && e.fiches[j].site.Some? }

  function OctetsReleves(e: Etat): map<Id, nat> { map j | j in e.fiches && Releve(e, j) :: e.fiches[j].octets }

  function HeritesReleves(herite: map<Id, nat>): map<Id, nat> { map s | s in herite && herite[s] > 0 :: herite[s] }

  function FichesRelevees(e: Etat): map<Id, Fiche> {
    map j | j in e.fiches :: if Releve(e, j) then e.fiches[j].(octets := 0) else e.fiches[j]
  }

  function HeriteVide(herite: map<Id, nat>): map<Id, nat> { map s | s in herite :: 0 }

  function VolDe(t: int, releves: map<Id, nat>, herites: map<Id, nat>): Option<Vol> {
    if releves == map[] && herites == map[] then None else Some(Vol(t, releves, herites))
  }

  /** The counters leave with the heartbeat. */
  function Relever(e: Etat): Etat {
    e.(fiches := FichesRelevees(e), herite := HeriteVide(e.herite),
       vol := VolDe(e.heure, OctetsReleves(e), HeritesReleves(e.herite)))
  }

  /** First half of a round; `ordre` is the order in which the table is walked. */
  function BattreEnvoyer(e: Etat, ordre: seq<Id>, reps: map<Id, ReponseOuverture>): Etat {
    var e1 := Menage(e);
    Relever(Rejouer(e1, ARejouer(e1, ordre), reps))
  }

  function CouperListe(e: Etat, cs: seq<Coupure>): (e': Etat)
    ensures e'.fiches == e.fiches && e'.vol == e.vol && e'.journal == e.journal
    decreases |cs|
  {
    if cs == [] then e else
    var motif := if cs[0].motif.Some? then cs[0].motif.value else CoupeeParLeSite;
    CouperListe(CouperSites(e, [cs[0].sessionId], Coupee(motif, None)), cs[1..])
  }

  function Revoquer(e: Etat, jti: set<Id>, did: set<Id>, t: int): Etat {
    var e1 := e.(revJti := e.revJti + Constante(jti, t), revDid := e.revDid + Constante(did, t));
    Couper(e1, (set j | j in e1.ouvertes && j in e1.fiches && Revoque(e1, e1.fiches[j].did, e1.fiches[j].jti)),
           Coupee(Motif.Revoquee, None))
  }

  function FichesRemises(fiches: map<Id, Fiche>, releves: map<Id, nat>): map<Id, Fiche> {
    map j | j in fiches :: fiches[j].(octets := fiches[j].octets + Valeur(releves, j))
  }

  function HeriteRemis(herite: map<Id, nat>, herites: map<Id, nat>): map<Id, nat> {
    map s | s in herite.Keys + herites.Keys :: Valeur(herite, s) + Valeur(herites, s)
  }

  function Remettre(e: Etat, v: Vol): Etat {
    e.(fiches := FichesRemises(e.fiches, v.releves), herite := HeriteRemis(e.herite, v.herites))
  }

  /** Second half of a round: the site's answer, None when it never came.
      `relecture`: the key set was read again, and whether that failed. */
  function BattreRepondre(e: Etat, rep: Option<ReponseBattement>, relecture: Option<bool>): Etat
    requires e.vol.Some?
  {
    var v := e.vol.value;
    var e0 := e.(vol := None);
    match rep
    case None => Remettre(Contacter(e0, true), v)
    case Some(rep) =>
      var e1 := Journaliser(Contacter(e0, false), Acceptee(v.releves, v.herites));
      var e2 := Revoquer(CouperListe(e1, rep.couper), rep.jti, rep.did, v.t);
      if relecture.Some? then Contacter(e2, relecture.value) else e2
  }

  // ------------------------------------------------------------------- runs

  datatype Appel =
    | Attendre(t: int)
    | DemanderDefi(sid: Id, alea: Option<Id>)
    | DemanderOuverture(sid: Id, cle: Option<Id>, corps: Corps, sonde: bool,
                        rep: Option<ReponseOuverture>, alea: Option<Id>)
    | DemanderRenouvellement(jeton: Id, corps: Corps)
    | Presenter(jeton: Id, sid: Id)
    | JouerAudio(jeton: Id)
    | ServirOctets(jeton: Id, n: nat)
    | RequeteHeritee(sid: Id)
    | RafraichirJeu(echec: bool)
    | Envoi(ordre: seq<Id>, reps: map<Id, ReponseOuverture>)
    | Reponse(retour: Option<ReponseBattement>, relecture: Option<bool>)

  predicate Frais(e: Etat, alea: Option<Id>) { alea.Some? ==> alea.value !in e.tires }

  /** The premises of a step: the clock does not go back, drawn strings are
      new, a session is only played or counted through a handle once obtained,
      and one heartbeat is in flight at a time. */
  ghost predicate Permis(e: Etat, a: Appel) {
    match a
    case Attendre(t) => e.heure <= t
    case DemanderDefi(_, alea) => Frais(e, alea)
    case DemanderOuverture(_, _, _, _, _, alea) => Frais(e, alea)
    case JouerAudio(j) => j in e.fiches
    case ServirOctets(j, _) => j in e.fiches
    case Envoi(ordre, _) => e.vol.None? && Enumere(ordre, e.ouvertes)
    case Reponse(_, _) => e.vol.Some?
    case _ => true
  }

  ghost function Pas(e: Etat, a: Appel): Etat
    requires Permis(e, a)
  {
    match a
    case Attendre(t) => e.(heure := t)
    case DemanderDefi(sid, alea) => NouveauDefi(e, sid, alea).0
    case DemanderOuverture(sid, cle, corps, sonde, rep, alea) => Ouvrir(e, sid, cle, corps, sonde, rep, alea).0
    case DemanderRenouvellement(j, corps) => Renouveler(e, j, corps).0
    case Presenter(j, sid) => Chercher(e, j, sid).0
    case JouerAudio(j) => Audio(e, j)
    case ServirOctets(j, n) => Compter(e, j, n)
    case RequeteHeritee(sid) => NoterHerite(e, sid)
    case RafraichirJeu(echec) => Contacter(e, echec)
    case Envoi(ordre, reps) => BattreEnvoyer(e, ordre, reps)
    case Reponse(retour, relecture) => BattreRepondre(e, retour, relecture)
  }

  /** `es` is a run: each state follows from the one before by a permitted call. */
  ghost predicate Execution(es: seq<Etat>, appels: seq<Appel>) {
    && |es| == |appels| + 1
    && es[0] == Initial(es[0].heure)
    && forall i :: 0 <= i < |appels| ==> Permis(es[i], appels[i]) && es[i + 1] == Pas(es[i], appels[i])
  }
}
