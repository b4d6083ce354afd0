/** The traffic ledger of the relay as functions from state to state
    (tune-bridge/src/trafic.rs): counters global and per server, listening
    sessions, the minute roll-over and the queue of minutes to send. */
module TraficSpec {
  import opened Commun

  /** Server identifiers, counter objects, sessions and stream keys are only ever
      compared: the model numbers them. */
  datatype Sid = Sid(n: nat)
  datatype Oid = Oid(n: nat)
  datatype Sess = Sess(n: nat)
  datatype Cle = Cle(n: nat)

  const MINUTES_GARDEES := 24 * 60
  const MINUTES_PAR_ENVOI := 120
  /** Milliseconds. */
  const FENETRE_DE_REPRISE := 60_000
  const COUPURES_GARDEES := 32

  datatype Categorie = Audio | Cercle | Api | Images

  /** One amount per category. */
  datatype Quatre = Quatre(audio: nat, cercle: nat, api: nat, images: nat) {
    function De(c: Categorie): nat {
      match c case Audio => audio case Cercle => cercle case Api => api case Images => images
    }
    function Plus(c: Categorie, n: nat): Quatre {
      match c
      case Audio => this.(audio := audio + n)
      case Cercle => this.(cercle := cercle + n)
      case Api => this.(api := api + n)
      case Images => this.(images := images + n)
    }
    function Total(): nat { audio + cercle + api + images }
  }

  const ZERO := Quatre(0, 0, 0, 0)

  /** A recent end that was not complete; `session` is history. */
  datatype Coupure = Coupure(cle: Cle, t: int, session: Sess)

  datatype Compteurs = Compteurs(
    sid: Sid, entree: Quatre, sortie: Quatre, sessions: nat, ecoute: nat, reprises: nat, coupures: seq<Coupure>)

  datatype Globaux = Globaux(
    entree: Quatre, sortie: Quatre, ouvertes: nat, completes: nat, interrompues: nat, coupees: nat, reprises: nat)

  const RIEN := Globaux(ZERO, ZERO, 0, 0, 0, 0, 0)

  datatype Ligne = Ligne(bytesIn: nat, bytesOut: nat, streamOut: nat, sessions: nat, listening: nat, resumes: nat)

  /** A closed minute; the rows, sorted by server in the source, are a map. */
  datatype Minute = Minute(minute: int, globaux: Globaux, servers: map<Sid, Ligne>)

  datatype Fin = Complete | InterrompueParLeClient | CoupeeCoteServeur

  datatype Fiche = Fiche(oid: Oid, categorie: Categorie, cle: Cle, ouverteA: int, finAtteinte: bool, finPropre: bool)

  datatype Issue = Issue(fiche: Fiche, t: int, fin: Fin)

  /** Bytes counted, as history. */
  datatype Mouvement = Mouvement(entrant: bool, c: Categorie, oid: Oid, n: nat)

  /** `objets` holds every counter object ever made; `serveurs` is the map the
      relay keeps; `tenus` counts the handles held outside the map and the
      sessions. The last six fields are history. */
  datatype Etat = Etat(
    heure: int,
    vif: Globaux,
    objets: map<Oid, Compteurs>,
    serveurs: map<Sid, Oid>,
    tenus: map<Oid, nat>,
    sessions: map<Sess, Fiche>,
    minutes: seq<Minute>,
    mouvements: seq<Mouvement>,
    closes: seq<Minute>,
    acceptees: seq<Minute>,
    perdues: seq<Minute>,
    finies: map<Sess, Issue>,
    reprises: map<Sess, Sess>)

  function Initial(heure: int): Etat {
    Etat(heure, RIEN, map[], map[], map[], map[], [], [], [], [], [], map[], map[])
  }

  /** Someone besides the map holds the object (`Arc::strong_count` above 1). */
  predicate Tenu(tenus: map<Oid, nat>, sessions: map<Sess, Fiche>, o: Oid) {
    (o in tenus && tenus[o] > 0) || exists s :: s in sessions && sessions[s].oid == o
  }

  // ------------------------------------------------------------- counting

  function Creer(e: Etat, sid: Sid, o: Oid): Etat {
    e.(objets := e.objets[o := Compteurs(sid, ZERO, ZERO, 0, 0, 0, [])], serveurs := e.serveurs[sid := o],
       tenus := e.tenus[o := 1])
  }

  function Prendre(e: Etat, o: Oid): Etat {
    e.(tenus := e.tenus[o := (if o in e.tenus then e.tenus[o] else 0) + 1])
  }

  /** `serveur`: the counters of a server, made at the first request; `neuf` is
      the object that would be made. */
  function Serveur(e: Etat, sid: Sid, neuf: Oid): Etat {
    if sid in e.serveurs then Prendre(e, e.serveurs[sid]) else Creer(e, sid, neuf)
  }

  function Lacher(e: Etat, o: Oid): Etat {
    if o in e.tenus && e.tenus[o] > 0 then e.(tenus := e.tenus[o := e.tenus[o] - 1]) else e
  }

  function Entrer(e: Etat, o: Oid, c: Categorie, n: nat): Etat
    requires o in e.objets
  {
    e.(vif := e.vif.(entree := e.vif.entree.Plus(c, n)),
       objets := e.objets[o := e.objets[o].(entree := e.objets[o].entree.Plus(c, n))],
       mouvements := e.mouvements + [Mouvement(true, c, o, n)])
  }

  function Sortir(e: Etat, o: Oid, c: Categorie, n: nat): Etat
    requires o in e.objets
  {
    e.(vif := e.vif.(sortie := e.vif.sortie.Plus(c, n)),
       objets := e.objets[o := e.objets[o].(sortie := e.objets[o].sortie.Plus(c, n))],
       mouvements := e.mouvements + [Mouvement(false, c, o, n)])
  }

  // ------------------------------------------------------------- sessions

  /** The cuts still recent. */
  function Recentes(cs: seq<Coupure>, heure: int): (r: seq<Coupure>)
    ensures |r| <= |cs|
    ensures forall c :: c in r <==> c in cs && heure - c.t < FENETRE_DE_REPRISE
  {
    if cs == [] then []
    else
      var r := Recentes(cs[..|cs| - 1], heure);
      var c := cs[|cs| - 1];
      if heure - c.t < FENETRE_DE_REPRISE then r + [c] else r
  }

  /** The first place of a key, the length when it is absent. */
  function Place(cs: seq<Coupure>, cle: Cle): (i: nat)
    ensures i <= |cs|
    ensures i < |cs| ==> cs[i].cle == cle
    ensures forall k :: 0 <= k < i ==> cs[k].cle != cle
  {
    if cs == [] || cs[0].cle == cle then 0 else 1 + Place(cs[1..], cle)
  }

  function Noter(cs: seq<Coupure>, c: Coupure): seq<Coupure> {
    (if |cs| >= COUPURES_GARDEES then cs[1..] else cs) + [c]
  }

  function OuvrirNeuve(e: Etat, s: Sess, f: Fiche): Etat
    requires f.oid in e.objets
  {
    var k := e.objets[f.oid];
    e.(vif := e.vif.(ouvertes := e.vif.ouvertes + 1),
       objets := e.objets[f.oid := k.(sessions := k.sessions + 1)],
       sessions := e.sessions[s := f])
  }

  /** A request that does not start at byte zero looks for a recent cut of the
      same stream, and consumes it. */
  function Reprendre(e: Etat, s: Sess, o: Oid, cle: Cle): Etat
    requires o in e.objets
  {
    var k := e.objets[o];
    var cs := Recentes(k.coupures, e.heure);
    var i := Place(cs, cle);
    if i == |cs| then e.(objets := e.objets[o := k.(coupures := cs)])
    else
      e.(vif := e.vif.(reprises := e.vif.reprises + 1),
         objets := e.objets[o := k.(coupures := cs[..i] + cs[i + 1..], reprises := k.reprises + 1)],
         reprises := e.reprises[cs[i].session := s])
  }

  /** `ouvrir_session`: the session takes over one handle. */
  function OuvrirSession(e: Etat, s: Sess, o: Oid, c: Categorie, cle: Cle, horsDebut: bool): Etat
    requires o in e.objets
  {
    var e1 := OuvrirNeuve(Lacher(e, o), s, Fiche(o, c, cle, e.heure, false, false));
    if horsDebut then Reprendre(e1, s, o, cle) else e1
  }

  function FinDe(f: Fiche): Fin {
    if !f.finAtteinte then InterrompueParLeClient else if f.finPropre then Complete else CoupeeCoteServeur
  }

  function Compter(v: Globaux, fin: Fin): Globaux {
    match fin
    case Complete => v.(completes := v.completes + 1)
    case InterrompueParLeClient => v.(interrompues := v.interrompues + 1)
    case CoupeeCoteServeur => v.(coupees := v.coupees + 1)
  }

  /** `Drop`: the session ends. */
  function Tomber(e: Etat, s: Sess): Etat
    requires s in e.sessions && e.sessions[s].oid in e.objets
  {
    var f := e.sessions[s];
    var fin, k := FinDe(f), e.objets[f.oid];
    var ms := Max(0, e.heure - f.ouverteA);
    e.(vif := Compter(e.vif, fin),
       objets := e.objets[f.oid := k.(ecoute := k.ecoute + ms,
                                      coupures := if fin == Complete then k.coupures
                                                  else Noter(k.coupures, Coupure(f.cle, e.heure, s)))],
       sessions := e.sessions - {s},
       finies := e.finies[s := Issue(f, e.heure, fin)])
  }

  // ------------------------------------------------------------- minutes

  predicate Actif(k: Compteurs) {
    k.entree.Total() + k.sortie.Total() + k.sessions + k.ecoute + k.reprises > 0
  }

  function LigneDe(k: Compteurs): Ligne {
    Ligne(k.entree.Total(), k.sortie.Total(), k.sortie.audio + k.sortie.cercle, k.sessions, k.ecoute, k.reprises)
  }

  function Vide(k: Compteurs): Compteurs {
    Compteurs(k.sid, ZERO, ZERO, 0, 0, 0, k.coupures)
  }

  function Lignes(objets: map<Oid, Compteurs>, serveurs: map<Sid, Oid>): map<Sid, Ligne> {
    map s | s in serveurs && serveurs[s] in objets && Actif(objets[serveurs[s]]) :: LigneDe(objets[serveurs[s]])
  }

  /** The servers that stay: active, or held by someone. */
  function Restants(e: Etat): map<Sid, Oid> {
    map s | s in e.serveurs && e.serveurs[s] in e.objets
      && (Actif(e.objets[e.serveurs[s]]) || Tenu(e.tenus, e.sessions, e.serveurs[s])) :: e.serveurs[s]
  }

  function Remis(objets: map<Oid, Compteurs>, serveurs: map<Sid, Oid>): map<Oid, Compteurs> {
    map o | o in objets :: if o in serveurs.Values then Vide(objets[o]) else objets[o]
  }

  function Debord(file: seq<Minute>): (n: nat)
    ensures n <= |file|
  {
    if |file| >= MINUTES_GARDEES then |file| - MINUTES_GARDEES + 1 else 0
  }

  /** `clore_minute`: every counter is read and reset; the oldest minutes leave a
      full queue. */
  function Clore(e: Etat, minute: int): Etat {
    var m := Minute(minute, e.vif, Lignes(e.objets, e.serveurs));
    var n := Debord(e.minutes);
    e.(vif := RIEN,
       objets := Remis(e.objets, e.serveurs),
       serveurs := Restants(e),
       minutes := e.minutes[n..] + [m],
       closes := e.closes + [m],
       perdues := e.perdues + e.minutes[..n])
  }

  // ------------------------------------------------------------- sending

  predicate Designe(ids: seq<int>, m: Minute) { m.minute in ids }

  /** The minutes not named. */
  function Retenues(file: seq<Minute>, ids: seq<int>): (r: seq<Minute>)
    ensures |r| <= |file|
  {
    if file == [] then [] else
      var r := Retenues(file[..|file| - 1], ids);
      if Designe(ids, file[|file| - 1]) then r else r + [file[|file| - 1]]
  }

  function Ids(ms: seq<Minute>): (ids: seq<int>)
    ensures |ids| == |ms| && forall i :: 0 <= i < |ms| ==> ids[i] == ms[i].minute
  {
    seq(|ms|, i requires 0 <= i < |ms| => ms[i].minute)
  }

  datatype Reponse = Statut(code: nat) | SansReponse

  predicate Succes(r: Reponse) { r.Statut? && 200 <= r.code < 300 }

  datatype Envoi = Rien | Accepte(n: nat) | Echec(statut: Option<nat>)

  function Paquet(file: seq<Minute>): seq<Minute> { file[..Min(|file|, MINUTES_PAR_ENVOI)] }

  /** At most `tours` packets, the site answering `rs` in turn (nothing once the
      answers run out). */
  function Paquets(e: Etat, tours: nat, rs: seq<Reponse>, acceptees: nat): (Etat, Envoi)
    decreases tours
  {
    var paquet := Paquet(e.minutes);
    if tours == 0 || paquet == [] then (e, if acceptees == 0 then Rien else Accepte(acceptees))
    else
      var r := if rs == [] then SansReponse else rs[0];
      if Succes(r) then
        var e1 := e.(minutes := Retenues(e.minutes, Ids(paquet)), acceptees := e.acceptees + paquet);
        Paquets(e1, tours - 1, rs[1..], acceptees + |paquet|)
      else (e, Echec(if r.Statut? then Some(r.code) else None))
  }

  function Tours(n: nat): nat { (n + MINUTES_PAR_ENVOI - 1) / MINUTES_PAR_ENVOI }

  function Pousser(e: Etat, jeton: bool, rs: seq<Reponse>): (Etat, Envoi) {
    if !jeton then (e, Rien) else Paquets(e, Tours(|e.minutes|), rs, 0)
  }

  // ------------------------------------------------------------- the runs

  datatype Appel =
    | Attendre(t: int)
    | DemanderServeur(sid: Sid, neuf: Oid)
    | LacherServeur(o: Oid)
    | ClonerServeur(o: Oid)
    | EntreeDe(o: Oid, c: Categorie, n: nat)
    | SortieDe(o: Oid, c: Categorie, n: nat)
    | Ouverture(s: Sess, o: Oid, c: Categorie, cle: Cle, horsDebut: bool)
    | MorceauRendu(s: Sess, n: nat)
    | FinDuFlux(s: Sess)
    | FinPropre(s: Sess)
    | FinSession(s: Sess)
    | CloreMinute(minute: int)
    | PousserAuSite(jeton: bool, rs: seq<Reponse>)

  /** What a caller can do: use a handle it holds, a session that is open, a name
      never used before; the clock does not go back. */
  predicate Permis(e: Etat, a: Appel) {
    match a
    case Attendre(t) => e.heure <= t
    case DemanderServeur(_, neuf) => neuf !in e.objets
    case LacherServeur(o) => o in e.tenus && e.tenus[o] > 0
    case ClonerServeur(o) => Tenu(e.tenus, e.sessions, o)
    case EntreeDe(o, _, _) => Tenu(e.tenus, e.sessions, o)
    case SortieDe(o, _, _) => Tenu(e.tenus, e.sessions, o)
    case Ouverture(s, o, _, _, _) => o in e.tenus && e.tenus[o] > 0 && s !in e.sessions && s !in e.finies
    case MorceauRendu(s, _) => s in e.sessions
    case FinDuFlux(s) => s in e.sessions
    case FinPropre(s) => s in e.sessions
    case FinSession(s) => s in e.sessions
    case CloreMinute(_) => true
    case PousserAuSite(_, _) => true
  }

  function Pas(e: Etat, a: Appel): Etat {
    match a
    case Attendre(t) => e.(heure := t)
    case DemanderServeur(sid, neuf) => Serveur(e, sid, neuf)
    case LacherServeur(o) => Lacher(e, o)
    case ClonerServeur(o) => Prendre(e, o)
    case EntreeDe(o, c, n) => if o in e.objets then Entrer(e, o, c, n) else e
    case SortieDe(o, c, n) => if o in e.objets then Sortir(e, o, c, n) else e
    case Ouverture(s, o, c, cle, horsDebut) => if o in e.objets then OuvrirSession(e, s, o, c, cle, horsDebut) else e
    case MorceauRendu(s, n) =>
      if s in e.sessions && e.sessions[s].oid in e.objets
      then Sortir(e, e.sessions[s].oid, e.sessions[s].categorie, n) else e
    case FinDuFlux(s) =>
      if s in e.sessions then e.(sessions := e.sessions[s := e.sessions[s].(finAtteinte := true)]) else e
    case FinPropre(s) =>
      if s in e.sessions then e.(sessions := e.sessions[s := e.sessions[s].(finPropre := true)]) else e
    case FinSession(s) => if s in e.sessions && e.sessions[s].oid in e.objets then Tomber(e, s) else e
    case CloreMinute(minute) => Clore(e, minute)
    case PousserAuSite(jeton, rs) => Pousser(e, jeton, rs).0
  }

  /** `es` is a run: each state follows from the one before by a permitted call. */
  ghost predicate Execution(es: seq<Etat>, appels: seq<Appel>) {
    && |es| == |appels| + 1
    && es[0] == Initial(es[0].heure)
    && forall i :: 0 <= i < |appels| ==> Permis(es[i], appels[i]) && es[i + 1] == Pas(es[i], appels[i])
  }
}
