/** What every run of the session table keeps. */
module SessionsProofs {
  import opened Commun
  import opened SessionsSpec

  // --------------------------------------------------- reading the journal

  /** What the last exchange with the site said: true when it failed. */
  ghost predicate DernierContact(pre: seq<Evenement>) {
    if pre == [] then false
    else if pre[|pre| - 1].Contact? then pre[|pre| - 1].echec
    else DernierContact(pre[..|pre| - 1])
  }

  ghost predicate EmisPour(pre: seq<Evenement>, defi: Id, sid: Id, t: int) {
    exists t0 :: DefiEmis(defi, sid, t0) in pre && t0 <= t <= t0 + DUREE_DEFI_S
  }

  ghost predicate Sert(ev: Evenement, defi: Id) {
    (ev.Ouverte? || ev.Renouvelee?) && ev.defi == defi
  }

  ghost predicate DefiServi(pre: seq<Evenement>, defi: Id) {
    exists ev :: ev in pre && Sert(ev, defi)
  }

  ghost predicate ConnuDans(pre: seq<Evenement>, did: Id, t: int) {
    exists t0 :: Confirme(did, t0) in pre && t0 <= t <= t0 + APPAREIL_CONNU_S
  }

  ghost predicate EstOuverture(ev: Evenement, jeton: Id) { ev.Ouverte? && ev.jeton == jeton }

  ghost predicate JetonOuvert(pre: seq<Evenement>, jeton: Id) {
    exists ev :: ev in pre && EstOuverture(ev, jeton)
  }

  ghost predicate OuvertPour(pre: seq<Evenement>, jeton: Id, sid: Id, did: Id) {
    exists ev :: ev in pre && EstOuverture(ev, jeton) && ev.sid == sid && ev.did == did
  }

  /** The latest expiry ever granted to a token. */
  ghost function ExpDe(pre: seq<Evenement>, jeton: Id): Option<int> {
    if pre == [] then None else
    var x := ExpDe(pre[..|pre| - 1], jeton);
    var ev := pre[|pre| - 1];
    if (ev.Ouverte? || ev.Renouvelee?) && ev.jeton == jeton
    then Some(if x.Some? then Max(x.value, ev.exp) else ev.exp)
    else x
  }

  /** When an event is allowed, given everything that came before it. */
  ghost predicate Sain(pre: seq<Evenement>, ev: Evenement) {
    match ev
    case Ouverte(j, defi, sid, did, exp, secours, t) =>
      && EmisPour(pre, defi, sid, t) && !DefiServi(pre, defi) && !JetonOuvert(pre, j)
      && if secours then
           && |pre| > 0 && pre[|pre| - 1] == Contact(true, t)
           && ConnuDans(pre, did, t)
           && exp + TOLERANCE_HORLOGE_S < t <= exp + TOLERANCE_HORLOGE_S + SECOURS_S
         else t <= exp + TOLERANCE_HORLOGE_S
    case Renouvelee(j, defi, sid, did, exp, t) =>
      && EmisPour(pre, defi, sid, t) && !DefiServi(pre, defi)
      && OuvertPour(pre, j, sid, did)
      && t <= exp + TOLERANCE_HORLOGE_S
    case Servie(j, sid, did, t) =>
      && OuvertPour(pre, j, sid, did)
      && ExpDe(pre, j).Some?
      && var fin := ExpDe(pre, j).value + TOLERANCE_HORLOGE_S;
         t <= fin || (DernierContact(pre) && t <= fin + SECOURS_S && ConnuDans(pre, did, t))
    case _ => true
  }

  ghost predicate JournalSain(jn: seq<Evenement>) {
    forall k :: 0 <= k < |jn| ==> Sain(jn[..k], jn[k])
  }

  ghost function Servis(jn: seq<Evenement>, j: Id): nat {
    if jn == [] then 0 else
    var ev := jn[|jn| - 1];
    Servis(jn[..|jn| - 1], j) + (if ev.Compte? && ev.jeton == j then ev.n else 0)
  }

  ghost function Heritees(jn: seq<Evenement>, s: Id): nat {
    if jn == [] then 0 else
    var ev := jn[|jn| - 1];
    Heritees(jn[..|jn| - 1], s) + (if ev.Heritee? && ev.sid == s then 1 else 0)
  }

  ghost function ServisAcceptes(jn: seq<Evenement>, j: Id): nat {
    if jn == [] then 0 else
    var ev := jn[|jn| - 1];
    ServisAcceptes(jn[..|jn| - 1], j) + (if ev.Acceptee? then Valeur(ev.releves, j) else 0)
  }

  ghost function HeritesAcceptes(jn: seq<Evenement>, s: Id): nat {
    if jn == [] then 0 else
    var ev := jn[|jn| - 1];
    HeritesAcceptes(jn[..|jn| - 1], s) + (if ev.Acceptee? then Valeur(ev.herites, s) else 0)
  }

  ghost function ReleveEnVol(vol: Option<Vol>, j: Id): nat { if vol.Some? then Valeur(vol.value.releves, j) else 0 }

  ghost function HeriteEnVol(vol: Option<Vol>, s: Id): nat { if vol.Some? then Valeur(vol.value.herites, s) else 0 }

  // ------------------------------------------------------------ invariants

  ghost predicate Forme(cles: set<Id>, ouvertes: set<Id>, tires: set<Id>, coupees: set<Id>, defis: nat) {
    && ouvertes <= cles <= tires
    && coupees <= cles - ouvertes
    && |ouvertes| <= SESSIONS_MAX
    && defis <= DEFIS_MAX
  }

  /** One listener per account. */
  ghost predicate UneEcoute(heure: int, fiches: map<Id, Fiche>, ouvertes: set<Id>) {
    && (forall j :: j in fiches && fiches[j].dernierAudio.Some? ==> fiches[j].dernierAudio.value <= heure)
    && (forall a, b :: a in ouvertes && b in ouvertes && a in fiches && b in fiches
          && fiches[a].sub == fiches[b].sub
          && AudioActif(fiches[a], heure)
          && AudioActif(fiches[b], heure)
          ==> a == b)
  }

  /** Nothing revoked stays in the table. */
  ghost predicate RienDeRevoque(fiches: map<Id, Fiche>, ouvertes: set<Id>, jti: set<Id>, did: set<Id>) {
    forall j :: j in ouvertes && j in fiches ==> fiches[j].did !in did && fiches[j].jti !in jti
  }

  ghost predicate Defis(jn: seq<Evenement>, defis: map<Id, (Id, int)>, tires: set<Id>, heure: int) {
    && (forall d :: d in defis ==>
          && d in tires
          && DefiEmis(d, defis[d].0, defis[d].1 - DUREE_DEFI_S) in jn
          && defis[d].1 - DUREE_DEFI_S <= heure
          && !DefiServi(jn, d))
    && (forall ev :: ev in jn && (ev.Ouverte? || ev.Renouvelee?) ==> ev.defi in tires)
  }

  ghost predicate Connus(jn: seq<Evenement>, connus: map<Id, int>, heure: int) {
    forall d :: d in connus ==> connus[d] <= heure && Confirme(d, connus[d]) in jn
  }

  ghost predicate Fiches(jn: seq<Evenement>, fiches: map<Id, Fiche>) {
    && (forall j :: j in fiches ==>
          && OuvertPour(jn, j, fiches[j].sid, fiches[j].did)
          && ExpDe(jn, j) == Some(fiches[j].exp))
    && (forall ev :: ev in jn && (ev.Ouverte? || ev.Renouvelee?) ==> ev.jeton in fiches)
  }

  /** Bytes counted = accepted + in flight + still in the counter, per session;
      the same per server for the requests of the inherited link. */
  ghost predicate Comptes(jn: seq<Evenement>, fiches: map<Id, Fiche>, vol: Option<Vol>, herite: map<Id, nat>) {
    && (forall j :: Servis(jn, j) ==
                    ServisAcceptes(jn, j) + ReleveEnVol(vol, j) + (if j in fiches then fiches[j].octets else 0))
    && (forall s :: Heritees(jn, s) == HeritesAcceptes(jn, s) + HeriteEnVol(vol, s) + Valeur(herite, s))
    && (vol.Some? ==> vol.value.releves.Keys <= fiches.Keys)
  }

  ghost predicate Inv(e: Etat) {
    && Forme(e.fiches.Keys, e.ouvertes, e.tires, e.coupees.Keys, |e.defis|)
    && UneEcoute(e.heure, e.fiches, e.ouvertes)
    && RienDeRevoque(e.fiches, e.ouvertes, e.revJti.Keys, e.revDid.Keys)
    && Defis(e.journal, e.defis, e.tires, e.heure)
    && Connus(e.journal, e.connus, e.heure)
    && Fiches(e.journal, e.fiches)
    && Comptes(e.journal, e.fiches, e.vol, e.herite)
    && e.injoignable == DernierContact(e.journal)
    && JournalSain(e.journal)
  }

  // ----------------------------------------------------- what an entry adds

  lemma Ajout(jn: seq<Evenement>, ev: Evenement)
    ensures (jn + [ev])[..|jn|] == jn
    ensures forall x :: x in jn + [ev] <==> x in jn || x == ev
  {
  }

  /** Appending an event that is sane. */
  lemma AjoutSain(jn: seq<Evenement>, ev: Evenement)
    requires JournalSain(jn) && Sain(jn, ev)
    ensures JournalSain(jn + [ev])
  {
    hide Sain;
    var n := jn + [ev];
    forall k | 0 <= k < |n|
      ensures Sain(n[..k], n[k])
    {
      if k < |jn| {
        assert n[..k] == jn[..k];
      } else {
        assert n[..k] == jn;
      }
    }
  }

  lemma DefiServiAjout(jn: seq<Evenement>, ev: Evenement)
    ensures forall d :: DefiServi(jn + [ev], d) <==> DefiServi(jn, d) || Sert(ev, d)
  {
    Ajout(jn, ev);
    forall d
      ensures DefiServi(jn + [ev], d) <==> DefiServi(jn, d) || Sert(ev, d)
    {
      if Sert(ev, d) {
        assert ev in jn + [ev];
      }
      if DefiServi(jn, d) {
        var x :| x in jn && Sert(x, d);
        assert x in jn + [ev];
      }
    }
  }

  lemma OuvertPourAjout(jn: seq<Evenement>, ev: Evenement)
    ensures forall j, sid, did :: OuvertPour(jn, j, sid, did) ==> OuvertPour(jn + [ev], j, sid, did)
  {
    forall j, sid, did | OuvertPour(jn, j, sid, did)
      ensures OuvertPour(jn + [ev], j, sid, did)
    {
      var x :| x in jn && EstOuverture(x, j) && x.sid == sid && x.did == did;
      assert x in jn + [ev];
    }
  }

  /** What a journal entry adds to each reading of the journal. */
  lemma LecturesAjout(jn: seq<Evenement>, ev: Evenement)
    ensures DernierContact(jn + [ev]) == if ev.Contact? then ev.echec else DernierContact(jn)
    ensures forall j :: Servis(jn + [ev], j) == Servis(jn, j) + if ev.Compte? && ev.jeton == j then ev.n else 0
    ensures forall s :: Heritees(jn + [ev], s) == Heritees(jn, s) + if ev.Heritee? && ev.sid == s then 1 else 0
    ensures forall j :: ServisAcceptes(jn + [ev], j)
                        == ServisAcceptes(jn, j) + if ev.Acceptee? then Valeur(ev.releves, j) else 0
    ensures forall s :: HeritesAcceptes(jn + [ev], s)
                        == HeritesAcceptes(jn, s) + if ev.Acceptee? then Valeur(ev.herites, s) else 0
    ensures forall j :: ExpDe(jn + [ev], j) ==
              if (ev.Ouverte? || ev.Renouvelee?) && ev.jeton == j
              then Some(if ExpDe(jn, j).Some? then Max(ExpDe(jn, j).value, ev.exp) else ev.exp)
              else ExpDe(jn, j)
  {
    Ajout(jn, ev);
  }

  /** An event that neither opens, renews, counts nor settles anything. */
  ghost predicate Neutre(ev: Evenement) { ev.DefiEmis? || ev.Contact? || ev.Confirme? || ev.Servie? }

  ghost predicate Accord(ev: Evenement) { ev.Ouverte? || ev.Renouvelee? }

  lemma DefisAjout(jn: seq<Evenement>, ev: Evenement, defis: map<Id, (Id, int)>, tires: set<Id>, heure: int)
    requires Defis(jn, defis, tires, heure)
    requires Accord(ev) ==> ev.defi in tires && ev.defi !in defis
    ensures Defis(jn + [ev], defis, tires, heure)
  {
    hide DefiServi;
    Ajout(jn, ev);
    DefiServiAjout(jn, ev);
  }

  lemma ConnusAjout(jn: seq<Evenement>, ev: Evenement, connus: map<Id, int>, heure: int)
    requires Connus(jn, connus, heure)
    ensures Connus(jn + [ev], connus, heure)
  {
    Ajout(jn, ev);
  }

  lemma FichesAjout(jn: seq<Evenement>, ev: Evenement, fiches: map<Id, Fiche>)
    requires Fiches(jn, fiches) && !Accord(ev)
    ensures Fiches(jn + [ev], fiches)
  {
    hide ExpDe, OuvertPour;
    Ajout(jn, ev);
    OuvertPourAjout(jn, ev);
    LecturesAjout(jn, ev);
  }

  lemma ComptesAjout(jn: seq<Evenement>, ev: Evenement, fiches: map<Id, Fiche>, vol: Option<Vol>, herite: map<Id, nat>)
    requires Comptes(jn, fiches, vol, herite) && !ev.Compte? && !ev.Heritee? && !ev.Acceptee?
    ensures Comptes(jn + [ev], fiches, vol, herite)
  {
    hide Servis, Heritees, ServisAcceptes, HeritesAcceptes;
    LecturesAjout(jn, ev);
  }

  lemma FormePlus(c: set<Id>, o: set<Id>, t: set<Id>, k: set<Id>, n: nat, j: Id, n': nat)
    requires Forme(c, o, t, k, n) && j !in t && n' <= DEFIS_MAX
    ensures Forme(c, o, t + {j}, k, n')
    ensures |o| < SESSIONS_MAX ==> Forme(c + {j}, o + {j}, t + {j}, k, n')
  {
  }

  lemma FormeMoins(c: set<Id>, o: set<Id>, t: set<Id>, k: set<Id>, n: nat, js: set<Id>)
    requires Forme(c, o, t, k, n) && js <= c
    ensures Forme(c, o - js, t, k + js, n)
  {
    CardinalSous(o - js, o);
  }

  lemma JournaliserTient(e: Etat, ev: Evenement)
    requires Inv(e) && Sain(e.journal, ev) && Neutre(ev)
    ensures Inv(Journaliser(e, ev).(injoignable := if ev.Contact? then ev.echec else e.injoignable))
  {
    hide Forme, UneEcoute, RienDeRevoque, Defis, Connus, Fiches, Comptes, DernierContact, JournalSain, Sain;
    AjoutSain(e.journal, ev);
    LecturesAjout(e.journal, ev);
    DefisAjout(e.journal, ev, e.defis, e.tires, e.heure);
    ConnusAjout(e.journal, ev, e.connus, e.heure);
    FichesAjout(e.journal, ev, e.fiches);
    ComptesAjout(e.journal, ev, e.fiches, e.vol, e.herite);
  }

  lemma ContacterTient(e: Etat, echec: bool)
    requires Inv(e)
    ensures Inv(Contacter(e, echec))
  {
    hide Inv;
    JournaliserTient(e, Contact(echec, e.heure));
  }

  lemma ConfirmerTient(e: Etat, did: Id)
    requires Inv(e)
    ensures Inv(Confirmer(e, did, e.heure))
  {
    hide Forme, UneEcoute, RienDeRevoque, Defis, Connus, Fiches, Comptes, DernierContact, JournalSain;
    JournaliserTient(e, Confirme(did, e.heure)) by { hide Inv; }
    ConnusMaj(e.journal + [Confirme(did, e.heure)], e.connus, e.heure, did);
  }

  lemma ConnusMaj(jn: seq<Evenement>, connus: map<Id, int>, heure: int, did: Id)
    requires Connus(jn, connus, heure) && Confirme(did, heure) in jn
    ensures Connus(jn, connus[did := heure], heure)
  {
  }

  /** Sessions may always leave the table, and revocations be forgotten. */
  lemma MoinsOuvertes(heure: int, fiches: map<Id, Fiche>, o: set<Id>, o': set<Id>,
                      jti: set<Id>, jti': set<Id>, did: set<Id>, did': set<Id>)
    requires o' <= o && jti' <= jti && did' <= did
    ensures UneEcoute(heure, fiches, o) ==> UneEcoute(heure, fiches, o')
    ensures RienDeRevoque(fiches, o, jti, did) ==> RienDeRevoque(fiches, o', jti', did')
  {
  }

  lemma CouperTient(e: Etat, js: set<Id>, rejet: Rejet)
    requires Inv(e) && js <= e.fiches.Keys
    ensures Inv(Couper(e, js, rejet))
  {
    hide Forme, UneEcoute, RienDeRevoque, Defis, Connus, Fiches, Comptes, DernierContact, JournalSain, Couper;
    MoinsOuvertes(e.heure, e.fiches, e.ouvertes, e.ouvertes - js, e.revJti.Keys, e.revJti.Keys, e.revDid.Keys,
                  e.revDid.Keys);
    CouperBien(e, js, rejet);
  }

  lemma Contenance(e: Etat)
    requires Inv(e)
    ensures e.ouvertes <= e.fiches.Keys && e.coupees.Keys <= e.fiches.Keys - e.ouvertes
    ensures |e.ouvertes| <= SESSIONS_MAX && |e.defis| <= DEFIS_MAX
  {
  }

  lemma CouperSitesTient(e: Etat, ids: seq<Id>, rejet: Rejet)
    requires Inv(e)
    ensures Inv(CouperSites(e, ids, rejet))
  {
    Contenance(e);
    hide Inv;
    CouperTient(e, (set j | j in e.ouvertes && DuSite(e, j, ids)), rejet);
  }

  lemma EcouteAttendre(heure: int, t: int, fiches: map<Id, Fiche>, ouvertes: set<Id>)
    requires UneEcoute(heure, fiches, ouvertes) && heure <= t
    ensures UneEcoute(t, fiches, ouvertes)
  {
  }

  lemma DefisAttendre(jn: seq<Evenement>, defis: map<Id, (Id, int)>, tires: set<Id>, heure: int, t: int)
    requires Defis(jn, defis, tires, heure) && heure <= t
    ensures Defis(jn, defis, tires, t)
  {
    hide DefiServi;
  }

  lemma ConnusAttendre(jn: seq<Evenement>, connus: map<Id, int>, heure: int, t: int)
    requires Connus(jn, connus, heure) && heure <= t
    ensures Connus(jn, connus, t)
  {
  }

  lemma AttendreTient(e: Etat, t: int)
    requires Inv(e) && e.heure <= t
    ensures Inv(e.(heure := t))
  {
    hide Forme, UneEcoute, Defis, Connus, RienDeRevoque, Fiches, Comptes, DernierContact, JournalSain;
    EcouteAttendre(e.heure, t, e.fiches, e.ouvertes);
    DefisAttendre(e.journal, e.defis, e.tires, e.heure, t);
    ConnusAttendre(e.journal, e.connus, e.heure, t);
  }

  // ------------------------------------------------------------- challenges

  lemma DefisMoins(jn: seq<Evenement>, d: map<Id, (Id, int)>, d': map<Id, (Id, int)>, tires: set<Id>, heure: int)
    requires Defis(jn, d, tires, heure)
    requires d'.Keys <= d.Keys && forall x :: x in d' ==> d'[x] == d[x]
    ensures Defis(jn, d', tires, heure) && |d'| <= |d|
  {
    hide DefiServi;
    CardinalSous(d'.Keys, d.Keys);
  }

  /** Challenges may always be dropped. */
  lemma MoinsDeDefis(e: Etat, defis: map<Id, (Id, int)>)
    requires Inv(e)
    requires defis.Keys <= e.defis.Keys && forall d :: d in defis ==> defis[d] == e.defis[d]
    ensures Inv(e.(defis := defis))
  {
    hide UneEcoute, RienDeRevoque, Defis, Connus, Fiches, Comptes, DernierContact, JournalSain;
    DefisMoins(e.journal, e.defis, defis, e.tires, e.heure);
  }

  lemma NouveauDefiTient(e: Etat, sid: Id, alea: Option<Id>)
    requires Inv(e) && Frais(e, alea)
    ensures Inv(NouveauDefi(e, sid, alea).0)
  {
    hide Inv;
    var e1 := if |e.defis| >= DEFIS_MAX then e.(defis := GarderDefis(e.defis, e.heure)) else e;
    if |e.defis| >= DEFIS_MAX {
      MoinsDeDefis(e, GarderDefis(e.defis, e.heure));
    }
    hide GarderDefis;
    if |e1.defis| < DEFIS_MAX && alea.Some? {
      EmettreDefi(e1, sid, alea.value);
    }
  }

  lemma EmettreDefi(e: Etat, sid: Id, d: Id)
    requires Inv(e) && d !in e.tires && |e.defis| < DEFIS_MAX
    ensures Inv(Journaliser(e.(defis := e.defis[d := (sid, e.heure + DUREE_DEFI_S)], tires := e.tires + {d}),
                            DefiEmis(d, sid, e.heure)))
  {
    hide Forme, UneEcoute, RienDeRevoque, Defis, Connus, Fiches, Comptes, DernierContact, JournalSain;
    JournaliserTient(e, DefiEmis(d, sid, e.heure)) by { hide Inv; }
    DefisMaj(e.journal + [DefiEmis(d, sid, e.heure)], e.defis, e.tires, e.heure, d, sid);
    FormeDefi(e.fiches.Keys, e.ouvertes, e.tires, e.coupees.Keys, e.defis, d, (sid, e.heure + DUREE_DEFI_S));
  }

  lemma FormeDefi(c: set<Id>, o: set<Id>, t: set<Id>, k: set<Id>, defis: map<Id, (Id, int)>, d: Id, v: (Id, int))
    requires Forme(c, o, t, k, |defis|) && d !in t && |defis| < DEFIS_MAX
    ensures Forme(c, o, t + {d}, k, |defis[d := v]|)
  {
    ClesMaj(defis, d, v);
    hide Forme;
    FormePlus(c, o, t, k, |defis|, d, |defis[d := v]|);
  }

  lemma DefisMaj(jn: seq<Evenement>, defis: map<Id, (Id, int)>, tires: set<Id>, heure: int, d: Id, sid: Id)
    requires Defis(jn, defis, tires, heure) && d !in tires && DefiEmis(d, sid, heure) in jn
    ensures Defis(jn, defis[d := (sid, heure + DUREE_DEFI_S)], tires + {d}, heure)
  {
    assert !DefiServi(jn, d);
    hide DefiServi;
  }

  /** A challenge taken out of the table, fit for one opening or renewal. */
  ghost predicate DefiPret(e: Etat, defi: Id, sid: Id) {
    EmisPour(e.journal, defi, sid, e.heure) && !DefiServi(e.journal, defi) && defi in e.tires && defi !in e.defis
  }

  lemma Consommer(e: Etat, sid: Id, defi: Id)
    requires Inv(e)
    ensures Inv(SansDefi(e, defi))
    ensures DefiBon(e, sid, defi) ==> DefiPret(SansDefi(e, defi), defi, sid)
  {
    MoinsDeDefis(e, e.defis - {defi}) by { hide Inv; }
    hide Forme, UneEcoute, RienDeRevoque, Connus, Fiches, Comptes, DernierContact, JournalSain, DefiServi;
    if DefiBon(e, sid, defi) {
      assert EmisPour(e.journal, defi, sid, e.heure);
    }
  }

  lemma PretAjout(jn: seq<Evenement>, ev: Evenement, defi: Id, sid: Id, t: int)
    requires EmisPour(jn, defi, sid, t) && !DefiServi(jn, defi) && Neutre(ev)
    ensures EmisPour(jn + [ev], defi, sid, t) && !DefiServi(jn + [ev], defi)
  {
    DefiServiAjout(jn, ev);
    Ajout(jn, ev);
    var t0 :| DefiEmis(defi, sid, t0) in jn && t0 <= t <= t0 + DUREE_DEFI_S;
    assert DefiEmis(defi, sid, t0) in jn + [ev];
  }

  lemma PretContacte(e: Etat, echec: bool, defi: Id, sid: Id)
    requires Inv(e) && DefiPret(e, defi, sid)
    ensures Inv(Contacter(e, echec)) && DefiPret(Contacter(e, echec), defi, sid)
  {
    hide Inv, EmisPour, DefiServi;
    ContacterTient(e, echec);
    PretAjout(e.journal, Contact(echec, e.heure), defi, sid, e.heure);
  }

  lemma PretConfirme(e: Etat, did: Id, defi: Id, sid: Id)
    requires Inv(e) && DefiPret(e, defi, sid)
    ensures Inv(Confirmer(e, did, e.heure)) && DefiPret(Confirmer(e, did, e.heure), defi, sid)
  {
    hide Inv, EmisPour, DefiServi;
    ConfirmerTient(e, did);
    PretAjout(e.journal, Confirme(did, e.heure), defi, sid, e.heure);
  }

  // ----------------------------------------------------- opening and renewing

  lemma {:induction false} JamaisVu(jn: seq<Evenement>, j: Id)
    requires forall ev :: ev in jn && Accord(ev) ==> ev.jeton != j
    ensures ExpDe(jn, j) == None && !JetonOuvert(jn, j)
  {
    if jn != [] {
      assert forall ev :: ev in jn[..|jn| - 1] ==> ev in jn;
      assert jn[|jn| - 1] in jn;
      JamaisVu(jn[..|jn| - 1], j);
    }
  }

  /** What admission needs beyond the invariant. */
  ghost predicate Verifie(e: Etat, r: Revendications, defi: Id, expire: bool) {
    && DefiPret(e, defi, r.sid)
    && if expire then
         && |e.journal| > 0 && e.journal[|e.journal| - 1] == Contact(true, e.heure)
         && r.exp + TOLERANCE_HORLOGE_S < e.heure <= r.exp + TOLERANCE_HORLOGE_S + SECOURS_S
       else e.heure <= r.exp + TOLERANCE_HORLOGE_S
  }

  ghost predicate Admissible(e: Etat, r: Revendications, defi: Id, secours: bool) {
    && Verifie(e, r, defi, secours) && !Revoque(e, r.did, r.jti) && |e.ouvertes| < SESSIONS_MAX
    && (secours ==> ConnuDans(e.journal, r.did, e.heure))
  }

  lemma CreerTient(e: Etat, r: Revendications, defi: Id, site: Option<Id>, nom: Option<Id>, secours: bool,
                   alea: Option<Id>)
    requires Inv(e) && Admissible(e, r, defi, secours) && Frais(e, alea)
    ensures Inv(Creer(e, r, defi, site, nom, secours, alea).0)
  {
    hide UneEcoute, RienDeRevoque, Defis, Connus, Comptes, DernierContact, JournalSain, EmisPour, DefiServi, ConnuDans,
         OuvertPour, ExpDe, JetonOuvert, Sain;
    if alea.Some? {
      var j, f := alea.value, FicheDe(r, site, nom, secours);
      var ev := Ouverte(j, defi, r.sid, r.did, r.exp, secours, e.heure);
      FormePlus(e.fiches.Keys, e.ouvertes, e.tires, e.coupees.Keys, |e.defis|, j, |e.defis|);
      assert j !in e.fiches;
      hide Forme;
      JamaisVu(e.journal, j);
      OuvrirSain(e, ev) by { hide Inv; }
      hide Fiches;
      ClesMaj(e.fiches, j, f);
      EcouteNeuve(e.heure, e.fiches, e.ouvertes, j, f, e.revJti.Keys, e.revDid.Keys);
      AjoutSain(e.journal, ev);
      LecturesAjout(e.journal, ev);
      DefisAjout(e.journal, ev, e.defis, e.tires, e.heure);
      DefisPlus(e.journal + [ev], e.defis, e.tires, e.tires + {j}, e.heure);
      ConnusAjout(e.journal, ev, e.connus, e.heure);
      FichesOuvre(e.journal, ev, e.fiches, f);
      ComptesAjout(e.journal, ev, e.fiches, e.vol, e.herite);
      ComptesCadre(e.journal + [ev], e.fiches, e.fiches[j := f], e.vol, e.herite);
    }
  }

  lemma OuvrirSain(e: Etat, ev: Evenement)
    requires ev.Ouverte? && ev.t == e.heure && !JetonOuvert(e.journal, ev.jeton)
    requires exists r :: Admissible(e, r, ev.defi, ev.secours) && r.sid == ev.sid && r.did == ev.did && r.exp == ev.exp
    ensures Sain(e.journal, ev)
  {
    hide EmisPour, DefiServi, ConnuDans, JetonOuvert;
  }

  lemma EcouteNeuve(heure: int, fiches: map<Id, Fiche>, o: set<Id>, j: Id, f: Fiche, jti: set<Id>, did: set<Id>)
    requires j !in fiches && f.dernierAudio.None? && f.did !in did && f.jti !in jti
    ensures UneEcoute(heure, fiches, o) ==> UneEcoute(heure, fiches[j := f], o + {j})
    ensures RienDeRevoque(fiches, o, jti, did) ==> RienDeRevoque(fiches[j := f], o + {j}, jti, did)
  {
  }

  lemma DefisPlus(jn: seq<Evenement>, defis: map<Id, (Id, int)>, t: set<Id>, t': set<Id>, heure: int)
    requires Defis(jn, defis, t, heure) && t <= t'
    ensures Defis(jn, defis, t', heure)
  {
    hide DefiServi;
  }

  lemma FichesOuvre(jn: seq<Evenement>, ev: Evenement, fiches: map<Id, Fiche>, f: Fiche)
    requires Fiches(jn, fiches) && ev.Ouverte? && ev.jeton !in fiches && ExpDe(jn, ev.jeton) == None
    requires ev.sid == f.sid && ev.did == f.did && ev.exp == f.exp
    ensures Fiches(jn + [ev], fiches[ev.jeton := f])
  {
    hide ExpDe;
    Ajout(jn, ev);
    OuvertPourAjout(jn, ev);
    LecturesAjout(jn, ev);
    assert ev in jn + [ev] && EstOuverture(ev, ev.jeton);
    assert OuvertPour(jn + [ev], ev.jeton, ev.sid, ev.did);
    hide OuvertPour;
  }

  lemma ComptesCadre(jn: seq<Evenement>, fiches: map<Id, Fiche>, fiches': map<Id, Fiche>, vol: Option<Vol>,
                     herite: map<Id, nat>)
    requires Comptes(jn, fiches, vol, herite) && fiches.Keys <= fiches'.Keys
    requires forall j :: j in fiches' ==> fiches'[j].octets == if j in fiches then fiches[j].octets else 0
    ensures Comptes(jn, fiches', vol, herite)
  {
    hide Servis, Heritees, ServisAcceptes, HeritesAcceptes, ReleveEnVol, HeriteEnVol;
  }

  lemma ConnuVraiment(e: Etat, did: Id)
    requires Inv(e) && AppareilConnu(e, did)
    ensures ConnuDans(e.journal, did, e.heure)
  {
    hide Forme, UneEcoute, RienDeRevoque, Defis, Fiches, Comptes, DernierContact, JournalSain;
    assert Confirme(did, e.connus[did]) in e.journal;
  }

  /** The three ways an admission creates a session. */
  lemma AdmettreSecours(e: Etat, r: Revendications, defi: Id, alea: Option<Id>)
    requires Inv(e) && Verifie(e, r, defi, true) && Frais(e, alea)
    requires !Revoque(e, r.did, r.jti) && |e.ouvertes| < SESSIONS_MAX && AppareilConnu(e, r.did)
    ensures Inv(Creer(e, r, defi, None, None, true, alea).0)
  {
    hide Inv, Verifie, Creer;
    ConnuVraiment(e, r.did);
    hide ConnuDans, AppareilConnu;
    CreerTient(e, r, defi, None, None, true, alea);
  }

  lemma AdmettreInjoignable(e: Etat, r: Revendications, defi: Id, alea: Option<Id>)
    requires Inv(e) && Verifie(e, r, defi, false) && Frais(e, alea)
    requires !Revoque(e, r.did, r.jti) && |e.ouvertes| < SESSIONS_MAX
    ensures Inv(Creer(Contacter(e, true), r, defi, None, None, false, alea).0)
  {
    hide Inv, DefiPret, Creer;
    PretContacte(e, true, defi, r.sid);
    CreerTient(Contacter(e, true), r, defi, None, None, false, alea);
  }

  lemma AdmettreConfirme(e: Etat, r: Revendications, defi: Id, rep: ReponseOuverture, alea: Option<Id>)
    requires Inv(e) && Verifie(e, r, defi, false) && Frais(e, alea)
    requires !Revoque(e, r.did, r.jti) && |e.ouvertes| < SESSIONS_MAX
    ensures Inv(Creer(Confirmer(Contacter(e, false), r.did, e.heure), r, defi, rep.sessionId, rep.appareil, false,
                      alea).0)
  {
    hide Inv, DefiPret, Creer;
    PretContacte(e, false, defi, r.sid);
    PretConfirme(Contacter(e, false), r.did, defi, r.sid);
    CreerTient(Confirmer(Contacter(e, false), r.did, e.heure), r, defi, rep.sessionId, rep.appareil, false, alea);
  }

  lemma AdmettreTient(e: Etat, cle: Option<Id>, corps: Corps, expire: bool,
                      rep: Option<ReponseOuverture>, alea: Option<Id>)
    requires Inv(e) && Verifie(e, corps.lp.r, corps.defi, expire) && Frais(e, alea)
    ensures Inv(Admettre(e, cle, corps, expire, rep, alea).0)
  {
    hide Inv, Creer, Contacter, Confirmer, CouperSites, Verifie, Frais, AppareilConnu, Revoque;
    var r := corps.lp.r;
    if !Revoque(e, r.did, r.jti) && |e.ouvertes| < SESSIONS_MAX {
      ContacterTient(e, false);
      if expire {
        if AppareilConnu(e, r.did) {
          AdmettreSecours(e, r, corps.defi, alea);
        }
      } else if rep.None? {
        AdmettreInjoignable(e, r, corps.defi, alea);
      } else {
        AdmettreConfirme(e, r, corps.defi, rep.value, alea);
        var c := Creer(Confirmer(Contacter(e, false), r.did, e.heure), r, corps.defi,
                       rep.value.sessionId, rep.value.appareil, false, alea);
        var nom := Designation(FicheDe(r, rep.value.sessionId, rep.value.appareil, false));
        CouperSitesTient(c.0, rep.value.couper, Coupee(RepriseAilleurs, Some(nom)));
      }
    }
  }

  lemma OuvrirTient(e: Etat, sid: Id, cle: Option<Id>, corps: Corps, sonde: bool,
                    rep: Option<ReponseOuverture>, alea: Option<Id>)
    requires Inv(e) && Frais(e, alea)
    ensures Inv(Ouvrir(e, sid, cle, corps, sonde, rep, alea).0)
  {
    hide Inv, DefiPret, Admettre, DefiBon;
    var e1 := SansDefi(e, corps.defi);
    Consommer(e, sid, corps.defi);
    if DefiBon(e, sid, corps.defi) {
      var v := Verifier(corps.lp, sid, e.heure, 0);
      if v.Ok? {
        AdmettreTient(e1, cle, corps, false, rep, alea);
      } else if v.error.Expire? {
        OuvrirExpire(e1, sid, cle, corps, sonde, rep, alea);
      }
    }
  }

  lemma OuvrirExpire(e: Etat, sid: Id, cle: Option<Id>, corps: Corps, sonde: bool,
                     rep: Option<ReponseOuverture>, alea: Option<Id>)
    requires Inv(e) && Frais(e, alea) && DefiPret(e, corps.defi, sid) 
    requires Verifier(corps.lp, sid, e.heure, 0) == Err(Expire)
    ensures Inv(Contacter(e, sonde))
    ensures sonde && Verifier(corps.lp, sid, e.heure, SECOURS_S).Ok?
            ==> Inv(Admettre(Contacter(e, sonde), cle, corps, true, rep, alea).0)
  {
    hide Inv, DefiPret, Admettre;
    PretContacte(e, sonde, corps.defi, sid);
    if sonde && Verifier(corps.lp, sid, e.heure, SECOURS_S).Ok? {
      AdmettreTient(Contacter(e, sonde), cle, corps, true, rep, alea);
    }
  }

  function FicheRenouvelee(f: Fiche, r: Revendications): Fiche {
    f.(exp := Max(f.exp, r.exp), jti := r.jti, secours := false)
  }

  lemma RenouvelerTient(e: Etat, jeton: Id, corps: Corps)
    requires Inv(e)
    ensures Inv(Renouveler(e, jeton, corps).0)
  {
    hide Inv, DefiPret, DefiBon;
    if jeton in e.ouvertes && jeton in e.fiches {
      var f, r := e.fiches[jeton], corps.lp.r;
      var e1 := SansDefi(e, corps.defi);
      Consommer(e, f.sid, corps.defi);
      if DefiBon(e, f.sid, corps.defi) && Verifier(corps.lp, f.sid, e.heure, 0).Ok?
         && corps.signatureBonne && r.sub == f.sub && r.did == f.did && r.pk == f.pk {
        CouperTient(e1, {jeton}, Coupee(Motif.Revoquee, None));
        if !Revoque(e, r.did, r.jti) {
          RenouvelerInv(e1, jeton, r, corps.defi);
        }
      }
    }
  }

  lemma RenouvelerInv(e: Etat, jeton: Id, r: Revendications, defi: Id)
    requires Inv(e) && jeton in e.fiches && DefiPret(e, defi, e.fiches[jeton].sid)
    requires r.did == e.fiches[jeton].did && !Revoque(e, r.did, r.jti) && e.heure <= r.exp + TOLERANCE_HORLOGE_S
    ensures var f := e.fiches[jeton];
            Inv(Journaliser(e.(fiches := e.fiches[jeton := FicheRenouvelee(f, r)]),
                            Renouvelee(jeton, defi, f.sid, f.did, r.exp, e.heure)))
  {
    hide UneEcoute, RienDeRevoque, Defis, Connus, Fiches, Comptes, DernierContact, JournalSain, EmisPour, DefiServi,
      Sain;
    var f := e.fiches[jeton];
    var g := FicheRenouvelee(f, r);
    var ev := Renouvelee(jeton, defi, f.sid, f.did, r.exp, e.heure);
    RenouvelerSain(e, ev);
    ClesMaj(e.fiches, jeton, g);
    EcouteCadre(e.heure, e.fiches, e.fiches[jeton := g], e.ouvertes);
    RevoqueMaj(e.fiches, e.ouvertes, jeton, g, e.revJti.Keys, e.revDid.Keys);
    AjoutSain(e.journal, ev);
    LecturesAjout(e.journal, ev);
    DefisAjout(e.journal, ev, e.defis, e.tires, e.heure);
    ConnusAjout(e.journal, ev, e.connus, e.heure);
    FichesRenouvelle(e.journal, ev, e.fiches, g);
    ComptesAjout(e.journal, ev, e.fiches, e.vol, e.herite);
    ComptesCadre(e.journal + [ev], e.fiches, e.fiches[jeton := g], e.vol, e.herite);
  }

  lemma RenouvelerSain(e: Etat, ev: Evenement)
    requires Fiches(e.journal, e.fiches) && ev.Renouvelee? && ev.jeton in e.fiches && ev.t == e.heure
    requires ev.sid == e.fiches[ev.jeton].sid && ev.did == e.fiches[ev.jeton].did
    requires DefiPret(e, ev.defi, ev.sid) && ev.t <= ev.exp + TOLERANCE_HORLOGE_S
    ensures Sain(e.journal, ev)
  {
    hide ExpDe, OuvertPour, EmisPour, DefiServi;
  }

  lemma EcouteCadre(heure: int, fiches: map<Id, Fiche>, fiches': map<Id, Fiche>, o: set<Id>)
    requires UneEcoute(heure, fiches, o) && fiches'.Keys == fiches.Keys
    requires forall j :: j in fiches ==>
               fiches'[j].sub == fiches[j].sub && fiches'[j].dernierAudio == fiches[j].dernierAudio
    ensures UneEcoute(heure, fiches', o)
  {
  }

  lemma RevoqueCadre(fiches: map<Id, Fiche>, fiches': map<Id, Fiche>, o: set<Id>, jti: set<Id>, did: set<Id>)
    requires RienDeRevoque(fiches, o, jti, did) && fiches'.Keys == fiches.Keys
    requires forall j :: j in fiches ==> fiches'[j].did == fiches[j].did && fiches'[j].jti == fiches[j].jti
    ensures RienDeRevoque(fiches', o, jti, did)
  {
  }

  lemma RevoqueMaj(fiches: map<Id, Fiche>, o: set<Id>, j: Id, g: Fiche, jti: set<Id>, did: set<Id>)
    requires RienDeRevoque(fiches, o, jti, did) && g.did !in did && g.jti !in jti
    ensures RienDeRevoque(fiches[j := g], o, jti, did)
  {
  }

  lemma FichesRenouvelle(jn: seq<Evenement>, ev: Evenement, fiches: map<Id, Fiche>, g: Fiche)
    requires Fiches(jn, fiches) && ev.Renouvelee? && ev.jeton in fiches
    requires var f := fiches[ev.jeton]; g.sid == f.sid && g.did == f.did && g.exp == Max(f.exp, ev.exp)
    ensures Fiches(jn + [ev], fiches[ev.jeton := g])
  {
    hide ExpDe, OuvertPour;
    Ajout(jn, ev);
    OuvertPourAjout(jn, ev);
    LecturesAjout(jn, ev);
  }

  lemma FichesCadre(jn: seq<Evenement>, fiches: map<Id, Fiche>, fiches': map<Id, Fiche>)
    requires Fiches(jn, fiches) && fiches'.Keys == fiches.Keys
    requires forall j :: j in fiches ==>
               fiches'[j].sid == fiches[j].sid && fiches'[j].did == fiches[j].did && fiches'[j].exp == fiches[j].exp
    ensures Fiches(jn, fiches')
  {
    hide ExpDe, OuvertPour;
  }

  // ------------------------------------------------------ serving and playing

  lemma ChercherTient(e: Etat, jeton: Id, sid: Id)
    requires Inv(e)
    ensures Inv(Chercher(e, jeton, sid).0)
  {
    hide Inv;
    if jeton in e.ouvertes && jeton in e.fiches {
      var f := e.fiches[jeton];
      CouperTient(e, {jeton}, Nouveau(401, SessionExpiree));
      if EncoreValable(e, f) {
        ServirSain(e, jeton);
        JournaliserTient(e, Servie(jeton, f.sid, f.did, e.heure));
      }
    }
  }

  lemma ServirSain(e: Etat, jeton: Id)
    requires Inv(e) && jeton in e.fiches && EncoreValable(e, e.fiches[jeton])
    ensures Sain(e.journal, Servie(jeton, e.fiches[jeton].sid, e.fiches[jeton].did, e.heure))
  {
    hide Forme, UneEcoute, RienDeRevoque, Defis, Connus, Comptes, DernierContact, JournalSain, OuvertPour, ExpDe,
      ConnuDans;
    if AppareilConnu(e, e.fiches[jeton].did) {
      ConnuVraiment(e, e.fiches[jeton].did);
    }
  }

  ghost function AvecFiche(e: Etat, j: Id, g: Fiche): Etat { e.(fiches := e.fiches[j := g]) }

  /** What a change of one session's counter or playing time leaves alone. */
  lemma FicheTient(e: Etat, j: Id, g: Fiche)
    requires Inv(e) && j in e.fiches
    requires g == e.fiches[j].(dernierAudio := g.dernierAudio)
    ensures var fiches := e.fiches[j := g];
            && fiches.Keys == e.fiches.Keys && Fiches(e.journal, fiches)
            && Comptes(e.journal, fiches, e.vol, e.herite)
            && RienDeRevoque(fiches, e.ouvertes, e.revJti.Keys, e.revDid.Keys)
  {
    hide Forme, UneEcoute, RienDeRevoque, Defis, Connus, Fiches, Comptes, DernierContact, JournalSain;
    ClesMaj(e.fiches, j, g);
    FichesCadre(e.journal, e.fiches, e.fiches[j := g]);
    ComptesCadre(e.journal, e.fiches, e.fiches[j := g], e.vol, e.herite);
    RevoqueCadre(e.fiches, e.fiches[j := g], e.ouvertes, e.revJti.Keys, e.revDid.Keys);
  }

  lemma AudioTient(e: Etat, jeton: Id)
    requires Inv(e) && jeton in e.fiches
    ensures Inv(Audio(e, jeton))
  {
    var f := e.fiches[jeton];
    var g := f.(dernierAudio := Some(e.heure));
    if AudioActif(f, e.heure) {
      AudioContinue(e, jeton, g);
    } else {
      AudioReprise(e, jeton, g) by { hide Inv; }
    }
    hide Inv, Couper, AudioActif;
  }

  lemma AudioContinue(e: Etat, jeton: Id, g: Fiche)
    requires Inv(e) && jeton in e.fiches && g == e.fiches[jeton].(dernierAudio := Some(e.heure))
    requires AudioActif(e.fiches[jeton], e.heure)
    ensures Inv(AvecFiche(e, jeton, g))
  {
    hide Forme, UneEcoute, RienDeRevoque, Defis, Connus, Fiches, Comptes, DernierContact, JournalSain;
    FicheTient(e, jeton, g);
    AudioEcoute(e.heure, e.fiches, e.ouvertes, jeton, e.fiches[jeton := g], e.ouvertes);
  }

  lemma AudioReprise(e: Etat, jeton: Id, g: Fiche)
    requires Inv(e) && jeton in e.fiches && g == e.fiches[jeton].(dernierAudio := Some(e.heure))
    ensures var e1 := AvecFiche(e, jeton, g);
            Inv(Couper(e1, (set j | j in e1.ouvertes && AutreEcoute(e1, jeton, g.sub, j)),
                       Coupee(RepriseAilleurs, Some(Designation(g)))))
  {
    hide Forme, UneEcoute, RienDeRevoque, Defis, Connus, Fiches, Comptes, DernierContact, JournalSain, Couper;
    var e1 := AvecFiche(e, jeton, g);
    var js := set j | j in e1.ouvertes && AutreEcoute(e1, jeton, g.sub, j);
    FicheTient(e, jeton, g);
    AudioEcoute(e.heure, e.fiches, e.ouvertes, jeton, e1.fiches, e.ouvertes - js);
    hide AutreEcoute;
    CouperBien(e1, js, Coupee(RepriseAilleurs, Some(Designation(g))));
  }

  /** Cutting restores the invariant when what stays in the table is one listener. */
  lemma CouperBien(e: Etat, js: set<Id>, rejet: Rejet)
    requires js <= e.fiches.Keys && UneEcoute(e.heure, e.fiches, e.ouvertes - js)
    requires RienDeRevoque(e.fiches, e.ouvertes - js, e.revJti.Keys, e.revDid.Keys)
             || RienDeRevoque(e.fiches, e.ouvertes, e.revJti.Keys, e.revDid.Keys)
    requires Forme(e.fiches.Keys, e.ouvertes, e.tires, e.coupees.Keys, |e.defis|)
    requires Defis(e.journal, e.defis, e.tires, e.heure) && Connus(e.journal, e.connus, e.heure)
    requires Fiches(e.journal, e.fiches) && Comptes(e.journal, e.fiches, e.vol, e.herite)
    requires e.injoignable == DernierContact(e.journal) && JournalSain(e.journal)
    ensures Inv(Couper(e, js, rejet))
  {
    hide Forme, UneEcoute, RienDeRevoque, Defis, Connus, Fiches, Comptes, DernierContact, JournalSain;
    MoinsOuvertes(e.heure, e.fiches, e.ouvertes, e.ouvertes - js, e.revJti.Keys, e.revJti.Keys, e.revDid.Keys,
                  e.revDid.Keys);
    FormeMoins(e.fiches.Keys, e.ouvertes, e.tires, e.coupees.Keys, |e.defis|, js);
    CouperChamps(e, js, rejet);
    hide Couper;
  }

  lemma CouperChamps(e: Etat, js: set<Id>, rejet: Rejet)
    ensures var e' := Couper(e, js, rejet);
            e' == e.(ouvertes := e.ouvertes - js, coupees := e'.coupees) && e'.coupees.Keys == e.coupees.Keys + js
  {
  }

  /** Whoever starts to play takes over from the other sessions of the account. */
  lemma AudioEcoute(heure: int, fiches: map<Id, Fiche>, o: set<Id>, jeton: Id, fiches': map<Id, Fiche>, o': set<Id>)
    requires UneEcoute(heure, fiches, o) && jeton in fiches && o' <= o
    requires fiches' == fiches[jeton := fiches[jeton].(dernierAudio := Some(heure))]
    requires AudioActif(fiches[jeton], heure) ||
             forall j :: j in o' && j in fiches && j != jeton && fiches[j].sub == fiches[jeton].sub ==>
               !AudioActif(fiches[j], heure)
    ensures UneEcoute(heure, fiches', o')
  {
  }

  lemma CompterTient(e: Etat, jeton: Id, n: nat)
    requires Inv(e) && jeton in e.fiches
    ensures Inv(Compter(e, jeton, n))
  {
    hide Forme, UneEcoute, RienDeRevoque, Defis, Connus, Fiches, Comptes, DernierContact, JournalSain;
    var g := e.fiches[jeton].(octets := e.fiches[jeton].octets + n);
    AutreEntree(e, Compte(jeton, n)) by { hide Inv; }
    OctetsTient(e, e.journal + [Compte(jeton, n)], jeton, g);
    CompterComptes(e.journal, e.fiches, e.vol, e.herite, jeton, n, g);
  }

  lemma OctetsTient(e: Etat, jn: seq<Evenement>, j: Id, g: Fiche)
    requires UneEcoute(e.heure, e.fiches, e.ouvertes)
    requires RienDeRevoque(e.fiches, e.ouvertes, e.revJti.Keys, e.revDid.Keys)
    requires Fiches(jn, e.fiches) && j in e.fiches && g == e.fiches[j].(octets := g.octets)
    ensures var fiches := e.fiches[j := g];
            && fiches.Keys == e.fiches.Keys && Fiches(jn, fiches) && UneEcoute(e.heure, fiches, e.ouvertes)
            && RienDeRevoque(fiches, e.ouvertes, e.revJti.Keys, e.revDid.Keys)
  {
    hide Forme, UneEcoute, RienDeRevoque, Defis, Connus, Fiches, Comptes, DernierContact, JournalSain;
    ClesMaj(e.fiches, j, g);
    FichesCadre(jn, e.fiches, e.fiches[j := g]);
    EcouteCadre(e.heure, e.fiches, e.fiches[j := g], e.ouvertes);
    RevoqueCadre(e.fiches, e.fiches[j := g], e.ouvertes, e.revJti.Keys, e.revDid.Keys);
  }

  lemma CompterComptes(jn: seq<Evenement>, fiches: map<Id, Fiche>, vol: Option<Vol>, herite: map<Id, nat>, j: Id,
                       n: nat, g: Fiche)
    requires Comptes(jn, fiches, vol, herite) && j in fiches && g.octets == fiches[j].octets + n
    ensures Comptes(jn + [Compte(j, n)], fiches[j := g], vol, herite)
  {
    hide Servis, Heritees, ServisAcceptes, HeritesAcceptes, ReleveEnVol, HeriteEnVol;
    LecturesAjout(jn, Compte(j, n));
  }

  /** What an accounting entry does not concern. */
  lemma AutreEntree(e: Etat, ev: Evenement)
    requires Inv(e) && (ev.Compte? || ev.Heritee? || ev.Acceptee?)
    ensures Defis(e.journal + [ev], e.defis, e.tires, e.heure) && Connus(e.journal + [ev], e.connus, e.heure)
    ensures Fiches(e.journal + [ev], e.fiches) && DernierContact(e.journal + [ev]) == DernierContact(e.journal)
    ensures JournalSain(e.journal + [ev])
  {
    hide Forme, UneEcoute, RienDeRevoque, Defis, Connus, Fiches, Comptes, DernierContact, JournalSain;
    AjoutSain(e.journal, ev);
    LecturesAjout(e.journal, ev);
    DefisAjout(e.journal, ev, e.defis, e.tires, e.heure);
    ConnusAjout(e.journal, ev, e.connus, e.heure);
    FichesAjout(e.journal, ev, e.fiches);
  }

  lemma NoterHeriteTient(e: Etat, sid: Id)
    requires Inv(e)
    ensures Inv(NoterHerite(e, sid))
  {
    hide Forme, UneEcoute, RienDeRevoque, Defis, Connus, Fiches, Comptes, DernierContact, JournalSain;
    AutreEntree(e, Heritee(sid));
    NoterComptes(e.journal, e.fiches, e.vol, e.herite, sid);
  }

  lemma NoterComptes(jn: seq<Evenement>, fiches: map<Id, Fiche>, vol: Option<Vol>, herite: map<Id, nat>, s: Id)
    requires Comptes(jn, fiches, vol, herite)
    ensures Comptes(jn + [Heritee(s)], fiches, vol, herite[s := Valeur(herite, s) + 1])
  {
    hide Servis, Heritees, ServisAcceptes, HeritesAcceptes, ReleveEnVol, HeriteEnVol;
    LecturesAjout(jn, Heritee(s));
  }

  // --------------------------------------------------------------- heartbeat

  lemma MenageTient(e: Etat)
    requires Inv(e)
    ensures Inv(Menage(e)) && Menage(e).vol == e.vol
  {
    hide Inv, EncoreValable, GarderCoupees, GarderRecents, GarderDefis;
    var js := set j | j in e.ouvertes && j in e.fiches && !EncoreValable(e, e.fiches[j]);
    CouperTient(e, js, Nouveau(401, SessionExpiree));
    Oublier(Couper(e, js, Nouveau(401, SessionExpiree)));
  }

  lemma Oublier(e: Etat)
    requires Inv(e)
    ensures Inv(e.(defis := GarderDefis(e.defis, e.heure),
                   coupees := GarderCoupees(e.coupees, e.heure),
                   revJti := GarderRecents(e.revJti, e.heure, REVOCATION_GARDEE_S),
                   revDid := GarderRecents(e.revDid, e.heure, REVOCATION_GARDEE_S),
                   connus := GarderRecents(e.connus, e.heure, APPAREIL_CONNU_S)))
  {
    hide Forme, UneEcoute, RienDeRevoque, Defis, Connus, Fiches, Comptes, DernierContact, JournalSain;
    var defis := GarderDefis(e.defis, e.heure);
    var jti := GarderRecents(e.revJti, e.heure, REVOCATION_GARDEE_S);
    var did := GarderRecents(e.revDid, e.heure, REVOCATION_GARDEE_S);
    DefisMoins(e.journal, e.defis, defis, e.tires, e.heure);
    FormeOubli(e.fiches.Keys, e.ouvertes, e.tires, e.coupees.Keys, |e.defis|,
               GarderCoupees(e.coupees, e.heure).Keys, |defis|);
    MoinsOuvertes(e.heure, e.fiches, e.ouvertes, e.ouvertes, e.revJti.Keys, jti.Keys, e.revDid.Keys, did.Keys);
    ConnusMoins(e.journal, e.connus, GarderRecents(e.connus, e.heure, APPAREIL_CONNU_S), e.heure);
  }

  lemma FormeOubli(c: set<Id>, o: set<Id>, t: set<Id>, k: set<Id>, n: nat, k': set<Id>, n': nat)
    requires Forme(c, o, t, k, n) && k' <= k && n' <= n
    ensures Forme(c, o, t, k', n')
  {
  }

  lemma ConnusMoins(jn: seq<Evenement>, connus: map<Id, int>, connus': map<Id, int>, heure: int)
    requires Connus(jn, connus, heure) && connus'.Keys <= connus.Keys
    requires forall d :: d in connus' ==> connus'[d] == connus[d]
    ensures Connus(jn, connus', heure)
  {
  }

  lemma FicheSiteTient(e: Etat, j: Id, g: Fiche)
    requires Inv(e) && j in e.fiches
    requires g == e.fiches[j].(site := g.site, nom := g.nom, aRejouer := g.aRejouer)
    ensures Inv(e.(fiches := e.fiches[j := g]))
  {
    hide Forme, UneEcoute, RienDeRevoque, Defis, Connus, Fiches, Comptes, DernierContact, JournalSain;
    ClesMaj(e.fiches, j, g);
    FichesCadre(e.journal, e.fiches, e.fiches[j := g]);
    EcouteCadre(e.heure, e.fiches, e.fiches[j := g], e.ouvertes);
    RevoqueCadre(e.fiches, e.fiches[j := g], e.ouvertes, e.revJti.Keys, e.revDid.Keys);
    ComptesCadre(e.journal, e.fiches, e.fiches[j := g], e.vol, e.herite);
  }

  lemma RejouerUneTient(e: Etat, j: Id, rep: ReponseOuverture)
    requires Inv(e) && j in e.fiches
    ensures Inv(RejouerUne(e, j, rep)) && RejouerUne(e, j, rep).vol == e.vol
  {
    hide Inv;
    var e1 := Contacter(e, false);
    ContacterTient(e, false);
    CouperTient(e1, {j}, Coupee(if rep.motif.Some? then rep.motif.value else SansMotif, None));
    var g := FicheRejouee(e.fiches[j], rep);
    var e2 := e1.(fiches := e1.fiches[j := g]);
    FicheSiteTient(e1, j, g);
    ConfirmerTient(e2, g.did);
    CouperSitesTient(Confirmer(e2, g.did, e.heure), rep.couper, Coupee(RepriseAilleurs, Some(Designation(g))));
  }

  lemma {:induction false} RejouerTient(e: Etat, liste: seq<Id>, reps: map<Id, ReponseOuverture>)
    requires Inv(e)
    ensures Inv(Rejouer(e, liste, reps)) && Rejouer(e, liste, reps).vol == e.vol
    decreases |liste|
  {
    hide Inv, RejouerUne;
    if liste != [] {
      ContacterTient(e, true);
      if liste[0] in e.fiches && liste[0] in reps {
        RejouerUneTient(e, liste[0], reps[liste[0]]);
        RejouerTient(RejouerUne(e, liste[0], reps[liste[0]]), liste[1..], reps);
      }
    }
  }

  lemma ReleverTient(e: Etat)
    requires Inv(e) && e.vol.None?
    ensures Inv(Relever(e))
  {
    hide Forme, UneEcoute, RienDeRevoque, Defis, Connus, Fiches, Comptes, DernierContact, JournalSain;
    var e' := Relever(e);
    assert e'.fiches.Keys == e.fiches.Keys;
    FichesCadre(e.journal, e.fiches, e'.fiches);
    EcouteCadre(e.heure, e.fiches, e'.fiches, e.ouvertes);
    RevoqueCadre(e.fiches, e'.fiches, e.ouvertes, e.revJti.Keys, e.revDid.Keys);
    ReleverComptes(e);
  }

  lemma ReleverComptes(e: Etat)
    requires Comptes(e.journal, e.fiches, None, e.herite)
    ensures Comptes(e.journal, Relever(e).fiches, Relever(e).vol, Relever(e).herite)
  {
    hide Servis, Heritees, ServisAcceptes, HeritesAcceptes;
    ReleverSessions(e);
    ReleverHerites(e);
    assert Relever(e).vol.Some? ==> Relever(e).vol.value.releves.Keys <= Relever(e).fiches.Keys;
    hide Relever, ReleveEnVol, HeriteEnVol;
    RienEnVol();
  }

  lemma RienEnVol()
    ensures forall j :: ReleveEnVol(None, j) == 0 && HeriteEnVol(None, j) == 0
  {
  }

  lemma VolPorte(t: int, releves: map<Id, nat>, herites: map<Id, nat>, k: Id)
    ensures ReleveEnVol(VolDe(t, releves, herites), k) == Valeur(releves, k)
    ensures HeriteEnVol(VolDe(t, releves, herites), k) == Valeur(herites, k)
  {
    assert releves == map[] ==> k !in releves;
    assert herites == map[] ==> k !in herites;
  }

  lemma ReleverSessions(e: Etat)
    ensures forall j :: (if j in e.fiches then e.fiches[j].octets else 0)
              == ReleveEnVol(Relever(e).vol, j) + (if j in Relever(e).fiches then Relever(e).fiches[j].octets else 0)
  {
    var f := Relever(e);
    forall j
      ensures (if j in e.fiches then e.fiches[j].octets else 0)
              == ReleveEnVol(f.vol, j) + (if j in f.fiches then f.fiches[j].octets else 0)
    {
      VolPorte(e.heure, OctetsReleves(e), HeritesReleves(e.herite), j);
      hide ReleveEnVol, VolDe, HeritesReleves, HeriteVide;
    }
  }

  lemma ReleverHerites(e: Etat)
    ensures forall s :: Valeur(e.herite, s) == HeriteEnVol(Relever(e).vol, s) + Valeur(Relever(e).herite, s)
  {
    var f := Relever(e);
    forall s
      ensures Valeur(e.herite, s) == HeriteEnVol(f.vol, s) + Valeur(f.herite, s)
    {
      VolPorte(e.heure, OctetsReleves(e), HeritesReleves(e.herite), s);
      hide HeriteEnVol, VolDe, OctetsReleves, FichesRelevees;
    }
  }

  lemma EnvoiTient(e: Etat, ordre: seq<Id>, reps: map<Id, ReponseOuverture>)
    requires Inv(e) && e.vol.None?
    ensures Inv(BattreEnvoyer(e, ordre, reps))
  {
    hide Inv, Menage, Rejouer, Relever;
    MenageTient(e);
    RejouerTient(Menage(e), ARejouer(Menage(e), ordre), reps);
    ReleverTient(Rejouer(Menage(e), ARejouer(Menage(e), ordre), reps));
  }

  lemma {:induction false} CouperListeTient(e: Etat, cs: seq<Coupure>)
    requires Inv(e)
    ensures Inv(CouperListe(e, cs))
    decreases |cs|
  {
    hide Inv, CouperSites;
    if cs != [] {
      var motif := if cs[0].motif.Some? then cs[0].motif.value else CoupeeParLeSite;
      CouperSitesTient(e, [cs[0].sessionId], Coupee(motif, None));
      CouperListeTient(CouperSites(e, [cs[0].sessionId], Coupee(motif, None)), cs[1..]);
    }
  }

  lemma RevoquerTient(e: Etat, jti: set<Id>, did: set<Id>, t: int)
    requires Inv(e)
    ensures Inv(Revoquer(e, jti, did, t))
  {
    hide Forme, UneEcoute, RienDeRevoque, Defis, Connus, Fiches, Comptes, DernierContact, JournalSain, Couper;
    var e1 := e.(revJti := e.revJti + Constante(jti, t), revDid := e.revDid + Constante(did, t));
    var js := set j | j in e1.ouvertes && j in e1.fiches && Revoque(e1, e1.fiches[j].did, e1.fiches[j].jti);
    MoinsOuvertes(e.heure, e.fiches, e.ouvertes, e.ouvertes - js, {}, {}, {}, {});
    RevoqueFiltre(e1, js);
    hide Revoque;
    CouperBien(e1, js, Coupee(Motif.Revoquee, None));
  }

  /** What is left after the revoked sessions are cut. */
  lemma RevoqueFiltre(e: Etat, js: set<Id>)
    requires js == set j | j in e.ouvertes && j in e.fiches && Revoque(e, e.fiches[j].did, e.fiches[j].jti)
    ensures RienDeRevoque(e.fiches, e.ouvertes - js, e.revJti.Keys, e.revDid.Keys)
  {
  }

  lemma RemettreTient(e: Etat, v: Vol)
    requires Inv(e) && e.vol == Some(v)
    ensures Inv(Remettre(e.(vol := None), v))
  {
    hide Forme, UneEcoute, RienDeRevoque, Defis, Connus, Fiches, Comptes, DernierContact, JournalSain;
    var e' := Remettre(e.(vol := None), v);
    assert e'.fiches.Keys == e.fiches.Keys;
    FichesCadre(e.journal, e.fiches, e'.fiches);
    EcouteCadre(e.heure, e.fiches, e'.fiches, e.ouvertes);
    RevoqueCadre(e.fiches, e'.fiches, e.ouvertes, e.revJti.Keys, e.revDid.Keys);
    RemettreComptes(e, v);
  }

  lemma RemettreComptes(e: Etat, v: Vol)
    requires Comptes(e.journal, e.fiches, Some(v), e.herite)
    ensures var e' := Remettre(e.(vol := None), v); Comptes(e'.journal, e'.fiches, None, e'.herite)
  {
    hide Servis, Heritees, ServisAcceptes, HeritesAcceptes;
    var e' := Remettre(e.(vol := None), v);
    forall s
      ensures Valeur(e'.herite, s) == HeriteEnVol(Some(v), s) + Valeur(e.herite, s)
    {
    }
    forall j
      ensures (if j in e'.fiches then e'.fiches[j].octets else 0)
              == ReleveEnVol(Some(v), j) + (if j in e.fiches then e.fiches[j].octets else 0)
    {
    }
  }

  lemma AccepterTient(e: Etat, v: Vol)
    requires Inv(e) && e.vol == Some(v)
    ensures Inv(Journaliser(e.(vol := None), Acceptee(v.releves, v.herites)))
  {
    hide Forme, UneEcoute, RienDeRevoque, Defis, Connus, Fiches, Comptes, DernierContact, JournalSain;
    AutreEntree(e, Acceptee(v.releves, v.herites)) by { hide Inv; }
    AccepterComptes(e.journal, e.fiches, v, e.herite);
  }

  lemma AccepterComptes(jn: seq<Evenement>, fiches: map<Id, Fiche>, v: Vol, herite: map<Id, nat>)
    requires Comptes(jn, fiches, Some(v), herite)
    ensures Comptes(jn + [Acceptee(v.releves, v.herites)], fiches, None, herite)
  {
    hide Servis, Heritees, ServisAcceptes, HeritesAcceptes;
    LecturesAjout(jn, Acceptee(v.releves, v.herites));
  }

  lemma ReponseTient(e: Etat, rep: Option<ReponseBattement>, relecture: Option<bool>)
    requires Inv(e) && e.vol.Some?
    ensures Inv(BattreRepondre(e, rep, relecture))
  {
    hide Inv, Remettre, Revoquer, CouperListe;
    var v := e.vol.value;
    ContacterTient(e, rep.None?);
    if rep.None? {
      RemettreTient(Contacter(e, true), v);
    } else {
      AccepterTient(Contacter(e, false), v);
      var e1 := Journaliser(Contacter(e.(vol := None), false), Acceptee(v.releves, v.herites));
      CouperListeTient(e1, rep.value.couper);
      RevoquerTient(CouperListe(e1, rep.value.couper), rep.value.jti, rep.value.did, v.t);
      if relecture.Some? {
        ContacterTient(Revoquer(CouperListe(e1, rep.value.couper), rep.value.jti, rep.value.did, v.t), relecture.value);
      }
    }
  }

  // -------------------------------------------------------------------- runs

  lemma InitialTient(heure: int)
    ensures Inv(Initial(heure))
  {
  }

  lemma PasTient(e: Etat, a: Appel)
    requires Inv(e) && Permis(e, a)
    ensures Inv(Pas(e, a))
  {
    hide Inv, NouveauDefi, Ouvrir, Renouveler, Chercher, Audio, Compter, NoterHerite, Contacter, BattreEnvoyer,
      BattreRepondre;
    match a
    case Attendre(t) => AttendreTient(e, t);
    case DemanderDefi(sid, alea) => NouveauDefiTient(e, sid, alea);
    case DemanderOuverture(sid, cle, corps, sonde, rep, alea) => OuvrirTient(e, sid, cle, corps, sonde, rep, alea);
    case DemanderRenouvellement(j, corps) => RenouvelerTient(e, j, corps);
    case Presenter(j, sid) => ChercherTient(e, j, sid);
    case JouerAudio(j) => AudioTient(e, j);
    case ServirOctets(j, n) => CompterTient(e, j, n);
    case RequeteHeritee(sid) => NoterHeriteTient(e, sid);
    case RafraichirJeu(echec) => ContacterTient(e, echec);
    case Envoi(ordre, reps) => EnvoiTient(e, ordre, reps);
    case Reponse(retour, relecture) => ReponseTient(e, retour, relecture);
  }

  lemma {:induction false} ExecutionTient(es: seq<Etat>, appels: seq<Appel>, i: nat)
    requires Execution(es, appels) && i < |es|
    ensures Inv(es[i])
    decreases i
  {
    hide Inv, Pas, Permis;
    if i == 0 {
      InitialTient(es[0].heure);
    } else {
      ExecutionTient(es, appels, i - 1);
      PasTient(es[i - 1], appels[i - 1]);
    }
  }
}
