/** The session table as the relay runs it: objects whose fields are updated in
    place (tune-bridge/src/sessions.rs). Every method is proved to do to `Vue()`
    what the function of the same name in SessionsSpec says. */
module Sessions {
  import opened Commun
  import S = SessionsSpec

  class Session {
    const jeton: S.Id
    const sid: S.Id
    const sub: S.Id
    const did: S.Id
    const pk: S.Id
    var jti: S.Id
    var exp: int
    var nom: Option<S.Id>
    var site: Option<S.Id>
    var aRejouer: bool
    var secours: bool
    var octets: nat
    var dernierAudio: Option<int>

    constructor (jeton: S.Id, r: S.Revendications, site: Option<S.Id>, nom: Option<S.Id>, secours: bool)
      ensures this.jeton == jeton && Fiche() == S.FicheDe(r, site, nom, secours)
    {
      this.jeton := jeton;
      sid, sub, did, pk := r.sid, r.sub, r.did, r.pk;
      jti, exp := r.jti, r.exp;
      this.nom, this.site := nom, site;
      aRejouer, this.secours := site.None?, secours;
      octets, dernierAudio := 0, None;
    }

    function Fiche(): S.Fiche
      reads this
    {
      S.Fiche(sid, sub, did, pk, jti, exp, nom, site, aRejouer, secours, octets, dernierAudio)
    }

    method Compter(n: nat)
      modifies this
      ensures Fiche() == old(Fiche()).(octets := old(octets) + n)
    {
      octets := octets + n;
    }
  }

  ghost function FichesDe(toutes: map<S.Id, Session>): map<S.Id, S.Fiche>
    reads toutes.Values
  {
    map j | j in toutes :: toutes[j].Fiche()
  }

  lemma FicheDe(toutes: map<S.Id, Session>, j: S.Id)
    requires j in toutes
    ensures j in FichesDe(toutes) && FichesDe(toutes)[j] == toutes[j].Fiche()
  {
  }

  lemma FichesPlus(toutes: map<S.Id, Session>, j: S.Id, s: Session)
    ensures FichesDe(toutes[j := s]) == FichesDe(toutes)[j := s.Fiche()]
  {
  }

  lemma Ajoutee(toutes: map<S.Id, Session>, parJeton: map<S.Id, Session>, tires: set<S.Id>, s: Session)
    requires s.jeton !in tires && parJeton.Keys <= toutes.Keys <= tires
    ensures FichesDe(toutes[s.jeton := s]) == FichesDe(toutes)[s.jeton := s.Fiche()]
    ensures parJeton[s.jeton := s].Keys == parJeton.Keys + {s.jeton}
    ensures parJeton[s.jeton := s].Keys <= toutes[s.jeton := s].Keys <= tires + {s.jeton}
  {
    FichesPlus(toutes, s.jeton, s);
    hide FichesDe;
    ClesMaj(parJeton, s.jeton, s);
    ClesMaj(toutes, s.jeton, s);
  }

  /** What the records become when only counters have moved. */
  lemma OctetsReleves(e: S.Etat, toutes: map<S.Id, Session>, releves: map<S.Id, nat>)
    requires e.fiches.Keys == toutes.Keys
    requires forall j :: j in toutes ==> toutes[j].Fiche() == e.fiches[j].(octets := toutes[j].octets)
    requires forall j :: j in releves <==> S.Releve(e, j)
    requires forall j :: j in releves ==> j in e.fiches && releves[j] == e.fiches[j].octets
    requires forall j :: j in toutes ==> toutes[j].octets == if j in releves then 0 else e.fiches[j].octets
    ensures FichesDe(toutes) == S.FichesRelevees(e) && releves == S.OctetsReleves(e)
  {
  }

  lemma OctetsRemis(fiches: map<S.Id, S.Fiche>, toutes: map<S.Id, Session>, releves: map<S.Id, nat>)
    requires fiches.Keys == toutes.Keys
    requires forall j :: j in toutes ==> toutes[j].Fiche() == fiches[j].(octets := toutes[j].octets)
    requires forall j :: j in toutes ==> toutes[j].octets == fiches[j].octets + S.Valeur(releves, j)
    ensures FichesDe(toutes) == S.FichesRemises(fiches, releves)
  {
  }

  /** Only `s` has changed since the records were `avant`. */
  lemma FicheSeule(avant: map<S.Id, S.Fiche>, toutes: map<S.Id, Session>, s: Session)
    requires s.jeton in toutes && toutes[s.jeton] == s && avant.Keys == toutes.Keys
    requires forall j :: j in toutes ==> toutes[j].jeton == j
    requires forall j :: j in toutes && toutes[j] != s ==> toutes[j].Fiche() == avant[j]
    ensures FichesDe(toutes) == avant[s.jeton := s.Fiche()]
  {
  }

  class Sessions {
    var horloge: int
    var parJeton: map<S.Id, Session>
    var defis: map<S.Id, (S.Id, int)>
    var connus: map<S.Id, int>
    var revJti: map<S.Id, int>
    var revDid: map<S.Id, int>
    var coupees: map<S.Id, (S.Rejet, int)>
    var herite: map<S.Id, nat>
    var injoignable: bool
    /** The heartbeat waiting for its answer, and the sessions it holds. */
    var vol: Option<S.Vol>
    var tenues: map<S.Id, Session>
    /** Every session created, whether or not it is still in the table. */
    ghost var toutes: map<S.Id, Session>
    ghost var tires: set<S.Id>
    ghost var journal: seq<S.Evenement>

    ghost predicate Valide()
      reads this, toutes.Values
    {
      && (forall j :: j in toutes ==> toutes[j].jeton == j)
      && parJeton.Keys <= toutes.Keys <= tires
      && (forall j :: j in parJeton ==> parJeton[j] == toutes[j])
      && (vol.Some? ==> tenues.Keys == vol.value.releves.Keys && tenues.Keys <= toutes.Keys)
      && (vol.Some? ==> forall j :: j in tenues ==> tenues[j] == toutes[j])
    }

    ghost function Vue(): S.Etat
      reads this, toutes.Values
    {
      S.Etat(horloge, FichesDe(toutes), parJeton.Keys, defis, connus, revJti, revDid, coupees, herite,
             injoignable, vol, tires, journal)
    }

    ghost predicate Connait(s: Session)
      reads this
    {
      s.jeton in toutes && toutes[s.jeton] == s
    }

    constructor (heure: int)
      ensures Valide() && Vue() == S.Initial(heure) && toutes == map[]
    {
      horloge, parJeton, defis, connus := heure, map[], map[], map[];
      revJti, revDid, coupees, herite, injoignable := map[], map[], map[], map[], false;
      vol, tenues := None, map[];
      toutes, tires, journal := map[], {}, [];
    }

    method Attendre(t: int)
      requires Valide() && horloge <= t
      modifies this
      ensures Valide() && toutes == old(toutes)
      ensures Vue() == old(Vue()).(heure := t)
    {
      horloge := t;
    }

    /** An exchange with the site has been tried. */
    method Contacter(echec: bool)
      requires Valide()
      modifies this
      ensures Valide() && toutes == old(toutes) && parJeton == old(parJeton) && tenues == old(tenues)
      ensures horloge == old(horloge) && tires == old(tires) && vol == old(vol)
      ensures Vue() == S.Contacter(old(Vue()), echec)
    {
      injoignable := echec;
      journal := journal + [S.Contact(echec, horloge)];
    }

    method Confirmer(did: S.Id)
      requires Valide()
      modifies this
      ensures Valide() && toutes == old(toutes) && parJeton == old(parJeton) && tenues == old(tenues)
      ensures tires == old(tires)
      ensures Vue() == S.Confirmer(old(Vue()), did, old(horloge))
    {
      connus := connus[did := horloge];
      journal := journal + [S.Confirme(did, horloge)];
    }

    method NouveauDefi(sid: S.Id, alea: Option<S.Id>) returns (r: Result<(S.Id, int), S.Rejet>)
      requires Valide()
      modifies this
      ensures Valide() && toutes == old(toutes)
      ensures (Vue(), r) == S.NouveauDefi(old(Vue()), sid, alea)
    {
      hide S.GarderDefis, FichesDe;
      if |defis| >= S.DEFIS_MAX {
        defis := S.GarderDefis(defis, horloge);
        if |defis| >= S.DEFIS_MAX {
          return Err(S.Nouveau(503, S.TropDeDefis));
        }
      }
      if alea.None? {
        return Err(S.Nouveau(503, S.AleatoireIndisponible));
      }
      EmettreDefi(sid, alea.value);
      return Ok((alea.value, horloge + S.DUREE_DEFI_S));
    }

    method EmettreDefi(sid: S.Id, defi: S.Id)
      requires Valide()
      modifies this`defis, this`tires, this`journal
      ensures Valide()
      ensures defis == old(defis)[defi := (sid, horloge + S.DUREE_DEFI_S)] && tires == old(tires) + {defi}
      ensures journal == old(journal) + [S.DefiEmis(defi, sid, horloge)]
    {
      hide FichesDe;
      defis := defis[defi := (sid, horloge + S.DUREE_DEFI_S)];
      tires := tires + {defi};
      journal := journal + [S.DefiEmis(defi, sid, horloge)];
    }

    method ConsommerDefi(sid: S.Id, defi: S.Id) returns (bon: bool)
      requires Valide()
      modifies this
      ensures Valide() && toutes == old(toutes) && parJeton == old(parJeton)
      ensures bon == S.DefiBon(old(Vue()), sid, defi)
      ensures Vue() == S.SansDefi(old(Vue()), defi)
      ensures horloge == old(horloge) && tires == old(tires)
    {
      bon := defi in defis && defis[defi].0 == sid && defis[defi].1 >= horloge;
      defis := defis - {defi};
    }

    method Couper(s: Session, rejet: S.Rejet)
      requires Valide() && Connait(s)
      modifies this
      ensures Valide() && toutes == old(toutes) && tenues == old(tenues)
      ensures Vue() == S.Couper(old(Vue()), {s.jeton}, rejet)
    {
      parJeton := parJeton - {s.jeton};
      coupees := coupees[s.jeton := (rejet, horloge)];
      UneConstante(old(coupees), s.jeton, (rejet, horloge));
    }

    /** Cuts the collected sessions one by one. */
    method CouperTous(cibles: set<S.Id>, rejet: S.Rejet)
      requires Valide() && cibles <= parJeton.Keys
      modifies this
      ensures Valide() && toutes == old(toutes) && tenues == old(tenues)
      ensures Vue() == S.Couper(old(Vue()), cibles, rejet)
    {
      var reste := cibles;
      ghost var faits: set<S.Id> := {};
      while reste != {}
        invariant Valide() && toutes == old(toutes) && tenues == old(tenues)
        invariant reste <= parJeton.Keys && faits + reste == cibles && faits !! reste
        invariant Vue() == S.Couper(old(Vue()), faits, rejet)
        decreases reste
      {
        var j :| j in reste;
        Couper(parJeton[j], rejet);
        CouperUnion(old(Vue()), faits, {j}, rejet);
        reste, faits := reste - {j}, faits + {j};
      }
      assert faits == cibles;
    }

    method CouperSites(ids: seq<S.Id>, rejet: S.Rejet)
      requires Valide()
      modifies this
      ensures Valide() && toutes == old(toutes) && tenues == old(tenues)
      ensures Vue() == S.CouperSites(old(Vue()), ids, rejet)
    {
      var i := 0;
      CouperSitesRien(Vue(), rejet);
      hide S.CouperSites;
      while i < |ids|
        invariant 0 <= i <= |ids|
        invariant Valide() && toutes == old(toutes) && tenues == old(tenues)
        invariant Vue() == S.CouperSites(old(Vue()), ids[..i], rejet)
      {
        CouperParIdSite(ids[i], rejet);
        CouperSitesEncore(old(Vue()), ids[..i], ids[i], rejet);
        assert ids[..i] + [ids[i]] == ids[..i + 1];
        i := i + 1;
      }
      assert ids[..i] == ids;
    }

    method CouperParIdSite(id: S.Id, rejet: S.Rejet)
      requires Valide()
      modifies this
      ensures Valide() && toutes == old(toutes) && tenues == old(tenues)
      ensures Vue() == S.CouperSites(old(Vue()), [id], rejet)
    {
      var cibles := set j | j in parJeton && parJeton[j].site == Some(id);
      assert cibles == set j | j in Vue().ouvertes && S.DuSite(Vue(), j, [id]);
      CouperTous(cibles, rejet);
    }

    // ------------------------------------------------ opening and renewing

    method Creer(r: S.Revendications, ghost defi: S.Id, site: Option<S.Id>, nom: Option<S.Id>, secours: bool,
                 alea: Option<S.Id>) returns (x: Result<S.Accord, S.Rejet>)
      requires Valide() && S.Frais(Vue(), alea)
      modifies this
      ensures Valide() && (forall j :: j in old(toutes) ==> j in toutes && toutes[j] == old(toutes)[j])
      ensures forall j :: j in toutes && j !in old(toutes) ==> fresh(toutes[j])
      ensures (Vue(), x) == S.Creer(old(Vue()), r, defi, site, nom, secours, alea)
    {
      if alea.None? {
        return Err(S.Nouveau(503, S.AleatoireIndisponible));
      }
      var s := new Session(alea.value, r, site, nom, secours);
      Inserer(s);
      Inscrire(S.Ouverte(alea.value, defi, r.sid, r.did, r.exp, secours, horloge));
      return Ok(S.Accord(alea.value, s.exp, s.secours));
    }

    method Inserer(s: Session)
      requires Valide() && s.jeton !in tires
      modifies this`parJeton, this`toutes, this`tires
      ensures Valide() && toutes == old(toutes)[s.jeton := s]
      ensures FichesDe(toutes) == old(FichesDe(toutes))[s.jeton := s.Fiche()]
      ensures parJeton.Keys == old(parJeton.Keys) + {s.jeton} && tires == old(tires) + {s.jeton}
    {
      hide FichesDe;
      ghost var t, p, r := toutes, parJeton, tires;
      parJeton := parJeton[s.jeton := s];
      toutes := toutes[s.jeton := s];
      tires := tires + {s.jeton};
      Ajoutee(t, p, r, s);
    }

    ghost method Inscrire(ev: S.Evenement)
      requires Valide()
      modifies this`journal
      ensures Valide() && Vue() == S.Journaliser(old(Vue()), ev)
    {
      journal := journal + [ev];
    }

    method Admettre(cle: Option<S.Id>, corps: S.Corps, expire: bool, rep: Option<S.ReponseOuverture>,
                    alea: Option<S.Id>)
      returns (x: Result<S.Accord, S.Rejet>)
      requires Valide() && S.Frais(Vue(), alea)
      modifies this
      ensures Valide() && (forall j :: j in old(toutes) ==> j in toutes && toutes[j] == old(toutes)[j])
      ensures forall j :: j in toutes && j !in old(toutes) ==> fresh(toutes[j])
      ensures (Vue(), x) == S.Admettre(old(Vue()), cle, corps, expire, rep, alea)
    {
      hide S.Creer, S.Contacter, S.Confirmer, S.CouperSites;
      var r := corps.lp.r;
      if !corps.signatureBonne {
        return Err(S.Nouveau(401, S.Defi));
      }
      if r.jti in revJti || r.did in revDid {
        return Err(S.Nouveau(403, S.LpRevoque));
      }
      if cle.Some? && r.srvPk.Some? && cle.value != r.srvPk.value {
        return Err(S.Nouveau(401, S.AutreServeur));
      }
      if |parJeton| >= S.SESSIONS_MAX {
        return Err(S.Nouveau(503, S.TropDeSessions));
      }
      if expire {
        if !(r.did in connus && horloge - connus[r.did] <= S.APPAREIL_CONNU_S) {
          return Err(S.Nouveau(503, S.CloudUnavailable));
        }
        x := Creer(r, corps.defi, None, None, true, alea);
        return;
      }
      if rep.None? {
        Contacter(true);
        x := Creer(r, corps.defi, None, None, false, alea);
        return;
      }
      x := AdmettreConfirme(corps, rep.value, alea);
    }

    /** The site answered the opening. */
    method AdmettreConfirme(corps: S.Corps, rep: S.ReponseOuverture, alea: Option<S.Id>)
      returns (x: Result<S.Accord, S.Rejet>)
      requires Valide() && S.Frais(Vue(), alea)
      modifies this
      ensures Valide() && (forall j :: j in old(toutes) ==> j in toutes && toutes[j] == old(toutes)[j])
      ensures forall j :: j in toutes && j !in old(toutes) ==> fresh(toutes[j])
      ensures (Vue(), x) == S.ReponseAdmise(old(Vue()), corps, rep, alea)
    {
      var r := corps.lp.r;
      Contacter(false);
      if !rep.ok {
        return Err(S.Rejet(403, S.RefuseParLeSite, Some(if rep.motif.Some? then rep.motif.value else S.SansMotif),
                           None));
      }
      Confirmer(r.did);
      x := Creer(r, corps.defi, rep.sessionId, rep.appareil, false, alea);
      if x.Ok? {
        var nom := if rep.appareil.Some? then rep.appareil.value else r.did;
        CouperSites(rep.couper, S.Coupee(S.RepriseAilleurs, Some(nom)));
      }
    }

    method Ouvrir(sid: S.Id, cle: Option<S.Id>, corps: S.Corps, sonde: bool, rep: Option<S.ReponseOuverture>,
                  alea: Option<S.Id>) returns (x: Result<S.Accord, S.Rejet>)
      requires Valide() && S.Frais(Vue(), alea)
      modifies this
      ensures Valide() && (forall j :: j in old(toutes) ==> j in toutes && toutes[j] == old(toutes)[j])
      ensures forall j :: j in toutes && j !in old(toutes) ==> fresh(toutes[j])
      ensures (Vue(), x) == S.Ouvrir(old(Vue()), sid, cle, corps, sonde, rep, alea)
    {
      hide S.Admettre, S.Verifier, S.Contacter, S.SansDefi, S.DefiBon, FichesDe;
      var bon := ConsommerDefi(sid, corps.defi);
      if !bon {
        return Err(S.Nouveau(401, S.Defi));
      }
      var v := S.Verifier(corps.lp, sid, horloge, 0);
      if v.Ok? {
        x := Admettre(cle, corps, false, rep, alea);
        return;
      }
      if v.error.Autre? {
        return Err(v.error.rejet);
      }
      Contacter(sonde);
      if !sonde {
        return Err(S.RejetDe(S.Expire));
      }
      v := S.Verifier(corps.lp, sid, horloge, S.SECOURS_S);
      if v.Err? {
        return Err(S.RejetDe(v.error));
      }
      x := Admettre(cle, corps, true, rep, alea);
    }

    method Renouveler(jeton: S.Id, corps: S.Corps) returns (x: Result<S.Accord, S.Rejet>)
      requires Valide()
      modifies this, toutes.Values
      ensures Valide() && toutes == old(toutes)
      ensures (Vue(), x) == S.Renouveler(old(Vue()), jeton, corps)
    {
      if jeton !in parJeton {
        return Err(if jeton in coupees then coupees[jeton].0 else S.Nouveau(401, S.NonAutorise));
      }
      var s, r := parJeton[jeton], corps.lp.r;
      var bon := ConsommerDefi(s.sid, corps.defi);
      if !bon {
        return Err(S.Nouveau(401, S.Defi));
      }
      var v := S.Verifier(corps.lp, s.sid, horloge, 0);
      if v.Err? {
        return Err(S.RejetDe(v.error));
      }
      if !corps.signatureBonne {
        return Err(S.Nouveau(401, S.Defi));
      }
      if r.sub != s.sub || r.did != s.did || r.pk != s.pk {
        return Err(S.Nouveau(401, S.AutreAppareil));
      }
      if r.jti in revJti || r.did in revDid {
        Couper(s, S.Coupee(S.Motif.Revoquee, None));
        return Err(S.Nouveau(403, S.LpRevoque));
      }
      x := Prolonger(s, r, corps.defi);
    }

    /** The new pass takes effect on the session. */
    method Prolonger(s: Session, r: S.Revendications, ghost defi: S.Id) returns (x: Result<S.Accord, S.Rejet>)
      requires Valide() && Connait(s)
      modifies this, s
      ensures Valide() && toutes == old(toutes)
      ensures x == Ok(S.Accord(s.jeton, Max(old(s.exp), r.exp), false))
      ensures Vue() == old(Vue()).(
                fiches := old(Vue()).fiches[
                  s.jeton := old(s.Fiche()).(exp := Max(old(s.exp), r.exp), jti := r.jti, secours := false)],
                journal := old(journal) + [S.Renouvelee(s.jeton, defi, s.sid, s.did, r.exp, horloge)])
    {
      s.exp := Max(s.exp, r.exp);
      s.jti := r.jti;
      s.secours := false;
      FicheSeule(old(FichesDe(toutes)), toutes, s);
      Inscrire(S.Renouvelee(s.jeton, defi, s.sid, s.did, r.exp, horloge));
      return Ok(S.Accord(s.jeton, s.exp, s.secours));
    }

    // ------------------------------------------------- serving and playing

    method EncoreValable(s: Session) returns (b: bool)
      requires Valide() && Connait(s)
      ensures b == S.EncoreValable(Vue(), s.Fiche())
    {
      var exp := s.exp + S.TOLERANCE_HORLOGE_S;
      b := horloge <= exp
           || (injoignable && horloge <= exp + S.SECOURS_S
               && s.did in connus && horloge - connus[s.did] <= S.APPAREIL_CONNU_S);
    }

    method Chercher(jeton: S.Id, sid: S.Id) returns (x: Result<Option<S.Id>, S.Rejet>)
      requires Valide()
      modifies this
      ensures Valide() && toutes == old(toutes)
      ensures (Vue(), x) == S.Chercher(old(Vue()), jeton, sid)
    {
      if jeton in parJeton {
        var s := parJeton[jeton];
        if s.sid != sid {
          return Err(S.Nouveau(401, S.NonAutorise));
        }
        var b := EncoreValable(s);
        if !b {
          var rejet := S.Nouveau(401, S.SessionExpiree);
          Couper(s, rejet);
          return Err(rejet);
        }
        journal := journal + [S.Servie(jeton, s.sid, s.did, horloge)];
        return Ok(Some(jeton));
      }
      if jeton in coupees {
        return Err(coupees[jeton].0);
      }
      return Ok(None);
    }

    method Audio(s: Session)
      requires Valide() && Connait(s)
      modifies this, s
      ensures Valide() && toutes == old(toutes)
      ensures Vue() == S.Audio(old(Vue()), s.jeton)
    {
      var jouait := S.AudioActif(s.Fiche(), horloge);
      Jouer(s);
      if jouait {
        return;
      }
      ghost var e1 := Vue();
      var autres := set j | j in parJeton && parJeton[j].sub == s.sub && j != s.jeton
                            && S.AudioActif(parJeton[j].Fiche(), horloge);
      assert autres == set j | j in e1.ouvertes && S.AutreEcoute(e1, s.jeton, s.sub, j);
      var nom := if s.nom.Some? then s.nom.value else s.did;
      CouperTous(autres, S.Coupee(S.RepriseAilleurs, Some(nom)));
    }

    method Jouer(s: Session)
      requires Valide() && Connait(s)
      modifies s
      ensures Valide()
      ensures Vue() == old(Vue()).(
                fiches := old(Vue()).fiches[s.jeton := old(s.Fiche()).(dernierAudio := Some(horloge))])
      ensures s.nom == old(s.nom)
    {
      s.dernierAudio := Some(horloge);
      FicheSeule(old(FichesDe(toutes)), toutes, s);
    }

    method Servir(s: Session, n: nat)
      requires Valide() && Connait(s)
      modifies s
      ensures Valide()
      ensures Vue() == old(Vue()).(fiches := old(Vue()).fiches[s.jeton := old(s.Fiche()).(octets := old(s.octets) + n)])
    {
      s.Compter(n);
      FicheSeule(old(FichesDe(toutes)), toutes, s);
      hide FichesDe;
    }

    method ServirOctets(s: Session, n: nat)
      requires Valide() && Connait(s)
      modifies this, s
      ensures Valide() && toutes == old(toutes)
      ensures Vue() == S.Compter(old(Vue()), s.jeton, n)
    {
      hide FichesDe;
      FicheDe(toutes, s.jeton);
      Servir(s, n);
      Inscrire(S.Compte(s.jeton, n));
    }

    method NoterHerite(sid: S.Id)
      requires Valide()
      modifies this
      ensures Valide() && toutes == old(toutes)
      ensures Vue() == S.NoterHerite(old(Vue()), sid)
    {
      hide FichesDe;
      herite := herite[sid := (if sid in herite then herite[sid] else 0) + 1];
      journal := journal + [S.Heritee(sid)];
    }

    // ------------------------------------------------------------ heartbeat

    method CollecterExpirees() returns (expirees: set<S.Id>)
      requires Valide()
      ensures expirees == set j | j in Vue().ouvertes && j in Vue().fiches && !S.EncoreValable(Vue(), Vue().fiches[j])
    {
      expirees := {};
      var reste := parJeton.Keys;
      while reste != {}
        invariant reste <= parJeton.Keys
        invariant expirees == set j | j in parJeton && j !in reste && !S.EncoreValable(Vue(), parJeton[j].Fiche())
        decreases reste
      {
        var j :| j in reste;
        var b := EncoreValable(parJeton[j]);
        if !b {
          expirees := expirees + {j};
        }
        reste := reste - {j};
      }
    }

    method Menage()
      requires Valide()
      modifies this
      ensures Valide() && toutes == old(toutes) && tenues == old(tenues)
      ensures Vue() == S.Menage(old(Vue()))
    {
      hide S.EncoreValable;
      var expirees := CollecterExpirees();
      assert expirees <= parJeton.Keys;
      CouperTous(expirees, S.Nouveau(401, S.SessionExpiree));
      Oublier();
    }

    method Oublier()
      requires Valide()
      modifies this`defis, this`coupees, this`revJti, this`revDid, this`connus
      ensures Valide()
      ensures defis == S.GarderDefis(old(defis), horloge) && coupees == S.GarderCoupees(old(coupees), horloge)
      ensures revJti == S.GarderRecents(old(revJti), horloge, S.REVOCATION_GARDEE_S)
      ensures revDid == S.GarderRecents(old(revDid), horloge, S.REVOCATION_GARDEE_S)
      ensures connus == S.GarderRecents(old(connus), horloge, S.APPAREIL_CONNU_S)
    {
      defis := S.GarderDefis(defis, horloge);
      coupees := S.GarderCoupees(coupees, horloge);
      revJti := S.GarderRecents(revJti, horloge, S.REVOCATION_GARDEE_S);
      revDid := S.GarderRecents(revDid, horloge, S.REVOCATION_GARDEE_S);
      connus := S.GarderRecents(connus, horloge, S.APPAREIL_CONNU_S);
    }

    method RejouerUne(s: Session, rep: S.ReponseOuverture)
      requires Valide() && Connait(s)
      modifies this, s
      ensures Valide() && toutes == old(toutes) && tenues == old(tenues)
      ensures Vue() == S.RejouerUne(old(Vue()), s.jeton, rep)
    {
      hide S.CouperSites, S.Couper;
      Contacter(false);
      if !rep.ok {
        Couper(s, S.Coupee(if rep.motif.Some? then rep.motif.value else S.SansMotif, None));
        return;
      }
      Renommer(s, rep);
      Confirmer(s.did);
      var nom := if s.nom.Some? then s.nom.value else s.did;
      CouperSites(rep.couper, S.Coupee(S.RepriseAilleurs, Some(nom)));
    }

    method Renommer(s: Session, rep: S.ReponseOuverture)
      requires Valide() && Connait(s)
      modifies s
      ensures Valide() && s.Fiche() == S.FicheRejouee(old(s.Fiche()), rep)
      ensures Vue() == old(Vue()).(fiches := old(Vue()).fiches[s.jeton := S.FicheRejouee(old(s.Fiche()), rep)])
    {
      s.site := rep.sessionId;
      if rep.appareil.Some? {
        s.nom := rep.appareil;
      }
      s.aRejouer := false;
      FicheSeule(old(FichesDe(toutes)), toutes, s);
      hide FichesDe;
    }

    /** The sessions to present again, in the order the table is walked. */
    method CollecterARejouer(ordre: seq<S.Id>) returns (liste: seq<S.Id>)
      requires Valide()
      ensures liste == S.ARejouer(Vue(), ordre)
      ensures forall j :: j in liste ==> j in parJeton
    {
      liste := [];
      var i := 0;
      while i < |ordre|
        invariant 0 <= i <= |ordre|
        invariant liste + S.ARejouer(Vue(), ordre[i..]) == S.ARejouer(Vue(), ordre)
        invariant forall j :: j in liste ==> j in parJeton
      {
        if ordre[i] in parJeton && parJeton[ordre[i]].aRejouer {
          liste := liste + [ordre[i]];
        }
        assert ordre[i..][1..] == ordre[i + 1..];
        i := i + 1;
      }
    }

    method Rejouer(liste: seq<S.Id>, reps: map<S.Id, S.ReponseOuverture>)
      requires Valide() && forall j :: j in liste ==> j in parJeton
      modifies this, toutes.Values
      ensures Valide() && toutes == old(toutes) && tenues == old(tenues)
      ensures Vue() == S.Rejouer(old(Vue()), liste, reps)
    {
      var table := parJeton;
      var i := 0;
      hide S.RejouerUne, S.Contacter;
      while i < |liste|
        invariant 0 <= i <= |liste|
        invariant Valide() && toutes == old(toutes) && tenues == old(tenues)
        invariant S.Rejouer(Vue(), liste[i..], reps) == S.Rejouer(old(Vue()), liste, reps)
      {
        assert liste[i] in liste && table[liste[i]] == toutes[liste[i]];
        assert liste[i..][1..] == liste[i + 1..];
        if liste[i] !in reps {
          Contacter(true);
          return;
        }
        RejouerUne(table[liste[i]], reps[liste[i]]);
        i := i + 1;
      }
    }

    /** The counters leave with the heartbeat. */
    method ReleverOctets() returns (releves: map<S.Id, nat>)
      requires Valide()
      modifies toutes.Values`octets
      ensures Valide()
      ensures releves.Keys == set j | j in parJeton && parJeton[j].site.Some?
      ensures forall j :: j in releves ==> releves[j] == old(toutes[j].octets)
      ensures forall j :: j in toutes ==> toutes[j].octets == if j in releves then 0 else old(toutes[j].octets)
    {
      releves := map[];
      var reste := parJeton.Keys;
      while reste != {}
        invariant reste <= parJeton.Keys && Valide()
        invariant releves.Keys == set j | j in parJeton && j !in reste && parJeton[j].site.Some?
        invariant forall j :: j in releves ==> releves[j] == old(toutes[j].octets)
        invariant forall j :: j in toutes ==> toutes[j].octets == if j in releves then 0 else old(toutes[j].octets)
        decreases reste
      {
        var j :| j in reste;
        var s := parJeton[j];
        if s.site.Some? {
          releves := releves[j := s.octets];
          s.octets := 0;
        }
        reste := reste - {j};
      }
    }

    method ReleverFiches() returns (releves: map<S.Id, nat>)
      requires Valide()
      modifies toutes.Values`octets
      ensures Valide()
      ensures releves == S.OctetsReleves(old(Vue())) && FichesDe(toutes) == S.FichesRelevees(old(Vue()))
      ensures releves.Keys <= parJeton.Keys
    {
      ghost var e := Vue();
      releves := ReleverOctets();
      OctetsReleves(e, toutes, releves);
    }

    method Relever()
      requires Valide()
      modifies this`tenues, this`herite, this`vol, toutes.Values`octets
      ensures Valide()
      ensures Vue() == S.Relever(old(Vue()))
    {
      hide FichesDe, S.OctetsReleves, S.FichesRelevees, S.HeritesReleves, S.HeriteVide, S.VolDe;
      var releves := ReleverFiches();
      Emporter(releves);
    }

    method Emporter(releves: map<S.Id, nat>)
      requires Valide() && releves.Keys <= parJeton.Keys
      modifies this`tenues, this`herite, this`vol
      ensures Valide()
      ensures vol == S.VolDe(horloge, releves, S.HeritesReleves(old(herite))) && herite == S.HeriteVide(old(herite))
    {
      hide S.HeritesReleves, S.HeriteVide;
      tenues := map j | j in releves :: parJeton[j];
      vol := S.VolDe(horloge, releves, S.HeritesReleves(herite));
      herite := S.HeriteVide(herite);
    }

    method BattreEnvoyer(ordre: seq<S.Id>, reps: map<S.Id, S.ReponseOuverture>)
      requires Valide() && vol.None?
      modifies this, toutes.Values
      ensures Valide() && toutes == old(toutes)
      ensures Vue() == S.BattreEnvoyer(old(Vue()), ordre, reps)
    {
      hide S.Menage, S.Rejouer, S.Relever, S.ARejouer;
      Menage();
      var liste := CollecterARejouer(ordre);
      Rejouer(liste, reps);
      Relever();
    }

    method CouperListe(cs: seq<S.Coupure>)
      requires Valide()
      modifies this
      ensures Valide() && toutes == old(toutes) && tenues == old(tenues)
      ensures Vue() == S.CouperListe(old(Vue()), cs)
    {
      var i := 0;
      hide S.CouperSites;
      while i < |cs|
        invariant 0 <= i <= |cs|
        invariant Valide() && toutes == old(toutes) && tenues == old(tenues)
        invariant S.CouperListe(Vue(), cs[i..]) == S.CouperListe(old(Vue()), cs)
      {
        var motif := if cs[i].motif.Some? then cs[i].motif.value else S.CoupeeParLeSite;
        assert cs[i..][1..] == cs[i + 1..];
        CouperParIdSite(cs[i].sessionId, S.Coupee(motif, None));
        i := i + 1;
      }
    }

    method Revoquer(jti: set<S.Id>, did: set<S.Id>, t: int)
      requires Valide()
      modifies this
      ensures Valide() && toutes == old(toutes) && tenues == old(tenues)
      ensures Vue() == S.Revoquer(old(Vue()), jti, did, t)
    {
      hide S.Couper;
      Marquer(jti, did, t);
      var revoquees := set j | j in parJeton && (parJeton[j].jti in revJti || parJeton[j].did in revDid);
      assert revoquees == set j |
        j in Vue().ouvertes && j in Vue().fiches && S.Revoque(Vue(), Vue().fiches[j].did, Vue().fiches[j].jti);
      CouperTous(revoquees, S.Coupee(S.Motif.Revoquee, None));
    }

    method Marquer(jti: set<S.Id>, did: set<S.Id>, t: int)
      requires Valide()
      modifies this`revJti, this`revDid
      ensures Valide()
      ensures Vue() == old(Vue()).(revJti := old(revJti) + Constante(jti, t), revDid := old(revDid) + Constante(did, t))
    {
      revJti := revJti + Constante(jti, t);
      revDid := revDid + Constante(did, t);
    }

    /** Nothing is lost: the counters come back. */
    method RemettreOctets(releves: map<S.Id, nat>)
      requires Valide() && releves.Keys == tenues.Keys
      requires forall j :: j in tenues ==> j in toutes && tenues[j] == toutes[j]
      modifies toutes.Values`octets
      ensures Valide()
      ensures forall j :: j in toutes ==> toutes[j].octets == old(toutes[j].octets) + S.Valeur(releves, j)
    {
      var reste := releves.Keys;
      while reste != {}
        invariant reste <= releves.Keys && Valide()
        invariant forall j :: j in toutes ==>
                    toutes[j].octets == old(toutes[j].octets) + if j in reste then 0 else S.Valeur(releves, j)
        decreases reste
      {
        var j :| j in reste;
        tenues[j].octets := tenues[j].octets + releves[j];
        reste := reste - {j};
      }
    }

    method RemettreFiches(releves: map<S.Id, nat>)
      requires Valide() && releves.Keys == tenues.Keys
      requires forall j :: j in tenues ==> j in toutes && tenues[j] == toutes[j]
      modifies toutes.Values`octets
      ensures Valide()
      ensures FichesDe(toutes) == S.FichesRemises(old(FichesDe(toutes)), releves)
    {
      ghost var fiches := FichesDe(toutes);
      RemettreOctets(releves);
      OctetsRemis(fiches, toutes, releves);
    }

    method Remettre(v: S.Vol)
      requires Valide() && vol.None?
      requires v.releves.Keys == tenues.Keys && forall j :: j in tenues ==> j in toutes && tenues[j] == toutes[j]
      modifies this`herite, toutes.Values`octets
      ensures Valide()
      ensures Vue() == S.Remettre(old(Vue()), v)
    {
      hide FichesDe, S.FichesRemises, S.HeriteRemis, S.Contacter, S.Revoquer, S.CouperListe;
      RemettreFiches(v.releves);
      herite := S.HeriteRemis(herite, v.herites);
    }

    method BattreRepondre(rep: Option<S.ReponseBattement>, relecture: Option<bool>)
      requires Valide() && vol.Some?
      modifies this, toutes.Values
      ensures Valide() && toutes == old(toutes)
      ensures Vue() == S.BattreRepondre(old(Vue()), rep, relecture)
    {
      hide S.Remettre, S.CouperListe, S.Revoquer, S.Contacter, FichesDe;
      var v := vol.value;
      vol := None;
      Contacter(rep.None?);
      if rep.None? {
        Remettre(v);
        return;
      }
      Inscrire(S.Acceptee(v.releves, v.herites));
      CouperListe(rep.value.couper);
      Revoquer(rep.value.jti, rep.value.did, v.t);
      if relecture.Some? {
        Contacter(relecture.value);
      }
    }
  }

  lemma CouperUnion(e: S.Etat, a: set<S.Id>, b: set<S.Id>, rejet: S.Rejet)
    ensures S.Couper(S.Couper(e, a, rejet), b, rejet) == S.Couper(e, a + b, rejet)
  {
    DeuxConstantes(e.coupees, a, b, (rejet, e.heure));
    assert e.ouvertes - a - b == e.ouvertes - (a + b);
  }

  lemma CouperSitesRien(e: S.Etat, rejet: S.Rejet)
    ensures S.CouperSites(e, [], rejet) == e
  {
  }

  lemma CouperSitesEncore(e: S.Etat, ids: seq<S.Id>, id: S.Id, rejet: S.Rejet)
    ensures S.CouperSites(S.CouperSites(e, ids, rejet), [id], rejet) == S.CouperSites(e, ids + [id], rejet)
  {
    var a := set j | j in e.ouvertes && S.DuSite(e, j, ids);
    var e1 := S.Couper(e, a, rejet);
    var b := set j | j in e1.ouvertes && S.DuSite(e1, j, [id]);
    assert a + b == set j | j in e.ouvertes && S.DuSite(e, j, ids + [id]);
    CouperUnion(e, a, b, rejet);
  }
}
