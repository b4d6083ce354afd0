/** What each call of the session table grants, refuses and changes, said of its
    arguments and of the state before it, for every state. Durations are in
    seconds. */
module SessionsExactes {
  import opened Commun
  import opened SessionsSpec

  /** The first rejection of a list of checks made in order. */
  function Premier(controles: seq<Option<Rejet>>): Option<Rejet> {
    if controles == [] then None else if controles[0].Some? then controles[0] else Premier(controles[1..])
  }

  function Sinon(tenu: bool, rejet: Rejet): Option<Rejet> { if tenu then None else Some(rejet) }

  function Code401(code: Code): Rejet { Rejet(401, code, None, None) }

  function Code403(code: Code): Rejet { Rejet(403, code, None, None) }

  function Code503(code: Code): Rejet { Rejet(503, code, None, None) }

  predicate DefiDu(e: Etat, sid: Id, defi: Id) {
    defi in e.defis && e.defis[defi].0 == sid && e.heure <= e.defis[defi].1
  }

  predicate ATemps(e: Etat, exp: int) { e.heure <= exp + 120 }

  predicate AppareilVu(e: Etat, did: Id) { did in e.connus && e.heure <= e.connus[did] + 604_800 }

  predicate Revocable(e: Etat, r: Revendications) { r.jti in e.revJti.Keys || r.did in e.revDid.Keys }

  /** The checks of an opening, in order: the challenge, the pass with its grace,
      the signature, the revocations, the key of the server, the room left; then
      the device in an emergency, the answer of the site otherwise. */
  function ControlesOuverture(e: Etat, sid: Id, cle: Option<Id>, corps: Corps, sonde: bool,
                              rep: Option<ReponseOuverture>, alea: Option<Id>): seq<Option<Rejet>>
  {
    ControlesEntree(e, sid, corps, sonde) + ControlesAdmission(e, cle, corps, ATemps(e, corps.lp.r.exp), rep, alea)
  }

  function ControlesEntree(e: Etat, sid: Id, corps: Corps, sonde: bool): seq<Option<Rejet>> {
    var lp, exp := corps.lp, corps.lp.r.exp;
    [ Sinon(DefiDu(e, sid, corps.defi), Code401(Defi)),
      lp.avant,
      Sinon(lp.r.sid == sid, Code401(AutreServeur)),
      lp.milieu,
      Sinon(ATemps(e, exp) || (sonde && e.heure <= exp + 120 + 86_400), Code401(LpExpire)),
      lp.apres ]
  }

  function ControlesAdmission(e: Etat, cle: Option<Id>, corps: Corps, aTemps: bool,
                              rep: Option<ReponseOuverture>, alea: Option<Id>): seq<Option<Rejet>>
  {
    var r := corps.lp.r;
    [ Sinon(corps.signatureBonne, Code401(Defi)),
      Sinon(!Revocable(e, r), Code403(LpRevoque)),
      Sinon(cle.Some? && r.srvPk.Some? ==> cle == r.srvPk, Code401(AutreServeur)),
      Sinon(|e.ouvertes| < 10_000, Code503(TropDeSessions)),
      Sinon(aTemps || AppareilVu(e, r.did), Code503(CloudUnavailable)),
      Sinon(aTemps && rep.Some? ==> rep.value.ok, RefusDuSite(rep)),
      Sinon(alea.Some?, Code503(AleatoireIndisponible)) ]
  }

  function RefusDuSite(rep: Option<ReponseOuverture>): Rejet {
    var motif := if rep.Some? && rep.value.motif.Some? then rep.value.motif.value else SansMotif;
    Rejet(403, RefuseParLeSite, Some(motif), None)
  }

  /** When an opening is granted. */
  predicate Ouvrable(e: Etat, sid: Id, cle: Option<Id>, corps: Corps, sonde: bool,
                     rep: Option<ReponseOuverture>, alea: Option<Id>)
  {
    var lp, r := corps.lp, corps.lp.r;
    && DefiDu(e, sid, corps.defi)
    && lp.avant.None? && r.sid == sid && lp.milieu.None? && lp.apres.None?
    && corps.signatureBonne && !Revocable(e, r)
    && (cle.Some? && r.srvPk.Some? ==> cle == r.srvPk)
    && |e.ouvertes| < 10_000 && alea.Some?
    && if ATemps(e, r.exp) then rep.Some? ==> rep.value.ok
       else sonde && e.heure <= r.exp + 120 + 86_400 && AppareilVu(e, r.did)
  }

  /** The place of the first rejection. */
  ghost function Place(cs: seq<Option<Rejet>>): (k: nat)
    ensures k <= |cs| && (forall i :: 0 <= i < k ==> cs[i] == None) && (k < |cs| ==> cs[k].Some?)
    ensures Premier(cs) == if k < |cs| then cs[k] else None
  {
    if cs == [] || cs[0].Some? then 0 else
      var k := Place(cs[1..]);
      assert forall i :: 0 < i < k + 1 ==> cs[i] == cs[1..][i - 1];
      k + 1
  }

  lemma PremierDeux(cs: seq<Option<Rejet>>, ds: seq<Option<Rejet>>)
    ensures Premier(cs + ds) == if Premier(cs).Some? then Premier(cs) else Premier(ds)
  {
    if cs == [] {
      assert cs + ds == ds;
    } else {
      assert (cs + ds)[1..] == cs[1..] + ds;
      PremierDeux(cs[1..], ds);
    }
  }

  lemma AdmettreExact(e: Etat, cle: Option<Id>, corps: Corps, aTemps: bool,
                      rep: Option<ReponseOuverture>, alea: Option<Id>)
    ensures var x := Admettre(e, cle, corps, !aTemps, rep, alea).1;
      Premier(ControlesAdmission(e, cle, corps, aTemps, rep, alea)) == if x.Ok? then None else Some(x.error)
  {
    hide Place, Premier, CouperSites, Couper, Designation, FicheDe, Constante;
    var cs := ControlesAdmission(e, cle, corps, aTemps, rep, alea);
    var k := Place(cs);
    assert |cs| == 7 && (k < 7 ==> cs[k].Some?);
    assert (k > 0 ==> cs[0] == None) && (k > 1 ==> cs[1] == None) && (k > 2 ==> cs[2] == None);
    assert (k > 3 ==> cs[3] == None) && (k > 4 ==> cs[4] == None) && (k > 5 ==> cs[5] == None);
    assert k > 6 ==> cs[6] == None;
  }

  /** The state in which an opening that passed the first checks is admitted. */
  function Entre(e: Etat, corps: Corps): Etat {
    var e1 := SansDefi(e, corps.defi);
    if ATemps(e, corps.lp.r.exp) then e1 else Contacter(e1, true)
  }

  lemma EntreeExacte(e: Etat, sid: Id, cle: Option<Id>, corps: Corps, sonde: bool,
                     rep: Option<ReponseOuverture>, alea: Option<Id>)
    ensures var c, x := Premier(ControlesEntree(e, sid, corps, sonde)), Ouvrir(e, sid, cle, corps, sonde, rep, alea);
      if c.Some? then x.1 == Err(c.value)
      else x == Admettre(Entre(e, corps), cle, corps, !ATemps(e, corps.lp.r.exp), rep, alea)
  {
    hide Place, Premier, Admettre;
    var cs := ControlesEntree(e, sid, corps, sonde);
    var k := Place(cs);
    assert |cs| == 6 && (k < 6 ==> cs[k].Some?);
    assert (k > 0 ==> cs[0] == None) && (k > 1 ==> cs[1] == None) && (k > 2 ==> cs[2] == None);
    assert (k > 3 ==> cs[3] == None) && (k > 4 ==> cs[4] == None) && (k > 5 ==> cs[5] == None);
  }

  lemma EntreeOuverte(e: Etat, sid: Id, corps: Corps, sonde: bool)
    ensures var lp, exp := corps.lp, corps.lp.r.exp;
      Premier(ControlesEntree(e, sid, corps, sonde)) == None <==>
        && DefiDu(e, sid, corps.defi) && lp.avant.None? && lp.r.sid == sid && lp.milieu.None? && lp.apres.None?
        && (ATemps(e, exp) || (sonde && e.heure <= exp + 120 + 86_400))
  {
    hide Place, Premier;
    var cs := ControlesEntree(e, sid, corps, sonde);
    var k := Place(cs);
    assert |cs| == 6 && (k < 6 ==> cs[k].Some?);
    assert (k > 0 ==> cs[0] == None) && (k > 1 ==> cs[1] == None) && (k > 2 ==> cs[2] == None);
    assert (k > 3 ==> cs[3] == None) && (k > 4 ==> cs[4] == None) && (k > 5 ==> cs[5] == None);
  }

  /** An opening is granted if and only if everything it takes is there; refused,
      the answer is the first check that failed. */
  lemma OuvertureExacte(e: Etat, sid: Id, cle: Option<Id>, corps: Corps, sonde: bool,
                        rep: Option<ReponseOuverture>, alea: Option<Id>)
    ensures var x := Ouvrir(e, sid, cle, corps, sonde, rep, alea).1;
      && (x.Ok? <==> Ouvrable(e, sid, cle, corps, sonde, rep, alea))
      && (x.Err? ==> Premier(ControlesOuverture(e, sid, cle, corps, sonde, rep, alea)) == Some(x.error))
  {
    hide Premier, Ouvrir, Admettre, ControlesEntree, ControlesAdmission, DefiDu, ATemps, AppareilVu, Revocable, Entre;
    var aTemps := ATemps(e, corps.lp.r.exp);
    var ds := ControlesAdmission(e, cle, corps, aTemps, rep, alea);
    PremierDeux(ControlesEntree(e, sid, corps, sonde), ds);
    EntreeExacte(e, sid, cle, corps, sonde, rep, alea);
    EntreeOuverte(e, sid, corps, sonde);
    AdmettreExact(Entre(e, corps), cle, corps, aTemps, rep, alea);
    MemesControles(e, cle, corps, aTemps, rep, alea);
    AdmissionExacte(e, cle, corps, aTemps, rep, alea);
  }

  lemma MemesControles(e: Etat, cle: Option<Id>, corps: Corps, aTemps: bool,
                       rep: Option<ReponseOuverture>, alea: Option<Id>)
    ensures ControlesAdmission(Entre(e, corps), cle, corps, aTemps, rep, alea)
         == ControlesAdmission(e, cle, corps, aTemps, rep, alea)
  {
  }

  lemma AdmissionExacte(e: Etat, cle: Option<Id>, corps: Corps, aTemps: bool,
                        rep: Option<ReponseOuverture>, alea: Option<Id>)
    ensures var r := corps.lp.r;
      Premier(ControlesAdmission(e, cle, corps, aTemps, rep, alea)) == None <==>
        && corps.signatureBonne && !Revocable(e, r)
        && (cle.Some? && r.srvPk.Some? ==> cle == r.srvPk)
        && |e.ouvertes| < 10_000 && alea.Some?
        && if aTemps then rep.Some? ==> rep.value.ok else AppareilVu(e, r.did)
  {
    hide Place, Premier;
    var cs := ControlesAdmission(e, cle, corps, aTemps, rep, alea);
    var k := Place(cs);
    assert |cs| == 7 && (k < 7 ==> cs[k].Some?);
    assert (k > 0 ==> cs[0] == None) && (k > 1 ==> cs[1] == None) && (k > 2 ==> cs[2] == None);
    assert (k > 3 ==> cs[3] == None) && (k > 4 ==> cs[4] == None) && (k > 5 ==> cs[5] == None);
    assert k > 6 ==> cs[6] == None;
  }

  // ------------------------------------------------------ what an opening does

  /** The site is probed: all is well but the pass has expired. */
  predicate Sonde(e: Etat, sid: Id, corps: Corps) {
    && DefiDu(e, sid, corps.defi) && corps.lp.avant.None? && corps.lp.r.sid == sid && corps.lp.milieu.None?
    && !ATemps(e, corps.lp.r.exp)
  }

  /** Nothing stands against an admission. */
  predicate Recevable(e: Etat, cle: Option<Id>, corps: Corps) {
    && corps.signatureBonne && !Revocable(e, corps.lp.r)
    && (cle.Some? && corps.lp.r.srvPk.Some? ==> cle == corps.lp.r.srvPk) && |e.ouvertes| < 10_000
  }

  /** The site is asked: the pass holds and nothing stands against it. */
  predicate Interroge(e: Etat, sid: Id, cle: Option<Id>, corps: Corps) {
    && DefiDu(e, sid, corps.defi) && corps.lp.avant.None? && corps.lp.r.sid == sid && corps.lp.milieu.None?
    && corps.lp.apres.None? && ATemps(e, corps.lp.r.exp) && Recevable(e, cle, corps)
  }

  /** What a refusal or a grant leaves, the new session apart. */
  predicate Suite(e: Etat, f: Etat, sid: Id, cle: Option<Id>, corps: Corps, sonde: bool,
                  rep: Option<ReponseOuverture>)
  {
    && f.heure == e.heure && f.revJti == e.revJti && f.revDid == e.revDid && f.herite == e.herite && f.vol == e.vol
    && f.defis == e.defis - {corps.defi}
    && f.injoignable == (if Sonde(e, sid, corps) then sonde
                         else if Interroge(e, sid, cle, corps) then rep.None?
                         else e.injoignable)
    && f.connus == if Interroge(e, sid, cle, corps) && rep.Some? && rep.value.ok
                   then e.connus[corps.lp.r.did := e.heure] else e.connus
  }

  /** The session an opening makes. */
  function Neuve(r: Revendications, rep: Option<ReponseOuverture>, aTemps: bool): Fiche {
    var dit := if aTemps then rep else None;
    var site := if dit.Some? then dit.value.sessionId else None;
    var nom := if dit.Some? then dit.value.appareil else None;
    Fiche(r.sid, r.sub, r.did, r.pk, r.jti, r.exp, nom, site, site.None?, !aTemps, 0, None)
  }

  /** The site sessions the answer orders to cut. */
  function Coupes(rep: Option<ReponseOuverture>, aTemps: bool): seq<Id> {
    if aTemps && rep.Some? then rep.value.couper else []
  }

  function Nom(f: Fiche): Id { if f.nom.Some? then f.nom.value else f.did }

  /** A session leaves for one of these site sessions. */
  predicate Vise(fiches: map<Id, Fiche>, j: Id, ids: seq<Id>) {
    j in fiches && fiches[j].site.Some? && fiches[j].site.value in ids
  }

  function Visees(table: set<Id>, fiches: map<Id, Fiche>, ids: seq<Id>): set<Id> {
    set j | j in table && Vise(fiches, j, ids)
  }

  /** The table after some sessions were cut with one rejection. */
  ghost predicate Parties(e: Etat, f: Etat, table: set<Id>, js: set<Id>, rejet: Rejet) {
    && f.ouvertes == table - js
    && f.coupees.Keys == e.coupees.Keys + js
    && forall k :: k in f.coupees ==> f.coupees[k] == if k in js then (rejet, e.heure) else e.coupees[k]
  }

  /** A granted opening adds one session under the new token and cuts those the site
      names; a refused one changes none. */
  ghost predicate Resultat(e: Etat, f: Etat, x: Result<Accord, Rejet>, r: Revendications, aTemps: bool,
                           rep: Option<ReponseOuverture>, alea: Option<Id>)
  {
    && (x.Err? ==> f.fiches == e.fiches && f.ouvertes == e.ouvertes && f.coupees == e.coupees)
    && (x.Ok? ==>
          && alea.Some? && x.value == Accord(alea.value, r.exp, !aTemps)
          && f.fiches == e.fiches[alea.value := Neuve(r, rep, aTemps)]
          && var table := e.ouvertes + {alea.value};
             Parties(e, f, table, Visees(table, f.fiches, Coupes(rep, aTemps)),
                     Rejet(401, SessionCoupee, Some(RepriseAilleurs), Some(Nom(Neuve(r, rep, aTemps))))))
  }

  predicate Memes(e: Etat, f: Etat) {
    f.heure == e.heure && f.revJti == e.revJti && f.revDid == e.revDid && f.herite == e.herite && f.vol == e.vol
  }

  /** A new session and nothing else. */
  ghost predicate Ajoutee(e: Etat, f: Etat, x: Result<Accord, Rejet>, g: Fiche, alea: Option<Id>) {
    && Memes(e, f) && f.defis == e.defis && f.injoignable == e.injoignable && f.connus == e.connus
    && f.coupees == e.coupees
    && (x.Err? ==> f.fiches == e.fiches && f.ouvertes == e.ouvertes)
    && (x.Ok? ==>
          && alea.Some? && x.value == Accord(alea.value, g.exp, g.secours)
          && f.fiches == e.fiches[alea.value := g] && f.ouvertes == e.ouvertes + {alea.value})
  }

  lemma CreerEffet(e: Etat, corps: Corps, rep: Option<ReponseOuverture>, aTemps: bool, alea: Option<Id>)
    ensures var g := Neuve(corps.lp.r, rep, aTemps);
      var (f, x) := Creer(e, corps.lp.r, corps.defi, g.site, g.nom, !aTemps, alea);
      Ajoutee(e, f, x, g, alea)
  {
  }

  lemma ResultatSimple(e: Etat, e1: Etat, f: Etat, x: Result<Accord, Rejet>, r: Revendications, aTemps: bool,
                       rep: Option<ReponseOuverture>, alea: Option<Id>)
    requires Ajoutee(e1, f, x, Neuve(r, rep, aTemps), alea)
    requires e1.fiches == e.fiches && e1.ouvertes == e.ouvertes && e1.coupees == e.coupees
    requires Coupes(rep, aTemps) == []
    ensures Resultat(e, f, x, r, aTemps, rep, alea)
  {
    hide Memes;
    if x.Ok? { assert Visees(e.ouvertes + {alea.value}, f.fiches, []) == {}; }
  }

  lemma ResultatCoupe(e: Etat, c: Etat, x: Result<Accord, Rejet>, r: Revendications,
                      rep: ReponseOuverture, alea: Option<Id>)
    requires e.heure == c.heure && x.Ok? && alea.Some? && x.value == Accord(alea.value, r.exp, false)
    requires c.fiches == e.fiches[alea.value := Neuve(r, Some(rep), true)] && c.ouvertes == e.ouvertes + {alea.value}
    requires c.coupees == e.coupees
    ensures Resultat(e, CouperSites(c, rep.couper, Coupee(RepriseAilleurs, Some(Nom(Neuve(r, Some(rep), true))))),
                     x, r, true, Some(rep), alea)
  {
    CouperSitesEffet(c, rep.couper, Coupee(RepriseAilleurs, Some(Nom(Neuve(r, Some(rep), true)))));
    hide Neuve, Nom, CouperSites, Visees, Coupee;
    assert Coupee(RepriseAilleurs, Some(Nom(Neuve(r, Some(rep), true))))
        == Rejet(401, SessionCoupee, Some(RepriseAilleurs), Some(Nom(Neuve(r, Some(rep), true)))) by { CoupeeDe(); }
  }

  lemma CoupeeDe()
    ensures forall m, a :: Coupee(m, a) == Rejet(401, SessionCoupee, Some(m), a)
  {
  }

  lemma CouperSitesEffet(e: Etat, ids: seq<Id>, rejet: Rejet)
    ensures var f := CouperSites(e, ids, rejet);
      && Parties(e, f, e.ouvertes, Visees(e.ouvertes, e.fiches, ids), rejet)
      && Memes(e, f) && f.fiches == e.fiches && f.defis == e.defis && f.connus == e.connus
      && f.injoignable == e.injoignable
  {
    assert (set j | j in e.ouvertes && DuSite(e, j, ids)) == Visees(e.ouvertes, e.fiches, ids);
  }

  lemma DesignationNom(r: Revendications, rep: ReponseOuverture)
    ensures Neuve(r, Some(rep), true) == FicheDe(r, rep.sessionId, rep.appareil, false)
    ensures Designation(FicheDe(r, rep.sessionId, rep.appareil, false)) == Nom(Neuve(r, Some(rep), true))
  {
  }

  /** What an admission leaves. */
  ghost predicate Admise(e: Etat, f: Etat, x: Result<Accord, Rejet>, cle: Option<Id>, corps: Corps, aTemps: bool,
                         rep: Option<ReponseOuverture>, alea: Option<Id>)
  {
    && Memes(e, f) && f.defis == e.defis && Resultat(e, f, x, corps.lp.r, aTemps, rep, alea)
    && f.injoignable == (if aTemps && Recevable(e, cle, corps) then rep.None? else e.injoignable)
    && f.connus == if aTemps && Recevable(e, cle, corps) && rep.Some? && rep.value.ok
                   then e.connus[corps.lp.r.did := e.heure] else e.connus
  }

  lemma AdmettreEffet(e: Etat, cle: Option<Id>, corps: Corps, aTemps: bool, rep: Option<ReponseOuverture>,
                      alea: Option<Id>)
    ensures var (f, x) := Admettre(e, cle, corps, !aTemps, rep, alea); Admise(e, f, x, cle, corps, aTemps, rep, alea)
  {
    hide *;
    if !Recevable(e, cle, corps) {
      RefusEffet(e, cle, corps, aTemps, rep, alea);
    } else if !aTemps {
      SecoursEffet(e, cle, corps, rep, alea);
    } else if rep.None? {
      SansReponseEffet(e, cle, corps, alea);
    } else if rep.value.ok {
      AccepteEffet(e, cle, corps, rep.value, alea);
    } else {
      RefuseEffet(e, cle, corps, rep.value, alea);
    }
  }

  lemma SecoursEffet(e: Etat, cle: Option<Id>, corps: Corps, rep: Option<ReponseOuverture>, alea: Option<Id>)
    requires Recevable(e, cle, corps)
    ensures var (f, x) := Admettre(e, cle, corps, true, rep, alea); Admise(e, f, x, cle, corps, false, rep, alea)
  {
    hide Creer, Resultat;
    var (f, x) := Creer(e, corps.lp.r, corps.defi, None, None, true, alea);
    CreerEffet(e, corps, rep, false, alea);
    ResultatSimple(e, e, f, x, corps.lp.r, false, rep, alea);
    var (g, y) := Admettre(e, cle, corps, true, rep, alea);
    if y.Err? { ResultatErreur(e, g, y, corps.lp.r, false, rep, alea); }
  }

  lemma ResultatErreur(e: Etat, f: Etat, x: Result<Accord, Rejet>, r: Revendications, aTemps: bool,
                       rep: Option<ReponseOuverture>, alea: Option<Id>)
    requires x.Err? && f.fiches == e.fiches && f.ouvertes == e.ouvertes && f.coupees == e.coupees
    ensures Resultat(e, f, x, r, aTemps, rep, alea)
  {
  }

  lemma SansReponseEffet(e: Etat, cle: Option<Id>, corps: Corps, alea: Option<Id>)
    requires Recevable(e, cle, corps)
    ensures var (f, x) := Admettre(e, cle, corps, false, None, alea); Admise(e, f, x, cle, corps, true, None, alea)
  {
    hide Creer, Resultat;
    var e1 := Contacter(e, true);
    var (f, x) := Creer(e1, corps.lp.r, corps.defi, None, None, false, alea);
    CreerEffet(e1, corps, None, true, alea);
    ResultatSimple(e, e1, f, x, corps.lp.r, true, None, alea);
  }

  lemma RefuseEffet(e: Etat, cle: Option<Id>, corps: Corps, rep: ReponseOuverture, alea: Option<Id>)
    requires Recevable(e, cle, corps) && !rep.ok
    ensures var (f, x) := Admettre(e, cle, corps, false, Some(rep), alea);
      Admise(e, f, x, cle, corps, true, Some(rep), alea)
  {
    hide Creer, Resultat, CouperSites, FicheDe, Designation;
    var (f, x) := Admettre(e, cle, corps, false, Some(rep), alea);
    ResultatErreur(e, f, x, corps.lp.r, true, Some(rep), alea);
  }

  lemma AccepteEffet(e: Etat, cle: Option<Id>, corps: Corps, rep: ReponseOuverture, alea: Option<Id>)
    requires Recevable(e, cle, corps) && rep.ok
    ensures var (f, x) := Admettre(e, cle, corps, false, Some(rep), alea);
      Admise(e, f, x, cle, corps, true, Some(rep), alea)
  {
    hide Creer, Resultat, CouperSites, FicheDe, Designation, Nom, Neuve, Parties, Visees;
    var r := corps.lp.r;
    var e2 := Confirmer(Contacter(e, false), r.did, e.heure);
    var (c, x) := Creer(e2, r, corps.defi, rep.sessionId, rep.appareil, false, alea);
    CreerAccepte(e2, corps, rep, alea);
    DesignationNom(r, rep);
    CouperSitesEffet(c, rep.couper, Coupee(RepriseAilleurs, Some(Nom(Neuve(r, Some(rep), true)))));
    if x.Ok? { ResultatCoupe(e, c, x, r, rep, alea); } else { ResultatErreur(e, c, x, r, true, Some(rep), alea); }
  }

  lemma CreerAccepte(e: Etat, corps: Corps, rep: ReponseOuverture, alea: Option<Id>)
    ensures var g := Neuve(corps.lp.r, Some(rep), true);
      var (f, x) := Creer(e, corps.lp.r, corps.defi, rep.sessionId, rep.appareil, false, alea);
      Ajoutee(e, f, x, g, alea) && g.exp == corps.lp.r.exp && !g.secours
  {
    CreerEffet(e, corps, Some(rep), true, alea);
  }

  lemma RefusEffet(e: Etat, cle: Option<Id>, corps: Corps, aTemps: bool, rep: Option<ReponseOuverture>,
                   alea: Option<Id>)
    requires !Recevable(e, cle, corps)
    ensures var (f, x) := Admettre(e, cle, corps, !aTemps, rep, alea); Admise(e, f, x, cle, corps, aTemps, rep, alea)
  {
    hide Admettre, Recevable, Resultat;
    RefusNet(e, cle, corps, !aTemps, rep, alea);
    var (f, x) := Admettre(e, cle, corps, !aTemps, rep, alea);
    ResultatErreur(e, f, x, corps.lp.r, aTemps, rep, alea);
  }

  lemma RefusNet(e: Etat, cle: Option<Id>, corps: Corps, expire: bool, rep: Option<ReponseOuverture>, alea: Option<Id>)
    requires !Recevable(e, cle, corps)
    ensures var (f, x) := Admettre(e, cle, corps, expire, rep, alea); f == e && x.Err?
  {
    hide Creer, ReponseAdmise, Contacter, AppareilConnu;
  }

  /** The first checks hold. */
  predicate Entree(e: Etat, sid: Id, corps: Corps, sonde: bool) {
    var lp, exp := corps.lp, corps.lp.r.exp;
    && DefiDu(e, sid, corps.defi) && lp.avant.None? && lp.r.sid == sid && lp.milieu.None? && lp.apres.None?
    && (ATemps(e, exp) || (sonde && e.heure <= exp + 120 + 86_400))
  }

  /** An opening in full, its answer apart: the challenge is spent, the flag and the
      known devices follow what the site said if it was probed or asked, and the
      table gains at most the new session. */
  lemma OuvertureEffet(e: Etat, sid: Id, cle: Option<Id>, corps: Corps, sonde: bool,
                       rep: Option<ReponseOuverture>, alea: Option<Id>)
    ensures var (f, x) := Ouvrir(e, sid, cle, corps, sonde, rep, alea);
      && Suite(e, f, sid, cle, corps, sonde, rep)
      && Resultat(e, f, x, corps.lp.r, ATemps(e, corps.lp.r.exp), rep, alea)
  {
    hide *;
    var aTemps := ATemps(e, corps.lp.r.exp);
    var (f, x) := Ouvrir(e, sid, cle, corps, sonde, rep, alea);
    EntreeExacte(e, sid, cle, corps, sonde, rep, alea);
    if Premier(ControlesEntree(e, sid, corps, sonde)) == None {
      EntreeTenue(e, sid, corps, sonde);
      AdmettreEffet(Entre(e, corps), cle, corps, aTemps, rep, alea);
      SuiteAdmise(e, f, x, sid, cle, corps, sonde, rep, alea);
    } else {
      EntreeTenue(e, sid, corps, sonde);
      EntreeRefusee(e, sid, cle, corps, sonde, rep, alea);
      ResultatErreur(e, f, x, corps.lp.r, aTemps, rep, alea);
    }
  }

  lemma EntreeTenue(e: Etat, sid: Id, corps: Corps, sonde: bool)
    ensures Premier(ControlesEntree(e, sid, corps, sonde)) == None <==> Entree(e, sid, corps, sonde)
  {
    hide Premier, ControlesEntree, DefiDu, ATemps;
    EntreeOuverte(e, sid, corps, sonde);
  }

  lemma SuiteAdmise(e: Etat, f: Etat, x: Result<Accord, Rejet>, sid: Id, cle: Option<Id>, corps: Corps, sonde: bool,
                    rep: Option<ReponseOuverture>, alea: Option<Id>)
    requires Entree(e, sid, corps, sonde)
    requires Admise(Entre(e, corps), f, x, cle, corps, ATemps(e, corps.lp.r.exp), rep, alea)
    ensures Suite(e, f, sid, cle, corps, sonde, rep)
    ensures Resultat(e, f, x, corps.lp.r, ATemps(e, corps.lp.r.exp), rep, alea)
  {
    hide Resultat, DefiDu, ATemps, Revocable;
    ResultatCadre(e, Entre(e, corps), f, x, corps.lp.r, ATemps(e, corps.lp.r.exp), rep, alea);
    RecevableCadre(e, cle, corps);
    hide Recevable;
  }

  lemma RecevableCadre(e: Etat, cle: Option<Id>, corps: Corps)
    ensures Recevable(Entre(e, corps), cle, corps) == Recevable(e, cle, corps)
  {
    hide Entre;
    EntreMemes(e, corps);
  }

  lemma EntreMemes(e: Etat, corps: Corps)
    ensures var f := Entre(e, corps); f.revJti == e.revJti && f.revDid == e.revDid && f.ouvertes == e.ouvertes
  {
  }

  lemma ResultatCadre(e: Etat, e1: Etat, f: Etat, x: Result<Accord, Rejet>, r: Revendications, aTemps: bool,
                      rep: Option<ReponseOuverture>, alea: Option<Id>)
    requires Resultat(e1, f, x, r, aTemps, rep, alea)
    ensures e1.heure == e.heure && e1.fiches == e.fiches && e1.ouvertes == e.ouvertes && e1.coupees == e.coupees ==>
              Resultat(e, f, x, r, aTemps, rep, alea)
  {
    hide Neuve, Visees, Coupes, Nom;
  }

  lemma EntreeRefusee(e: Etat, sid: Id, cle: Option<Id>, corps: Corps, sonde: bool,
                      rep: Option<ReponseOuverture>, alea: Option<Id>)
    requires !Entree(e, sid, corps, sonde)
    ensures var f := Ouvrir(e, sid, cle, corps, sonde, rep, alea).0;
      && Suite(e, f, sid, cle, corps, sonde, rep)
      && f.fiches == e.fiches && f.ouvertes == e.ouvertes && f.coupees == e.coupees
  {
    hide Ouvrir, Entree, Sonde, Interroge, SansDefi, Contacter;
    RefusEtat(e, sid, cle, corps, sonde, rep, alea);
    DefiSeul(e, corps.defi, sonde);
  }

  lemma RefusEtat(e: Etat, sid: Id, cle: Option<Id>, corps: Corps, sonde: bool,
                  rep: Option<ReponseOuverture>, alea: Option<Id>)
    requires !Entree(e, sid, corps, sonde)
    ensures Ouvrir(e, sid, cle, corps, sonde, rep, alea).0 ==
              if Sonde(e, sid, corps) then Contacter(SansDefi(e, corps.defi), sonde) else SansDefi(e, corps.defi)
    ensures !Interroge(e, sid, cle, corps)
  {
    hide Admettre, SansDefi, Contacter, Recevable;
  }

  lemma DefiSeul(e: Etat, defi: Id, echec: bool)
    ensures var f, g := SansDefi(e, defi), Contacter(SansDefi(e, defi), echec);
      && Memes(e, f) && Memes(e, g) && f.defis == g.defis == e.defis - {defi}
      && f.connus == g.connus == e.connus && f.injoignable == e.injoignable && g.injoignable == echec
      && f.fiches == g.fiches == e.fiches && f.ouvertes == g.ouvertes == e.ouvertes
      && f.coupees == g.coupees == e.coupees
  {
  }

  // --------------------------------------------------------------- renewals

  predicate Presente(e: Etat, jeton: Id) { jeton in e.ouvertes && jeton in e.fiches }

  function ControlesRenouvellement(e: Etat, f: Fiche, corps: Corps): seq<Option<Rejet>> {
    var lp, r := corps.lp, corps.lp.r;
    [ Sinon(DefiDu(e, f.sid, corps.defi), Code401(Defi)),
      lp.avant,
      Sinon(r.sid == f.sid, Code401(AutreServeur)),
      lp.milieu,
      Sinon(ATemps(e, r.exp), Code401(LpExpire)),
      lp.apres,
      Sinon(corps.signatureBonne, Code401(Defi)),
      Sinon(r.sub == f.sub && r.did == f.did && r.pk == f.pk, Code401(AutreAppareil)),
      Sinon(!Revocable(e, r), Code403(LpRevoque)) ]
  }

  /** A fresh challenge of the session's server, a signed pass that holds, for the
      same account, device and key: the revocations apart. */
  predicate Renouvelant(e: Etat, f: Fiche, corps: Corps) {
    var lp, r := corps.lp, corps.lp.r;
    && DefiDu(e, f.sid, corps.defi)
    && lp.avant.None? && r.sid == f.sid && lp.milieu.None? && ATemps(e, r.exp) && lp.apres.None?
    && corps.signatureBonne && r.sub == f.sub && r.did == f.did && r.pk == f.pk
  }

  /** What a renewal makes of a session. */
  predicate Prolongee(f: Fiche, g: Fiche, r: Revendications) {
    && g.sid == f.sid && g.sub == f.sub && g.did == f.did && g.pk == f.pk && g.nom == f.nom && g.site == f.site
    && g.aRejouer == f.aRejouer && g.octets == f.octets && g.dernierAudio == f.dernierAudio
    && g.jti == r.jti && !g.secours && g.exp >= f.exp && g.exp >= r.exp && g.exp in {f.exp, r.exp}
  }

  lemma RenouvellementControle(e: Etat, jeton: Id, corps: Corps)
    requires Presente(e, jeton)
    ensures var x := Renouveler(e, jeton, corps).1;
      Premier(ControlesRenouvellement(e, e.fiches[jeton], corps)) == if x.Ok? then None else Some(x.error)
  {
    hide Place, Premier, Couper, DefiBon, DefiDu, Revoque, Revocable, Journaliser, SansDefi;
    DefiMeme(e, e.fiches[jeton].sid, corps.defi);
    RevoqueMeme(e, corps);
    var cs := ControlesRenouvellement(e, e.fiches[jeton], corps);
    var k := Place(cs);
    assert |cs| == 9 && (k < 9 ==> cs[k].Some?);
    assert (k > 0 ==> cs[0] == None) && (k > 1 ==> cs[1] == None) && (k > 2 ==> cs[2] == None);
    assert (k > 3 ==> cs[3] == None) && (k > 4 ==> cs[4] == None) && (k > 5 ==> cs[5] == None);
    assert (k > 6 ==> cs[6] == None) && (k > 7 ==> cs[7] == None) && (k > 8 ==> cs[8] == None);
  }

  lemma DefiMeme(e: Etat, sid: Id, defi: Id)
    ensures DefiBon(e, sid, defi) <==> DefiDu(e, sid, defi)
  {
  }

  lemma RevoqueMeme(e: Etat, corps: Corps)
    ensures Revoque(e, corps.lp.r.did, corps.lp.r.jti) <==> Revocable(e, corps.lp.r)
    ensures Revoque(SansDefi(e, corps.defi), corps.lp.r.did, corps.lp.r.jti) <==> Revocable(e, corps.lp.r)
  {
  }

  /** A renewal is granted if and only if the session is in the table and everything
      it takes is there; refused, the answer is the first check that failed, and a
      token out of the table answers what it was cut with. */
  lemma RenouvellementExact(e: Etat, jeton: Id, corps: Corps)
    ensures var x := Renouveler(e, jeton, corps).1;
      && (x.Ok? <==> Presente(e, jeton) && Renouvelant(e, e.fiches[jeton], corps) && !Revocable(e, corps.lp.r))
      && (x.Err? && Presente(e, jeton) ==>
            Premier(ControlesRenouvellement(e, e.fiches[jeton], corps)) == Some(x.error))
      && (x.Err? && !Presente(e, jeton) ==>
            x.error == if jeton in e.coupees then e.coupees[jeton].0 else Rejet(401, NonAutorise, None, None))
  {
    if Presente(e, jeton) {
      RenouvellementControle(e, jeton, corps);
      RenouvelantExact(e, e.fiches[jeton], corps);
      hide *;
    } else {
      assert Renouveler(e, jeton, corps).0 == e;
    }
  }

  lemma RenouvelantExact(e: Etat, f: Fiche, corps: Corps)
    ensures Premier(ControlesRenouvellement(e, f, corps)) == None <==>
              Renouvelant(e, f, corps) && !Revocable(e, corps.lp.r)
  {
    hide Place, Premier, DefiDu, Revocable;
    var cs := ControlesRenouvellement(e, f, corps);
    var k := Place(cs);
    assert |cs| == 9 && (k < 9 ==> cs[k].Some?);
    assert (k > 0 ==> cs[0] == None) && (k > 1 ==> cs[1] == None) && (k > 2 ==> cs[2] == None);
    assert (k > 3 ==> cs[3] == None) && (k > 4 ==> cs[4] == None) && (k > 5 ==> cs[5] == None);
    assert (k > 6 ==> cs[6] == None) && (k > 7 ==> cs[7] == None) && (k > 8 ==> cs[8] == None);
  }

  /** What a renewal changes: the session renewed keeps all but its expiry, its pass
      and its emergency flag; a revoked one is cut; the challenge is spent. */
  lemma RenouvellementEffet(e: Etat, jeton: Id, corps: Corps)
    ensures var (f, x) := Renouveler(e, jeton, corps);
      && Memes(e, f) && f.connus == e.connus && f.injoignable == e.injoignable
      && f.defis == (if Presente(e, jeton) then e.defis - {corps.defi} else e.defis)
      && (x.Ok? ==>
            && jeton in e.fiches && jeton in f.fiches && f.fiches == e.fiches[jeton := f.fiches[jeton]]
            && Prolongee(e.fiches[jeton], f.fiches[jeton], corps.lp.r)
            && x.value == Accord(jeton, f.fiches[jeton].exp, false)
            && f.ouvertes == e.ouvertes && f.coupees == e.coupees)
      && (x.Err? ==>
            && f.fiches == e.fiches
            && var coupe := Presente(e, jeton) && Renouvelant(e, e.fiches[jeton], corps);
               Parties(e, f, e.ouvertes, if coupe then {jeton} else {},
                       Rejet(401, SessionCoupee, Some(Motif.Revoquee), None)))
  {
    hide Premier, ControlesRenouvellement, Parties, Renouveler, Renouvelant, Prolongee, Couper, Journaliser, SansDefi;
    var (f, x) := Renouveler(e, jeton, corps);
    RenouvellementExact(e, jeton, corps);
    RenouvelerForme(e, jeton, corps);
    DefiSeul(e, corps.defi, true);
    if x.Ok? {
      ProlongerForme(e, jeton, corps);
    } else {
      CouperEffet(SansDefi(e, corps.defi), {jeton}, Rejet(401, SessionCoupee, Some(Motif.Revoquee), None));
      PartiesCadre(e, SansDefi(e, corps.defi), f, {jeton}, Rejet(401, SessionCoupee, Some(Motif.Revoquee), None));
    }
  }

  function Prolongation(f: Fiche, r: Revendications): Fiche {
    f.(exp := Max(f.exp, r.exp), jti := r.jti, secours := false)
  }

  lemma RenouvelerForme(e: Etat, jeton: Id, corps: Corps)
    ensures var (f, x) := Renouveler(e, jeton, corps);
      var e1 := SansDefi(e, corps.defi);
      && (!Presente(e, jeton) ==> f == e)
      && (x.Ok? ==>
            var g := Prolongation(e.fiches[jeton], corps.lp.r);
            && x.value == Accord(jeton, g.exp, false)
            && f == Journaliser(e1.(fiches := e1.fiches[jeton := g]),
                                Renouvelee(jeton, corps.defi, g.sid, g.did, corps.lp.r.exp, e.heure)))
      && (x.Err? && Presente(e, jeton) ==>
            f == if Renouvelant(e, e.fiches[jeton], corps)
                 then Couper(e1, {jeton}, Rejet(401, SessionCoupee, Some(Motif.Revoquee), None)) else e1)
  {
    hide Premier, Couper, DefiBon, DefiDu, Revoque, Revocable, Journaliser, SansDefi;
    if Presente(e, jeton) { DefiMeme(e, e.fiches[jeton].sid, corps.defi); }
    RevoqueMeme(e, corps);
  }

  lemma ProlongerForme(e: Etat, jeton: Id, corps: Corps)
    requires jeton in e.fiches
    ensures var e1, g := SansDefi(e, corps.defi), Prolongation(e.fiches[jeton], corps.lp.r);
      var f := Journaliser(e1.(fiches := e1.fiches[jeton := g]),
                           Renouvelee(jeton, corps.defi, g.sid, g.did, corps.lp.r.exp, e.heure));
      && Memes(e, f) && f.connus == e.connus && f.injoignable == e.injoignable && f.defis == e.defis - {corps.defi}
      && f.fiches == e.fiches[jeton := g] && Prolongee(e.fiches[jeton], g, corps.lp.r)
      && f.ouvertes == e.ouvertes && f.coupees == e.coupees
  {
  }

  lemma CouperEffet(e: Etat, js: set<Id>, rejet: Rejet)
    ensures var f := Couper(e, js, rejet);
      && Parties(e, f, e.ouvertes, js, rejet)
      && Memes(e, f) && f.fiches == e.fiches && f.defis == e.defis && f.connus == e.connus
      && f.injoignable == e.injoignable
  {
  }

  lemma PartiesCadre(e: Etat, e1: Etat, f: Etat, js: set<Id>, rejet: Rejet)
    requires e1.ouvertes == e.ouvertes && e1.coupees == e.coupees && e1.heure == e.heure
    ensures Parties(e1, f, e.ouvertes, js, rejet) ==> Parties(e, f, e.ouvertes, js, rejet)
    ensures f.ouvertes == e.ouvertes && f.coupees == e.coupees ==> Parties(e, f, e.ouvertes, {}, rejet)
  {
  }

  // --------------------------------------------------- challenges, services

  /** The challenges that are not stale. */
  function EncoreBons(defis: map<Id, (Id, int)>, heure: int): map<Id, (Id, int)> {
    map d | d in defis && heure <= defis[d].1 :: defis[d]
  }

  /** A challenge is drawn if and only if a string can be and there is room, once the
      stale ones are forgotten for want of it; it is for that server, for sixty
      seconds. */
  lemma DefiExact(e: Etat, sid: Id, alea: Option<Id>)
    ensures var (f, x) := NouveauDefi(e, sid, alea);
      var restent := if |e.defis| < 10_000 then e.defis else EncoreBons(e.defis, e.heure);
      && (x.Ok? <==> alea.Some? && |restent| < 10_000)
      && (x.Ok? ==> x.value == (alea.value, e.heure + 60) && f.defis == restent[alea.value := (sid, e.heure + 60)])
      && (x.Err? ==>
            && f.defis == restent
            && x.error == Code503(if |restent| < 10_000 then AleatoireIndisponible else TropDeDefis))
      && Memes(e, f) && f.fiches == e.fiches && f.ouvertes == e.ouvertes && f.coupees == e.coupees
      && f.connus == e.connus && f.injoignable == e.injoignable
  {
    hide GarderDefis, EncoreBons, NouveauDefi;
    GarderBons(e.defis, e.heure);
    var restent := if |e.defis| < 10_000 then e.defis else EncoreBons(e.defis, e.heure);
    DefiForme(e, sid, alea, restent);
  }

  lemma DefiForme(e: Etat, sid: Id, alea: Option<Id>, restent: map<Id, (Id, int)>)
    requires restent == if |e.defis| < 10_000 then e.defis else GarderDefis(e.defis, e.heure)
    ensures NouveauDefi(e, sid, alea) ==
              if |restent| < 10_000 && alea.Some? then
                var f := e.(defis := restent[alea.value := (sid, e.heure + 60)], tires := e.tires + {alea.value},
                            journal := e.journal + [DefiEmis(alea.value, sid, e.heure)]);
                (f, Ok((alea.value, e.heure + 60)))
              else
                (e.(defis := restent), Err(Code503(if |restent| < 10_000 then AleatoireIndisponible else TropDeDefis)))
  {
    hide GarderDefis;
    assert e.(defis := e.defis) == e;
  }

  lemma GarderBons(defis: map<Id, (Id, int)>, heure: int)
    ensures GarderDefis(defis, heure) == EncoreBons(defis, heure)
  {
  }

  /** A session holds: its expiry is not past, or it is for a day at most, the site
      has failed, and the device was seen within a week. */
  predicate Tient(e: Etat, f: Fiche) {
    e.heure <= f.exp + 120 || (e.injoignable && e.heure <= f.exp + 120 + 86_400 && AppareilVu(e, f.did))
  }

  /** A token yields its session if and only if the session is in the table, is of the
      server presented and still holds. With another server nothing changes; one
      that no longer holds leaves the table; a token cut answers what it was cut
      with; any other string is no session token. */
  lemma ServiceExact(e: Etat, j: Id, sid: Id)
    ensures var (f, x) := Chercher(e, j, sid);
      && (x == Ok(Some(j)) <==> Presente(e, j) && e.fiches[j].sid == sid && Tient(e, e.fiches[j]))
      && (x == Ok(Some(j)) ==> f == e.(journal := e.journal + [Servie(j, sid, e.fiches[j].did, e.heure)]))
      && (Presente(e, j) && e.fiches[j].sid != sid ==> f == e && x == Err(Code401(NonAutorise)))
      && (Presente(e, j) && e.fiches[j].sid == sid && !Tient(e, e.fiches[j]) ==>
            && x == Err(Code401(SessionExpiree))
            && Parties(e, f, e.ouvertes, {j}, Code401(SessionExpiree)) && f.fiches == e.fiches)
      && (!Presente(e, j) ==> f == e && x == if j in e.coupees then Err(e.coupees[j].0) else Ok(None))
  {
    hide Parties, Couper;
    CouperEffet(e, {j}, Code401(SessionExpiree));
  }

  /** Sound went through the session within two minutes. */
  predicate Jouait(e: Etat, k: Id) {
    k in e.fiches && e.fiches[k].dernierAudio.Some? && e.heure <= e.fiches[k].dernierAudio.value + 120
  }

  /** The other sessions of the account that played, when this one did not. */
  function Remplacees(e: Etat, j: Id): set<Id>
    requires j in e.fiches
  {
    set k | k in e.ouvertes && !Jouait(e, j) && k != j && Jouait(e, k) && e.fiches[k].sub == e.fiches[j].sub
  }

  /** Sound through a session: the others of its account that played leave the table
      unless it was playing already. */
  lemma EcouteExacte(e: Etat, j: Id)
    requires j in e.fiches
    ensures var f, g := Audio(e, j), e.fiches[j];
      && f.fiches == e.fiches[j := g.(dernierAudio := Some(e.heure))]
      && Memes(e, f) && f.defis == e.defis && f.connus == e.connus && f.injoignable == e.injoignable
      && Parties(e, f, e.ouvertes, Remplacees(e, j), Rejet(401, SessionCoupee, Some(RepriseAilleurs), Some(Nom(g))))
  {
    hide Audio, Couper, Parties, Remplacees, Jouait;
    var e1 := EnSon(e, j);
    var rejet := Rejet(401, SessionCoupee, Some(RepriseAilleurs), Some(Nom(e.fiches[j])));
    AudioForme(e, j);
    CouperEffet(e1, Remplacees(e, j), rejet);
    PartiesCadre(e, e1, Audio(e, j), Remplacees(e, j), rejet);
  }

  /** The session just heard. */
  function EnSon(e: Etat, j: Id): Etat
    requires j in e.fiches
  {
    e.(fiches := e.fiches[j := e.fiches[j].(dernierAudio := Some(e.heure))])
  }

  lemma AudioForme(e: Etat, j: Id)
    requires j in e.fiches
    ensures Jouait(e, j) ==> Audio(e, j) == EnSon(e, j) && Remplacees(e, j) == {}
    ensures !Jouait(e, j) ==>
              Audio(e, j) == Couper(EnSon(e, j), Remplacees(e, j),
                                    Rejet(401, SessionCoupee, Some(RepriseAilleurs), Some(Nom(e.fiches[j]))))
  {
    hide Couper, AutreEcoute, Jouait, AudioActif, Remplacees;
    JouaitMeme(e, j);
    AutresRemplacees(e, j);
  }

  lemma AutresRemplacees(e: Etat, j: Id)
    requires j in e.fiches
    ensures var e1 := e.(fiches := e.fiches[j := e.fiches[j].(dernierAudio := Some(e.heure))]);
      Remplacees(e, j) ==
        if Jouait(e, j) then {} else set k | k in e1.ouvertes && AutreEcoute(e1, j, e.fiches[j].sub, k)
  {
    hide Jouait, AutreEcoute;
    JouaitMeme(e, j);
  }

  lemma JouaitMeme(e: Etat, j: Id)
    requires j in e.fiches
    ensures Jouait(e, j) <==> AudioActif(e.fiches[j], e.heure)
    ensures var e1 := e.(fiches := e.fiches[j := e.fiches[j].(dernierAudio := Some(e.heure))]);
      forall k :: AutreEcoute(e1, j, e.fiches[j].sub, k) <==>
                  k != j && Jouait(e, k) && e.fiches[k].sub == e.fiches[j].sub
  {
  }

  // ------------------------------------------------------- the heartbeat back

  /** The motive the list gives for a site session: that of its first entry, the
      default one when it has none. */
  function MotifDe(cs: seq<Coupure>, site: Option<Id>): Option<Motif> {
    if cs == [] then None
    else if site == Some(cs[0].sessionId) then Some(if cs[0].motif.Some? then cs[0].motif.value else CoupeeParLeSite)
    else MotifDe(cs[1..], site)
  }

  /** It finds one if and only if the list names that session. */
  lemma {:induction false} MotifDit(cs: seq<Coupure>, site: Option<Id>)
    ensures MotifDe(cs, site) == None <==> forall c :: c in cs ==> site != Some(c.sessionId)
  {
    if cs != [] { MotifDit(cs[1..], site); }
  }

  /** The sessions a list cuts, and what they answer from then on. */
  ghost predicate Coupees(e: Etat, f: Etat, cs: seq<Coupure>) {
    && f.ouvertes <= e.ouvertes
    && (forall k :: k in e.coupees && (k !in e.ouvertes || k in f.ouvertes) ==>
          k in f.coupees && f.coupees[k] == e.coupees[k])
    && forall j :: j in e.ouvertes && j in e.fiches ==>
         var m := MotifDe(cs, e.fiches[j].site);
         && (j in f.ouvertes <==> m == None)
         && (m != None ==> j in f.coupees && f.coupees[j] == (Rejet(401, SessionCoupee, m, None), e.heure))
  }

  /** Nothing but the table has changed. */
  predicate SaufTable(e: Etat, f: Etat) {
    Memes(e, f) && f.fiches == e.fiches && f.defis == e.defis && f.connus == e.connus && f.injoignable == e.injoignable
  }

  /** What a session cut by an entry answers. */
  function RejetDUne(c: Coupure): Rejet {
    Rejet(401, SessionCoupee, Some(if c.motif.Some? then c.motif.value else CoupeeParLeSite), None)
  }

  /** One entry of the list. */
  function UneDe(e: Etat, c: Coupure): Etat {
    CouperSites(e, [c.sessionId], RejetDUne(c))
  }

  lemma {:induction false} CouperListeExact(e: Etat, cs: seq<Coupure>)
    ensures Coupees(e, CouperListe(e, cs), cs) && SaufTable(e, CouperListe(e, cs))
    decreases |cs|
  {
    hide *;
    CouperListePas(e, cs);
    if cs == [] {
      CouperRien(e);
    } else {
      var e1 := UneDe(e, cs[0]);
      CouperListeExact(e1, cs[1..]);
      UneCoupure(e, cs[0]);
      CoupureSuite(e, e1, CouperListe(e1, cs[1..]), cs);
    }
  }

  lemma CouperListePas(e: Etat, cs: seq<Coupure>)
    ensures CouperListe(e, cs) == if cs == [] then e else CouperListe(UneDe(e, cs[0]), cs[1..])
  {
    hide CouperSites;
  }

  lemma CouperRien(e: Etat)
    ensures Coupees(e, e, []) && SaufTable(e, e)
  {
  }

  lemma UneCoupure(e: Etat, c: Coupure)
    ensures Parties(e, UneDe(e, c), e.ouvertes, Visees(e.ouvertes, e.fiches, [c.sessionId]),
                    RejetDUne(c))
    ensures SaufTable(e, UneDe(e, c))
  {
    CouperSitesEffet(e, [c.sessionId], RejetDUne(c));
    hide CouperSites, Parties, Visees;
  }

  lemma CoupureSuite(e: Etat, e1: Etat, f: Etat, cs: seq<Coupure>)
    requires cs != [] && Coupees(e1, f, cs[1..]) && SaufTable(e, e1) && SaufTable(e1, f)
    requires Parties(e, e1, e.ouvertes, Visees(e.ouvertes, e.fiches, [cs[0].sessionId]),
                     RejetDUne(cs[0]))
    ensures Coupees(e, f, cs) && SaufTable(e, f)
  {
    var id := cs[0].sessionId;
    forall j | j in e.ouvertes && j in e.fiches
      ensures j in Visees(e.ouvertes, e.fiches, [id]) <==> e.fiches[j].site == Some(id)
    {
    }
    hide Visees;
  }

  /** Revocations noted with the time the round began. */
  predicate Note(m: map<Id, int>, m': map<Id, int>, ids: set<Id>, t: int) {
    m'.Keys == m.Keys + ids && forall k :: k in m' ==> m'[k] == if k in ids then t else m[k]
  }

  /** A session stays when no entry of the list names it and neither its device nor
      its pass is revoked. */
  predicate Epargnee(f: Etat, g: Fiche, cs: seq<Coupure>) {
    (forall c :: c in cs ==> g.site != Some(c.sessionId)) && g.did !in f.revDid && g.jti !in f.revJti
  }

  /** The table after an accepted heartbeat: a session stays if and only if nothing
      in the answer is against it; one that leaves answers the motive of the first
      entry that names it, or else its revocation. */
  ghost predicate TableRepondue(e: Etat, f: Etat, cs: seq<Coupure>) {
    && f.ouvertes <= e.ouvertes
    && forall j :: j in e.ouvertes && j in e.fiches ==>
         && (j in f.ouvertes <==> Epargnee(f, e.fiches[j], cs))
         && (j !in f.ouvertes ==>
               var m := MotifDe(cs, e.fiches[j].site);
               j in f.coupees &&
               f.coupees[j] == (Rejet(401, SessionCoupee, if m.Some? then m else Some(Motif.Revoquee), None), e.heure))
  }

  /** An accepted heartbeat, in full. */
  lemma ReponseExacte(e: Etat, rep: ReponseBattement, relecture: Option<bool>)
    requires e.vol.Some?
    ensures var f := BattreRepondre(e, Some(rep), relecture);
      && TableRepondue(e, f, rep.couper)
      && Note(e.revJti, f.revJti, rep.jti, e.vol.value.t) && Note(e.revDid, f.revDid, rep.did, e.vol.value.t)
      && f.vol.None? && f.injoignable == (relecture == Some(true))
      && f.heure == e.heure && f.fiches == e.fiches && f.herite == e.herite && f.defis == e.defis
      && f.connus == e.connus
  {
    hide CouperListe, Revoquer, Coupees, Note, TableRepondue, Revoquees;
    var v := e.vol.value;
    var e1 := Journaliser(Contacter(e.(vol := None), false), Acceptee(v.releves, v.herites));
    var e2 := CouperListe(e1, rep.couper);
    var e3 := Revoquer(e2, rep.jti, rep.did, v.t);
    CouperListeExact(e1, rep.couper);
    CouperListeVol(e1, rep.couper);
    RevoquerEffet(e2, rep.jti, rep.did, v.t);
    TableDe(e, e1, e2, e3, BattreRepondre(e, Some(rep), relecture), rep.couper);
  }

  lemma CouperListeVol(e: Etat, cs: seq<Coupure>)
    ensures CouperListe(e, cs).vol == e.vol
  {
    hide CouperListe;
  }

  lemma TableDe(e: Etat, e1: Etat, e2: Etat, e3: Etat, f: Etat, cs: seq<Coupure>)
    requires Coupees(e1, e2, cs) && Revoquees(e2, e3)
    requires e1.ouvertes == e.ouvertes && e1.coupees == e.coupees && e1.fiches == e.fiches && e1.heure == e.heure
    requires e2.fiches == e.fiches && e2.heure == e.heure
    requires f.ouvertes == e3.ouvertes && f.coupees == e3.coupees && f.revJti == e3.revJti && f.revDid == e3.revDid
    ensures TableRepondue(e, f, cs)
  {
    hide MotifDe;
    forall j | j in e.ouvertes && j in e.fiches
      ensures MotifDe(cs, e.fiches[j].site) == None <==> forall c :: c in cs ==> e.fiches[j].site != Some(c.sessionId)
    {
      MotifDit(cs, e.fiches[j].site);
    }
  }

  /** What the revocations take. */
  ghost predicate Revoquees(e: Etat, f: Etat) {
    && f.ouvertes <= e.ouvertes
    && (forall j :: j in e.ouvertes && j in e.fiches ==>
          && (j in f.ouvertes <==> e.fiches[j].did !in f.revDid && e.fiches[j].jti !in f.revJti)
          && (j !in f.ouvertes ==>
                j in f.coupees && f.coupees[j] == (Rejet(401, SessionCoupee, Some(Motif.Revoquee), None), e.heure)))
    && forall k :: k in e.coupees && (k !in e.ouvertes || k in f.ouvertes) ==>
         k in f.coupees && f.coupees[k] == e.coupees[k]
  }

  lemma RevoquerEffet(e: Etat, jti: set<Id>, did: set<Id>, t: int)
    ensures var f := Revoquer(e, jti, did, t);
      && Note(e.revJti, f.revJti, jti, t) && Note(e.revDid, f.revDid, did, t) && Revoquees(e, f)
      && f.heure == e.heure && f.fiches == e.fiches && f.herite == e.herite && f.vol == e.vol
      && f.defis == e.defis && f.connus == e.connus && f.injoignable == e.injoignable
  {
    var e1 := e.(revJti := e.revJti + Constante(jti, t), revDid := e.revDid + Constante(did, t));
    var js := set j | j in e1.ouvertes && j in e1.fiches && Revoque(e1, e1.fiches[j].did, e1.fiches[j].jti);
    hide Couper, Parties, Revoquees, Note, Constante;
    CouperEffet(e1, js, Rejet(401, SessionCoupee, Some(Motif.Revoquee), None));
    NoteConstante(e.revJti, jti, t);
    NoteConstante(e.revDid, did, t);
    RevoquerTable(e, e1, Couper(e1, js, Rejet(401, SessionCoupee, Some(Motif.Revoquee), None)), js);
  }

  lemma NoteConstante(m: map<Id, int>, ids: set<Id>, t: int)
    ensures Note(m, m + Constante(ids, t), ids, t)
  {
  }

  lemma RevoquerTable(e: Etat, e1: Etat, f: Etat, js: set<Id>)
    requires e1.ouvertes == e.ouvertes && e1.coupees == e.coupees && e1.fiches == e.fiches && e1.heure == e.heure
    requires f.revDid == e1.revDid && f.revJti == e1.revJti
    requires forall j :: j in js <==>
                         && j in e.ouvertes && j in e.fiches
                         && (e.fiches[j].did in e1.revDid || e.fiches[j].jti in e1.revJti)
    requires Parties(e1, f, e1.ouvertes, js, Rejet(401, SessionCoupee, Some(Motif.Revoquee), None))
    ensures Revoquees(e, f)
  {
  }

  /** A heartbeat that was not answered: the counters it carried come back, and the
      table is as it was. */
  lemma SansReponseExacte(e: Etat, relecture: Option<bool>)
    requires e.vol.Some?
    ensures var f, v := BattreRepondre(e, None, relecture), e.vol.value;
      && f.vol.None? && f.injoignable && f.fiches.Keys == e.fiches.Keys
      && (forall j :: j in e.fiches ==>
            f.fiches[j] == e.fiches[j].(octets := e.fiches[j].octets + if j in v.releves then v.releves[j] else 0))
      && f.herite.Keys == e.herite.Keys + v.herites.Keys
      && (forall s :: s in f.herite ==>
            f.herite[s] == (if s in e.herite then e.herite[s] else 0) + if s in v.herites then v.herites[s] else 0)
      && f.heure == e.heure && f.ouvertes == e.ouvertes && f.coupees == e.coupees && f.revJti == e.revJti
      && f.revDid == e.revDid && f.defis == e.defis && f.connus == e.connus
  {
  }
}
