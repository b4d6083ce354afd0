/** The traffic ledger as the relay runs it: counters updated in place, one
    object per server shared by its handles, listening sessions that count
    themselves out when they fall (tune-bridge/src/trafic.rs). Every method is
    proved to do to `Vue()` what TraficSpec says. */
module Trafic {
  import opened Commun
  import S = TraficSpec

  class CompteursServeur {
    ghost const oid: S.Oid
    ghost const sid: S.Sid
    var entree: S.Quatre
    var sortie: S.Quatre
    var sessions: nat
    var ecoute: nat
    var reprises: nat
    var coupures: seq<S.Coupure>
    /** References besides the map's own. */
    var forts: nat

    constructor (ghost oid: S.Oid, ghost sid: S.Sid)
      ensures this.oid == oid && forts == 1 && Vue() == S.Compteurs(sid, S.ZERO, S.ZERO, 0, 0, 0, [])
    {
      this.oid, this.sid := oid, sid;
      entree, sortie := S.ZERO, S.ZERO;
      sessions, ecoute, reprises, coupures, forts := 0, 0, 0, [], 1;
    }

    ghost function Vue(): S.Compteurs
      reads this`entree, this`sortie, this`sessions, this`ecoute, this`reprises, this`coupures
    {
      S.Compteurs(sid, entree, sortie, sessions, ecoute, reprises, coupures)
    }

    method NoterCoupure(c: S.Coupure)
      modifies this`coupures
      ensures coupures == S.Noter(old(coupures), c)
    {
      if |coupures| >= S.COUPURES_GARDEES { coupures := coupures[1..]; }
      coupures := coupures + [c];
    }

    /** `retain`: only the recent cuts stay. */
    method GarderRecentes(heure: int)
      modifies this`coupures
      ensures coupures == S.Recentes(old(coupures), heure)
    {
      var gardees: seq<S.Coupure>, k := [], 0;
      while k < |coupures|
        invariant 0 <= k <= |coupures| && coupures == old(coupures)
        invariant gardees == S.Recentes(coupures[..k], heure)
      {
        assert coupures[..k + 1][..k] == coupures[..k];
        if heure - coupures[k].t < S.FENETRE_DE_REPRISE { gardees := gardees + [coupures[k]]; }
        k := k + 1;
      }
      assert coupures[..k] == coupures;
      coupures := gardees;
    }

    /** `position`: the first cut of the stream. */
    method Reperer(cle: S.Cle) returns (i: nat)
      ensures i == S.Place(coupures, cle)
    {
      i := 0;
      while i < |coupures| && coupures[i].cle != cle
        invariant 0 <= i <= |coupures|
        invariant forall j :: 0 <= j < i ==> coupures[j].cle != cle
      {
        i := i + 1;
      }
      hide S.Place;
    }

    /** Keeps the recent cuts, then takes out the first of this stream. */
    method PrendreCoupure(cle: S.Cle, heure: int) returns (prise: Option<S.Coupure>)
      modifies this`coupures
      ensures var cs := S.Recentes(old(coupures), heure);
        var i := S.Place(cs, cle);
        if i == |cs| then prise == None && coupures == cs
        else prise == Some(cs[i]) && coupures == cs[..i] + cs[i + 1..]
    {
      hide S.Recentes, S.Place;
      GarderRecentes(heure);
      var i := Reperer(cle);
      if i == |coupures| { return None; }
      prise := Some(coupures[i]);
      coupures := coupures[..i] + coupures[i + 1..];
    }

    method Chercher(cle: S.Cle, heure: int) returns (prise: Option<S.Coupure>)
      modifies this`coupures, this`reprises
      ensures (prise, Vue()) == Cherchee(old(Vue()), cle, heure)
    {
      hide S.Recentes, S.Place;
      prise := PrendreCoupure(cle, heure);
      if prise.Some? { reprises := reprises + 1; }
    }

    /** Reads and resets every counter. */
    method Relever() returns (ligne: S.Ligne, actif: bool)
      modifies this`entree, this`sortie, this`sessions, this`ecoute, this`reprises
      ensures Vue() == S.Vide(old(Vue()))
      ensures ligne == S.LigneDe(old(Vue())) && actif == S.Actif(old(Vue()))
    {
      var e, s := entree.Total(), sortie.Total();
      actif := e + s + sessions + ecoute + reprises > 0;
      ligne := S.Ligne(e, s, sortie.audio + sortie.cercle, sessions, ecoute, reprises);
      entree, sortie, sessions, ecoute, reprises := S.ZERO, S.ZERO, 0, 0, 0;
    }
  }

  class Session {
    const id: S.Sess
    const serveur: CompteursServeur
    const categorie: S.Categorie
    const cle: S.Cle
    const ouverteA: int
    var finAtteinte: bool
    var finPropre: bool

    constructor (id: S.Sess, serveur: CompteursServeur, categorie: S.Categorie, cle: S.Cle, ouverteA: int)
      ensures this.id == id && this.serveur == serveur
      ensures Fiche() == S.Fiche(serveur.oid, categorie, cle, ouverteA, false, false)
    {
      this.id, this.serveur, this.categorie, this.cle, this.ouverteA := id, serveur, categorie, cle, ouverteA;
      finAtteinte, finPropre := false, false;
    }

    ghost function Fiche(): S.Fiche
      reads this
    {
      S.Fiche(serveur.oid, categorie, cle, ouverteA, finAtteinte, finPropre)
    }

    /** How the session ended. */
    method Fin() returns (fin: S.Fin)
      ensures fin == S.FinDe(Fiche())
    {
      if !finAtteinte { return S.InterrompueParLeClient; }
      if finPropre { return S.Complete; }
      return S.CoupeeCoteServeur;
    }
  }

  ghost function CompteursDe(objets: map<S.Oid, CompteursServeur>): map<S.Oid, S.Compteurs>
    reads objets.Values`entree, objets.Values`sortie, objets.Values`sessions, objets.Values`ecoute,
      objets.Values`reprises, objets.Values`coupures
  {
    map o | o in objets :: objets[o].Vue()
  }

  ghost function FichesDe(ouvertes: map<S.Sess, Session>): map<S.Sess, S.Fiche>
    reads ouvertes.Values
  {
    map s | s in ouvertes :: ouvertes[s].Fiche()
  }

  ghost function Cles(serveurs: map<S.Sid, CompteursServeur>): map<S.Sid, S.Oid> {
    map s | s in serveurs :: serveurs[s].oid
  }

  ghost function Sur(ouvertes: map<S.Sess, Session>, o: S.Oid): set<S.Sess> {
    set s | s in ouvertes && ouvertes[s].serveur.oid == o
  }

  ghost function Poignees(tenus: map<S.Oid, nat>, ouvertes: map<S.Sess, Session>, o: S.Oid): nat {
    (if o in tenus then tenus[o] else 0) + |Sur(ouvertes, o)|
  }

  /** The count of references tells whether anyone holds the object. */
  lemma FortsTenu(tenus: map<S.Oid, nat>, ouvertes: map<S.Sess, Session>, o: S.Oid)
    ensures Poignees(tenus, ouvertes, o) > 0 <==> S.Tenu(tenus, FichesDe(ouvertes), o)
  {
    forall s ensures s in Sur(ouvertes, o) <==> s in FichesDe(ouvertes) && FichesDe(ouvertes)[s].oid == o {
    }
    if s :| s in Sur(ouvertes, o) {
      assert |Sur(ouvertes, o)| > 0;
    }
  }

  lemma PoigneesPlus(tenus: map<S.Oid, nat>, ouvertes: map<S.Sess, Session>, o: S.Oid)
    ensures var n := if o in tenus then tenus[o] else 0;
      forall p :: Poignees(tenus[o := n + 1], ouvertes, p) == Poignees(tenus, ouvertes, p) + if p == o then 1 else 0
  {
    hide Sur;
  }

  lemma SurPlus(ouvertes: map<S.Sess, Session>, id: S.Sess, s: Session)
    requires id !in ouvertes
    ensures forall o :: |Sur(ouvertes[id := s], o)| == |Sur(ouvertes, o)| + if o == s.serveur.oid then 1 else 0
  {
    forall o ensures |Sur(ouvertes[id := s], o)| == |Sur(ouvertes, o)| + if o == s.serveur.oid then 1 else 0 {
      assert Sur(ouvertes[id := s], o) == Sur(ouvertes, o) + if o == s.serveur.oid then {id} else {};
    }
  }

  lemma SurMoins(ouvertes: map<S.Sess, Session>, id: S.Sess)
    requires id in ouvertes
    ensures forall o :: |Sur(ouvertes - {id}, o)| == |Sur(ouvertes, o)| - if o == ouvertes[id].serveur.oid then 1 else 0
  {
    forall o ensures |Sur(ouvertes - {id}, o)| == |Sur(ouvertes, o)| - if o == ouvertes[id].serveur.oid then 1 else 0 {
      assert Sur(ouvertes - {id}, o) == Sur(ouvertes, o) - if o == ouvertes[id].serveur.oid then {id} else {};
    }
  }

  lemma CompteursPlus(objets: map<S.Oid, CompteursServeur>, o: S.Oid, c: CompteursServeur)
    ensures CompteursDe(objets[o := c]) == CompteursDe(objets)[o := c.Vue()]
  {
  }

  lemma ClesPlus(serveurs: map<S.Sid, CompteursServeur>, sid: S.Sid, c: CompteursServeur)
    ensures Cles(serveurs[sid := c]) == Cles(serveurs)[sid := c.oid]
  {
  }

  /** Only `c` has changed since the counters were `avant`. */
  lemma CompteurSeul(avant: map<S.Oid, S.Compteurs>, objets: map<S.Oid, CompteursServeur>, c: CompteursServeur)
    requires c.oid in objets && objets[c.oid] == c && avant.Keys == objets.Keys
    requires forall o :: o in objets && o != c.oid ==> objets[o].Vue() == avant[o]
    ensures CompteursDe(objets) == avant[c.oid := c.Vue()]
  {
  }

  lemma FicheSeule(avant: map<S.Sess, S.Fiche>, ouvertes: map<S.Sess, Session>, s: Session)
    requires s.id in ouvertes && ouvertes[s.id] == s && avant.Keys == ouvertes.Keys
    requires forall o :: o in ouvertes && o != s.id ==> ouvertes[o].Fiche() == avant[o]
    ensures FichesDe(ouvertes) == avant[s.id := s.Fiche()]
  {
  }

  ghost predicate Connue(objets: map<S.Oid, CompteursServeur>, c: CompteursServeur) {
    c.oid in objets && objets[c.oid] == c
  }

  ghost predicate Bien(objets: map<S.Oid, CompteursServeur>, serveurs: map<S.Sid, CompteursServeur>,
                       tenus: map<S.Oid, nat>, ouvertes: map<S.Sess, Session>)
    reads objets.Values`forts
  {
    && (forall o :: o in objets ==> objets[o].oid == o)
    && (forall s :: s in serveurs ==> Connue(objets, serveurs[s]) && serveurs[s].sid == s)
    && (forall s :: s in ouvertes ==> ouvertes[s].id == s && Connue(objets, ouvertes[s].serveur))
    && (forall o :: o in objets ==> objets[o].forts == Poignees(tenus, ouvertes, o))
  }

  lemma BienPlus(objets: map<S.Oid, CompteursServeur>, serveurs: map<S.Sid, CompteursServeur>,
                 tenus: map<S.Oid, nat>, ouvertes: map<S.Sess, Session>, sid: S.Sid, c: CompteursServeur)
    requires Bien(objets, serveurs, tenus, ouvertes)
    requires c.oid !in objets && Sur(ouvertes, c.oid) == {} && c.forts == 1 && c.sid == sid
    ensures Bien(objets[c.oid := c], serveurs[sid := c], tenus[c.oid := 1], ouvertes)
  {
    hide Sur;
    var objets', tenus' := objets[c.oid := c], tenus[c.oid := 1];
    forall o | o in objets' ensures objets'[o].forts == Poignees(tenus', ouvertes, o) {
    }
    hide Poignees;
  }

  lemma FichesPlus(ouvertes: map<S.Sess, Session>, s: Session)
    ensures FichesDe(ouvertes[s.id := s]) == FichesDe(ouvertes)[s.id := s.Fiche()]
  {
  }

  lemma BienOuvrir(objets: map<S.Oid, CompteursServeur>, serveurs: map<S.Sid, CompteursServeur>,
                   tenus: map<S.Oid, nat>, ouvertes: map<S.Sess, Session>, s: Session)
    requires Bien(objets, serveurs, tenus, ouvertes) && Connue(objets, s.serveur) && s.id !in ouvertes
    requires s.serveur.oid in tenus && tenus[s.serveur.oid] > 0
    ensures Bien(objets, serveurs, tenus[s.serveur.oid := tenus[s.serveur.oid] - 1], ouvertes[s.id := s])
  {
    SurPlus(ouvertes, s.id, s);
    hide Sur;
  }

  /** What leaving asks of the counts of references. */
  lemma BienQuitter(objets: map<S.Oid, CompteursServeur>, serveurs: map<S.Sid, CompteursServeur>,
                    tenus: map<S.Oid, nat>, ouvertes: map<S.Sess, Session>, s: Session)
    requires Bien(objets, serveurs, tenus, ouvertes) && s.id in ouvertes && ouvertes[s.id] == s
    ensures s.serveur.forts > 0
    ensures forall o :: o in objets ==>
              Poignees(tenus, ouvertes - {s.id}, o) == objets[o].forts - if o == s.serveur.oid then 1 else 0
  {
    SurMoins(ouvertes, s.id);
    assert s.id in Sur(ouvertes, s.serveur.oid);
  }

  lemma FichesMoins(ouvertes: map<S.Sess, Session>, s: S.Sess)
    ensures FichesDe(ouvertes - {s}) == FichesDe(ouvertes) - {s}
  {
  }

  /** What an end does to the counters of the server. */
  function Finie(k: S.Compteurs, fin: S.Fin, cle: S.Cle, id: S.Sess, heure: int, ouverteA: int): S.Compteurs {
    k.(ecoute := k.ecoute + Max(0, heure - ouverteA),
       coupures := if fin == S.Complete then k.coupures else S.Noter(k.coupures, S.Coupure(cle, heure, id)))
  }

  lemma OuvrirForme(e: S.Etat, s: S.Sess, f: S.Fiche)
    requires f.oid in e.objets
    ensures var e1 := S.Lacher(e, f.oid);
      && e1.objets == e.objets && e1.vif == e.vif
      && S.OuvrirNeuve(e1, s, f) ==
           e1.(sessions := e.sessions[s := f], vif := e.vif.(ouvertes := e.vif.ouvertes + 1),
               objets := e.objets[f.oid := e.objets[f.oid].(sessions := e.objets[f.oid].sessions + 1)])
  {
  }

  /** What a search for a cut finds, and leaves. */
  function Cherchee(k: S.Compteurs, cle: S.Cle, heure: int): (Option<S.Coupure>, S.Compteurs) {
    var cs := S.Recentes(k.coupures, heure);
    var i := S.Place(cs, cle);
    if i == |cs| then (None, k.(coupures := cs))
    else (Some(cs[i]), k.(coupures := cs[..i] + cs[i + 1..], reprises := k.reprises + 1))
  }

  lemma ReprendreForme(e: S.Etat, s: S.Sess, o: S.Oid, cle: S.Cle)
    requires o in e.objets
    ensures var (prise, k) := Cherchee(e.objets[o], cle, e.heure);
      S.Reprendre(e, s, o, cle) ==
        match prise
        case None => e.(objets := e.objets[o := k])
        case Some(c) => e.(objets := e.objets[o := k], vif := e.vif.(reprises := e.vif.reprises + 1),
                           reprises := e.reprises[c.session := s])
  {
    hide S.Recentes, S.Place;
  }

  lemma TomberForme(e: S.Etat, s: S.Sess)
    requires s in e.sessions && e.sessions[s].oid in e.objets
    ensures var f, k := e.sessions[s], e.objets[e.sessions[s].oid];
      var fin := S.FinDe(f);
      S.Tomber(e, s) == e.(vif := S.Compter(e.vif, fin), finies := e.finies[s := S.Issue(f, e.heure, fin)])
                         .(objets := e.objets[f.oid := Finie(k, fin, f.cle, s, e.heure, f.ouverteA)])
                         .(sessions := e.sessions - {s})
  {
    hide S.Noter, S.Compter, S.FinDe;
  }

  // ------------------------------------------------------------- roll-over

  /** The counters of each server before the roll-over. */
  ghost function Avant(serveurs: map<S.Sid, CompteursServeur>): map<S.Sid, S.Compteurs>
    reads serveurs.Values`entree, serveurs.Values`sortie, serveurs.Values`sessions, serveurs.Values`ecoute,
      serveurs.Values`reprises, serveurs.Values`coupures
  {
    map s | s in serveurs :: serveurs[s].Vue()
  }

  ghost function LignesFaites(avant: map<S.Sid, S.Compteurs>, reste: set<S.Sid>): map<S.Sid, S.Ligne> {
    map s | s in avant && s !in reste && S.Actif(avant[s]) :: S.LigneDe(avant[s])
  }

  ghost function Gardes(serveurs: map<S.Sid, CompteursServeur>, avant: map<S.Sid, S.Compteurs>, reste: set<S.Sid>)
    : map<S.Sid, CompteursServeur>
    reads serveurs.Values`forts
  {
    map s | s in serveurs && s in avant && (s in reste || S.Actif(avant[s]) || serveurs[s].forts > 0) :: serveurs[s]
  }

  /** One more server read. */
  lemma LigneFaite(avant: map<S.Sid, S.Compteurs>, reste: set<S.Sid>, s: S.Sid)
    requires s in avant && s in reste
    ensures LignesFaites(avant, reste - {s}) ==
              if S.Actif(avant[s]) then LignesFaites(avant, reste)[s := S.LigneDe(avant[s])]
              else LignesFaites(avant, reste)
  {
    hide S.Actif, S.LigneDe;
  }

  lemma GardeDe(serveurs: map<S.Sid, CompteursServeur>, avant: map<S.Sid, S.Compteurs>, reste: set<S.Sid>, s: S.Sid)
    requires s in avant && s in reste && s in serveurs
    ensures Gardes(serveurs, avant, reste - {s}) ==
              if S.Actif(avant[s]) || serveurs[s].forts > 0 then Gardes(serveurs, avant, reste)
              else Gardes(serveurs, avant, reste) - {s}
  {
    hide S.Actif;
  }

  lemma Depart(serveurs: map<S.Sid, CompteursServeur>, avant: map<S.Sid, S.Compteurs>)
    requires avant.Keys == serveurs.Keys
    ensures LignesFaites(avant, serveurs.Keys) == map[]
    ensures Gardes(serveurs, avant, serveurs.Keys) == serveurs
  {
  }

  /** Every server read, the counters are those the specification resets. */
  lemma ToutRemis(e: map<S.Oid, S.Compteurs>, objets: map<S.Oid, CompteursServeur>,
                  serveurs: map<S.Sid, CompteursServeur>, avant: map<S.Sid, S.Compteurs>)
    requires e.Keys == objets.Keys && avant.Keys == serveurs.Keys
    requires forall s :: s in serveurs ==> Connue(objets, serveurs[s]) && avant[s] == e[serveurs[s].oid]
    requires forall s :: s in serveurs ==> serveurs[s].Vue() == S.Vide(avant[s])
    requires forall o :: o in objets && objets[o] !in serveurs.Values ==> objets[o].Vue() == e[o]
    requires forall o :: o in objets ==> objets[o].oid == o
    ensures CompteursDe(objets) == S.Remis(e, Cles(serveurs))
    ensures LignesFaites(avant, {}) == S.Lignes(e, Cles(serveurs))
  {
    hide S.Vide, S.Actif, S.LigneDe;
    forall o | o in objets ensures objets[o].Vue() == S.Remis(e, Cles(serveurs))[o] {
      assert objets[o] in serveurs.Values ==> o in Cles(serveurs).Values by {
        if objets[o] in serveurs.Values {
          var s :| s in serveurs && serveurs[s] == objets[o];
          assert Cles(serveurs)[s] == o;
        }
      }
      if o in Cles(serveurs).Values {
        var s :| s in Cles(serveurs) && Cles(serveurs)[s] == o;
        assert serveurs[s] == objets[o];
      }
    }
  }

  /** The servers kept are those the specification keeps. */
  lemma ToutGarde(e: S.Etat, objets: map<S.Oid, CompteursServeur>, serveurs: map<S.Sid, CompteursServeur>,
                  tenus: map<S.Oid, nat>, ouvertes: map<S.Sess, Session>, avant: map<S.Sid, S.Compteurs>)
    requires e.objets.Keys == objets.Keys && avant.Keys == serveurs.Keys
    requires e.serveurs == Cles(serveurs) && e.tenus == tenus && e.sessions == FichesDe(ouvertes)
    requires Bien(objets, serveurs, tenus, ouvertes)
    requires forall s :: s in serveurs ==> serveurs[s].oid in e.objets && avant[s] == e.objets[serveurs[s].oid]
    ensures Cles(Gardes(serveurs, avant, {})) == S.Restants(e)
    ensures Gardes(serveurs, avant, {}).Keys <= serveurs.Keys
    ensures Bien(objets, Gardes(serveurs, avant, {}), tenus, ouvertes)
  {
    hide S.Actif, S.Tenu, Poignees, FichesDe;
    forall s | s in serveurs
      ensures serveurs[s].forts > 0 <==> S.Tenu(tenus, FichesDe(ouvertes), serveurs[s].oid)
    {
      FortsTenu(tenus, ouvertes, serveurs[s].oid);
    }
  }

  class Trafic {
    var heure: int
    var vif: S.Globaux
    var serveurs: map<S.Sid, CompteursServeur>
    var minutes: seq<S.Minute>
    ghost var objets: map<S.Oid, CompteursServeur>
    ghost var tenus: map<S.Oid, nat>
    ghost var ouvertes: map<S.Sess, Session>
    ghost var mouvements: seq<S.Mouvement>
    ghost var closes: seq<S.Minute>
    ghost var acceptees: seq<S.Minute>
    ghost var perdues: seq<S.Minute>
    ghost var finies: map<S.Sess, S.Issue>
    ghost var reprises: map<S.Sess, S.Sess>

    ghost predicate Valide()
      reads this`objets, this`serveurs, this`ouvertes, this`tenus, objets.Values`forts
    {
      Bien(objets, serveurs, tenus, ouvertes)
    }

    ghost predicate Connu(c: CompteursServeur)
      reads this`objets
    {
      Connue(objets, c)
    }

    ghost function Vue(): S.Etat
      reads this, objets.Values`entree, objets.Values`sortie, objets.Values`sessions, objets.Values`ecoute,
        objets.Values`reprises, objets.Values`coupures, ouvertes.Values
    {
      S.Etat(heure, vif, CompteursDe(objets), Cles(serveurs), tenus, FichesDe(ouvertes), minutes, mouvements, closes,
             acceptees, perdues, finies, reprises)
    }

    constructor (heure: int)
      ensures Valide() && Vue() == S.Initial(heure)
    {
      this.heure := heure;
      vif, serveurs, minutes := S.RIEN, map[], [];
      objets, tenus, ouvertes, mouvements := map[], map[], map[], [];
      closes, acceptees, perdues, finies, reprises := [], [], [], map[], map[];
    }

    method Serveur(sid: S.Sid, ghost neuf: S.Oid) returns (c: CompteursServeur)
      requires Valide() && neuf !in objets && neuf !in tenus && Sur(ouvertes, neuf) == {}
      modifies this`objets, this`serveurs, this`tenus, serveurs.Values`forts
      ensures Valide() && Connu(c) && c.sid == sid
      ensures Vue() == S.Serveur(old(Vue()), sid, neuf)
    {
      if sid in serveurs {
        c := serveurs[sid];
        Cloner(c);
        return;
      }
      c := Creer(sid, neuf);
    }

    method Creer(sid: S.Sid, ghost neuf: S.Oid) returns (c: CompteursServeur)
      requires Valide() && neuf !in objets && neuf !in tenus && Sur(ouvertes, neuf) == {} && sid !in serveurs
      modifies this`objets, this`serveurs, this`tenus
      ensures Valide() && Connu(c) && c.sid == sid
      ensures Vue() == S.Creer(old(Vue()), sid, neuf)
    {
      c := new CompteursServeur(neuf, sid);
      hide CompteursDe, FichesDe, Cles, Sur;
      Inscrire(sid, c);
    }

    method Inscrire(sid: S.Sid, c: CompteursServeur)
      requires Valide() && c.oid !in objets && Sur(ouvertes, c.oid) == {} && c.forts == 1 && c.sid == sid
      modifies this`objets, this`serveurs, this`tenus
      ensures Valide() && Connu(c)
      ensures Vue() == old(Vue()).(objets := old(Vue()).objets[c.oid := c.Vue()],
                                   serveurs := old(Vue()).serveurs[sid := c.oid],
                                   tenus := old(tenus)[c.oid := 1])
    {
      hide CompteursDe, FichesDe, Cles, Sur, Bien;
      CompteursPlus(objets, c.oid, c);
      ClesPlus(serveurs, sid, c);
      BienPlus(objets, serveurs, tenus, ouvertes, sid, c);
      objets, serveurs, tenus := objets[c.oid := c], serveurs[sid := c], tenus[c.oid := 1];
    }

    /** A handle falls. */
    method Lacher(c: CompteursServeur)
      requires Valide() && Connu(c) && c.oid in tenus && tenus[c.oid] > 0
      modifies this`tenus, c`forts
      ensures Valide() && Vue() == S.Lacher(old(Vue()), c.oid)
    {
      hide Sur, CompteursDe, FichesDe, Cles;
      c.forts := c.forts - 1;
      tenus := tenus[c.oid := tenus[c.oid] - 1];
    }

    method Cloner(c: CompteursServeur)
      requires Valide() && Connu(c)
      modifies this`tenus, c`forts
      ensures Valide() && Vue() == S.Prendre(old(Vue()), c.oid)
    {
      hide Poignees, CompteursDe, FichesDe, Cles;
      PoigneesPlus(tenus, ouvertes, c.oid);
      c.forts := c.forts + 1;
      tenus := tenus[c.oid := (if c.oid in tenus then tenus[c.oid] else 0) + 1];
    }

    /** The global half of a count. */
    method Globalement(v: S.Globaux, ghost m: S.Mouvement)
      modifies this`vif, this`mouvements
      ensures Vue() == old(Vue()).(vif := v, mouvements := old(mouvements) + [m])
    {
      hide CompteursDe, FichesDe, Cles;
      vif := v;
      mouvements := mouvements + [m];
    }

    method EntreeDuServeur(c: CompteursServeur, cat: S.Categorie, n: nat)
      requires Valide() && Connu(c)
      modifies c`entree
      ensures Valide() && c.oid in old(Vue()).objets
      ensures var e, k := old(Vue()), old(Vue()).objets[c.oid];
        Vue() == e.(objets := e.objets[c.oid := k.(entree := old(c.entree).Plus(cat, n))])
      ensures old(Vue()).objets[c.oid].entree == old(c.entree)
    {
      c.entree := c.entree.Plus(cat, n);
      CompteurSeul(old(CompteursDe(objets)), objets, c);
      hide FichesDe, Cles;
    }

    method Entree(c: CompteursServeur, cat: S.Categorie, n: nat)
      requires Valide() && Connu(c)
      modifies this`vif, this`mouvements, c`entree
      ensures Valide() && c.oid in old(Vue()).objets
      ensures Vue() == S.Entrer(old(Vue()), c.oid, cat, n)
    {
      hide Valide, S.Quatre.Plus, CompteursDe, FichesDe, Cles;
      Globalement(vif.(entree := vif.entree.Plus(cat, n)), S.Mouvement(true, cat, c.oid, n));
      EntreeDuServeur(c, cat, n);
    }

    method SortieDuServeur(c: CompteursServeur, cat: S.Categorie, n: nat)
      requires Valide() && Connu(c)
      modifies c`sortie
      ensures Valide() && c.oid in old(Vue()).objets
      ensures var e, k := old(Vue()), old(Vue()).objets[c.oid];
        Vue() == e.(objets := e.objets[c.oid := k.(sortie := old(c.sortie).Plus(cat, n))])
      ensures old(Vue()).objets[c.oid].sortie == old(c.sortie)
    {
      c.sortie := c.sortie.Plus(cat, n);
      CompteurSeul(old(CompteursDe(objets)), objets, c);
      hide FichesDe, Cles;
    }

    method Sortie(c: CompteursServeur, cat: S.Categorie, n: nat)
      requires Valide() && Connu(c)
      modifies this`vif, this`mouvements, c`sortie
      ensures Valide() && c.oid in old(Vue()).objets
      ensures Vue() == S.Sortir(old(Vue()), c.oid, cat, n)
    {
      hide Valide, S.Quatre.Plus, CompteursDe, FichesDe, Cles;
      Globalement(vif.(sortie := vif.sortie.Plus(cat, n)), S.Mouvement(false, cat, c.oid, n));
      SortieDuServeur(c, cat, n);
    }

    // ----------------------------------------------------------- sessions

    /** The session takes over one handle of its server. */
    method Accueillir(session: Session)
      requires Valide() && Connu(session.serveur) && session.id !in ouvertes
      requires session.serveur.oid in tenus && tenus[session.serveur.oid] > 0
      modifies this`tenus, this`ouvertes
      ensures Valide() && ouvertes == old(ouvertes)[session.id := session]
      ensures Vue() == S.Lacher(old(Vue()), session.serveur.oid)
                         .(sessions := old(Vue()).sessions[session.id := session.Fiche()])
    {
      hide Bien, CompteursDe, FichesDe, Cles;
      BienOuvrir(objets, serveurs, tenus, ouvertes, session);
      FichesPlus(ouvertes, session);
      tenus := tenus[session.serveur.oid := tenus[session.serveur.oid] - 1];
      ouvertes := ouvertes[session.id := session];
    }

    method OuvertureDuServeur(c: CompteursServeur)
      requires Valide() && Connu(c)
      modifies c`sessions
      ensures Valide() && c.oid in old(Vue()).objets
      ensures var e, k := old(Vue()), old(Vue()).objets[c.oid];
        Vue() == e.(objets := e.objets[c.oid := k.(sessions := k.sessions + 1)])
    {
      hide FichesDe, Cles, Bien;
      Dedans(c);
      c.sessions := c.sessions + 1;
      CompteurSeul(old(CompteursDe(objets)), objets, c);
    }

    /** A session counted, for its server and in all. */
    method CompterOuverture(c: CompteursServeur)
      requires Valide() && Connu(c)
      modifies this`vif, c`sessions
      ensures Valide() && c.oid in old(Vue()).objets
      ensures var e, k := old(Vue()), old(Vue()).objets[c.oid];
        Vue() == e.(vif := e.vif.(ouvertes := e.vif.ouvertes + 1),
                    objets := e.objets[c.oid := k.(sessions := k.sessions + 1)])
    {
      hide CompteursDe, FichesDe, Cles, Bien;
      OuvertureDuServeur(c);
      vif := vif.(ouvertes := vif.ouvertes + 1);
    }

    lemma Dedans(c: CompteursServeur)
      requires Valide() && Connu(c)
      ensures c.oid in Vue().objets && Vue().objets[c.oid] == c.Vue()
      ensures forall o :: o in objets && o != c.oid ==> objets[o] != c
      ensures c.oid in objets && objets[c.oid] == c
    {
      hide Poignees, Cles, FichesDe;
    }

    method Reprendre(ghost id: S.Sess, c: CompteursServeur, cle: S.Cle)
      requires Valide() && Connu(c)
      modifies this`vif, this`reprises, c`coupures, c`reprises
      ensures Valide() && c.oid in old(Vue()).objets
      ensures Vue() == S.Reprendre(old(Vue()), id, c.oid, cle)
    {
      hide Cherchee, S.Reprendre, FichesDe, Cles, Bien, CompteursDe;
      Dedans(c);
      ReprendreForme(Vue(), id, c.oid, cle);
      var prise := ChercherCoupure(c, cle);
      if prise.Some? {
        vif := vif.(reprises := vif.reprises + 1);
        reprises := reprises[prise.value.session := id];
      }
    }

    method ChercherCoupure(c: CompteursServeur, cle: S.Cle) returns (prise: Option<S.Coupure>)
      requires Valide() && Connu(c)
      modifies c`coupures, c`reprises
      ensures Valide() && c.oid in old(Vue()).objets
      ensures prise == Cherchee(old(Vue()).objets[c.oid], cle, heure).0
      ensures var e := old(Vue());
        Vue() == e.(objets := e.objets[c.oid := Cherchee(e.objets[c.oid], cle, heure).1])
    {
      hide Cherchee, FichesDe, Cles, Bien;
      Dedans(c);
      prise := c.Chercher(cle, heure);
      CompteurSeul(old(CompteursDe(objets)), objets, c);
    }

    /** A session that begins: it takes over its handle and is counted. */
    method Inaugurer(session: Session)
      requires Valide() && Connu(session.serveur) && session.id !in ouvertes
      requires session.serveur.oid in tenus && tenus[session.serveur.oid] > 0
      modifies this`vif, this`tenus, this`ouvertes, session.serveur`sessions
      ensures Valide() && ouvertes == old(ouvertes)[session.id := session]
      ensures session.serveur.oid in S.Lacher(old(Vue()), session.serveur.oid).objets
      ensures Vue() == S.OuvrirNeuve(S.Lacher(old(Vue()), session.serveur.oid), session.id, session.Fiche())
    {
      hide Bien, CompteursDe, FichesDe, Cles, S.Lacher, S.OuvrirNeuve;
      Dedans(session.serveur);
      OuvrirForme(Vue(), session.id, session.Fiche());
      Accueillir(session);
      CompterOuverture(session.serveur);
    }

    method OuvrirSession(id: S.Sess, c: CompteursServeur, cat: S.Categorie, cle: S.Cle, horsDebut: bool)
      returns (session: Session)
      requires Valide() && Connu(c) && c.oid in tenus && tenus[c.oid] > 0 && id !in ouvertes
      modifies this`vif, this`tenus, this`ouvertes, this`reprises, c`sessions, c`coupures, c`reprises
      ensures Valide() && id in ouvertes && ouvertes[id] == session
      ensures c.oid in old(Vue()).objets && Vue() == S.OuvrirSession(old(Vue()), id, c.oid, cat, cle, horsDebut)
    {
      hide Bien, CompteursDe, FichesDe, Cles, S.Reprendre, S.OuvrirNeuve, S.Lacher;
      Dedans(c);
      session := new Session(id, c, cat, cle, heure);
      Inaugurer(session);
      if horsDebut { Reprendre(id, c, cle); }
    }

    method MorceauRendu(session: Session, n: nat)
      requires Valide() && session.id in ouvertes && ouvertes[session.id] == session
      modifies this`vif, this`mouvements, session.serveur`sortie
      ensures Valide() && session.serveur.oid in old(Vue()).objets
      ensures Vue() == S.Sortir(old(Vue()), session.serveur.oid, session.categorie, n)
    {
      hide Bien, CompteursDe, FichesDe, Cles, S.Sortir;
      Presente(session);
      Sortie(session.serveur, session.categorie, n);
    }

    lemma DansFiches(session: Session)
      requires Valide() && session.id in ouvertes && ouvertes[session.id] == session
      ensures FichesDe(ouvertes).Keys == ouvertes.Keys
      ensures forall s :: s in ouvertes ==> FichesDe(ouvertes)[s] == ouvertes[s].Fiche()
      ensures forall s :: s in ouvertes && s != session.id ==> ouvertes[s] != session
    {
      hide Poignees;
    }

    method FinDuFlux(session: Session)
      requires Valide() && session.id in ouvertes && ouvertes[session.id] == session
      modifies session`finAtteinte
      ensures Valide()
      ensures Vue() == old(Vue()).(
                sessions := old(Vue()).sessions[session.id := old(session.Fiche()).(finAtteinte := true)])
    {
      hide CompteursDe, FichesDe, Cles, Bien;
      DansFiches(session);
      session.finAtteinte := true;
      FicheSeule(old(FichesDe(ouvertes)), ouvertes, session);
    }

    method PoserFinPropre(session: Session)
      requires Valide() && session.id in ouvertes && ouvertes[session.id] == session
      modifies session`finPropre
      ensures Valide()
      ensures Vue() == old(Vue()).(
                sessions := old(Vue()).sessions[session.id := old(session.Fiche()).(finPropre := true)])
    {
      hide CompteursDe, FichesDe, Cles, Bien;
      DansFiches(session);
      session.finPropre := true;
      FicheSeule(old(FichesDe(ouvertes)), ouvertes, session);
    }

    /** `Drop`: the listening time, the class of the end, and the cut to resume. */
    method Tomber(session: Session)
      requires Valide() && session.id in ouvertes && ouvertes[session.id] == session
      modifies this`vif, this`ouvertes, this`finies, session.serveur`ecoute, session.serveur`coupures,
        session.serveur`forts
      ensures Valide()
      ensures session.id in old(Vue()).sessions && old(Vue()).sessions[session.id].oid in old(Vue()).objets
      ensures Vue() == S.Tomber(old(Vue()), session.id)
    {
      hide Bien, CompteursDe, FichesDe, Cles, Finie, S.Tomber, S.Compter, S.FinDe;
      Presente(session);
      TomberForme(Vue(), session.id);
      var fin := session.Fin();
      Conclure(session, fin);
      Quitter(session);
    }

    method Conclure(session: Session, fin: S.Fin)
      requires Valide() && Connu(session.serveur)
      modifies this`vif, this`finies, session.serveur`ecoute, session.serveur`coupures
      ensures Valide()
      ensures var c, k := session.serveur, old(session.serveur.Vue());
        Vue() == old(Vue()).(
          objets := old(Vue()).objets[c.oid := Finie(k, fin, session.cle, session.id, heure, session.ouverteA)],
          vif := S.Compter(old(vif), fin),
          finies := old(finies)[session.id := S.Issue(session.Fiche(), heure, fin)])
    {
      hide Bien, CompteursDe, FichesDe, Cles, Finie, S.Compter;
      NoterFin(session, fin);
      Cloturer(session, fin);
    }

    lemma Presente(session: Session)
      requires Valide() && session.id in ouvertes && ouvertes[session.id] == session
      ensures Connu(session.serveur)
      ensures session.id in Vue().sessions && Vue().sessions[session.id] == session.Fiche()
      ensures session.serveur.oid in Vue().objets && Vue().objets[session.serveur.oid] == session.serveur.Vue()
    {
      hide Poignees, Cles;
    }

    method Cloturer(session: Session, fin: S.Fin)
      modifies this`vif, this`finies
      ensures Vue() == old(Vue()).(vif := S.Compter(old(vif), fin),
                                   finies := old(finies)[session.id := S.Issue(session.Fiche(), heure, fin)])
    {
      hide CompteursDe, FichesDe, Cles, S.Compter;
      vif := S.Compter(vif, fin);
      finies := finies[session.id := S.Issue(session.Fiche(), heure, fin)];
    }

    method NoterFin(session: Session, fin: S.Fin)
      requires Valide() && Connu(session.serveur)
      modifies session.serveur`ecoute, session.serveur`coupures
      ensures Valide()
      ensures var c, k := session.serveur, old(session.serveur.Vue());
        Vue() == old(Vue()).(
          objets := old(Vue()).objets[c.oid := Finie(k, fin, session.cle, session.id, heure, session.ouverteA)])
    {
      hide FichesDe, Cles, Bien, Finie;
      var c := session.serveur;
      Dedans(c);
      Finir(c, fin, session.cle, session.id, session.ouverteA);
      CompteurSeul(old(CompteursDe(objets)), objets, c);
      hide CompteursDe;
    }

    method Finir(c: CompteursServeur, fin: S.Fin, cle: S.Cle, id: S.Sess, ouverteA: int)
      modifies c`ecoute, c`coupures
      ensures c.Vue() == Finie(old(c.Vue()), fin, cle, id, heure, ouverteA)
    {
      c.ecoute := c.ecoute + Max(0, heure - ouverteA);
      if fin != S.Complete { c.NoterCoupure(S.Coupure(cle, heure, id)); }
      hide S.Noter;
    }

    method Quitter(session: Session)
      requires Valide() && session.id in ouvertes && ouvertes[session.id] == session
      modifies this`ouvertes, session.serveur`forts
      ensures Valide()
      ensures Vue() == old(Vue()).(sessions := old(Vue()).sessions - {session.id})
    {
      hide CompteursDe, FichesDe, Cles, Poignees, Sur;
      BienQuitter(objets, serveurs, tenus, ouvertes, session);
      FichesMoins(ouvertes, session.id);
      session.serveur.forts := session.serveur.forts - 1;
      ouvertes := ouvertes - {session.id};
    }

    // ----------------------------------------------------------- minutes

    /** Reads every server in turn; one that is idle and held by nobody leaves the
        map. */
    method CloreServeurs() returns (servers: map<S.Sid, S.Ligne>)
      requires Valide()
      modifies this`serveurs, serveurs.Values`entree, serveurs.Values`sortie, serveurs.Values`sessions,
        serveurs.Values`ecoute, serveurs.Values`reprises
      ensures Valide()
      ensures servers == S.Lignes(old(Vue()).objets, old(Vue()).serveurs)
      ensures Vue() == old(Vue()).(objets := S.Remis(old(Vue()).objets, old(Vue()).serveurs),
                                   serveurs := S.Restants(old(Vue())))
    {
      hide Bien, S.Remis, S.Restants, S.Lignes, CompteursDe, FichesDe, Cles, LignesFaites, Gardes, Avant;
      var restants;
      servers, restants := ReleverTous(Avant(serveurs));
      serveurs := restants;
    }

    lemma Restes()
      requires Valide()
      ensures Cles(Gardes(serveurs, Avant(serveurs), {})) == S.Restants(Vue())
      ensures Bien(objets, Gardes(serveurs, Avant(serveurs), {}), tenus, ouvertes)
      ensures Gardes(serveurs, Avant(serveurs), {}).Keys <= serveurs.Keys
    {
      hide Bien, S.Restants, CompteursDe, FichesDe, Cles, Gardes, Avant;
      DansAvant();
      ToutGarde(Vue(), objets, serveurs, tenus, ouvertes, Avant(serveurs));
    }

    method ReleverTous(ghost avant: map<S.Sid, S.Compteurs>)
      returns (servers: map<S.Sid, S.Ligne>, restants: map<S.Sid, CompteursServeur>)
      requires Valide() && avant == Avant(serveurs)
      modifies serveurs.Values`entree, serveurs.Values`sortie, serveurs.Values`sessions,
        serveurs.Values`ecoute, serveurs.Values`reprises
      ensures Valide() && Cles(restants) == S.Restants(old(Vue())) && restants.Keys <= serveurs.Keys
      ensures Bien(objets, restants, tenus, ouvertes)
      ensures servers == S.Lignes(old(CompteursDe(objets)), Cles(serveurs))
      ensures CompteursDe(objets) == S.Remis(old(CompteursDe(objets)), Cles(serveurs))
    {
      hide Bien, S.Remis, S.Restants, S.Lignes, CompteursDe, FichesDe, Cles, LignesFaites, Gardes, Avant;
      ghost var e := CompteursDe(objets);
      DansAvant();
      Restes();
      servers, restants := ReleverServeurs(avant);
      ToutRemis(e, objets, serveurs, avant);
    }

    lemma DansAvant()
      requires Valide()
      ensures Vue().objets.Keys == objets.Keys && Avant(serveurs).Keys == serveurs.Keys
      ensures forall s :: s in serveurs ==> Connu(serveurs[s]) && Avant(serveurs)[s] == Vue().objets[serveurs[s].oid]
      ensures forall s :: s in serveurs ==> Avant(serveurs)[s] == serveurs[s].Vue()
      ensures forall o :: o in objets ==> objets[o].oid == o && objets[o].Vue() == Vue().objets[o]
      ensures forall s :: s in serveurs ==> serveurs[s].sid == s
    {
      hide Poignees, FichesDe, Cles;
    }

    /** The loop over the map. */
    method ReleverServeurs(ghost avant: map<S.Sid, S.Compteurs>)
      returns (servers: map<S.Sid, S.Ligne>, restants: map<S.Sid, CompteursServeur>)
      requires Valide() && avant.Keys == serveurs.Keys
      requires forall s :: s in serveurs ==> serveurs[s].Vue() == avant[s] && serveurs[s].sid == s
      modifies serveurs.Values`entree, serveurs.Values`sortie, serveurs.Values`sessions,
        serveurs.Values`ecoute, serveurs.Values`reprises
      ensures Valide()
      ensures forall s :: s in serveurs ==> serveurs[s].Vue() == S.Vide(avant[s])
      ensures servers == LignesFaites(avant, {})
      ensures restants == Gardes(serveurs, avant, {})
    {
      hide Bien, LignesFaites, Gardes, S.Vide, S.Actif, S.LigneDe;
      var reste := serveurs.Keys;
      servers, restants := map[], serveurs;
      Depart(serveurs, avant);
      while reste != {}
        invariant reste <= serveurs.Keys && Valide()
        invariant forall s :: s in serveurs ==> serveurs[s].Vue() == if s in reste then avant[s] else S.Vide(avant[s])
        invariant servers == LignesFaites(avant, reste)
        invariant restants == Gardes(serveurs, avant, reste)
      {
        var s :| s in reste;
        var c := serveurs[s];
        var ligne, actif := c.Relever();
        LigneFaite(avant, reste, s);
        GardeDe(serveurs, avant, reste, s);
        if actif { servers := servers[s := ligne]; }
        if !(actif || c.forts > 0) { restants := restants - {s}; }
        reste := reste - {s};
      }
    }

    /** `clore_minute`. */
    method CloreMinute(minute: int) returns (m: S.Minute)
      requires Valide()
      modifies this`vif, this`serveurs, this`minutes, this`closes, this`perdues, serveurs.Values`entree,
        serveurs.Values`sortie, serveurs.Values`sessions, serveurs.Values`ecoute, serveurs.Values`reprises
      ensures Valide() && Vue() == S.Clore(old(Vue()), minute)
      ensures m == S.Minute(minute, old(vif), S.Lignes(old(Vue()).objets, old(Vue()).serveurs))
    {
      hide Bien, CompteursDe, FichesDe, Cles, S.Lignes, S.Remis, S.Restants;
      var servers := CloreServeurs();
      m := S.Minute(minute, vif, servers);
      vif := S.RIEN;
      Ranger(m);
    }

    /** The oldest minutes leave a full queue. */
    method Ranger(m: S.Minute)
      modifies this`minutes, this`closes, this`perdues
      ensures var n := S.Debord(old(minutes));
        && minutes == old(minutes)[n..] + [m]
        && closes == old(closes) + [m] && perdues == old(perdues) + old(minutes)[..n]
    {
      ghost var k := 0;
      while |minutes| >= S.MINUTES_GARDEES
        invariant 0 <= k <= |old(minutes)| && minutes == old(minutes)[k..]
        invariant k <= S.Debord(old(minutes)) && closes == old(closes) && perdues == old(perdues)
        decreases |minutes|
      {
        minutes := minutes[1..];
        k := k + 1;
      }
      perdues := perdues + old(minutes)[..k];
      minutes := minutes + [m];
      closes := closes + [m];
    }

    // ----------------------------------------------------------- sending

    /** `acquitter`: keeps the minutes not named. */
    method Acquitter(ids: seq<int>)
      modifies this`minutes
      ensures minutes == S.Retenues(old(minutes), ids)
    {
      var gardees: seq<S.Minute>, k := [], 0;
      while k < |minutes|
        invariant 0 <= k <= |minutes| && minutes == old(minutes)
        invariant gardees == S.Retenues(minutes[..k], ids)
      {
        assert minutes[..k + 1][..k] == minutes[..k];
        if minutes[k].minute !in ids { gardees := gardees + [minutes[k]]; }
        k := k + 1;
      }
      assert minutes[..k] == minutes;
      minutes := gardees;
    }

    /** `pousser_au_site`, the site answering `rs` in turn. */
    method PousserAuSite(jeton: bool, rs: seq<S.Reponse>) returns (envoi: S.Envoi)
      modifies this`minutes, this`acceptees
      ensures (Vue(), envoi) == S.Pousser(old(Vue()), jeton, rs)
    {
      hide CompteursDe, FichesDe, Cles, S.Retenues, S.Ids;
      if !jeton { return S.Rien; }
      var acceptes: nat, tour: nat, tours: nat := 0, 0, S.Tours(|minutes|);
      ghost var reste := rs;
      while tour < tours
        invariant 0 <= tour <= tours
        invariant reste == if tour <= |rs| then rs[tour..] else []
        invariant S.Paquets(Vue(), tours - tour, reste, acceptes) == S.Paquets(old(Vue()), tours, rs, 0)
      {
        var paquet := S.Paquet(minutes);
        if paquet == [] { break; }
        var r := if tour < |rs| then rs[tour] else S.SansReponse;
        if !S.Succes(r) { return S.Echec(if r.Statut? then Some(r.code) else None); }
        Acquitter(S.Ids(paquet));
        acceptees := acceptees + paquet;
        acceptes := acceptes + |paquet|;
        tour := tour + 1;
        reste := reste[1..];
      }
      envoi := if acceptes == 0 then S.Rien else S.Accepte(acceptes);
    }
  }
}
