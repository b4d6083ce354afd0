/** The first half of a heartbeat, said exactly: what housekeeping forgets, which
    openings are presented again and what comes of them, what is reported. */
module SessionsRonde {
  import opened Commun
  import opened SessionsSpec
  import opened SessionsExactes

  // ----------------------------------------------------------- housekeeping

  /** Entries kept while they are at most so old. */
  ghost predicate Recents(m: map<Id, int>, m': map<Id, int>, heure: int, duree: int) {
    && (forall k :: k in m' <==> k in m && heure <= m[k] + duree)
    && forall k :: k in m' ==> m'[k] == m[k]
  }

  /** Sessions that no longer hold leave the table, expired; stale challenges,
      cuts of more than ten minutes, revocations of more than an hour and devices
      not seen for a week are forgotten. */
  ghost predicate Menagee(e: Etat, f: Etat) {
    && (forall j :: j in f.ouvertes <==> j in e.ouvertes && (j in e.fiches ==> Tient(e, e.fiches[j])))
    && (forall j :: j in e.ouvertes && j !in f.ouvertes ==>
          j in f.coupees && f.coupees[j] == (Rejet(401, SessionExpiree, None, None), e.heure))
    && (forall k :: k !in e.ouvertes || k in f.ouvertes ==>
          && (k in f.coupees <==> k in e.coupees && e.heure <= e.coupees[k].1 + 600)
          && (k in f.coupees ==> f.coupees[k] == e.coupees[k]))
    && f.defis == EncoreBons(e.defis, e.heure)
    && Recents(e.revJti, f.revJti, e.heure, 3600) && Recents(e.revDid, f.revDid, e.heure, 3600)
    && Recents(e.connus, f.connus, e.heure, 604_800)
    && f.heure == e.heure && f.fiches == e.fiches && f.herite == e.herite && f.vol == e.vol
    && f.injoignable == e.injoignable && f.journal == e.journal
  }

  lemma RecentsDe(m: map<Id, int>, heure: int, duree: int)
    ensures Recents(m, GarderRecents(m, heure, duree), heure, duree)
  {
  }

  lemma TientMeme(e: Etat, f: Fiche)
    ensures EncoreValable(e, f) <==> Tient(e, f)
  {
  }

  lemma MenageExact(e: Etat)
    ensures Menagee(e, Menage(e))
  {
    hide EncoreValable, Tient, Recents, GarderRecents, GarderDefis, EncoreBons, Couper, Parties, GarderCoupees, Menagee;
    GarderBons(e.defis, e.heure);
    RecentsDe(e.revJti, e.heure, 3600);
    RecentsDe(e.revDid, e.heure, 3600);
    RecentsDe(e.connus, e.heure, 604_800);
    var js := set j | j in e.ouvertes && j in e.fiches && !EncoreValable(e, e.fiches[j]);
    CouperEffet(e, js, Nouveau(401, SessionExpiree));
    CouperJournalMeme(e, js);
    MenageTable(e, Couper(e, js, Nouveau(401, SessionExpiree)), Menage(e), js);
  }

  lemma MenageTable(e: Etat, c: Etat, f: Etat, js: set<Id>)
    requires forall j :: j in js <==> j in e.ouvertes && j in e.fiches && !EncoreValable(e, e.fiches[j])
    requires Parties(e, c, e.ouvertes, js, Rejet(401, SessionExpiree, None, None))
    requires f.ouvertes == c.ouvertes && f.coupees == GarderCoupees(c.coupees, e.heure)
    requires f.defis == EncoreBons(e.defis, e.heure)
    requires Recents(e.revJti, f.revJti, e.heure, 3600) && Recents(e.revDid, f.revDid, e.heure, 3600)
    requires Recents(e.connus, f.connus, e.heure, 604_800)
    requires f.heure == e.heure && f.fiches == e.fiches && f.herite == e.herite && f.vol == e.vol
    requires f.injoignable == e.injoignable && f.journal == e.journal
    ensures Menagee(e, f)
  {
    hide Recents, EncoreBons, EncoreValable, Tient;
    forall j | j in e.fiches ensures EncoreValable(e, e.fiches[j]) <==> Tient(e, e.fiches[j]) {
      TientMeme(e, e.fiches[j]);
    }
  }

  lemma CouperJournalMeme(e: Etat, js: set<Id>)
    ensures forall rejet :: Couper(e, js, rejet).journal == e.journal
  {
  }

  // --------------------------------------------------------------- reporting

  predicate Site(e: Etat, j: Id) { j in e.ouvertes && j in e.fiches && e.fiches[j].site.Some? }

  /** What is reported: the counters of the sessions of the table the site knows, and
      the requests of the inherited link, where there were any. */
  ghost predicate Rapport(e: Etat, releves: map<Id, nat>, herites: map<Id, nat>) {
    && (forall j :: j in releves <==> Site(e, j))
    && (forall j :: j in releves ==> releves[j] == e.fiches[j].octets)
    && (forall s :: s in herites <==> s in e.herite && e.herite[s] > 0)
    && (forall s :: s in herites ==> herites[s] == e.herite[s])
  }

  /** The counters reported leave, and nothing else moves; with nothing to report no
      heartbeat leaves. */
  ghost predicate Relevee(e: Etat, f: Etat) {
    && (exists releves, herites ::
          && Rapport(e, releves, herites)
          && f.vol == if releves == map[] && herites == map[] then None else Some(Vol(e.heure, releves, herites)))
    && f.fiches.Keys == e.fiches.Keys
    && (forall j :: j in e.fiches ==> f.fiches[j] == if Site(e, j) then e.fiches[j].(octets := 0) else e.fiches[j])
    && f.herite.Keys == e.herite.Keys && (forall s :: s in f.herite ==> f.herite[s] == 0)
    && f == e.(fiches := f.fiches, herite := f.herite, vol := f.vol)
  }

  lemma ReleverExact(e: Etat)
    ensures Relevee(e, Relever(e))
  {
    var releves, herites := OctetsReleves(e), HeritesReleves(e.herite);
    RapportDe(e);
    hide Rapport, OctetsReleves, HeritesReleves;
    assert Rapport(e, releves, herites);
  }

  lemma RapportDe(e: Etat)
    ensures Rapport(e, OctetsReleves(e), HeritesReleves(e.herite))
  {
  }

  // ------------------------------------------------------ presented again

  /** Openings the site has not seen. */
  predicate AuRejeu(e: Etat, j: Id) { j in e.ouvertes && j in e.fiches && e.fiches[j].aRejouer }

  /** They are presented in the order the table is walked. */
  ghost predicate Liste(e: Etat, ordre: seq<Id>, liste: seq<Id>) {
    && (forall j :: j in liste <==> j in ordre && AuRejeu(e, j))
    && forall i, k :: 0 <= i < k < |liste| ==> Avant(ordre, liste[i], liste[k])
  }

  ghost predicate Avant(ordre: seq<Id>, a: Id, b: Id) {
    exists p, q :: 0 <= p < q < |ordre| && ordre[p] == a && ordre[q] == b
  }

  lemma {:induction false} ListeExacte(e: Etat, ordre: seq<Id>)
    ensures Liste(e, ordre, ARejouer(e, ordre))
    decreases |ordre|
  {
    if ordre != [] {
      var suite := ARejouer(e, ordre[1..]);
      ListeExacte(e, ordre[1..]);
      forall a, b | Avant(ordre[1..], a, b) ensures Avant(ordre, a, b) {
        var p, q :| 0 <= p < q < |ordre[1..]| && ordre[1..][p] == a && ordre[1..][q] == b;
        assert ordre[p + 1] == a && ordre[q + 1] == b;
      }
      forall b | b in suite ensures Avant(ordre, ordre[0], b) {
        assert b in ordre[1..];
        var q :| 0 <= q < |ordre[1..]| && ordre[1..][q] == b;
        assert ordre[q + 1] == b;
      }
      var liste := ARejouer(e, ordre);
      assert liste == suite || liste == [ordre[0]] + suite;
      hide Avant, ARejouer;
    }
  }

  /** How many the site answered: the first silence stops the round. */
  function Repondues(liste: seq<Id>, reps: map<Id, ReponseOuverture>): (n: nat)
    ensures n <= |liste|
    ensures forall i :: 0 <= i < n ==> liste[i] in reps
    ensures n < |liste| ==> liste[n] !in reps
  {
    if liste == [] || liste[0] !in reps then 0 else 1 + Repondues(liste[1..], reps)
  }

  /** Accepted by the site among the first `n`. */
  predicate Acceptee(liste: seq<Id>, reps: map<Id, ReponseOuverture>, n: nat, j: Id) {
    n <= |liste| && j in liste[..n] && j in reps && reps[j].ok
  }

  /** What an acceptance writes on a session. */
  function Confirmee(f: Fiche, rep: ReponseOuverture): Fiche {
    Fiche(f.sid, f.sub, f.did, f.pk, f.jti, f.exp, if rep.appareil.Some? then rep.appareil else f.nom, rep.sessionId,
          false, f.secours, f.octets, f.dernierAudio)
  }

  /** The session as it stands once the first `n` answers are in. */
  function Rejouee(f: Fiche, liste: seq<Id>, reps: map<Id, ReponseOuverture>, n: nat, j: Id): Fiche {
    if Acceptee(liste, reps, n, j) then Confirmee(f, reps[j]) else f
  }

  /** Answer `i` cuts session `j`: it refuses it, or orders to cut the site session it
      has by then. */
  predicate Coupe(fiches: map<Id, Fiche>, liste: seq<Id>, reps: map<Id, ReponseOuverture>, i: nat, j: Id)
    requires i < |liste| && liste[i] in reps && j in fiches
  {
    var rep, g := reps[liste[i]], Rejouee(fiches[j], liste, reps, i + 1, j);
    if rep.ok then g.site.Some? && g.site.value in rep.couper else j == liste[i]
  }

  /** With what it answers from then on. */
  function RejetDuRejeu(fiches: map<Id, Fiche>, liste: seq<Id>, reps: map<Id, ReponseOuverture>, i: nat): Rejet
    requires i < |liste| && liste[i] in reps && liste[i] in fiches
  {
    var rep := reps[liste[i]];
    if rep.ok then Rejet(401, SessionCoupee, Some(RepriseAilleurs), Some(Nom(Confirmee(fiches[liste[i]], rep))))
    else Rejet(401, SessionCoupee, Some(if rep.motif.Some? then rep.motif.value else SansMotif), None)
  }

  /** The table after the first `n` answers: a session stays if and only if none of
      them cuts it, and one that leaves answers what an answer that cut it said. */
  ghost predicate Table(e: Etat, f: Etat, liste: seq<Id>, reps: map<Id, ReponseOuverture>, n: nat)
    requires n <= |liste| && (forall i :: 0 <= i < n ==> liste[i] in reps) && forall j :: j in liste ==> j in e.fiches
  {
    && f.ouvertes <= e.ouvertes
    && (forall j :: j in e.ouvertes && j in e.fiches ==>
          (j in f.ouvertes <==> forall i :: 0 <= i < n ==> !Coupe(e.fiches, liste, reps, i, j)))
    && (forall j :: j in e.ouvertes && j in e.fiches && j !in f.ouvertes ==> Repond(e, f, liste, reps, n, j))
    && (forall j :: j in e.coupees ==>
          j in f.coupees && (f.coupees[j] == e.coupees[j] || Repond(e, f, liste, reps, n, j)))
  }

  ghost predicate Repond(e: Etat, f: Etat, liste: seq<Id>, reps: map<Id, ReponseOuverture>, n: nat, j: Id)
    requires n <= |liste| && (forall i :: 0 <= i < n ==> liste[i] in reps) && forall j :: j in liste ==> j in e.fiches
  {
    j in e.fiches && j in f.coupees &&
    exists i :: 0 <= i < n && Coupe(e.fiches, liste, reps, i, j)
                && f.coupees[j] == (RejetDuRejeu(e.fiches, liste, reps, i), e.heure)
  }

  ghost predicate FichesDuRejeu(fiches: map<Id, Fiche>, fiches': map<Id, Fiche>, liste: seq<Id>,
                                reps: map<Id, ReponseOuverture>, n: nat)
  {
    fiches'.Keys == fiches.Keys && forall j :: j in fiches ==> fiches'[j] == Rejouee(fiches[j], liste, reps, n, j)
  }

  /** The devices confirmed in the replay are dated now, the others as before. */
  ghost predicate ConnusDuRejeu(e: Etat, f: Etat, liste: seq<Id>, reps: map<Id, ReponseOuverture>, n: nat)
    requires forall j :: j in liste ==> j in e.fiches
  {
    && (forall d :: d in f.connus <==> d in e.connus || Vu(e.fiches, liste, reps, n, d))
    && forall d :: d in f.connus ==>
         f.connus[d] == if Vu(e.fiches, liste, reps, n, d) then e.heure else e.connus[d]
  }

  predicate Constants(e: Etat, f: Etat) {
    && f.heure == e.heure && f.herite == e.herite && f.vol == e.vol && f.defis == e.defis
    && f.revJti == e.revJti && f.revDid == e.revDid
  }

  /** The replay, in full: it stops at the first silence, and the flag says so. */
  ghost predicate Rejeu(e: Etat, f: Etat, liste: seq<Id>, reps: map<Id, ReponseOuverture>)
    requires forall j :: j in liste ==> j in e.fiches
  {
    var n := Repondues(liste, reps);
    && FichesDuRejeu(e.fiches, f.fiches, liste, reps, n)
    && ConnusDuRejeu(e, f, liste, reps, n)
    && Table(e, f, liste, reps, n)
    && f.injoignable == (if n < |liste| then true else if n > 0 then false else e.injoignable)
    && Constants(e, f)
  }

  /** A device the site confirmed in the replay. */
  ghost predicate Vu(fiches: map<Id, Fiche>, liste: seq<Id>, reps: map<Id, ReponseOuverture>, n: nat, d: Id)
    requires forall j :: j in liste ==> j in fiches
  {
    exists j :: j in liste && Acceptee(liste, reps, n, j) && fiches[j].did == d
  }

  lemma RejoueeSuite(f: Fiche, liste: seq<Id>, reps: map<Id, ReponseOuverture>, n: nat, j: Id)
    requires 1 <= n <= |liste| && liste[0] in reps
    ensures var f1 := if j == liste[0] && reps[j].ok then Confirmee(f, reps[j]) else f;
      Rejouee(f1, liste[1..], reps, n - 1, j) == Rejouee(f, liste, reps, n, j)
    ensures Acceptee(liste, reps, n, j) <==> (j == liste[0] && reps[j].ok) || Acceptee(liste[1..], reps, n - 1, j)
  {
    assert liste[..n] == [liste[0]] + liste[1..][..n - 1];
  }

  /** The sessions after the first answer. */
  function FichesPuis(fiches: map<Id, Fiche>, j: Id, rep: ReponseOuverture): map<Id, Fiche>
    requires j in fiches
  {
    if rep.ok then fiches[j := Confirmee(fiches[j], rep)] else fiches
  }

  lemma CoupeSuite(fiches: map<Id, Fiche>, liste: seq<Id>, reps: map<Id, ReponseOuverture>, i: nat, j: Id)
    requires 1 <= i < |liste| && liste[0] in reps && liste[i] in reps && j in fiches && liste[0] in fiches
    ensures var suite := FichesPuis(fiches, liste[0], reps[liste[0]]);
      j in suite && Coupe(suite, liste[1..], reps, i - 1, j) == Coupe(fiches, liste, reps, i, j)
  {
    hide Rejouee, Confirmee;
    RejoueeSuite(fiches[j], liste, reps, i + 1, j);
  }

  lemma RejetSuite(fiches: map<Id, Fiche>, liste: seq<Id>, reps: map<Id, ReponseOuverture>, i: nat)
    requires 1 <= i < |liste| && liste[0] in reps && liste[i] in reps && liste[0] in fiches && liste[i] in fiches
    ensures RejetDuRejeu(FichesPuis(fiches, liste[0], reps[liste[0]]), liste[1..], reps, i - 1)
         == RejetDuRejeu(fiches, liste, reps, i)
  {
  }

  /** What one answer leaves. */
  ghost predicate Reponse1(e: Etat, f: Etat, liste: seq<Id>, reps: map<Id, ReponseOuverture>)
    requires liste != [] && liste[0] in reps && forall j :: j in liste ==> j in e.fiches
  {
    var rep := reps[liste[0]];
    && f.fiches == FichesPuis(e.fiches, liste[0], rep) && !f.injoignable
    && f.connus == (if rep.ok then e.connus[e.fiches[liste[0]].did := e.heure] else e.connus)
    && Table(e, f, liste, reps, 1) && Constants(e, f)
  }

  lemma TableUne(e: Etat, f: Etat, liste: seq<Id>, reps: map<Id, ReponseOuverture>, js: set<Id>)
    requires liste != [] && liste[0] in reps && forall j :: j in liste ==> j in e.fiches
    requires forall j :: j in js ==> j in e.fiches && Coupe(e.fiches, liste, reps, 0, j)
    requires forall j :: j in e.ouvertes && j in e.fiches && Coupe(e.fiches, liste, reps, 0, j) ==> j in js
    requires Parties(e, f, e.ouvertes, js, RejetDuRejeu(e.fiches, liste, reps, 0))
    ensures Table(e, f, liste, reps, 1)
  {
    hide Coupe, RejetDuRejeu;
  }

  lemma RejouerUneExact(e: Etat, liste: seq<Id>, reps: map<Id, ReponseOuverture>)
    requires liste != [] && liste[0] in reps && forall j :: j in liste ==> j in e.fiches
    ensures Reponse1(e, RejouerUne(e, liste[0], reps[liste[0]]), liste, reps)
  {
    if reps[liste[0]].ok { UneAcceptee(e, liste, reps); } else { UneRefusee(e, liste, reps); }
  }

  lemma UneRefusee(e: Etat, liste: seq<Id>, reps: map<Id, ReponseOuverture>)
    requires liste != [] && liste[0] in reps && !reps[liste[0]].ok && forall j :: j in liste ==> j in e.fiches
    ensures Reponse1(e, RejouerUne(e, liste[0], reps[liste[0]]), liste, reps)
  {
    hide Table, Parties, Couper, Rejouee;
    var e1, j := Contacter(e, false), liste[0];
    var f := RejouerUne(e, j, reps[j]);
    CouperEffet(e1, {j}, RejetDuRejeu(e.fiches, liste, reps, 0));
    PartiesCadre(e, e1, f, {j}, RejetDuRejeu(e.fiches, liste, reps, 0));
    TableUne(e, f, liste, reps, {j});
  }

  lemma UneAcceptee(e: Etat, liste: seq<Id>, reps: map<Id, ReponseOuverture>)
    requires liste != [] && liste[0] in reps && reps[liste[0]].ok && forall j :: j in liste ==> j in e.fiches
    ensures Reponse1(e, RejouerUne(e, liste[0], reps[liste[0]]), liste, reps)
  {
    hide Table, Parties, CouperSites, Rejouee, Coupe, FicheRejouee, Designation, RejetDuRejeu, Visees;
    var j, rep := liste[0], reps[liste[0]];
    var g := FicheRejouee(e.fiches[j], rep);
    var e2 := Confirmer(Contacter(e, false).(fiches := e.fiches[j := g]), g.did, e.heure);
    var f := RejouerUne(e, j, rep);
    var rejet := RejetDuRejeu(e.fiches, liste, reps, 0);
    ConfirmeeDe(e.fiches, liste, reps);
    CouperSitesEffet(e2, rep.couper, rejet);
    var js := Visees(e.ouvertes, e2.fiches, rep.couper);
    PartiesCadre(e, e2, f, js, rejet);
    ViseesCoupees(e, liste, reps);
    TableUne(e, f, liste, reps, js);
  }

  lemma ConfirmeeDe(fiches: map<Id, Fiche>, liste: seq<Id>, reps: map<Id, ReponseOuverture>)
    requires liste != [] && liste[0] in reps && reps[liste[0]].ok && liste[0] in fiches
    ensures var g := FicheRejouee(fiches[liste[0]], reps[liste[0]]);
      && g == Confirmee(fiches[liste[0]], reps[liste[0]]) && g.did == fiches[liste[0]].did
      && Coupee(RepriseAilleurs, Some(Designation(g))) == RejetDuRejeu(fiches, liste, reps, 0)
  {
  }

  lemma ViseesCoupees(e: Etat, liste: seq<Id>, reps: map<Id, ReponseOuverture>)
    requires liste != [] && liste[0] in reps && reps[liste[0]].ok && forall j :: j in liste ==> j in e.fiches
    ensures var fiches := FichesPuis(e.fiches, liste[0], reps[liste[0]]);
      forall j :: j in Visees(e.ouvertes, fiches, reps[liste[0]].couper) <==>
                  j in e.ouvertes && j in e.fiches && Coupe(e.fiches, liste, reps, 0, j)
  {
    hide Confirmee;
    assert liste[..1] == [liste[0]];
  }

  // -------------------------------------------------------- the whole replay

  lemma {:induction false} RejouerExact(e: Etat, liste: seq<Id>, reps: map<Id, ReponseOuverture>)
    requires forall j :: j in liste ==> j in e.fiches
    ensures Rejeu(e, Rejouer(e, liste, reps), liste, reps)
    decreases |liste|
  {
    hide *;
    if liste == [] || liste[0] !in reps {
      RejeuArret(e, liste, reps);
    } else {
      var e1 := RejouerUne(e, liste[0], reps[liste[0]]);
      RejouerUneExact(e, liste, reps);
      ClesPuis(e, e1, liste, reps);
      RejouerExact(e1, liste[1..], reps);
      RejeuSuite(e, e1, Rejouer(e1, liste[1..], reps), liste, reps);
      RejouerPas(e, liste, reps);
    }
  }

  lemma RejouerPas(e: Etat, liste: seq<Id>, reps: map<Id, ReponseOuverture>)
    requires liste != [] && liste[0] in reps && liste[0] in e.fiches
    ensures Rejouer(e, liste, reps) == Rejouer(RejouerUne(e, liste[0], reps[liste[0]]), liste[1..], reps)
  {
    hide RejouerUne;
  }

  lemma ClesPuis(e: Etat, e1: Etat, liste: seq<Id>, reps: map<Id, ReponseOuverture>)
    requires liste != [] && liste[0] in reps && (forall j :: j in liste ==> j in e.fiches)
    requires Reponse1(e, e1, liste, reps)
    ensures e1.fiches.Keys == e.fiches.Keys && forall j :: j in liste[1..] ==> j in e1.fiches
  {
    hide Table, Confirmee;
  }

  lemma RejeuArret(e: Etat, liste: seq<Id>, reps: map<Id, ReponseOuverture>)
    requires (forall j :: j in liste ==> j in e.fiches) && (liste == [] || liste[0] !in reps)
    ensures Rejeu(e, Rejouer(e, liste, reps), liste, reps)
  {
    hide FichesDuRejeu, ConnusDuRejeu, Table, RejouerUne;
    var f := Rejouer(e, liste, reps);
    assert Repondues(liste, reps) == 0;
    RejeuZero(e, f, liste, reps);
  }

  lemma RejeuZero(e: Etat, f: Etat, liste: seq<Id>, reps: map<Id, ReponseOuverture>)
    requires forall j :: j in liste ==> j in e.fiches
    requires f.fiches == e.fiches && f.connus == e.connus && f.ouvertes == e.ouvertes && f.coupees == e.coupees
    ensures FichesDuRejeu(e.fiches, f.fiches, liste, reps, 0)
    ensures ConnusDuRejeu(e, f, liste, reps, 0) && Table(e, f, liste, reps, 0)
  {
    assert liste[..0] == [];
  }

  lemma RejeuSuite(e: Etat, e1: Etat, f: Etat, liste: seq<Id>, reps: map<Id, ReponseOuverture>)
    requires liste != [] && liste[0] in reps && (forall j :: j in liste ==> j in e.fiches)
    requires Reponse1(e, e1, liste, reps)
    requires e1.fiches.Keys == e.fiches.Keys && (forall j :: j in liste[1..] ==> j in e1.fiches)
    requires Rejeu(e1, f, liste[1..], reps)
    ensures Rejeu(e, f, liste, reps)
  {
    hide FichesDuRejeu, ConnusDuRejeu, Table, FichesPuis;
    var n := Repondues(liste, reps);
    assert n == 1 + Repondues(liste[1..], reps);
    hide Repondues;
    FichesSuite(e.fiches, f.fiches, liste, reps, n);
    ConnusSuite(e, e1, f, liste, reps, n);
    TableSuite(e, e1, f, liste, reps, n);
  }

  lemma FichesSuite(fiches: map<Id, Fiche>, fiches': map<Id, Fiche>, liste: seq<Id>,
                    reps: map<Id, ReponseOuverture>, n: nat)
    requires 1 <= n <= |liste| && liste[0] in reps && liste[0] in fiches
    requires FichesDuRejeu(FichesPuis(fiches, liste[0], reps[liste[0]]), fiches', liste[1..], reps, n - 1)
    ensures FichesDuRejeu(fiches, fiches', liste, reps, n)
  {
    hide Rejouee, Confirmee;
    forall j | j in fiches ensures fiches'[j] == Rejouee(fiches[j], liste, reps, n, j) {
      RejoueeSuite(fiches[j], liste, reps, n, j);
    }
  }

  lemma ConnusSuite(e: Etat, e1: Etat, f: Etat, liste: seq<Id>, reps: map<Id, ReponseOuverture>, n: nat)
    requires 1 <= n <= |liste| && liste[0] in reps && (forall j :: j in liste ==> j in e.fiches) && e1.heure == e.heure
    requires e1.fiches == FichesPuis(e.fiches, liste[0], reps[liste[0]])
    requires e1.connus == if reps[liste[0]].ok then e.connus[e.fiches[liste[0]].did := e.heure] else e.connus
    requires (forall j :: j in liste[1..] ==> j in e1.fiches) && ConnusDuRejeu(e1, f, liste[1..], reps, n - 1)
    ensures ConnusDuRejeu(e, f, liste, reps, n)
  {
    forall d
      ensures Vu(e.fiches, liste, reps, n, d) <==>
                Vu(e1.fiches, liste[1..], reps, n - 1, d) || (reps[liste[0]].ok && e.fiches[liste[0]].did == d)
    {
      VuSuite(e.fiches, liste, reps, n, d);
    }
    hide Vu, FichesPuis;
  }

  lemma VuSuite(fiches: map<Id, Fiche>, liste: seq<Id>, reps: map<Id, ReponseOuverture>, n: nat, d: Id)
    requires 1 <= n <= |liste| && liste[0] in reps && (forall j :: j in liste ==> j in fiches)
    ensures var suite := FichesPuis(fiches, liste[0], reps[liste[0]]);
      && (forall j :: j in liste[1..] ==> j in suite)
      && (Vu(fiches, liste, reps, n, d) <==>
            Vu(suite, liste[1..], reps, n - 1, d) || (reps[liste[0]].ok && fiches[liste[0]].did == d))
  {
    var suite := FichesPuis(fiches, liste[0], reps[liste[0]]);
    forall j | j in fiches ensures j in suite && suite[j].did == fiches[j].did {
    }
    forall j ensures Acceptee(liste, reps, n, j) <==>
                       (j == liste[0] && reps[j].ok) || Acceptee(liste[1..], reps, n - 1, j)
    {
      if j in fiches { RejoueeSuite(fiches[j], liste, reps, n, j); }
    }
    assert forall j :: Acceptee(liste[1..], reps, n - 1, j) ==> j in liste[1..];
    hide Acceptee, FichesPuis;
  }

  lemma EpargneeSuite(fiches: map<Id, Fiche>, liste: seq<Id>, reps: map<Id, ReponseOuverture>, n: nat, j: Id)
    requires 1 <= n <= |liste| && (forall i :: 0 <= i < n ==> liste[i] in reps) && j in fiches && liste[0] in fiches
    ensures var suite := FichesPuis(fiches, liste[0], reps[liste[0]]);
      && j in suite && (forall i :: 0 <= i < n - 1 ==> liste[1..][i] in reps)
      && ((forall i :: 0 <= i < n ==> !Coupe(fiches, liste, reps, i, j)) <==>
            !Coupe(fiches, liste, reps, 0, j) && forall i :: 0 <= i < n - 1 ==> !Coupe(suite, liste[1..], reps, i, j))
  {
    hide Coupe;
    var suite := FichesPuis(fiches, liste[0], reps[liste[0]]);
    assert j in suite;
    hide FichesPuis;
    assert forall i :: 0 <= i < n - 1 ==> liste[1..][i] == liste[i + 1];
    forall i | 1 <= i < n ensures Coupe(suite, liste[1..], reps, i - 1, j) == Coupe(fiches, liste, reps, i, j) {
      CoupeSuite(fiches, liste, reps, i, j);
    }
    if (forall i :: 0 <= i < n ==> !Coupe(fiches, liste, reps, i, j)) {
      forall i | 0 <= i < n - 1 ensures !Coupe(suite, liste[1..], reps, i, j) {
        assert !Coupe(fiches, liste, reps, i + 1, j);
        CoupeSuite(fiches, liste, reps, i + 1, j);
      }
    }
  }

  lemma RepondSuite(e: Etat, e1: Etat, f: Etat, liste: seq<Id>, reps: map<Id, ReponseOuverture>, n: nat, j: Id)
    requires 1 <= n <= |liste| && (forall i :: 0 <= i < n ==> liste[i] in reps)
    requires (forall j :: j in liste ==> j in e.fiches) && e1.heure == e.heure
    requires e1.fiches == FichesPuis(e.fiches, liste[0], reps[liste[0]])
    requires (forall j :: j in liste[1..] ==> j in e1.fiches) && (forall i :: 0 <= i < n - 1 ==> liste[1..][i] in reps)
    requires Repond(e1, f, liste[1..], reps, n - 1, j)
    ensures Repond(e, f, liste, reps, n, j)
  {
    hide Coupe, RejetDuRejeu;
    var i :| 0 <= i < n - 1 && Coupe(e1.fiches, liste[1..], reps, i, j)
             && f.coupees[j] == (RejetDuRejeu(e1.fiches, liste[1..], reps, i), e1.heure);
    assert j in e.fiches;
    hide FichesPuis;
    CoupeSuite(e.fiches, liste, reps, i + 1, j);
    RejetSuite(e.fiches, liste, reps, i + 1);
  }

  lemma RepondPremier(e: Etat, e1: Etat, f: Etat, liste: seq<Id>, reps: map<Id, ReponseOuverture>, n: nat, j: Id)
    requires 1 <= n <= |liste| && (forall i :: 0 <= i < n ==> liste[i] in reps)
    requires (forall j :: j in liste ==> j in e.fiches)
    requires Repond(e, e1, liste, reps, 1, j) && j in f.coupees && f.coupees[j] == e1.coupees[j]
    ensures Repond(e, f, liste, reps, n, j)
  {
    hide Coupe, RejetDuRejeu;
  }

  lemma TableSuite(e: Etat, e1: Etat, f: Etat, liste: seq<Id>, reps: map<Id, ReponseOuverture>, n: nat)
    requires 1 <= n <= |liste| && (forall i :: 0 <= i < n ==> liste[i] in reps)
    requires (forall j :: j in liste ==> j in e.fiches) && e1.heure == e.heure
    requires e1.fiches == FichesPuis(e.fiches, liste[0], reps[liste[0]]) && Table(e, e1, liste, reps, 1)
    requires (forall j :: j in liste[1..] ==> j in e1.fiches) && (forall i :: 0 <= i < n - 1 ==> liste[1..][i] in reps)
    requires Table(e1, f, liste[1..], reps, n - 1)
    ensures Table(e, f, liste, reps, n)
  {
    hide Coupe, Repond, FichesPuis;
    forall j | j in e.fiches
      ensures j in e1.fiches
      ensures (forall i :: 0 <= i < n ==> !Coupe(e.fiches, liste, reps, i, j)) <==>
                !Coupe(e.fiches, liste, reps, 0, j) &&
                forall i :: 0 <= i < n - 1 ==> !Coupe(e1.fiches, liste[1..], reps, i, j)
    {
      EpargneeSuite(e.fiches, liste, reps, n, j);
    }
    forall j | Repond(e1, f, liste[1..], reps, n - 1, j) ensures Repond(e, f, liste, reps, n, j) {
      RepondSuite(e, e1, f, liste, reps, n, j);
    }
    forall j | Repond(e, e1, liste, reps, 1, j) && j in f.coupees && j in e1.coupees && f.coupees[j] == e1.coupees[j]
      ensures Repond(e, f, liste, reps, n, j)
    {
      RepondPremier(e, e1, f, liste, reps, n, j);
    }
    CoupeesDe(e, e1, liste, reps);
  }

  lemma CoupeesDe(e: Etat, e1: Etat, liste: seq<Id>, reps: map<Id, ReponseOuverture>)
    requires 1 <= |liste| && liste[0] in reps && (forall j :: j in liste ==> j in e.fiches)
    ensures forall j :: Repond(e, e1, liste, reps, 1, j) ==> j in e1.coupees
  {
    hide Coupe;
  }

  /** The first half of a round, in full: housekeeping, then the openings the site has
      not seen presented in the order of the table until it is silent, then what is
      reported. */
  lemma EnvoiExact(e: Etat, ordre: seq<Id>, reps: map<Id, ReponseOuverture>) returns (m: Etat, liste: seq<Id>, r: Etat)
    ensures Menagee(e, m) && Liste(m, ordre, liste) && (forall j :: j in liste ==> j in m.fiches)
    ensures Rejeu(m, r, liste, reps) && Relevee(r, BattreEnvoyer(e, ordre, reps))
  {
    m := Menage(e);
    liste := ARejouer(m, ordre);
    r := Rejouer(m, liste, reps);
    hide Menagee, Rejeu, Relevee, Menage, Relever, Rejouer, ARejouer;
    MenageExact(e);
    ListeExacte(m, ordre);
    RejouerExact(m, liste, reps);
    ReleverExact(r);
  }
}
