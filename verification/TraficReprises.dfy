/** Resumes over every run: a request past byte zero resumes the stream left last if
    and only if a recent end of it is still remembered. */
module TraficReprises {
  import opened Commun
  import opened TraficSpec
  import opened TraficProofs
  import A = TraficAppels

  /** The sessions ended by the calls of a run, in order. */
  ghost function Fins(appels: seq<Appel>): seq<Sess> {
    if appels == [] then [] else
    Fins(appels[..|appels| - 1]) + if appels[|appels| - 1].FinSession? then [appels[|appels| - 1].s] else []
  }

  /** The place of the last time a session comes. */
  function Rang(fins: seq<Sess>, s: Sess): nat
    requires s in fins
  {
    if fins[|fins| - 1] == s then |fins| - 1 else
      assert s in fins[..|fins| - 1];
      Rang(fins[..|fins| - 1], s)
  }

  lemma RangPlus(fins: seq<Sess>, r: Sess, s: Sess)
    requires s in fins + [r]
    ensures Rang(fins + [r], s) == (if s == r then |fins| else Rang(fins, s))
    ensures s != r ==> s in fins && Rang(fins, s) < |fins|
  {
    assert (fins + [r])[..|fins|] == fins;
    if s != r { RangBorne(fins, s); }
  }

  lemma RangBorne(fins: seq<Sess>, s: Sess)
    requires s in fins
    ensures Rang(fins, s) < |fins|
  {
  }

  /** An end, not complete, on that server. */
  predicate Laissee(finies: map<Sess, Issue>, s: Sess, o: Oid) {
    s in finies && finies[s].fin != Complete && finies[s].fiche.oid == o
  }

  /** The ends of that server, not complete, that came after. */
  ghost function Apres(finies: map<Sess, Issue>, fins: seq<Sess>, s: Sess, o: Oid): set<Sess>
    requires s in fins
  {
    set r | r in finies && Laissee(finies, r, o) && r in fins && Rang(fins, r) > Rang(fins, s)
  }

  ghost predicate Gardee(cs: seq<Coupure>, s: Sess) { exists i :: 0 <= i < |cs| && cs[i].session == s }

  ghost predicate EnOrdre(cs: seq<Coupure>, fins: seq<Sess>) {
    && (forall i :: 0 <= i < |cs| ==> cs[i].session in fins)
    && forall i, k :: 0 <= i < k < |cs| ==> Rang(fins, cs[i].session) < Rang(fins, cs[k].session)
  }

  /** An end not complete nor resumed is remembered, unless it is a minute old or
      thirty-two others of its server came after it. */
  ghost predicate Retenue(cs: seq<Coupure>, finies: map<Sess, Issue>, fins: seq<Sess>, heure: int, s: Sess, o: Oid)
    requires s in finies && s in fins
  {
    Gardee(cs, s) || heure - finies[s].t >= 60_000 || |Apres(finies, fins, s, o)| >= 32
  }

  ghost predicate UnServeur(cs: seq<Coupure>, o: Oid, finies: map<Sess, Issue>, reprises: map<Sess, Sess>,
                            fins: seq<Sess>, heure: int)
  {
    && EnOrdre(cs, fins)
    && forall s :: Laissee(finies, s, o) && s !in reprises && s in fins ==> Retenue(cs, finies, fins, heure, s, o)
  }

  ghost predicate Suivies(objets: map<Oid, Compteurs>, finies: map<Sess, Issue>, reprises: map<Sess, Sess>,
                          fins: seq<Sess>, heure: int)
  {
    && (forall s :: s in fins <==> s in finies)
    && (forall s :: s in finies ==> finies[s].fiche.oid in objets)
    && forall o :: o in objets ==> UnServeur(objets[o].coupures, o, finies, reprises, fins, heure)
  }

  // ------------------------------------------------------------- one more end

  lemma ApresPlus(finies: map<Sess, Issue>, fins: seq<Sess>, r: Sess, i: Issue, s: Sess, o: Oid)
    requires s in fins && r !in fins && r !in finies && s != r
    ensures Apres(finies[r := i], fins + [r], s, o) ==
              Apres(finies, fins, s, o) + if i.fin != Complete && i.fiche.oid == o then {r} else {}
  {
    forall q | q in fins + [r] ensures q != r ==> q in fins && Rang(fins + [r], q) == Rang(fins, q) {
      RangPlus(fins, r, q);
    }
    RangPlus(fins, r, r);
    RangBorne(fins, s);
  }

  lemma RetenuePlus(cs: seq<Coupure>, cs': seq<Coupure>, finies: map<Sess, Issue>, fins: seq<Sess>, heure: int,
                    r: Sess, i: Issue, s: Sess, o: Oid)
    requires s in finies && s in fins && r !in fins && r !in finies && Retenue(cs, finies, fins, heure, s, o)
    requires Gardee(cs, s) ==> Gardee(cs', s)
    ensures Retenue(cs', finies[r := i], fins + [r], heure, s, o)
  {
    ApresPlus(finies, fins, r, i, s, o);
    var a, b := Apres(finies, fins, s, o), Apres(finies[r := i], fins + [r], s, o);
    CardinalSous(a, b);
    hide Gardee;
  }

  lemma EnOrdrePlus(cs: seq<Coupure>, fins: seq<Sess>, r: Sess)
    requires EnOrdre(cs, fins) && r !in fins
    ensures EnOrdre(cs, fins + [r])
  {
    forall i | 0 <= i < |cs| ensures Rang(fins + [r], cs[i].session) == Rang(fins, cs[i].session) {
      RangPlus(fins, r, cs[i].session);
    }
  }

  /** Another server, or a complete end: the list is as it was. */
  lemma ServeurInchange(cs: seq<Coupure>, o: Oid, finies: map<Sess, Issue>, reprises: map<Sess, Sess>,
                        fins: seq<Sess>, heure: int, r: Sess, i: Issue)
    requires UnServeur(cs, o, finies, reprises, fins, heure) && r !in fins && r !in finies
    requires i.fin == Complete || i.fiche.oid != o
    ensures UnServeur(cs, o, finies[r := i], reprises, fins + [r], heure)
  {
    EnOrdrePlus(cs, fins, r);
    hide EnOrdre, Gardee;
    forall s | Laissee(finies[r := i], s, o) && s !in reprises && s in fins + [r]
      ensures Retenue(cs, finies[r := i], fins + [r], heure, s, o)
    {
      RetenuePlus(cs, cs, finies, fins, heure, r, i, s, o);
    }
  }

  /** The sessions of a list. */
  ghost function Sessions(cs: seq<Coupure>): set<Sess> { set i | 0 <= i < |cs| :: cs[i].session }

  lemma {:induction false} SessionsTaille(cs: seq<Coupure>)
    requires Distinctes(cs)
    ensures |Sessions(cs)| == |cs|
  {
    if cs != [] {
      var p, c := cs[..|cs| - 1], cs[|cs| - 1];
      SessionsTaille(p);
      assert Sessions(cs) == Sessions(p) + {c.session};
      assert c.session !in Sessions(p);
    }
  }

  lemma NoterGarde(cs: seq<Coupure>, c: Coupure, s: Sess)
    ensures Gardee(Noter(cs, c), c.session)
    ensures Gardee(cs, s) && !(|cs| >= 32 && cs[0].session == s) ==> Gardee(Noter(cs, c), s)
  {
    var n := Noter(cs, c);
    assert n[|n| - 1] == c;
    if Gardee(cs, s) && !(|cs| >= 32 && cs[0].session == s) {
      var i :| 0 <= i < |cs| && cs[i].session == s;
      assert n[if |cs| >= 32 then i - 1 else i] == cs[i];
    }
  }

  lemma NoterOrdre(cs: seq<Coupure>, fins: seq<Sess>, c: Coupure)
    requires EnOrdre(cs, fins) && c.session !in fins
    ensures EnOrdre(Noter(cs, c), fins + [c.session])
  {
    var r := c.session;
    EnOrdrePlus(cs, fins, r);
    var n := Noter(cs, c);
    RangPlus(fins, r, r);
    forall i | 0 <= i < |n| - 1
      ensures n[i] == cs[if |cs| >= 32 then i + 1 else i] && Rang(fins + [r], n[i].session) < |fins|
    {
      RangPlus(fins, r, cs[if |cs| >= 32 then i + 1 else i].session);
    }
  }

  /** The oldest of a full list has thirty-two ends after it. */
  lemma PlusVieille(cs: seq<Coupure>, o: Oid, finies: map<Sess, Issue>, reprises: map<Sess, Sess>, fins: seq<Sess>,
                    r: Sess, i: Issue)
    requires CoupuresVraies(cs, o, finies, reprises) && EnOrdre(cs, fins) && |cs| >= 32
    requires r !in fins && r !in finies && i.fin != Complete && i.fiche.oid == o
    ensures |Apres(finies[r := i], fins + [r], cs[0].session, o)| >= 32
  {
    var reste := cs[1..];
    assert Distinctes(reste);
    SessionsTaille(reste);
    ApresPlus(finies, fins, r, i, cs[0].session, o);
    var apres := Apres(finies, fins, cs[0].session, o);
    forall q | q in Sessions(reste) ensures q in apres && q != r {
      var k :| 0 <= k < |reste| && reste[k].session == q;
      assert cs[k + 1] == reste[k];
      assert CoupureVraie(cs[k + 1], o, finies, reprises);
    }
    CardinalSous(Sessions(reste), apres);
    assert r !in apres;
    assert |apres + {r}| == |apres| + 1;
  }

  /** The server of an end not complete: it is noted. */
  lemma ServeurNote(cs: seq<Coupure>, o: Oid, finies: map<Sess, Issue>, reprises: map<Sess, Sess>, fins: seq<Sess>,
                    heure: int, i: Issue, c: Coupure)
    requires UnServeur(cs, o, finies, reprises, fins, heure) && CoupuresVraies(cs, o, finies, reprises)
    requires c.session !in fins && c.session !in finies && i.fin != Complete && i.fiche.oid == o
    ensures UnServeur(Noter(cs, c), o, finies[c.session := i], reprises, fins + [c.session], heure)
  {
    hide CoupuresVraies, Noter, EnOrdre, Gardee, Apres;
    var r := c.session;
    assert EnOrdre(cs, fins);
    NoterOrdre(cs, fins, c);
    forall s | Laissee(finies[r := i], s, o) && s !in reprises && s in fins + [r]
      ensures Retenue(Noter(cs, c), finies[r := i], fins + [r], heure, s, o)
    {
      NoterGarde(cs, c, s);
      if s != r {
        assert Retenue(cs, finies, fins, heure, s, o);
        if |cs| >= 32 && cs[0].session == s {
          PlusVieille(cs, o, finies, reprises, fins, r, i);
        } else {
          RetenuePlus(cs, Noter(cs, c), finies, fins, heure, r, i, s, o);
        }
      }
    }
  }

  // ------------------------------------------------------------- a resume

  lemma {:induction false} RecentesOrdre(cs: seq<Coupure>, fins: seq<Sess>, heure: int)
    requires EnOrdre(cs, fins)
    ensures EnOrdre(Recentes(cs, heure), fins)
  {
    if cs != [] {
      var p, c := cs[..|cs| - 1], cs[|cs| - 1];
      assert EnOrdre(p, fins);
      RecentesOrdre(p, fins, heure);
      var r := Recentes(p, heure);
      forall i | 0 <= i < |r| ensures Rang(fins, r[i].session) < Rang(fins, c.session) {
        assert r[i] in r && r[i] in p;
        var k :| 0 <= k < |p| && p[k] == r[i];
        assert cs[k] == r[i];
      }
    }
  }

  /** Fewer resumes to account for, later. */
  lemma ServeurAttend(cs: seq<Coupure>, o: Oid, finies: map<Sess, Issue>, reprises: map<Sess, Sess>,
                      reprises': map<Sess, Sess>, fins: seq<Sess>, heure: int, t: int)
    requires UnServeur(cs, o, finies, reprises, fins, heure) && heure <= t && reprises.Keys <= reprises'.Keys
    ensures UnServeur(cs, o, finies, reprises', fins, t)
  {
    hide EnOrdre, Gardee, Apres, Laissee;
  }

  /** The list once pruned. */
  lemma ServeurElague(cs: seq<Coupure>, o: Oid, finies: map<Sess, Issue>, reprises: map<Sess, Sess>,
                      fins: seq<Sess>, heure: int)
    requires UnServeur(cs, o, finies, reprises, fins, heure) && CoupuresVraies(cs, o, finies, reprises)
    ensures UnServeur(Recentes(cs, heure), o, finies, reprises, fins, heure)
  {
    RecentesOrdre(cs, fins, heure);
    hide EnOrdre, Recentes, Apres;
    var r := Recentes(cs, heure);
    forall s | Laissee(finies, s, o) && s !in reprises && s in fins ensures Retenue(r, finies, fins, heure, s, o) {
      assert Retenue(cs, finies, fins, heure, s, o);
      if Gardee(cs, s) {
        var i :| 0 <= i < |cs| && cs[i].session == s;
        assert CoupureVraie(cs[i], o, finies, reprises);
        assert cs[i] in cs;
        if heure - cs[i].t < 60_000 { assert cs[i] in r; }
      }
    }
  }

  /** One cut taken out, and its session resumed. */
  lemma ServeurPris(cs: seq<Coupure>, o: Oid, finies: map<Sess, Issue>, reprises: map<Sess, Sess>,
                    fins: seq<Sess>, heure: int, i: nat, n: Sess)
    requires UnServeur(cs, o, finies, reprises, fins, heure) && i < |cs|
    ensures UnServeur(cs[..i] + cs[i + 1..], o, finies, reprises[cs[i].session := n], fins, heure)
  {
    var r := cs[..i] + cs[i + 1..];
    forall k | 0 <= k < |r| ensures r[k] == cs[if k < i then k else k + 1] {
    }
    hide Apres;
    forall s | Laissee(finies, s, o) && s !in reprises[cs[i].session := n] && s in fins
      ensures Retenue(r, finies, fins, heure, s, o)
    {
      assert Retenue(cs, finies, fins, heure, s, o);
      if Gardee(cs, s) {
        var k :| 0 <= k < |cs| && cs[k].session == s;
        assert r[if k < i then k else k - 1] == cs[k];
      }
    }
  }

  // -------------------------------------------------------------- every call

  /** The remembered cuts are as they were; new counters have none. */
  ghost predicate MemesCoupures(objets: map<Oid, Compteurs>, objets': map<Oid, Compteurs>) {
    && (forall o :: o in objets ==> o in objets' && objets'[o].coupures == objets[o].coupures)
    && forall o :: o in objets' && o !in objets ==> objets'[o].coupures == []
  }

  lemma SuiviesMeme(objets: map<Oid, Compteurs>, objets': map<Oid, Compteurs>, finies: map<Sess, Issue>,
                    reprises: map<Sess, Sess>, fins: seq<Sess>, heure: int, t: int)
    requires Suivies(objets, finies, reprises, fins, heure) && MemesCoupures(objets, objets') && heure <= t
    ensures Suivies(objets', finies, reprises, fins, t)
  {
    hide UnServeur;
    forall o | o in objets' ensures UnServeur(objets'[o].coupures, o, finies, reprises, fins, t) {
      if o in objets {
        ServeurAttend(objets[o].coupures, o, finies, reprises, reprises, fins, heure, t);
      } else {
        ServeurNeuf(o, objets, finies, reprises, fins, t);
      }
    }
  }

  lemma ServeurNeuf(o: Oid, objets: map<Oid, Compteurs>, finies: map<Sess, Issue>, reprises: map<Sess, Sess>,
                    fins: seq<Sess>, t: int)
    requires o !in objets && forall s :: s in finies ==> finies[s].fiche.oid in objets
    ensures UnServeur([], o, finies, reprises, fins, t)
  {
  }

  lemma UnObjet(objets: map<Oid, Compteurs>, o: Oid, k: Compteurs)
    requires k.coupures == if o in objets then objets[o].coupures else []
    ensures MemesCoupures(objets, objets[o := k]) && MemesCoupures(objets, objets)
  {
  }

  lemma RemisCoupures(objets: map<Oid, Compteurs>, serveurs: map<Sid, Oid>)
    ensures MemesCoupures(objets, Remis(objets, serveurs))
  {
  }

  ghost predicate Inchange(e: Etat, f: Etat) {
    MemesCoupures(e.objets, f.objets) && f.finies == e.finies && f.reprises == e.reprises && e.heure <= f.heure
  }

  lemma InchangeMeme(e: Etat, f: Etat)
    requires f.objets == e.objets && f.finies == e.finies && f.reprises == e.reprises && e.heure <= f.heure
    ensures Inchange(e, f)
  {
  }

  lemma InchangeObjet(e: Etat, f: Etat, o: Oid)
    requires f.finies == e.finies && f.reprises == e.reprises && e.heure <= f.heure
    requires o in f.objets && f.objets == e.objets[o := f.objets[o]]
    requires f.objets[o].coupures == if o in e.objets then e.objets[o].coupures else []
    ensures Inchange(e, f)
  {
    hide MemesCoupures;
    UnObjet(e.objets, o, f.objets[o]);
  }

  /** Calls that neither end a session nor look for a cut. */
  lemma PasCoupures(e: Etat, a: Appel)
    requires Permis(e, a) && !a.FinSession? && !(a.Ouverture? && a.horsDebut)
    ensures Inchange(e, Pas(e, a))
  {
    hide Inchange, Pousser, Clore, Tenu, Entrer, Sortir;
    match a
    case EntreeDe(o, c, n) => if o in e.objets { CompterInchange(e, o, c, n); } else { InchangeMeme(e, e); }
    case SortieDe(o, c, n) => if o in e.objets { CompterInchange(e, o, c, n); } else { InchangeMeme(e, e); }
    case MorceauRendu(s, n) =>
      var f := e.sessions[s];
      if f.oid in e.objets { CompterInchange(e, f.oid, f.categorie, n); } else { InchangeMeme(e, e); }
    case DemanderServeur(sid, neuf) =>
      if sid in e.serveurs { InchangeMeme(e, Pas(e, a)); } else { InchangeObjet(e, Pas(e, a), neuf); }
    case Ouverture(s, o, c, cle, horsDebut) =>
      if o in e.objets { OuvertureInchange(e, s, o, c, cle); } else { InchangeMeme(e, e); }
    case CloreMinute(minute) => ClotureInchange(e, minute);
    case PousserAuSite(jeton, rs) =>
      PousserForme(e, jeton, rs);
      InchangeMeme(e, Pas(e, a));
    case _ => InchangeMeme(e, Pas(e, a));
  }

  lemma CompterInchange(e: Etat, o: Oid, c: Categorie, n: nat)
    requires o in e.objets
    ensures Inchange(e, Entrer(e, o, c, n)) && Inchange(e, Sortir(e, o, c, n))
  {
    hide Inchange;
    InchangeObjet(e, Entrer(e, o, c, n), o);
    InchangeObjet(e, Sortir(e, o, c, n), o);
  }

  lemma OuvertureInchange(e: Etat, s: Sess, o: Oid, c: Categorie, cle: Cle)
    requires o in e.objets
    ensures Inchange(e, OuvrirSession(e, s, o, c, cle, false))
  {
    hide Inchange;
    InchangeObjet(e, OuvrirSession(e, s, o, c, cle, false), o);
  }

  lemma ClotureInchange(e: Etat, minute: int)
    ensures Inchange(e, Clore(e, minute))
  {
    hide Remis, Restants, Lignes, MemesCoupures;
    RemisCoupures(e.objets, e.serveurs);
  }

  lemma FinSuivies(e: Etat, s: Sess, fins: seq<Sess>)
    requires Inv(e) && s in e.sessions && s !in e.finies && e.sessions[s].oid in e.objets
    requires Suivies(e.objets, e.finies, e.reprises, fins, e.heure)
    ensures var f := Tomber(e, s); Suivies(f.objets, f.finies, f.reprises, fins + [s], f.heure)
  {
    hide Inv, UnServeur, CoupuresVraies, Noter, FinDe, Compter;
    var f, o := Tomber(e, s), e.sessions[s].oid;
    var i := Issue(e.sessions[s], e.heure, FinDe(e.sessions[s]));
    CoupuresDe(e, o);
    forall p | p in f.objets ensures UnServeur(f.objets[p].coupures, p, f.finies, f.reprises, fins + [s], f.heure) {
      assert UnServeur(e.objets[p].coupures, p, e.finies, e.reprises, fins, e.heure);
      if p == o && i.fin != Complete {
        ServeurNote(e.objets[o].coupures, o, e.finies, e.reprises, fins, e.heure, i, Coupure(i.fiche.cle, e.heure, s));
      } else {
        ServeurInchange(e.objets[p].coupures, p, e.finies, e.reprises, fins, e.heure, s, i);
      }
    }
  }

  lemma RepriseSuivies(e: Etat, s: Sess, o: Oid, cle: Cle, fins: seq<Sess>)
    requires o in e.objets && CoupuresVraies(e.objets[o].coupures, o, e.finies, e.reprises)
    requires Suivies(e.objets, e.finies, e.reprises, fins, e.heure)
    ensures var f := Reprendre(e, s, o, cle); Suivies(f.objets, f.finies, f.reprises, fins, f.heure)
  {
    hide UnServeur, CoupuresVraies, Recentes, Place;
    var f := Reprendre(e, s, o, cle);
    var cs := Recentes(e.objets[o].coupures, e.heure);
    var i := Place(cs, cle);
    ServeurElague(e.objets[o].coupures, o, e.finies, e.reprises, fins, e.heure);
    if i < |cs| { ServeurPris(cs, o, e.finies, e.reprises, fins, e.heure, i, s); }
    forall p | p in f.objets ensures UnServeur(f.objets[p].coupures, p, f.finies, f.reprises, fins, f.heure) {
      if p != o {
        ServeurAttend(e.objets[p].coupures, p, e.finies, e.reprises, f.reprises, fins, e.heure, e.heure);
      }
    }
  }

  lemma OuvertureSuivies(e: Etat, s: Sess, o: Oid, c: Categorie, cle: Cle, fins: seq<Sess>)
    requires Inv(e) && o in e.objets && Suivies(e.objets, e.finies, e.reprises, fins, e.heure)
    ensures var f := OuvrirSession(e, s, o, c, cle, true); Suivies(f.objets, f.finies, f.reprises, fins, f.heure)
  {
    hide Inv, Suivies, CoupuresVraies, Reprendre;
    var e1 := OuvrirNeuve(Lacher(e, o), s, Fiche(o, c, cle, e.heure, false, false));
    CoupuresDe(e, o);
    SuiviesMeme(e.objets, e1.objets, e.finies, e.reprises, fins, e.heure, e.heure);
    RepriseSuivies(e1, s, o, cle, fins);
  }

  lemma PasSuivies(e: Etat, a: Appel, fins: seq<Sess>)
    requires Inv(e) && Permis(e, a) && Suivies(e.objets, e.finies, e.reprises, fins, e.heure)
    ensures var f := Pas(e, a);
      Suivies(f.objets, f.finies, f.reprises, if a.FinSession? then fins + [a.s] else fins, f.heure)
  {
    hide Inv, Suivies, OuvrirSession, Tomber, Tenu, Clore, Pousser, Entrer, Sortir, Serveur, Lacher, Prendre,
      MemesCoupures;
    A.SessionConnue(e, a);
    if a.FinSession? {
      FinSuivies(e, a.s, fins);
    } else if a.Ouverture? && a.horsDebut {
      OuvertureSuivies(e, a.s, a.o, a.c, a.cle, fins);
    } else {
      PasCoupures(e, a);
      var f := Pas(e, a);
      SuiviesMeme(e.objets, f.objets, e.finies, e.reprises, fins, e.heure, f.heure);
    }
  }

  lemma {:induction false} ExecutionSuivies(es: seq<Etat>, appels: seq<Appel>, i: nat)
    requires Execution(es, appels) && i < |es|
    ensures Suivies(es[i].objets, es[i].finies, es[i].reprises, Fins(appels[..i]), es[i].heure)
    decreases i
  {
    hide Inv, Pas, Permis, UnServeur;
    if i > 0 {
      var n := i - 1;
      ExecutionSuivies(es, appels, n);
      ExecutionTient(es, appels, n);
      assert Permis(es[n], appels[n]) && es[i] == Pas(es[n], appels[n]);
      hide Suivies;
      PasSuivies(es[n], appels[n], Fins(appels[..n]));
      assert appels[..i][..n] == appels[..n];
      assert Fins(appels[..n]) + [] == Fins(appels[..n]);
    }
  }

  // ------------------------------------------------------------- the theorem

  /** An end that can be resumed: not complete, of that stream on that server, less
      than a minute old, not resumed yet. */
  predicate Reprenable(e: Etat, r: Sess, o: Oid, cle: Cle) {
    && Laissee(e.finies, r, o) && e.finies[r].fiche.cle == cle && e.heure - e.finies[r].t < 60_000 && r !in e.reprises
  }

  /** ... and fewer than thirty-two others of its server came after it. */
  ghost predicate Memorable(e: Etat, r: Sess, o: Oid, cle: Cle, fins: seq<Sess>) {
    Reprenable(e, r, o, cle) && r in fins && |Apres(e.finies, fins, r, o)| < 32
  }

  /** What a search finds. */
  lemma Trouvee(e: Etat, o: Oid, cle: Cle, fins: seq<Sess>)
    requires o in e.objets && CoupuresVraies(e.objets[o].coupures, o, e.finies, e.reprises)
    requires UnServeur(e.objets[o].coupures, o, e.finies, e.reprises, fins, e.heure)
    ensures var cs := Recentes(e.objets[o].coupures, e.heure);
      var i := Place(cs, cle);
      && (i < |cs| ==> Reprenable(e, cs[i].session, o, cle) && cs[i].session in fins)
      && forall q :: Memorable(e, q, o, cle, fins) ==>
           i < |cs| && q in fins && cs[i].session in fins && Rang(fins, cs[i].session) <= Rang(fins, q)
  {
    var tout := e.objets[o].coupures;
    var cs := Recentes(tout, e.heure);
    var i := Place(cs, cle);
    RecentesOrdre(tout, fins, e.heure);
    if i < |cs| {
      assert cs[i] in cs && cs[i] in tout;
      Vraie(tout, cs[i], o, e.finies, e.reprises);
      assert cs[i].session in fins by { hide Recentes, Place; }
    }
    forall q | Memorable(e, q, o, cle, fins)
      ensures i < |cs| && q in fins && cs[i].session in fins && Rang(fins, cs[i].session) <= Rang(fins, q)
    {
      var k := Rappel(e, o, cle, fins, q);
    }
  }

  lemma Vraie(cs: seq<Coupure>, c: Coupure, o: Oid, finies: map<Sess, Issue>, reprises: map<Sess, Sess>)
    requires CoupuresVraies(cs, o, finies, reprises) && c in cs
    ensures CoupureVraie(c, o, finies, reprises)
  {
    var i :| 0 <= i < |cs| && cs[i] == c;
  }

  /** A memorable end is among the recent cuts. */
  lemma Rappel(e: Etat, o: Oid, cle: Cle, fins: seq<Sess>, q: Sess) returns (k: nat)
    requires o in e.objets && CoupuresVraies(e.objets[o].coupures, o, e.finies, e.reprises)
    requires UnServeur(e.objets[o].coupures, o, e.finies, e.reprises, fins, e.heure) && Memorable(e, q, o, cle, fins)
    ensures var cs := Recentes(e.objets[o].coupures, e.heure); k < |cs| && cs[k].session == q && cs[k].cle == cle
  {
    hide Recentes, EnOrdre, CoupuresVraies, Apres;
    var tout := e.objets[o].coupures;
    assert Retenue(tout, e.finies, fins, e.heure, q, o);
    var i :| 0 <= i < |tout| && tout[i].session == q;
    assert tout[i] in tout;
    Vraie(tout, tout[i], o, e.finies, e.reprises);
    var cs := Recentes(tout, e.heure);
    assert tout[i] in cs;
    k :| 0 <= k < |cs| && cs[k] == tout[i];
  }

  /** A session opened past byte zero: it resumes an end that can be resumed, no later
      than any memorable one, or there is no memorable end and it resumes none. */
  ghost predicate Reprise(e: Etat, f: Etat, s: Sess, o: Oid, cle: Cle, fins: seq<Sess>) {
    || (f.reprises == e.reprises && forall q :: !Memorable(e, q, o, cle, fins))
    || exists r :: Reprenable(e, r, o, cle) && r in fins && f.reprises == e.reprises[r := s]
                   && forall q :: Memorable(e, q, o, cle, fins) ==> Rang(fins, r) <= Rang(fins, q)
  }

  /** Resumes, exactly: only a session opened past byte zero resumes one, and it does
      as soon as an end of its stream is memorable. */
  lemma RepriseExacte(es: seq<Etat>, appels: seq<Appel>, i: nat)
    requires Execution(es, appels) && i < |appels|
    ensures var e, f, a := es[i], es[i + 1], appels[i];
      if a.Ouverture? && a.horsDebut then Reprise(e, f, a.s, a.o, a.cle, Fins(appels[..i]))
      else f.reprises == e.reprises
  {
    hide Inv, Pas, Permis, Suivies, Reprise, Fins;
    var e, a := es[i], appels[i];
    ExecutionSuivies(es, appels, i);
    ExecutionTient(es, appels, i);
    assert Permis(e, a) && es[i + 1] == Pas(e, a);
    A.SessionConnue(e, a);
    if a.Ouverture? && a.horsDebut {
      OuvertureReprise(e, a.s, a.o, a.c, a.cle, Fins(appels[..i]));
      PasOuverture(e, a);
    } else {
      AutreReprise(e, a);
    }
  }

  lemma PasOuverture(e: Etat, a: Appel)
    requires a.Ouverture? && a.o in e.objets
    ensures Pas(e, a) == OuvrirSession(e, a.s, a.o, a.c, a.cle, a.horsDebut)
  {
    hide OuvrirSession;
  }

  lemma AutreReprise(e: Etat, a: Appel)
    requires Permis(e, a) && !(a.Ouverture? && a.horsDebut)
    ensures Pas(e, a).reprises == e.reprises
  {
    if a.FinSession? {
      hide Noter, FinDe, Compter;
    } else {
      hide Pas, MemesCoupures;
      PasCoupures(e, a);
    }
  }

  lemma OuvertureReprise(e: Etat, s: Sess, o: Oid, c: Categorie, cle: Cle, fins: seq<Sess>)
    requires Inv(e) && o in e.objets && Suivies(e.objets, e.finies, e.reprises, fins, e.heure)
    ensures Reprise(e, OuvrirSession(e, s, o, c, cle, true), s, o, cle, fins)
  {
    hide Inv, CoupuresVraies, UnServeur, Recentes, Place, Memorable, Reprenable, Reprendre;
    CoupuresDe(e, o);
    Trouvee(e, o, cle, fins);
    var e1 := OuvrirNeuve(Lacher(e, o), s, Fiche(o, c, cle, e.heure, false, false));
    ReprendreForme(e1, s, o, cle);
    assert e1.objets[o].coupures == e.objets[o].coupures && e1.heure == e.heure && e1.reprises == e.reprises;
  }
}
