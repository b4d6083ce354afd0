/** What the relay delivers, over every history of events. */
module RelaisProofs {
  import opened Commun
  import opened RelaisSpec
  import Base64

  function Rang(rangs: map<Id, nat>, id: Id): Option<nat> { if id in rangs then Some(rangs[id]) else None }

  /** What is known of a body, given whether its sink is open and the rank its
      connection expects. */
  ghost predicate Tenu(c: Corps, ouvert: bool, rang: Option<nat>) {
    && c.admis <= |c.vues|
    && c.recu == Charges(c.vues[..c.admis])
    && Suivre(c.vues[..c.admis]).Attend?
    && (ouvert ==> c.admis == |c.vues| && !c.finie && !c.finPropre && Suivre(c.vues) == Attend(rang))
    && (c.finPropre ==> c.admis == |c.vues| && c.finie)
    && (c.admis < |c.vues| ==> Suivre(c.vues[..c.admis + 1]).Refusee? || !c.lecteur)
    && (!ouvert && !c.finie ==> c.admis < |c.vues| || !c.lecteur)
  }

  ghost predicate Inv(e: Etat) {
    && e.flux <= e.corps.Keys <= e.demandes - e.pending
    && e.pending <= e.demandes
    && e.rangs.Keys <= e.corps.Keys
    && forall id :: id in e.corps ==> Tenu(e.corps[id], id in e.flux, Rang(e.rangs, id))
  }

  // ---------------------------------------------------------- small steps

  lemma AjoutVues(c: Corps, t: Trame)
    ensures (c.vues + [t])[..|c.vues|] == c.vues && (c.vues + [t])[..|c.vues| + 1] == c.vues + [t]
    ensures Suivre(c.vues + [t]) == Avancer(Suivre(c.vues), t)
    ensures Charges(c.vues + [t]) == Charges(c.vues) +
              match t
              case Binaire(_, o) => [o]
              case Texte(x) => if Base64.Decoder(x).Some? then [Base64.Decoder(x).value] else []
    ensures c.admis <= |c.vues| ==> (c.vues + [t])[..c.admis] == c.vues[..c.admis]
    ensures c.admis < |c.vues| ==> (c.vues + [t])[..c.admis + 1] == c.vues[..c.admis + 1]
  {
    assert (c.vues + [t])[..|c.vues|] == c.vues;
    hide Base64.Decoder;
  }

  /** A chunk let in. */
  lemma LivrerTenu(c: Corps, rang: Option<nat>, t: Trame, o: seq<Octet>, rang': Option<nat>)
    requires Tenu(c, true, rang) && c.lecteur
    requires Avancer(Attend(rang), t) == Attend(rang')
    requires match t case Binaire(_, x) => o == x case Texte(x) => Base64.Decoder(x) == Some(o)
    ensures Tenu(Livrer(Voir(c, t), o), true, rang')
  {
    AjoutVues(c, t);
    assert c.vues[..c.admis] == c.vues;
    hide Suivre, Charges, Base64.Decoder;
    var d := Livrer(Voir(c, t), o);
    assert d.vues[..d.admis] == d.vues;
  }

  /** An illegible text, skipped. */
  lemma SauterTenu(c: Corps, rang: Option<nat>, t: Trame)
    requires Tenu(c, true, rang) && t.Texte? && Base64.Decoder(t.encode).None?
    ensures Tenu(Voir(c, t).(admis := c.admis + 1), true, rang)
  {
    AjoutVues(c, t);
    assert c.vues[..c.admis] == c.vues;
    hide Suivre, Charges, Base64.Decoder;
    var d := Voir(c, t).(admis := c.admis + 1);
    assert d.vues[..d.admis] == d.vues;
    assert d.recu == Charges(d.vues);
  }

  /** A chunk refused, or sent to nobody: the sink closes. */
  lemma RefuserTenu(c: Corps, rang: Option<nat>, t: Trame)
    requires Tenu(c, true, rang) && (Avancer(Attend(rang), t).Refusee? || !c.lecteur)
    ensures forall r :: Tenu(Voir(c, t), false, r)
  {
    AjoutVues(c, t);
    assert c.vues[..c.admis] == c.vues;
    hide Suivre, Charges, Base64.Decoder;
  }

  /** A chunk for a body whose sink is closed. */
  lemma ManquerTenu(c: Corps, rang: Option<nat>, t: Trame)
    requires Tenu(c, false, rang)
    ensures forall r :: Tenu(Voir(c, t), false, r)
  {
    AjoutVues(c, t);
    hide Suivre, Charges, Base64.Decoder;
  }

  lemma TerminerTenu(c: Corps, ouvert: bool, rang: Option<nat>, propre: bool)
    requires Tenu(c, ouvert, rang) && (propre ==> ouvert)
    ensures forall r :: Tenu(Terminer(c, propre), false, r)
  {
    hide Suivre, Charges;
  }

  lemma PartirTenu(c: Corps, ouvert: bool, rang: Option<nat>)
    requires Tenu(c, ouvert, rang)
    ensures Tenu(c.(lecteur := false), ouvert, rang)
  {
    hide Suivre, Charges;
  }

  /** Only the sinks open matter to the rank of a stream. */
  lemma RangAilleurs(rangs: map<Id, nat>, ouverts: set<Id>, id: Id, rang: nat, autre: Id)
    requires autre != id
    ensures var r := Ranger(rangs, ouverts, id, rang).0;
      && (autre in ouverts ==> Rang(r, autre) == Rang(rangs, autre))
      && (autre in r ==> autre in rangs)
  {
  }

  /** On an open sink the table of ranks follows the rank rule. */
  lemma RangIci(rangs: map<Id, nat>, ouverts: set<Id>, id: Id, t: Trame)
    requires id in ouverts && t.Binaire?
    ensures var (r, b) := Ranger(rangs, ouverts, id, t.rang);
      Avancer(Attend(Rang(rangs, id)), t) == if b then Attend(Rang(r, id)) else Refusee
  {
  }

  lemma RecevoirTenu(e: Etat, id: Id, t: Trame)
    requires Inv(e) && id in e.corps
    ensures var f := Recevoir(e, id, t); id in f.corps && Tenu(f.corps[id], id in f.flux, Rang(f.rangs, id))
  {
    var c := e.corps[id];
    hide Suivre, Charges, Base64.Decoder;
    if id !in e.flux {
      assert Tenu(c, false, Rang(e.rangs, id));
      hide Tenu;
      ManquerTenu(c, Rang(e.rangs, id), t);
    } else {
      assert !c.finie by { assert Tenu(c, true, Rang(e.rangs, id)); }
      if t.Binaire? { RangIci(e.rangs, e.flux, id, t); }
      hide Tenu, Ranger;
      var rang' := Rang((if t.Binaire? then Ranger(e.rangs, e.flux, id, t.rang) else (e.rangs, true)).0, id);
      var d := if t.Texte? then Base64.Decoder(t.encode) else Some(t.octets);
      if !c.lecteur || Avancer(Attend(Rang(e.rangs, id)), t).Refusee? {
        RefuserTenu(c, Rang(e.rangs, id), t);
        if t.Texte? && d.None? { SauterTenu(c, Rang(e.rangs, id), t); }
      } else if d.None? {
        SauterTenu(c, Rang(e.rangs, id), t);
      } else {
        LivrerTenu(c, Rang(e.rangs, id), t, d.value, rang');
      }
    }
  }

  /** A frame of one stream leaves the others as they were. */
  lemma RecevoirAilleurs(e: Etat, id: Id, t: Trame, autre: Id)
    requires Inv(e) && autre != id
    ensures var f := Recevoir(e, id, t);
      && (autre in f.corps <==> autre in e.corps)
      && (autre in f.corps ==> f.corps[autre] == e.corps[autre])
      && (autre in f.flux <==> autre in e.flux)
      && (autre in e.flux ==> Rang(f.rangs, autre) == Rang(e.rangs, autre))
      && (autre in f.rangs ==> autre in e.rangs)
  {
    hide Tenu, Base64.Decoder;
    if t.Binaire? { RangAilleurs(e.rangs, e.flux, id, t.rang, autre); }
    hide Ranger, Voir, Livrer;
  }

  lemma RangFerme(c: Corps, rang: Option<nat>)
    requires Tenu(c, false, rang)
    ensures forall r :: Tenu(c, false, r)
  {
    hide Suivre, Charges;
  }

  lemma RecevoirCadre(e: Etat, id: Id, t: Trame)
    ensures var f := Recevoir(e, id, t);
      && f.pending == e.pending && f.demandes == e.demandes
      && (f.flux == e.flux || f.flux == e.flux - {id})
      && (if id in e.corps then id in f.corps && f.corps == e.corps[id := f.corps[id]] else f.corps == e.corps)
      && f.rangs == if t.Binaire? then Ranger(e.rangs, e.flux, id, t.rang).0 else e.rangs
  {
    hide Base64.Decoder, Voir, Livrer, Ranger;
  }

  lemma AutreTenu(e: Etat, id: Id, t: Trame, autre: Id)
    requires Inv(e) && autre != id
    ensures var f := Recevoir(e, id, t);
      && (autre in f.corps ==> Tenu(f.corps[autre], autre in f.flux, Rang(f.rangs, autre)))
      && (autre in f.rangs ==> autre in e.rangs)
  {
    RecevoirAilleurs(e, id, t, autre);
    hide Recevoir;
    if autre in e.corps && autre !in e.flux { RangFerme(e.corps[autre], Rang(e.rangs, autre)); }
    hide Tenu;
  }

  lemma RecevoirTient(e: Etat, id: Id, t: Trame)
    requires Inv(e)
    ensures Inv(Recevoir(e, id, t))
  {
    var f := Recevoir(e, id, t);
    if id in e.corps { RecevoirTenu(e, id, t); }
    RecevoirCadre(e, id, t);
    assert id in f.rangs ==> id in e.corps;
    forall autre | autre != id
      ensures autre in f.corps ==> Tenu(f.corps[autre], autre in f.flux, Rang(f.rangs, autre))
      ensures autre in f.rangs ==> autre in e.rangs
    {
      AutreTenu(e, id, t, autre);
    }
    hide Tenu, Recevoir, Ranger;
    assert f.corps.Keys == e.corps.Keys;
  }

  lemma OuvrirTient(e: Etat, id: Id, statut: nat, present: bool)
    requires Inv(e)
    ensures Inv(Ouvrir(e, id, statut, present))
  {
    var f := Ouvrir(e, id, statut, present);
    if id in e.pending && statut < 400 {
      assert id !in e.corps && id !in e.rangs;
      assert Tenu(Corps([], false, present, [], 0, false), present, None);
      assert f.corps[id] == Corps([], false, present, [], 0, false);
    }
    hide Tenu;
  }

  lemma FermerTient(e: Etat, id: Id)
    requires Inv(e)
    ensures Inv(Fermer(e, id))
  {
    if id in e.corps { TerminerTenu(e.corps[id], id in e.flux, Rang(e.rangs, id), id in e.flux); }
    hide Tenu, Terminer;
  }

  lemma DeconnexionTient(e: Etat)
    requires Inv(e)
    ensures Inv(Pas(e, Deconnexion))
  {
    forall id | id in e.corps ensures forall r :: Tenu(Terminer(e.corps[id], false), false, r) {
      TerminerTenu(e.corps[id], id in e.flux, Rang(e.rangs, id), false);
    }
    hide Tenu, Terminer;
  }

  /** Every event keeps what is known of every body. */
  lemma PasTient(e: Etat, ev: Evenement)
    requires Inv(e) && Permis(e, ev)
    ensures Inv(Pas(e, ev))
  {
    match ev
    case Debut(id, statut, present) => OuvrirTient(e, id, statut, present);
    case Chunk(id, t) => RecevoirTient(e, id, t);
    case Fin(id) => FermerTient(e, id);
    case Deconnexion => DeconnexionTient(e);
    case ClientParti(id) =>
      if id in e.corps { PartirTenu(e.corps[id], id in e.flux, Rang(e.rangs, id)); }
      hide Tenu;
    case _ => hide Tenu;
  }

  lemma PrefixePermis(evs: seq<Evenement>, n: nat)
    requires Permise(evs) && n <= |evs|
    ensures Permise(evs[..n])
  {
    forall i | 0 <= i < n ensures Permis(Jusque(evs[..n][..i]), evs[..n][i]) {
      assert evs[..n][..i] == evs[..i];
    }
  }

  lemma {:induction false} JusqueTient(evs: seq<Evenement>)
    requires Permise(evs)
    ensures Inv(Jusque(evs))
  {
    if evs != [] {
      var n := |evs| - 1;
      PrefixePermis(evs, n);
      JusqueTient(evs[..n]);
      PasTient(Jusque(evs[..n]), evs[n]);
    }
  }
}
