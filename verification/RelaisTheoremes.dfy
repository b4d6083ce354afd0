/** The delivery guarantees of the relay, over every permitted history. */
module RelaisTheoremes {
  import opened Commun
  import opened RelaisSpec
  import opened RelaisProofs
  import Base64

  // ------------------------------------------------- what a rank run means

  function RangsDe(ts: seq<Trame>): seq<nat> {
    if ts == [] then [] else
    RangsDe(ts[..|ts| - 1]) + if ts[|ts| - 1].Binaire? then [ts[|ts| - 1].rang] else []
  }

  ghost predicate Consecutifs(rs: seq<nat>) { forall i :: 0 <= i < |rs| ==> rs[i] == i }

  ghost predicate UnSeulZero(rs: seq<nat>) { forall i, j :: 0 <= i < j < |rs| ==> rs[i] != 0 || rs[j] != 0 }

  /** When rank 0 comes at most once, a run passes the rank rule exactly when its
      chunks are numbered 0, 1, 2... */
  lemma {:induction false} RegleDesRangs(ts: seq<Trame>)
    requires UnSeulZero(RangsDe(ts))
    ensures Suivre(ts).Attend? <==> Consecutifs(RangsDe(ts))
    ensures Suivre(ts).Attend? ==>
              Suivre(ts).prochain == if RangsDe(ts) == [] then None else Some(|RangsDe(ts)|)
  {
    if ts != [] {
      var p, t := ts[..|ts| - 1], ts[|ts| - 1];
      var rs, ps := RangsDe(ts), RangsDe(p);
      assert ps == rs[..|ps|];
      assert UnSeulZero(ps) by {
        forall i, j | 0 <= i < j < |ps| ensures ps[i] != 0 || ps[j] != 0 { assert rs[i] != 0 || rs[j] != 0; }
      }
      RegleDesRangs(p);
      if t.Binaire? {
        var k := |ps|;
        assert rs == ps + [t.rang];
        assert Consecutifs(rs) <==> Consecutifs(ps) && t.rang == k by {
          if Consecutifs(rs) {
            assert rs[k] == k;
            assert forall i :: 0 <= i < k ==> rs[i] == ps[i];
          }
        }
        if Consecutifs(ps) && k > 0 {
          assert ps[0] == 0 && rs[0] == 0;
          assert rs[0] != 0 || rs[k] != 0;
        }
      }
    }
  }

  /** A run that passes the rank rule is numbered 0, 1, 2... exactly when rank 0 came
      at most once in it: a chunk out of turn is never let in otherwise. */
  lemma ZeroUnique(ts: seq<Trame>)
    requires Suivre(ts).Attend?
    ensures Consecutifs(RangsDe(ts)) <==> UnSeulZero(RangsDe(ts))
  {
    hide Suivre, RangsDe;
    if UnSeulZero(RangsDe(ts)) { RegleDesRangs(ts); }
  }

  lemma {:induction false} SuivrePrefixe(ts: seq<Trame>, n: nat)
    requires n <= |ts| && Suivre(ts).Attend?
    ensures Suivre(ts[..n]).Attend?
  {
    if n == |ts| {
      assert ts[..n] == ts;
    } else {
      SuivrePrefixe(ts[..|ts| - 1], n);
      assert ts[..|ts| - 1][..n] == ts[..n];
    }
  }

  /** The length of the longest beginning that passes the rank rule. */
  ghost function Portion(ts: seq<Trame>): (n: nat)
    ensures n <= |ts| && Suivre(ts[..n]).Attend?
    ensures n < |ts| ==> Suivre(ts[..n + 1]).Refusee?
  {
    if Suivre(ts).Attend? then assert ts[..|ts|] == ts; |ts| else
      var p := ts[..|ts| - 1];
      var n := Portion(p);
      assert p[..n] == ts[..n];
      assert n < |p| ==> p[..n + 1] == ts[..n + 1];
      assert n == |p| ==> ts[..n + 1] == ts;
      n
  }

  lemma PortionUnique(ts: seq<Trame>, n: nat)
    requires n <= |ts| && Suivre(ts[..n]).Attend?
    requires n < |ts| ==> Suivre(ts[..n + 1]).Refusee?
    ensures n == Portion(ts)
  {
    var m := Portion(ts);
    if n < m {
      assert ts[..m][..n + 1] == ts[..n + 1];
      SuivrePrefixe(ts[..m], n + 1);
    } else if m < n {
      assert ts[..n][..m + 1] == ts[..m + 1];
      SuivrePrefixe(ts[..n], m + 1);
    }
  }

  // --------------------------------------- the frames of one stream, told apart

  /** Read off the history alone: a request waits from the moment it is made until it
      is given up, answered, or the server goes. */
  ghost predicate Attendue(evs: seq<Evenement>, id: Id) {
    if evs == [] then false else
    var ev := evs[|evs| - 1];
    if ev == Demander(id) then true
    else if ev == Abandonner(id) || (ev.Debut? && ev.id == id) || ev.Deconnexion? then false
    else Attendue(evs[..|evs| - 1], id)
  }

  lemma {:induction false} AttenteJuste(evs: seq<Evenement>, id: Id)
    ensures Attendue(evs, id) <==> id in Jusque(evs).pending
  {
    if evs != [] {
      AttenteJuste(evs[..|evs| - 1], id);
      hide Base64.Decoder, Ranger, Voir, Livrer, Terminer;
    }
  }

  /** Read off the history alone: a body is read from its start, when the client was
      there, until the client leaves. */
  ghost predicate Lit(evs: seq<Evenement>, id: Id) {
    if evs == [] then false else
    var p, ev := evs[..|evs| - 1], evs[|evs| - 1];
    if ev.Debut? && ev.id == id && ev.statut < 400 && Attendue(p, id) then ev.present
    else ev != ClientParti(id) && Lit(p, id)
  }

  /** Those bodies are the ones the model says are read. */
  lemma {:induction false} LecteurJuste(evs: seq<Evenement>, id: Id)
    ensures Lit(evs, id) <==> id in Jusque(evs).corps && Jusque(evs).corps[id].lecteur
  {
    if evs != [] {
      var p, ev := evs[..|evs| - 1], evs[|evs| - 1];
      LecteurJuste(p, id);
      AttenteJuste(p, id);
      UnPasLu(Jusque(p), ev, id);
      hide Pas, Attendue;
    }
  }

  lemma UnPasLu(e: Etat, ev: Evenement, id: Id)
    ensures var f := Pas(e, ev);
      id in f.corps && f.corps[id].lecteur <==>
        if ev.Debut? && ev.id == id && ev.statut < 400 && id in e.pending then ev.present
        else ev != ClientParti(id) && id in e.corps && e.corps[id].lecteur
  {
    hide Base64.Decoder, Ranger;
  }

  /** A body is marked clean only by the end of its own stream, come while its sink
      was open. */
  lemma {:induction false} FinPropreVient(evs: seq<Evenement>, id: Id) returns (n: nat)
    requires Permise(evs) && id in Jusque(evs).corps && Jusque(evs).corps[id].finPropre
    ensures n < |evs| && evs[n] == Fin(id) && id in Jusque(evs[..n]).flux
    decreases |evs|
  {
    var k := |evs| - 1;
    var p, ev := evs[..k], evs[k];
    PrefixePermis(evs, k);
    JusqueTient(p);
    UnPasPropre(Jusque(p), ev, id);
    hide Pas, Permise, Inv;
    if id in Jusque(p).corps && Jusque(p).corps[id].finPropre {
      n := FinPropreVient(p, id);
      assert evs[..n] == p[..n];
    } else {
      n := k;
    }
  }

  lemma UnPasPropre(e: Etat, ev: Evenement, id: Id)
    ensures var f := Pas(e, ev);
      id in f.corps && f.corps[id].finPropre ==>
        (id in e.corps && e.corps[id].finPropre) || (ev == Fin(id) && id in e.flux)
  {
    hide Base64.Decoder, Ranger;
  }

  /** Read off the history alone: the frames of the stream between the start that
      answered its request and its end, and whether the end has come. */
  ghost function Recues(evs: seq<Evenement>, id: Id): Option<(seq<Trame>, bool)> {
    if evs == [] then None else
    var p, ev := evs[..|evs| - 1], evs[|evs| - 1];
    var r := Recues(p, id);
    match r
    case None =>
      if ev.Debut? && ev.id == id && ev.statut < 400 && Attendue(p, id) then Some(([], false)) else None
    case Some((ts, finie)) =>
      if ev.Chunk? && ev.id == id && !finie then Some((ts + [ev.trame], false))
      else if ev.Deconnexion? || (ev.Fin? && ev.id == id) then Some((ts, true))
      else r
  }

  /** Those frames are what the model calls the frames seen. */
  lemma {:induction false} VuesJustes(evs: seq<Evenement>, id: Id)
    requires Permise(evs)
    ensures Recues(evs, id) ==
            if id in Jusque(evs).corps then Some((Jusque(evs).corps[id].vues, Jusque(evs).corps[id].finie)) else None
  {
    if evs != [] {
      var p, ev := evs[..|evs| - 1], evs[|evs| - 1];
      PrefixePermis(evs, |evs| - 1);
      VuesJustes(p, id);
      AttenteJuste(p, id);
      JusqueTient(p);
      UnPasVu(Jusque(p), ev, id);
    }
  }

  function Vue(e: Etat, id: Id): Option<(seq<Trame>, bool)> {
    if id in e.corps then Some((e.corps[id].vues, e.corps[id].finie)) else None
  }

  lemma UnPasVu(e: Etat, ev: Evenement, id: Id)
    requires Inv(e)
    ensures Vue(Pas(e, ev), id) ==
            match Vue(e, id)
            case None =>
              if ev.Debut? && ev.id == id && ev.statut < 400 && id in e.pending then Some(([], false)) else None
            case Some((ts, finie)) =>
              if ev.Chunk? && ev.id == id && !finie then Some((ts + [ev.trame], false))
              else if ev.Deconnexion? || (ev.Fin? && ev.id == id) then Some((ts, true))
              else Vue(e, id)
  {
    hide Tenu, Base64.Decoder;
    if ev.Chunk? {
      if ev.id != id { RecevoirAilleurs(e, ev.id, ev.trame, id); }
      RecevoirCadre(e, ev.id, ev.trame);
    }
    hide Ranger;
  }

  // ------------------------------------------------- what reaches a body

  lemma CorpsTenu(evs: seq<Evenement>, id: Id)
    requires Permise(evs) && id in Jusque(evs).corps
    ensures var e := Jusque(evs); Tenu(e.corps[id], id in e.flux, Rang(e.rangs, id))
  {
    JusqueTient(evs);
  }

  /** Whatever else crosses the wire, a body has received, in order, the bytes of
      a beginning of its own frames. While someone reads it, that beginning is the
      longest the rank rule allows. Its chunks are ranks 0..k-1 exactly when rank 0
      came at most once among them. */
  lemma LivraisonExacte(evs: seq<Evenement>, id: Id)
    requires Permise(evs) && id in Jusque(evs).corps
    ensures var c := Jusque(evs).corps[id];
      && c.admis <= |c.vues|
      && c.recu == Charges(c.vues[..c.admis])
      && (c.lecteur ==> c.admis == Portion(c.vues))
      && (Consecutifs(RangsDe(c.vues[..c.admis])) <==> UnSeulZero(RangsDe(c.vues[..c.admis])))
      && (UnSeulZero(RangsDe(c.vues)) ==> Consecutifs(RangsDe(c.vues[..c.admis])))
  {
    hide Permise, Jusque, Charges, Suivre, RangsDe, Portion;
    CorpsTenu(evs, id);
    var c := Jusque(evs).corps[id];
    if c.lecteur { PortionUnique(c.vues, c.admis); }
    ZeroUnique(c.vues[..c.admis]);
    RangsPrefixe(c.vues, c.admis);
    DebutUnZero(RangsDe(c.vues), RangsDe(c.vues[..c.admis]));
  }

  lemma DebutUnZero(rs: seq<nat>, ps: seq<nat>)
    requires ps <= rs
    ensures UnSeulZero(rs) ==> UnSeulZero(ps)
  {
  }

  lemma {:induction false} RangsPrefixe(ts: seq<Trame>, n: nat)
    requires n <= |ts|
    ensures RangsDe(ts[..n]) <= RangsDe(ts)
  {
    if n == |ts| {
      assert ts[..n] == ts;
    } else {
      RangsPrefixe(ts[..|ts| - 1], n);
      assert ts[..|ts| - 1][..n] == ts[..n];
    }
  }

  /** A text whose base64 reads, or any ranked chunk. */
  predicate Lisible(t: Trame) { t.Texte? ==> Base64.Decoder(t.encode).Some? }

  function Contenu(t: Trame): seq<Octet>
    requires Lisible(t)
  {
    if t.Binaire? then t.octets else Base64.Decoder(t.encode).value
  }

  ghost predicate ToutLisible(ts: seq<Trame>) { forall i :: 0 <= i < |ts| ==> Lisible(ts[i]) }

  /** Each frame of the run, whole and in its place. */
  ghost predicate Integral(recu: seq<seq<Octet>>, ts: seq<Trame>)
    requires ToutLisible(ts)
  {
    |recu| == |ts| && forall i :: 0 <= i < |ts| ==> recu[i] == Contenu(ts[i])
  }

  lemma ChargesAjout(p: seq<Trame>, t: Trame)
    ensures Charges(p + [t]) == Charges(p) + if Lisible(t) then [Contenu(t)] else []
    ensures ToutLisible(p + [t]) <==> ToutLisible(p) && Lisible(t)
  {
    assert (p + [t])[..|p|] == p;
    hide Base64.Decoder;
    assert ToutLisible(p + [t]) ==> ToutLisible(p) && Lisible(t) by {
      if ToutLisible(p + [t]) {
        assert Lisible((p + [t])[|p|]);
        assert forall i :: 0 <= i < |p| ==> p[i] == (p + [t])[i];
      }
    }
  }

  /** The frames of a run all reach the body, each whole and in its place,
      exactly when every text among them reads. */
  lemma {:induction false} ChargesLisibles(ts: seq<Trame>)
    ensures |Charges(ts)| <= |ts|
    ensures |Charges(ts)| == |ts| <==> ToutLisible(ts)
    ensures ToutLisible(ts) ==> Integral(Charges(ts), ts)
  {
    if ts != [] {
      var p, t := ts[..|ts| - 1], ts[|ts| - 1];
      assert ts == p + [t];
      ChargesLisibles(p);
      ChargesAjout(p, t);
      hide Lisible, Contenu, Charges, ToutLisible;
    }
  }

  /** A stream marked clean has lost no frame to the rank rule or to the sink:
      every frame since its start is in the body unless its base64 does not
      read. */
  lemma FinPropreComplete(evs: seq<Evenement>, id: Id)
    requires Permise(evs) && id in Jusque(evs).corps && Jusque(evs).corps[id].finPropre
    ensures var c := Jusque(evs).corps[id];
      && c.finie && c.recu == Charges(c.vues)
      && (|c.recu| == |c.vues| <==> ToutLisible(c.vues))
      && (ToutLisible(c.vues) ==> Integral(c.recu, c.vues))
  {
    CorpsTenu(evs, id);
    var c := Jusque(evs).corps[id];
    assert c.vues[..c.admis] == c.vues;
    ChargesLisibles(c.vues);
  }

  /** While someone reads, an end of stream is marked clean exactly when every
      frame since the start passed the rank rule. */
  lemma FinPropreExacte(evs: seq<Evenement>, id: Id)
    requires Permise(evs) && id in Jusque(evs).corps
    requires Jusque(evs).corps[id].lecteur && !Jusque(evs).corps[id].finie
    ensures Jusque(evs + [Fin(id)]).corps[id].finPropre <==> Suivre(Jusque(evs).corps[id].vues).Attend?
  {
    CorpsTenu(evs, id);
    var c := Jusque(evs).corps[id];
    var suite := evs + [Fin(id)];
    assert suite[..|suite| - 1] == evs;
    if c.admis < |c.vues| && Suivre(c.vues).Attend? {
      SuivrePrefixe(c.vues, c.admis + 1);
    }
    assert c.admis == |c.vues| ==> c.vues[..c.admis] == c.vues;
  }

  /** Once the sink of a body is closed, nothing more reaches it. */
  lemma {:induction false} FermePourToujours(evs: seq<Evenement>, i: nat, id: Id)
    requires Permise(evs) && i <= |evs|
    requires id in Jusque(evs[..i]).corps && id !in Jusque(evs[..i]).flux
    ensures id in Jusque(evs).corps && id !in Jusque(evs).flux
    ensures Jusque(evs).corps[id].recu == Jusque(evs[..i]).corps[id].recu
    decreases |evs|
  {
    hide Permise, Pas, Inv;
    if i == |evs| {
      assert evs[..i] == evs;
    } else {
      var n := |evs| - 1;
      PrefixePermis(evs, n);
      assert evs[..n][..i] == evs[..i];
      FermePourToujours(evs[..n], i, id);
      JusqueTient(evs[..n]);
      ResteFerme(Jusque(evs[..n]), evs[n], id);
    }
  }

  lemma ResteFerme(e: Etat, ev: Evenement, id: Id)
    requires Inv(e) && id in e.corps && id !in e.flux
    ensures var f := Pas(e, ev); id in f.corps && id !in f.flux && f.corps[id].recu == e.corps[id].recu
  {
    hide Tenu;
    if ev.Chunk? && ev.id != id { RecevoirAilleurs(e, ev.id, ev.trame, id); }
    hide Ranger, Base64.Decoder;
  }

  // --------------------------------------------------- streams do not mix

  predicate Concerne(ev: Evenement, id: Id) {
    match ev
    case Illisible => false
    case Deconnexion => true
    case Demander(j) => j == id
    case Abandonner(j) => j == id
    case Debut(j, _, _) => j == id
    case Chunk(j, _) => j == id
    case Fin(j) => j == id
    case ClientParti(j) => j == id
  }

  /** The events of one stream. */
  ghost function Filtre(evs: seq<Evenement>, id: Id): seq<Evenement> {
    if evs == [] then [] else
    Filtre(evs[..|evs| - 1], id) + if Concerne(evs[|evs| - 1], id) then [evs[|evs| - 1]] else []
  }

  /** What one stream can see of a state. */
  datatype Locale = Locale(demande: bool, attendu: bool, ouvert: bool, corps: Option<Corps>, rang: Option<nat>)

  function Ici(e: Etat, id: Id): Locale {
    Locale(id in e.demandes, id in e.pending, id in e.flux,
           if id in e.corps then Some(e.corps[id]) else None,
           if id in e.flux then Rang(e.rangs, id) else None)
  }

  lemma PasAilleurs(e: Etat, ev: Evenement, id: Id)
    requires Inv(e) && !Concerne(ev, id)
    ensures Ici(Pas(e, ev), id) == Ici(e, id)
  {
    if ev.Chunk? {
      RecevoirAilleurs(e, ev.id, ev.trame, id);
      RecevoirCadre(e, ev.id, ev.trame);
    }
    hide Tenu, Recevoir;
  }

  lemma PasIci(e: Etat, f: Etat, ev: Evenement, id: Id)
    requires Inv(e) && Inv(f) && Concerne(ev, id) && Ici(e, id) == Ici(f, id)
    ensures Ici(Pas(e, ev), id) == Ici(Pas(f, ev), id)
  {
    if ev.Chunk? {
      ChunkIci(e, f, id, ev.trame);
    } else {
      hide Tenu, Recevoir;
    }
  }

  lemma ChunkIci(e: Etat, f: Etat, id: Id, t: Trame)
    requires Inv(e) && Inv(f) && Ici(e, id) == Ici(f, id)
    ensures Ici(Recevoir(e, id, t), id) == Ici(Recevoir(f, id, t), id)
  {
    hide Tenu, Base64.Decoder;
    if id in e.flux && t.Binaire? {
      RangIci(e.rangs, e.flux, id, t);
      RangIci(f.rangs, f.flux, id, t);
    }
    hide Ranger, Voir, Livrer;
  }

  /** The body of a stream, and whether its sink is open, are the same as if the
      other streams of the wire had never been. */
  lemma {:induction false} Independance(evs: seq<Evenement>, id: Id)
    requires Permise(evs)
    ensures Permise(Filtre(evs, id))
    ensures Ici(Jusque(evs), id) == Ici(Jusque(Filtre(evs, id)), id)
  {
    hide Permise, Pas, Inv, Ici, Permis;
    if evs == [] {
      assert Filtre(evs, id) == evs;
    } else {
      var n := |evs| - 1;
      var p, ev := evs[..n], evs[n];
      var q := Filtre(p, id);
      PrefixePermis(evs, n);
      DernierPermis(evs);
      Independance(p, id);
      JusqueTient(p);
      JusqueTient(q);
      if Concerne(ev, id) {
        assert (q + [ev])[..|q|] == q;
        PermisIci(Jusque(p), Jusque(q), ev, id);
        PermisePlus(q, ev);
        PasIci(Jusque(p), Jusque(q), ev, id);
      } else {
        PasAilleurs(Jusque(p), ev, id);
        assert Filtre(evs, id) == q;
      }
    }
  }

  lemma DernierPermis(evs: seq<Evenement>)
    requires Permise(evs) && evs != []
    ensures Permis(Jusque(evs[..|evs| - 1]), evs[|evs| - 1])
  {
    hide Permis, Jusque;
  }

  lemma PermisIci(e: Etat, f: Etat, ev: Evenement, id: Id)
    requires Concerne(ev, id) && Ici(e, id) == Ici(f, id) && Permis(e, ev)
    ensures Permis(f, ev)
  {
  }

  lemma PermisePlus(q: seq<Evenement>, ev: Evenement)
    requires Permise(q) && Permis(Jusque(q), ev)
    ensures Permise(q + [ev])
  {
    hide Permis, Jusque;
    var r := q + [ev];
    forall i | 0 <= i < |r| ensures Permis(Jusque(r[..i]), r[i]) {
      if i < |q| {
        assert r[..i] == q[..i] && r[i] == q[i];
      } else {
        assert r[..i] == q;
      }
    }
  }

  // ------------------------------------------------------ two limits, shown

  /** "Clean" does not mean complete: an illegible text is dropped in silence and
      the stream still ends clean. */
  lemma TexteIllisiblePerdu(id: Id)
    ensures var evs := [Demander(id), Debut(id, 200, true), Chunk(id, Texte([33])), Fin(id)];
      && Permise(evs)
      && id in Jusque(evs).corps
      && var c := Jusque(evs).corps[id]; c.finPropre && c.recu == [] && c.vues == [Texte([33])]
  {
    var evs := [Demander(id), Debut(id, 200, true), Chunk(id, Texte([33])), Fin(id)];
    Quatre(evs);
    assert Base64.Decoder([33]).None?;
  }

  /** Rank 0 always opens: sent again, it is delivered again. */
  lemma RangZeroRejoue(id: Id, a: seq<Octet>, b: seq<Octet>)
    ensures var evs := [Demander(id), Debut(id, 200, true), Chunk(id, Binaire(0, a)), Chunk(id, Binaire(0, b))];
      Permise(evs) && id in Jusque(evs).corps && Jusque(evs).corps[id].recu == [a, b]
  {
    var evs := [Demander(id), Debut(id, 200, true), Chunk(id, Binaire(0, a)), Chunk(id, Binaire(0, b))];
    Quatre(evs);
  }

  lemma Quatre(evs: seq<Evenement>)
    requires |evs| == 4 && evs[0].Demander? && !evs[1].Demander? && !evs[2].Demander? && !evs[3].Demander?
    ensures Jusque(evs) == Pas(Pas(Pas(Pas(Initial(), evs[0]), evs[1]), evs[2]), evs[3])
    ensures Permise(evs)
  {
    hide Pas;
    assert evs[..3][..2] == evs[..2] && evs[..2][..1] == evs[..1] && evs[..1][..0] == [];
    assert Jusque(evs[..1]) == Pas(Jusque([]), evs[0]);
    assert Jusque(evs[..2]) == Pas(Jusque(evs[..1]), evs[1]);
    assert Jusque(evs[..3]) == Pas(Jusque(evs[..2]), evs[2]);
    assert Jusque(evs[..0]) == Initial();
  }
}
