/** One server's stream relay as a function from state to state
    (tune-bridge/src/ws_server.rs): requests waiting, sinks open, expected ranks,
    and what each HTTP body has been handed. */
module RelaisSpec {
  import opened Commun
  import Base64
  import M = MorceauBinaire

  type Id = seq<Octet>

  /** A frame of one stream: a ranked chunk, or a base64 text. */
  datatype Trame = Binaire(rang: nat, octets: seq<Octet>) | Texte(encode: seq<Octet>)

  /** An HTTP body: what was queued to it, whether its end was marked clean and
      whether anyone still reads it. As history, the frames of the stream that
      came between its start and its end, how many were let in, and whether the
      end has come. */
  datatype Corps = Corps(recu: seq<seq<Octet>>, finPropre: bool, lecteur: bool,
                         vues: seq<Trame>, admis: nat, finie: bool)

  datatype Etat = Etat(pending: set<Id>, flux: set<Id>, rangs: map<Id, nat>, corps: map<Id, Corps>, demandes: set<Id>)

  function Initial(): Etat { Etat({}, {}, map[], map[], {}) }

  datatype Evenement =
    | Demander(id: Id)
    | Abandonner(id: Id)
    | Debut(id: Id, statut: nat, present: bool)
    | Chunk(id: Id, trame: Trame)
    | Illisible
    | Fin(id: Id)
    | ClientParti(id: Id)
    | Deconnexion

  function Voir(c: Corps, t: Trame): Corps { if c.finie then c else c.(vues := c.vues + [t]) }

  function Livrer(c: Corps, o: seq<Octet>): Corps { c.(recu := c.recu + [o], admis := c.admis + 1) }

  function Ouvrir(e: Etat, id: Id, statut: nat, present: bool): Etat {
    if id !in e.pending then e
    else if statut >= 400 then e.(pending := e.pending - {id})
    else
      e.(pending := e.pending - {id},
         flux := if present then e.flux + {id} else e.flux - {id},
         corps := e.corps[id := Corps([], false, present, [], 0, false)])
  }

  /** A binary chunk: `ouverts` are the streams with a sink. */
  function Ranger(rangs: map<Id, nat>, ouverts: set<Id>, id: Id, rang: nat): (map<Id, nat>, bool) {
    var r := if rang == 0 then (map k | k in rangs && k in ouverts :: rangs[k]) else rangs;
    if id !in ouverts then (r - {id}, false) else M.Accepte(r, id, rang)
  }

  function Remettre(e: Etat, id: Id, t: Trame, octets: seq<Octet>): Etat
    requires id in e.corps
  {
    var c := Voir(e.corps[id], t);
    if c.lecteur then e.(corps := e.corps[id := Livrer(c, octets)])
    else e.(flux := e.flux - {id}, corps := e.corps[id := c])
  }

  function Recevoir(e: Etat, id: Id, t: Trame): Etat {
    var r := if t.Binaire? then Ranger(e.rangs, e.flux, id, t.rang) else (e.rangs, true);
    var e1 := e.(rangs := r.0);
    if id !in e.corps then e1
    else if id !in e.flux then e1.(corps := e.corps[id := Voir(e.corps[id], t)])
    else if t.Binaire? then
      if r.1 then Remettre(e1, id, t, t.octets)
      else e1.(flux := e.flux - {id}, corps := e.corps[id := Voir(e.corps[id], t)])
    else
      var d := Base64.Decoder(t.encode);
      if d.Some? then Remettre(e1, id, t, d.value)
      else
        // An illegible text is skipped; the sink stays.
        var c := Voir(e.corps[id], t);
        e1.(corps := e.corps[id := c.(admis := c.admis + 1)])
  }

  function Terminer(c: Corps, propre: bool): Corps { c.(finie := true, finPropre := propre || c.finPropre) }

  function Fermer(e: Etat, id: Id): Etat {
    if id !in e.corps then e.(flux := e.flux - {id})
    else e.(flux := e.flux - {id}, corps := e.corps[id := Terminer(e.corps[id], id in e.flux)])
  }

  function Pas(e: Etat, ev: Evenement): Etat {
    match ev
    case Demander(id) => e.(pending := e.pending + {id}, demandes := e.demandes + {id})
    case Abandonner(id) => e.(pending := e.pending - {id})
    case Debut(id, statut, present) => Ouvrir(e, id, statut, present)
    case Chunk(id, t) => Recevoir(e, id, t)
    case Illisible => e
    case Fin(id) => Fermer(e, id)
    case ClientParti(id) =>
      if id in e.corps then e.(corps := e.corps[id := e.corps[id].(lecteur := false)]) else e
    case Deconnexion =>
      e.(pending := {}, flux := {}, rangs := map[], corps := map k | k in e.corps :: Terminer(e.corps[k], false))
  }

  /** The one premise: a request identifier is drawn once. */
  predicate Permis(e: Etat, ev: Evenement) { ev.Demander? ==> ev.id !in e.demandes }

  /** The state after a history of events. */
  ghost function Jusque(evs: seq<Evenement>): Etat {
    if evs == [] then Initial() else Pas(Jusque(evs[..|evs| - 1]), evs[|evs| - 1])
  }

  ghost predicate Permise(evs: seq<Evenement>) {
    forall i :: 0 <= i < |evs| ==> Permis(Jusque(evs[..i]), evs[i])
  }

  // ------------------------------------------- one stream on its own

  datatype Suite = Refusee | Attend(prochain: Option<nat>)

  /** The rank rule alone: 0 opens, any other chunk must be the expected one. */
  function Avancer(s: Suite, t: Trame): Suite {
    if s.Refusee? || t.Texte? then s
    else if t.rang == 0 then Attend(Some(1))
    else if s.prochain == Some(t.rang) then Attend(Some(t.rang + 1))
    else Refusee
  }

  function Suivre(ts: seq<Trame>): Suite {
    if ts == [] then Attend(None) else Avancer(Suivre(ts[..|ts| - 1]), ts[|ts| - 1])
  }

  /** The bytes a run of frames carries; an illegible text carries nothing. */
  function Charges(ts: seq<Trame>): seq<seq<Octet>> {
    if ts == [] then [] else
    Charges(ts[..|ts| - 1]) +
    match ts[|ts| - 1]
    case Binaire(_, o) => [o]
    case Texte(x) => if Base64.Decoder(x).Some? then [Base64.Decoder(x).value] else []
  }
}
