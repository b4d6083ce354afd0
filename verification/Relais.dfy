/** The relay of one server connection as it runs: the table of requests, the
    table of sinks and the expected ranks are updated in place, and each sink
    feeds one HTTP body (tune-bridge/src/ws_server.rs). Every handler is proved
    to do to `Vue()` what RelaisSpec says of the frame it was given. */
module Relais {
  import opened Commun
  import S = RelaisSpec
  import Base64
  import M = MorceauBinaire

  const PREFIXE: seq<Octet> := [66, 73, 78, 65, 82, 89, 58]
  const DEUX_POINTS: Octet := 58

  /** How the prefix of a text chunk reads. */
  lemma PrefixeLu()
    ensures PREFIXE == Ascii("BINARY:") && [DEUX_POINTS] == Ascii(":")
  {
  }

  /** The channel between a sink and the HTTP body that drains it. */
  class Canal {
    ghost const id: S.Id
    var recu: seq<seq<Octet>>
    var finPropre: bool
    var lecteur: bool
    ghost var vues: seq<S.Trame>
    ghost var admis: nat
    ghost var finie: bool

    constructor (id: S.Id, present: bool)
      ensures this.id == id && Corps() == S.Corps([], false, present, [], 0, false)
    {
      this.id := id;
      recu, finPropre, lecteur := [], false, present;
      vues, admis, finie := [], 0, false;
    }

    ghost function Corps(): S.Corps
      reads this
    {
      S.Corps(recu, finPropre, lecteur, vues, admis, finie)
    }

    /** Queues bytes; false when nobody reads any more. */
    method Envoyer(o: seq<Octet>) returns (ok: bool)
      modifies this
      ensures ok == old(lecteur)
      ensures Corps() == if ok then S.Livrer(old(Corps()), o) else old(Corps())
    {
      if !lecteur { return false; }
      recu := recu + [o];
      admis := admis + 1;
      return true;
    }

    ghost method Voir(t: S.Trame)
      modifies this`vues
      ensures Corps() == S.Voir(old(Corps()), t)
    {
      if !finie { vues := vues + [t]; }
    }
  }

  ghost function CorpsDe(corps: map<S.Id, Canal>): map<S.Id, S.Corps>
    reads corps.Values
  {
    map j | j in corps :: corps[j].Corps()
  }

  lemma ClesDe(corps: map<S.Id, Canal>)
    ensures CorpsDe(corps).Keys == corps.Keys
    ensures forall j :: j in corps ==> CorpsDe(corps)[j] == corps[j].Corps()
  {
  }

  /** Only the body of `id` has changed since they were `avant`. */
  lemma SeulCorps(avant: map<S.Id, S.Corps>, corps: map<S.Id, Canal>, id: S.Id)
    requires id in corps && avant.Keys == corps.Keys
    requires forall j :: j in corps && j != id ==> corps[j].Corps() == avant[j]
    ensures CorpsDe(corps) == avant[id := corps[id].Corps()]
  {
  }

  lemma CorpsPlus(corps: map<S.Id, Canal>, id: S.Id, c: Canal)
    ensures CorpsDe(corps[id := c]) == CorpsDe(corps)[id := c.Corps()]
  {
  }

  lemma FluxMaj(flux: map<S.Id, Canal>, id: S.Id, c: Canal)
    ensures flux[id := c].Keys == flux.Keys + {id}
    ensures (flux[id := c] - {id}).Keys == flux.Keys - {id}
  {
  }

  function Vu(corps: map<S.Id, S.Corps>, id: S.Id, t: S.Trame): map<S.Id, S.Corps> {
    if id in corps then corps[id := S.Voir(corps[id], t)] else corps
  }

  lemma RangRemis(e: S.Etat, id: S.Id, rang: nat, octets: seq<Octet>, rangs: map<S.Id, nat>)
    requires id in e.flux && id in e.corps && (rangs, true) == S.Ranger(e.rangs, e.flux, id, rang)
    ensures S.Remettre(e.(rangs := rangs), id, S.Binaire(rang, octets), octets) ==
            S.Recevoir(e, id, S.Binaire(rang, octets))
  {
    hide S.Ranger, S.Remettre;
  }

  lemma RangRefuse(e: S.Etat, id: S.Id, t: S.Trame, rangs: map<S.Id, nat>)
    requires t.Binaire? && e.flux <= e.corps.Keys && (rangs, false) == S.Ranger(e.rangs, e.flux, id, t.rang)
    ensures S.Recevoir(e, id, t) == e.(rangs := rangs, flux := e.flux - {id}, corps := Vu(e.corps, id, t))
  {
    hide S.Ranger, S.Voir;
    assert id !in e.flux ==> e.flux - {id} == e.flux;
  }

  lemma TexteRecu(e: S.Etat, id: S.Id, x: seq<Octet>)
    requires e.flux <= e.corps.Keys
    ensures var t := S.Texte(x);
      var f := S.Recevoir(e, id, t);
      if id !in e.flux then f == e.(corps := Vu(e.corps, id, t))
      else
        var d := Base64.Decoder(x);
        if d.Some? then f == S.Remettre(e, id, t, d.value)
        else
          var c := S.Voir(e.corps[id], t);
          f == e.(corps := e.corps[id := c.(admis := c.admis + 1)])
  {
    hide S.Voir, S.Remettre, Base64.Decoder;
  }

  class Connexion {
    var pending: set<S.Id>
    var flux: map<S.Id, Canal>
    const rangs: M.Rangs<S.Id>
    ghost var corps: map<S.Id, Canal>
    ghost var demandes: set<S.Id>

    ghost predicate Valide()
      reads this, corps.Values
    {
      && flux.Keys <= corps.Keys
      && (forall j :: j in flux ==> flux[j] == corps[j])
      && (forall j :: j in corps ==> corps[j].id == j)
    }

    ghost function Vue(): S.Etat
      reads this, rangs, corps.Values
    {
      S.Etat(pending, flux.Keys, rangs.attendus, CorpsDe(corps), demandes)
    }

    constructor ()
      ensures Valide() && fresh(rangs) && Vue() == S.Initial()
    {
      pending, flux, corps, demandes := {}, map[], map[], {};
      rangs := new M.Rangs();
    }

    method Demander(id: S.Id)
      requires Valide()
      modifies this
      ensures Valide() && corps == old(corps) && Vue() == S.Pas(old(Vue()), S.Demander(id))
    {
      pending, demandes := pending + {id}, demandes + {id};
    }

    /** The answer to a request, whole: an unreadable base64 body becomes a 502. */
    method ResoudrePending(id: S.Id, statut: nat, texte: Option<seq<Octet>>, encode: Option<seq<Octet>>)
      returns (reponse: Option<(nat, Option<seq<Octet>>)>)
      requires Valide()
      modifies this
      ensures Valide() && corps == old(corps) && Vue() == S.Pas(old(Vue()), S.Abandonner(id))
      ensures reponse.Some? <==> id in old(pending)
      ensures reponse.Some? && encode.None? ==> reponse.value == (statut, texte)
      ensures reponse.Some? && encode.Some? ==>
                match Base64.Decoder(encode.value)
                case Some(octets) => reponse.value == (statut, Some(octets))
                case None => reponse.value == (502, None)
    {
      if id !in pending {
        assert pending - {id} == pending;
        return None;
      }
      pending := pending - {id};
      if encode.None? { return Some((statut, texte)); }
      var d := Base64.DecoderBase64(encode.value);
      reponse := Some(if d.Some? then (statut, Some(d.value)) else (502, None));
    }

    method OuvrirFlux(id: S.Id, statut: nat, present: bool)
      requires Valide() && pending !! corps.Keys
      modifies this
      ensures Valide() && Vue() == S.Pas(old(Vue()), S.Debut(id, statut, present))
      ensures fresh(corps.Values - old(corps.Values))
    {
      if id !in pending { return; }
      pending := pending - {id};
      if statut >= 400 { return; }
      hide CorpsDe;
      Poser(id, present);
    }

    /** The sink of a new stream; none is left behind when the client has gone. */
    method Poser(id: S.Id, present: bool)
      requires Valide() && id !in corps
      modifies this`flux, this`corps
      ensures Valide() && fresh(corps.Values - old(corps.Values))
      ensures flux.Keys == if present then old(flux.Keys) + {id} else old(flux.Keys) - {id}
      ensures CorpsDe(corps) == old(CorpsDe(corps))[id := S.Corps([], false, present, [], 0, false)]
    {
      hide CorpsDe;
      var canal := new Canal(id, present);
      assert CorpsDe(corps) == old(CorpsDe(corps));
      FluxMaj(flux, id, canal);
      CorpsPlus(corps, id, canal);
      corps := corps[id := canal];
      flux := flux[id := canal];
      if !present { flux := flux - {id}; }
    }

    /** Hands bytes to an open sink, which is dropped if nobody reads. */
    method Remettre(id: S.Id, ghost t: S.Trame, octets: seq<Octet>)
      requires Valide() && id in flux
      modifies this`flux, corps.Values
      ensures Valide() && Vue() == S.Remettre(old(Vue()), id, t, octets)
    {
      var envoi := flux[id];
      envoi.Voir(t);
      var ok := envoi.Envoyer(octets);
      if !ok { flux := flux - {id}; }
      SeulCorps(old(CorpsDe(corps)), corps, id);
    }

    /** The sink of a stream, if any, sees a frame go by. */
    ghost method Passer(id: S.Id, t: S.Trame)
      requires Valide()
      modifies if id in corps then {corps[id]} else {}
      ensures Valide()
      ensures CorpsDe(corps) == Vu(old(CorpsDe(corps)), id, t)
    {
      if id in corps {
        corps[id].Voir(t);
        SeulCorps(old(CorpsDe(corps)), corps, id);
      }
    }

    method HandleServerBinary(data: seq<Octet>)
      requires Valide()
      modifies this`flux, rangs, corps.Values
      ensures Valide()
      ensures Vue() == S.Pas(old(Vue()), match M.Lire(data)
                                         case None => S.Illisible
                                         case Some(m) => S.Chunk(m.id, S.Binaire(m.seq_, m.octets)))
    {
      var lu := M.Lire(data);
      if lu.None? { return; }
      var m := lu.value;
      hide M.Lire;
      Ranger(m.id, m.seq_, m.octets);
    }

    /** A stream that opens forgets the ranks of closed ones; a stream without a
        sink loses its own. */
    method Suivre(id: S.Id, rang: nat) returns (ok: bool)
      modifies rangs
      ensures (rangs.attendus, ok) == S.Ranger(old(rangs.attendus), flux.Keys, id, rang)
      ensures ok ==> id in flux
    {
      if rang == 0 {
        rangs.NeGarderQue(flux.Keys);
        assert rangs.attendus == map k | k in old(rangs.attendus) && k in flux.Keys :: old(rangs.attendus)[k];
      }
      if id !in flux {
        rangs.Oublier(id);
        return false;
      }
      ok := rangs.Accepter(id, rang);
    }

    method Ranger(id: S.Id, rang: nat, octets: seq<Octet>)
      requires Valide()
      modifies this`flux, rangs, corps.Values
      ensures Valide() && Vue() == S.Recevoir(old(Vue()), id, S.Binaire(rang, octets))
    {
      ghost var t := S.Binaire(rang, octets);
      ghost var e := Vue();
      assert e.corps.Keys == corps.Keys;
      var ok := Suivre(id, rang);
      assert Vue() == e.(rangs := rangs.attendus) by { hide S.Ranger, S.Recevoir, S.Remettre, CorpsDe, Vu; }
      hide S.Ranger, S.Recevoir, S.Remettre, CorpsDe, Vu;
      if ok {
        RangRemis(e, id, rang, octets, rangs.attendus);
        Remettre(id, t, octets);
      } else {
        RangRefuse(e, id, t, rangs.attendus);
        Couper(id, t);
      }
    }

    /** The sink of a stream, if any, is dropped. */
    method Couper(id: S.Id, ghost t: S.Trame)
      requires Valide()
      modifies this`flux, corps.Values
      ensures Valide()
      ensures Vue() == old(Vue()).(flux := old(flux.Keys) - {id}, corps := Vu(old(CorpsDe(corps)), id, t))
    {
      hide CorpsDe, Vu;
      Passer(id, t);
      assert flux.Keys - {id} == (flux - {id}).Keys;
      flux := flux - {id};
    }

    /** A text frame: chunks first, before any JSON is parsed. */
    method HandleServerText(texte: seq<Octet>) returns (chunk: bool)
      requires Valide()
      modifies this`flux, corps.Values
      ensures Valide()
      ensures chunk <==> PREFIXE <= texte
      ensures !chunk ==> Vue() == old(Vue())
      ensures chunk ==> Vue() == S.Pas(old(Vue()), match CoupeAu(texte[|PREFIXE|..])
                                                   case None => S.Illisible
                                                   case Some((id, encode)) => S.Chunk(id, S.Texte(encode)))
    {
      chunk := PREFIXE <= texte;
      if !chunk { return; }
      var reste := texte[|PREFIXE|..];
      var k := 0;
      while k < |reste| && reste[k] != DEUX_POINTS
        invariant 0 <= k <= |reste|
        invariant forall i :: 0 <= i < k ==> reste[i] != DEUX_POINTS
      {
        k := k + 1;
      }
      CoupeAuRang(reste, k);
      if k == |reste| { return; }
      TransmettreMorceau(reste[..k], reste[k + 1..]);
    }

    method TransmettreMorceau(id: S.Id, encode: seq<Octet>)
      requires Valide()
      modifies this`flux, corps.Values
      ensures Valide() && Vue() == S.Recevoir(old(Vue()), id, S.Texte(encode))
    {
      ghost var t := S.Texte(encode);
      TexteRecu(Vue(), id, encode);
      hide S.Recevoir, S.Remettre, CorpsDe, Vu, Base64.Decoder;
      if id !in flux {
        Passer(id, t);
        return;
      }
      var octets := Base64.DecoderBase64(encode);
      if octets.None? {
        Sauter(id, t);
        return;
      }
      Remettre(id, t, octets.value);
    }

    /** A frame that does not read: the sink stays, nothing is queued. */
    ghost method Sauter(id: S.Id, t: S.Trame)
      requires Valide() && id in corps
      modifies corps[id]
      ensures Valide()
      ensures var c := S.Voir(old(CorpsDe(corps))[id], t);
        CorpsDe(corps) == old(CorpsDe(corps))[id := c.(admis := c.admis + 1)]
    {
      corps[id].Voir(t);
      corps[id].admis := corps[id].admis + 1;
      SeulCorps(old(CorpsDe(corps)), corps, id);
    }

    method FermerFlux(id: S.Id)
      requires Valide()
      modifies this`flux, corps.Values
      ensures Valide() && Vue() == S.Pas(old(Vue()), S.Fin(id))
    {
      hide CorpsDe;
      ClesDe(corps);
      if id in flux { flux[id].finPropre := true; }
      flux := flux - {id};
      if id in corps {
        corps[id].finie := true;
        SeulCorps(old(CorpsDe(corps)), corps, id);
      }
    }

    /** The HTTP client goes: its body is no longer read. */
    method Partir(canal: Canal)
      requires Valide() && canal.id in corps && corps[canal.id] == canal
      modifies canal`lecteur
      ensures Valide() && Vue() == S.Pas(old(Vue()), S.ClientParti(canal.id))
    {
      canal.lecteur := false;
      SeulCorps(old(CorpsDe(corps)), corps, canal.id);
    }

    /** The server goes: nothing waits any more, every sink falls, and no body is
        marked clean for it. */
    method Deconnecter()
      requires Valide()
      modifies this`pending, this`flux, rangs, corps.Values`finie
      ensures Valide() && Vue() == S.Pas(old(Vue()), S.Deconnexion)
    {
      hide CorpsDe, S.Terminer;
      Terminer();
      pending, flux := {}, map[];
      rangs.NeGarderQue({});
      assert rangs.attendus == map[];
    }

    ghost method Terminer()
      requires Valide()
      modifies corps.Values`finie
      ensures Valide()
      ensures CorpsDe(corps) == map j | j in old(CorpsDe(corps)) :: S.Terminer(old(CorpsDe(corps))[j], false)
    {
      forall c | c in corps.Values {
        c.finie := true;
      }
    }
  }

  /** A text cut at its first colon. */
  ghost function CoupeAu(t: seq<Octet>): Option<(seq<Octet>, seq<Octet>)> {
    if t == [] then None
    else if t[0] == DEUX_POINTS then Some(([], t[1..]))
    else match CoupeAu(t[1..]) case None => None case Some((a, b)) => Some(([t[0]] + a, b))
  }

  lemma {:induction false} CoupeAuRang(t: seq<Octet>, k: nat)
    requires k <= |t| && (forall i :: 0 <= i < k ==> t[i] != DEUX_POINTS) && (k < |t| ==> t[k] == DEUX_POINTS)
    ensures CoupeAu(t) == if k < |t| then Some((t[..k], t[k + 1..])) else None
  {
    if k > 0 {
      CoupeAuRang(t[1..], k - 1);
      assert t[..k] == [t[0]] + t[1..][..k - 1];
    }
  }
}
