/** The detector of new forum messages (scripts/nouveautes-forum.py): a high-water
    mark and one count per thread stand for everything already seen. */
module Forum {
  import opened Commun

  datatype Fid = Fid(n: nat)

  /** A thread in the inventory: how many replies, and whether the team wrote it. */
  datatype Entree = Entree(compte: nat, equipe: bool)

  datatype Instantane = Instantane(filigrane: nat, comptes: map<Fid, nat>)

  datatype Ligne = LigneFil(fil: Fid) | LigneReponse(id: nat, fil: Fid)

  // --------------------------------------------------------- what it lists

  /** The replies of a thread past the mark. */
  function Passees(ids: seq<nat>, filigrane: nat): (r: seq<nat>)
    ensures forall x :: x in r <==> x in ids && x > filigrane
  {
    if ids == [] then [] else
      var r := Passees(ids[..|ids| - 1], filigrane);
      var x := ids[|ids| - 1];
      if x > filigrane then r + [x] else r
  }

  function Reponses(ids: seq<nat>, f: Fid): (r: seq<Ligne>)
    ensures |r| == |ids| && forall i :: 0 <= i < |ids| ==> r[i] == LigneReponse(ids[i], f)
  {
    seq(|ids|, i requires 0 <= i < |ids| => LigneReponse(ids[i], f))
  }

  /** A reading: the inventory, and what the detail of each thread shows. */
  datatype Lecture = Lecture(fils: map<Fid, Entree>, detail: map<Fid, seq<nat>>)

  predicate Complete(l: Lecture) { l.detail.Keys == l.fils.Keys }

  function Versees(l: Lecture, f: Fid, filigrane: nat): seq<Ligne>
    requires f in l.detail
  {
    Reponses(Passees(l.detail[f], filigrane), f)
  }

  predicate Neuf(anciens: map<Fid, nat>, f: Fid) { f !in anciens }

  predicate Bouge(l: Lecture, anciens: map<Fid, nat>, f: Fid)
    requires f in l.fils
  {
    f in anciens && anciens[f] != l.fils[f].compte
  }

  function DuFilNeuf(l: Lecture, f: Fid, filigrane: nat): seq<Ligne>
    requires f in l.fils && Complete(l)
  {
    (if l.fils[f].equipe then [] else [LigneFil(f)])
    + if l.fils[f].compte > 0 then Versees(l, f, filigrane) else []
  }

  /** The threads never seen. */
  function Neufs(anciens: map<Fid, nat>, ordre: seq<Fid>): (r: seq<Fid>)
    ensures forall f :: f in r <==> f in ordre && Neuf(anciens, f)
  {
    if ordre == [] then [] else
      var f := ordre[|ordre| - 1];
      Neufs(anciens, ordre[..|ordre| - 1]) + if Neuf(anciens, f) then [f] else []
  }

  /** The threads whose count has moved. */
  function Bouges(l: Lecture, anciens: map<Fid, nat>, ordre: seq<Fid>): (r: seq<Fid>)
    requires forall f :: f in ordre ==> f in l.fils
    ensures forall f :: f in r <==> f in ordre && Bouge(l, anciens, f)
  {
    if ordre == [] then [] else
      var f := ordre[|ordre| - 1];
      Bouges(l, anciens, ordre[..|ordre| - 1]) + if Bouge(l, anciens, f) then [f] else []
  }

  function TousNeufs(l: Lecture, filigrane: nat, fs: seq<Fid>): seq<Ligne>
    requires Complete(l) && forall f :: f in fs ==> f in l.fils
  {
    if fs == [] then [] else TousNeufs(l, filigrane, fs[..|fs| - 1]) + DuFilNeuf(l, fs[|fs| - 1], filigrane)
  }

  function TousBouges(l: Lecture, filigrane: nat, fs: seq<Fid>): seq<Ligne>
    requires Complete(l) && forall f :: f in fs ==> f in l.fils
  {
    if fs == [] then [] else TousBouges(l, filigrane, fs[..|fs| - 1]) + Versees(l, fs[|fs| - 1], filigrane)
  }

  /** The largest reply listed, at least the mark. */
  function Haut(lignes: seq<Ligne>, filigrane: nat): (h: nat)
    ensures h >= filigrane
    ensures forall i :: 0 <= i < |lignes| && lignes[i].LigneReponse? ==> lignes[i].id <= h
    ensures h == filigrane || exists i :: 0 <= i < |lignes| && lignes[i].LigneReponse? && lignes[i].id == h
  {
    if lignes == [] then filigrane else
      var h := Haut(lignes[..|lignes| - 1], filigrane);
      var l := lignes[|lignes| - 1];
      if l.LigneReponse? && l.id > h then l.id else h
  }

  function Comptes(fils: map<Fid, Entree>): map<Fid, nat> { map f | f in fils :: fils[f].compte }

  const VIERGE := Instantane(0, map[])

  /** `detecter`, before the final sort of its lines; `ordre` is the order of the
      inventory. */
  function Detecter(l: Lecture, ordre: seq<Fid>, etat: Option<Instantane>): (seq<Ligne>, Instantane)
    requires Complete(l) && forall f :: f in ordre ==> f in l.fils
  {
    var e := if etat.Some? then etat.value else VIERGE;
    var lignes := TousNeufs(l, e.filigrane, Neufs(e.comptes, ordre))
                  + TousBouges(l, e.filigrane, Bouges(l, e.comptes, ordre));
    (lignes, Instantane(Haut(lignes, e.filigrane), Comptes(l.fils)))
  }

  lemma HautPlus(lignes: seq<Ligne>, l: Ligne, filigrane: nat)
    ensures Haut(lignes + [l], filigrane) ==
              if l.LigneReponse? && l.id > Haut(lignes, filigrane) then l.id else Haut(lignes, filigrane)
  {
    assert (lignes + [l])[..|lignes|] == lignes;
  }

  /** The loops of the source. */
  method DetecterFils(l: Lecture, ordre: seq<Fid>, etat: Option<Instantane>)
    returns (lignes: seq<Ligne>, instantane: Instantane)
    requires Complete(l) && forall f :: f in ordre ==> f in l.fils
    ensures (lignes, instantane) == Detecter(l, ordre, etat)
  {
    hide Neufs, Bouges, Haut, TousNeufs, TousBouges;
    var e := if etat.Some? then etat.value else VIERGE;
    var nouveaux, bouges := Trier(l, e.comptes, ordre);
    var haut;
    lignes, haut := VerserNeufs(l, nouveaux, e.filigrane);
    lignes, haut := VerserBouges(l, bouges, e.filigrane, lignes, haut);
    instantane := Instantane(haut, Comptes(l.fils));
  }

  method VerserBouges(l: Lecture, bouges: seq<Fid>, filigrane: nat, avant: seq<Ligne>, hautAvant: nat)
    returns (lignes: seq<Ligne>, haut: nat)
    requires Complete(l) && (forall f :: f in bouges ==> f in l.fils) && hautAvant == Haut(avant, filigrane)
    ensures lignes == avant + TousBouges(l, filigrane, bouges) && haut == Haut(lignes, filigrane)
  {
    hide Versees, Haut;
    lignes, haut := avant, hautAvant;
    var k := 0;
    while k < |bouges|
      invariant 0 <= k <= |bouges|
      invariant lignes == avant + TousBouges(l, filigrane, bouges[..k]) && haut == Haut(lignes, filigrane)
    {
      assert bouges[..k + 1][..k] == bouges[..k];
      lignes, haut := VerserReponses(l, bouges[k], filigrane, lignes, haut);
      k := k + 1;
    }
    assert bouges[..k] == bouges;
  }

  lemma Aucun(l: Lecture, anciens: map<Fid, nat>)
    ensures Neufs(anciens, []) == [] && Bouges(l, anciens, []) == []
  {
  }

  lemma UnDePlus(l: Lecture, anciens: map<Fid, nat>, ordre: seq<Fid>, i: nat)
    requires i < |ordre| && forall f :: f in ordre ==> f in l.fils
    ensures Neufs(anciens, ordre[..i + 1]) ==
              Neufs(anciens, ordre[..i]) + if Neuf(anciens, ordre[i]) then [ordre[i]] else []
    ensures Bouges(l, anciens, ordre[..i + 1]) ==
              Bouges(l, anciens, ordre[..i]) + if Bouge(l, anciens, ordre[i]) then [ordre[i]] else []
  {
    assert ordre[..i + 1][..i] == ordre[..i];
  }

  method Trier(l: Lecture, anciens: map<Fid, nat>, ordre: seq<Fid>) returns (nouveaux: seq<Fid>, bouges: seq<Fid>)
    requires forall f :: f in ordre ==> f in l.fils
    ensures nouveaux == Neufs(anciens, ordre) && bouges == Bouges(l, anciens, ordre)
  {
    hide Neufs, Bouges;
    nouveaux, bouges := [], [];
    var i := 0;
    Aucun(l, anciens);
    assert ordre[..0] == [];
    while i < |ordre|
      invariant 0 <= i <= |ordre|
      invariant nouveaux == Neufs(anciens, ordre[..i]) && bouges == Bouges(l, anciens, ordre[..i])
    {
      var f := ordre[i];
      UnDePlus(l, anciens, ordre, i);
      if f !in anciens {
        nouveaux := nouveaux + [f];
      } else if anciens[f] != l.fils[f].compte {
        bouges := bouges + [f];
      }
      i := i + 1;
    }
    assert ordre[..i] == ordre;
  }

  /** New threads: their own line unless the team wrote them, then their replies. */
  method VerserNeufs(l: Lecture, nouveaux: seq<Fid>, filigrane: nat) returns (lignes: seq<Ligne>, haut: nat)
    requires Complete(l) && forall f :: f in nouveaux ==> f in l.fils
    ensures lignes == TousNeufs(l, filigrane, nouveaux) && haut == Haut(lignes, filigrane)
  {
    hide Versees;
    lignes, haut := [], filigrane;
    var k := 0;
    while k < |nouveaux|
      invariant 0 <= k <= |nouveaux|
      invariant lignes == TousNeufs(l, filigrane, nouveaux[..k]) && haut == Haut(lignes, filigrane)
    {
      var f := nouveaux[k];
      assert nouveaux[..k + 1][..k] == nouveaux[..k];
      lignes, haut := VerserNeuf(l, f, filigrane, lignes, haut);
      k := k + 1;
    }
    assert nouveaux[..k] == nouveaux;
  }

  method VerserNeuf(l: Lecture, f: Fid, filigrane: nat, avant: seq<Ligne>, hautAvant: nat)
    returns (lignes: seq<Ligne>, haut: nat)
    requires Complete(l) && f in l.fils && hautAvant == Haut(avant, filigrane)
    ensures lignes == avant + DuFilNeuf(l, f, filigrane) && haut == Haut(lignes, filigrane)
  {
    hide Haut, Versees;
    lignes, haut := avant, hautAvant;
    if !l.fils[f].equipe {
      HautPlus(lignes, LigneFil(f), filigrane);
      lignes := lignes + [LigneFil(f)];
    }
    if l.fils[f].compte > 0 { lignes, haut := VerserReponses(l, f, filigrane, lignes, haut); }
  }

  /** Every reply of the thread past the mark, and the new mark. */
  method VerserReponses(l: Lecture, f: Fid, filigrane: nat, avant: seq<Ligne>, hautAvant: nat)
    returns (lignes: seq<Ligne>, haut: nat)
    requires f in l.detail && hautAvant == Haut(avant, filigrane)
    ensures lignes == avant + Versees(l, f, filigrane) && haut == Haut(lignes, filigrane)
  {
    hide Haut;
    var ids := l.detail[f];
    lignes, haut := avant, hautAvant;
    var i := 0;
    while i < |ids|
      invariant 0 <= i <= |ids|
      invariant lignes == avant + Reponses(Passees(ids[..i], filigrane), f) && haut == Haut(lignes, filigrane)
    {
      assert ids[..i + 1][..i] == ids[..i];
      if ids[i] > filigrane {
        var ligne := LigneReponse(ids[i], f);
        HautPlus(lignes, ligne, filigrane);
        haut := if haut < ids[i] then ids[i] else haut;
        lignes := lignes + [ligne];
      }
      i := i + 1;
    }
    assert ids[..i] == ids;
  }
}
