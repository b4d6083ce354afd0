/** What the detector guarantees of a forum whose threads only grow. */
module ForumTheoremes {
  import opened Commun
  import opened Forum

  /** The forum at one moment. */
  datatype Fil = Fil(reponses: seq<nat>, equipe: bool)

  type Cliche = map<Fid, Fil>

  ghost predicate Present(c: Cliche, x: nat) { exists f :: f in c && x in c[f].reponses }

  /** Reply numbers start at one and are never given twice. */
  ghost predicate Coherent(c: Cliche) {
    && (forall f, i :: f in c && 0 <= i < |c[f].reponses| ==> c[f].reponses[i] > 0)
    && (forall f, g, i, j ::
          (f in c && g in c && 0 <= i < |c[f].reponses| && 0 <= j < |c[g].reponses|
           && c[f].reponses[i] == c[g].reponses[j]) ==> (f == g && i == j))
  }

  function Anciennes(c: Cliche, f: Fid): nat { if f in c then |c[f].reponses| else 0 }

  /** Threads only grow, keep their author, and a new reply has a larger number than any before. */
  ghost predicate Croit(c: Cliche, d: Cliche) {
    && (forall f :: f in c ==> f in d && c[f].reponses <= d[f].reponses && d[f].equipe == c[f].equipe)
    && (forall f, i, x :: f in d && Anciennes(c, f) <= i < |d[f].reponses| && Present(c, x) ==> x < d[f].reponses[i])
  }

  /** Inventory and details read together. */
  function Lire(c: Cliche): (l: Lecture)
    ensures Complete(l)
  {
    Lecture(map f | f in c :: Entree(|c[f].reponses|, c[f].equipe), map f | f in c :: c[f].reponses)
  }

  ghost predicate EstHaut(c: Cliche, h: nat) {
    (forall x: nat :: Present(c, x) ==> x <= h) && (h == 0 || Present(c, h))
  }

  /** The snapshot that stands for a moment. */
  ghost predicate Scelle(e: Instantane, c: Cliche) { EstHaut(c, e.filigrane) && e.comptes == Comptes(Lire(c).fils) }

  ghost predicate Distincts<T(!new)>(s: seq<T>) { forall i, j :: 0 <= i < j < |s| ==> s[i] != s[j] }

  /** The messages of `d` that `c` does not have. */
  ghost predicate Nouvelle(l: Ligne, c: Cliche, d: Cliche) {
    match l
    case LigneFil(f) => f in d && f !in c && !d[f].equipe
    case LigneReponse(x, f) => f in d && x in d[f].reponses && !Present(c, x)
  }

  /** Exactly those messages, each once. */
  ghost predicate Liste(lignes: seq<Ligne>, c: Cliche, d: Cliche) {
    Distincts(lignes) && forall l :: l in lignes <==> Nouvelle(l, c, d)
  }

  // ------------------------------------------------------------ one reading

  lemma DistinctsPlus<T(!new)>(a: seq<T>, b: seq<T>)
    requires Distincts(a) && Distincts(b) && forall x :: x in a ==> x !in b
    ensures Distincts(a + b)
  {
    forall i, j | 0 <= i < j < |a + b| ensures (a + b)[i] != (a + b)[j] {
      if i < |a| <= j { assert (a + b)[i] in a && (a + b)[j] == b[j - |a|]; }
    }
  }

  lemma DistinctsPrefixe<T(!new)>(a: seq<T>, n: nat)
    requires Distincts(a) && n <= |a|
    ensures Distincts(a[..n])
    ensures n < |a| ==> a[n] !in a[..n]
  {
  }

  lemma {:induction false} PasseesDistinctes(ids: seq<nat>, h: nat)
    requires Distincts(ids)
    ensures Distincts(Passees(ids, h))
  {
    if ids != [] {
      DistinctsPrefixe(ids, |ids| - 1);
      PasseesDistinctes(ids[..|ids| - 1], h);
    }
  }

  lemma VerseesDe(l: Lecture, f: Fid, h: nat)
    requires f in l.detail && Distincts(l.detail[f])
    ensures Distincts(Versees(l, f, h))
    ensures forall x :: x in Versees(l, f, h) <==> x.LigneReponse? && x.fil == f && x.id in l.detail[f] && x.id > h
  {
    PasseesDistinctes(l.detail[f], h);
    var p := Passees(l.detail[f], h);
    forall x: Ligne | x.LigneReponse? && x.fil == f && x.id in l.detail[f] && x.id > h ensures x in Versees(l, f, h) {
      var i :| 0 <= i < |p| && p[i] == x.id;
      assert Versees(l, f, h)[i] == x;
    }
    forall x | x in Versees(l, f, h) ensures x.LigneReponse? && x.fil == f && x.id in l.detail[f] && x.id > h {
      var i :| 0 <= i < |p| && Versees(l, f, h)[i] == x;
      assert p[i] in p;
    }
  }

  lemma DuNeufDe(l: Lecture, f: Fid, h: nat)
    requires Complete(l) && f in l.fils && Distincts(l.detail[f])
    ensures Distincts(DuFilNeuf(l, f, h))
    ensures forall x :: x in DuFilNeuf(l, f, h) <==>
              x.fil == f &&
              if x.LigneFil? then !l.fils[f].equipe else l.fils[f].compte > 0 && x.id in l.detail[f] && x.id > h
  {
    VerseesDe(l, f, h);
    hide Versees;
    var a := if l.fils[f].equipe then [] else [LigneFil(f)];
    var b := if l.fils[f].compte > 0 then Versees(l, f, h) else [];
    DistinctsPlus(a, b);
  }

  ghost predicate TousLus(l: Lecture) { Complete(l) && forall f :: f in l.detail ==> Distincts(l.detail[f]) }

  lemma {:induction false} TousNeufsDe(l: Lecture, h: nat, fs: seq<Fid>)
    requires TousLus(l) && Distincts(fs) && forall f :: f in fs ==> f in l.fils
    ensures Distincts(TousNeufs(l, h, fs))
    ensures forall x :: x in TousNeufs(l, h, fs) <==> x.fil in fs && x in DuFilNeuf(l, x.fil, h)
    ensures forall x :: x in TousNeufs(l, h, fs) ==> x.fil in fs
  {
    if fs != [] {
      var p, f := fs[..|fs| - 1], fs[|fs| - 1];
      DistinctsPrefixe(fs, |fs| - 1);
      TousNeufsDe(l, h, p);
      DuNeufDe(l, f, h);
      hide DuFilNeuf;
      DistinctsPlus(TousNeufs(l, h, p), DuFilNeuf(l, f, h));
      assert fs == p + [f];
    }
  }

  lemma {:induction false} TousBougesDe(l: Lecture, h: nat, fs: seq<Fid>)
    requires TousLus(l) && Distincts(fs) && forall f :: f in fs ==> f in l.fils
    ensures Distincts(TousBouges(l, h, fs))
    ensures forall x :: x in TousBouges(l, h, fs) <==> x.fil in fs && x in Versees(l, x.fil, h)
  {
    if fs != [] {
      var p, f := fs[..|fs| - 1], fs[|fs| - 1];
      DistinctsPrefixe(fs, |fs| - 1);
      TousBougesDe(l, h, p);
      VerseesDe(l, f, h);
      hide Versees;
      DistinctsPlus(TousBouges(l, h, p), Versees(l, f, h));
      assert fs == p + [f];
    }
  }

  lemma {:induction false} NeufsDistincts(anciens: map<Fid, nat>, ordre: seq<Fid>)
    requires Distincts(ordre)
    ensures Distincts(Neufs(anciens, ordre))
  {
    if ordre != [] {
      DistinctsPrefixe(ordre, |ordre| - 1);
      NeufsDistincts(anciens, ordre[..|ordre| - 1]);
    }
  }

  lemma {:induction false} BougesDistincts(l: Lecture, anciens: map<Fid, nat>, ordre: seq<Fid>)
    requires Distincts(ordre) && forall f :: f in ordre ==> f in l.fils
    ensures Distincts(Bouges(l, anciens, ordre))
  {
    if ordre != [] {
      DistinctsPrefixe(ordre, |ordre| - 1);
      BougesDistincts(l, anciens, ordre[..|ordre| - 1]);
    }
  }

  /** A thread never seen, or a reply past the mark of a thread never seen or whose
      count has moved. */
  ghost predicate Relevee(l: Lecture, e: Instantane, x: Ligne)
    requires Complete(l)
  {
    && x.fil in l.fils
    && match x
       case LigneFil(f) => f !in e.comptes && !l.fils[f].equipe
       case LigneReponse(id, f) =>
         && id in l.detail[f] && id > e.filigrane
         && if f in e.comptes then e.comptes[f] != l.fils[f].compte else l.fils[f].compte > 0
  }

  /** What any reading lists, coherent or not. */
  lemma DetecterDe(l: Lecture, ordre: seq<Fid>, e: Instantane)
    requires TousLus(l) && Enumere(ordre, l.fils.Keys)
    ensures Distincts(Detecter(l, ordre, Some(e)).0)
    ensures forall x :: x in Detecter(l, ordre, Some(e)).0 <==> Relevee(l, e, x)
  {
    hide TousNeufs, TousBouges, DuFilNeuf, Versees, Neufs, Bouges, Haut;
    var n, b := Neufs(e.comptes, ordre), Bouges(l, e.comptes, ordre);
    NeufsDistincts(e.comptes, ordre);
    BougesDistincts(l, e.comptes, ordre);
    TousNeufsDe(l, e.filigrane, n);
    TousBougesDe(l, e.filigrane, b);
    forall f | f in l.fils
      ensures forall x :: x in DuFilNeuf(l, f, e.filigrane) <==>
                x.fil == f && if x.LigneFil? then !l.fils[f].equipe
                              else l.fils[f].compte > 0 && x.id in l.detail[f] && x.id > e.filigrane
      ensures forall x :: x in Versees(l, f, e.filigrane) <==>
                x.LigneReponse? && x.fil == f && x.id in l.detail[f] && x.id > e.filigrane
    {
      DuNeufDe(l, f, e.filigrane);
      VerseesDe(l, f, e.filigrane);
    }
    DistinctsPlus(TousNeufs(l, e.filigrane, n), TousBouges(l, e.filigrane, b));
  }

  lemma HautDe(l: Lecture, ordre: seq<Fid>, e: Instantane)
    requires Complete(l) && forall f :: f in ordre ==> f in l.fils
    ensures var (lignes, f) := Detecter(l, ordre, Some(e)); f == Instantane(Haut(lignes, e.filigrane), Comptes(l.fils))
  {
    hide TousNeufs, TousBouges, Haut;
  }

  lemma HautAtteint(lignes: seq<Ligne>, h: nat, x: Ligne)
    requires x in lignes && x.LigneReponse?
    ensures x.id <= Haut(lignes, h)
  {
    var i :| 0 <= i < |lignes| && lignes[i] == x;
  }

  // --------------------------------------------------- a coherent reading

  lemma LuTous(c: Cliche)
    requires Coherent(c)
    ensures TousLus(Lire(c))
  {
  }

  /** A reply is new exactly when its number is past the mark. */
  lemma PasseLeHaut(c: Cliche, d: Cliche, h: nat, f: Fid, x: nat)
    requires Coherent(d) && Croit(c, d) && EstHaut(c, h) && f in d && x in d[f].reponses
    ensures !Present(c, x) <==> x > h
    ensures !Present(c, x) ==> |d[f].reponses| > Anciennes(c, f)
    ensures !Present(c, x) && f in c ==> |d[f].reponses| != |c[f].reponses|
  {
    var i :| 0 <= i < |d[f].reponses| && d[f].reponses[i] == x;
    if i < Anciennes(c, f) {
      assert c[f].reponses[i] == x;
      assert Present(c, x);
    } else if h > 0 {
      assert Present(c, h);
    }
  }

  /** On a coherent reading, what is noted is what is new. */
  lemma ReleveeNouvelle(c: Cliche, d: Cliche, e: Instantane, x: Ligne)
    requires Coherent(d) && Croit(c, d) && Scelle(e, c)
    ensures Relevee(Lire(d), e, x) <==> Nouvelle(x, c, d)
  {
    if x.LigneReponse? && x.fil in d && x.id in d[x.fil].reponses {
      PasseLeHaut(c, d, e.filigrane, x.fil, x.id);
    }
    hide Coherent, Croit, EstHaut, Present;
  }

  /** A coherent reading lists exactly the messages that were not there at the
      last sealed moment, each once, and its snapshot stands for the new moment. */
  lemma DetecterExact(c: Cliche, d: Cliche, ordre: seq<Fid>, e: Instantane)
    requires Coherent(d) && Croit(c, d) && Scelle(e, c) && Enumere(ordre, d.Keys)
    ensures var (lignes, f) := Detecter(Lire(d), ordre, Some(e)); Liste(lignes, c, d) && Scelle(f, d)
  {
    hide Detecter, Coherent, Croit, EstHaut, Present, Haut, Relevee, Nouvelle, TousLus;
    var l := Lire(d);
    var lignes := Detecter(l, ordre, Some(e)).0;
    LuTous(d);
    DetecterDe(l, ordre, e);
    forall x ensures x in lignes <==> Nouvelle(x, c, d) {
      ReleveeNouvelle(c, d, e, x);
    }
    HautExact(c, d, lignes, e.filigrane);
    HautDe(l, ordre, e);
  }

  lemma HautExact(c: Cliche, d: Cliche, lignes: seq<Ligne>, h: nat)
    requires Coherent(d) && Croit(c, d) && EstHaut(c, h) && forall l :: l in lignes <==> Nouvelle(l, c, d)
    ensures EstHaut(d, Haut(lignes, h))
  {
    var g := Haut(lignes, h);
    forall x: nat | Present(d, x) ensures x <= g {
      var f :| f in d && x in d[f].reponses;
      if !Present(c, x) {
        assert Nouvelle(LigneReponse(x, f), c, d);
        var i :| 0 <= i < |lignes| && lignes[i] == LigneReponse(x, f);
      }
    }
    if g != h {
      var i :| 0 <= i < |lignes| && lignes[i].LigneReponse? && lignes[i].id == g;
      assert Nouvelle(lignes[i], c, d);
      assert Present(d, g);
    } else if h > 0 {
      Reste(c, d, h);
    }
  }

  lemma Reste(c: Cliche, d: Cliche, x: nat)
    requires Croit(c, d) && Present(c, x)
    ensures Present(d, x)
  {
    var f :| f in c && x in c[f].reponses;
    var i :| 0 <= i < |c[f].reponses| && c[f].reponses[i] == x;
    assert d[f].reponses[i] == x;
  }

  lemma CroitTrans(c: Cliche, d: Cliche, e: Cliche)
    requires Croit(c, d) && Croit(d, e)
    ensures Croit(c, e)
  {
    forall f, i, x | f in e && Anciennes(c, f) <= i < |e[f].reponses| && Present(c, x) ensures x < e[f].reponses[i] {
      if i < Anciennes(d, f) {
        assert e[f].reponses[i] == d[f].reponses[i];
      } else {
        Reste(c, d, x);
      }
    }
  }

  lemma CroitMeme(c: Cliche)
    ensures Croit(c, c)
  {
  }

  // ------------------------------------------------------------- the rounds

  /** The three files of the script; as history, the moment first sealed, the
      moment sealed now, the one in flight, the last one seen, and the messages of
      the rounds that were validated. */
  datatype Disque = Disque(
    etat: Option<Instantane>, enVol: Option<Instantane>, sortie: seq<Ligne>,
    premier: Cliche, scelle: Cliche, vol: Cliche, dernier: Cliche, traitees: seq<Ligne>)

  const VIDE: Disque := Disque(None, None, [], map[], map[], map[], map[], [])

  datatype Action = Ronde(cliche: Cliche, ordre: seq<Fid>) | Valider

  /** The first reading seals without listing anything. */
  function Plafond(c: Cliche, ordre: seq<Fid>): (h: nat)
    requires forall f :: f in ordre ==> f in c
    ensures forall f, i :: f in ordre && 0 <= i < |c[f].reponses| ==> c[f].reponses[i] <= h
    ensures h == 0 || exists f :: f in ordre && h in c[f].reponses
  {
    if ordre == [] then 0 else
      var f := ordre[|ordre| - 1];
      var p := ordre[..|ordre| - 1];
      var h := Plafond(c, p);
      var m := Maximum(c[f].reponses);
      assert forall g :: g in ordre <==> g in p || g == f;
      if m > h then m else h
  }

  function Maximum(ids: seq<nat>): (m: nat)
    ensures forall i :: 0 <= i < |ids| ==> ids[i] <= m
    ensures m == 0 || m in ids
  {
    if ids == [] then 0 else
      var m := Maximum(ids[..|ids| - 1]);
      if ids[|ids| - 1] > m then ids[|ids| - 1] else m
  }

  predicate Faisable(d: Disque, a: Action) { a.Ronde? ==> (forall f :: f in a.ordre ==> f in a.cliche) }

  function Agir(d: Disque, a: Action): Disque
    requires Faisable(d, a)
  {
    match a
    case Ronde(c, ordre) =>
      if d.etat.None? then
        d.(etat := Some(Instantane(Plafond(c, ordre), Comptes(Lire(c).fils))), sortie := [],
           premier := c, scelle := c, dernier := c)
      else
        var (lignes, e) := Detecter(Lire(c), ordre, d.etat);
        d.(enVol := Some(e), sortie := lignes, vol := c, dernier := c)
    case Valider =>
      if d.enVol.None? then d
      else d.(etat := d.enVol, enVol := None, scelle := d.vol, traitees := d.traitees + d.sortie)
  }

  /** The forum only grows from one reading to the next, and each reading is
      coherent and lists every thread once. */
  ghost predicate Permise(d: Disque, a: Action) {
    a.Ronde? ==> Coherent(a.cliche) && Croit(d.dernier, a.cliche) && Enumere(a.ordre, a.cliche.Keys)
  }

  ghost predicate Inv(d: Disque) {
    && (d.etat.None? ==> d.enVol.None? && d.traitees == [] && d.premier == d.scelle == d.dernier == map[])
    && (d.etat.Some? ==> Scelle(d.etat.value, d.scelle))
    && Croit(d.premier, d.scelle) && Croit(d.scelle, d.dernier)
    && Liste(d.traitees, d.premier, d.scelle)
    && (d.enVol.Some? ==>
          && d.etat.Some? && Scelle(d.enVol.value, d.vol) && Croit(d.scelle, d.vol) && Croit(d.vol, d.dernier)
          && Liste(d.sortie, d.scelle, d.vol))
  }

  lemma ListeVide(c: Cliche)
    ensures Liste([], c, c)
  {
    forall l ensures !Nouvelle(l, c, c) {
      if l.LigneReponse? && l.fil in c && l.id in c[l.fil].reponses { assert Present(c, l.id); }
    }
  }

  lemma AmorceTient(d: Disque, c: Cliche, ordre: seq<Fid>)
    requires Inv(d) && d.etat.None? && Permise(d, Ronde(c, ordre))
    ensures Inv(Agir(d, Ronde(c, ordre)))
  {
    hide Coherent, Croit, Liste;
    var h := Plafond(c, ordre);
    assert EstHaut(c, h) by {
      forall x: nat | Present(c, x) ensures x <= h {
        var f :| f in c && x in c[f].reponses;
        var i :| 0 <= i < |c[f].reponses| && c[f].reponses[i] == x;
        assert f in ordre;
      }
    }
    CroitMeme(c);
    ListeVide(c);
  }

  lemma RondeTient(d: Disque, c: Cliche, ordre: seq<Fid>)
    requires Inv(d) && d.etat.Some? && Permise(d, Ronde(c, ordre))
    ensures Inv(Agir(d, Ronde(c, ordre)))
  {
    hide Coherent, Croit, Liste, Detecter, Scelle;
    CroitTrans(d.scelle, d.dernier, c);
    CroitMeme(c);
    DetecterExact(d.scelle, c, ordre, d.etat.value);
  }

  /** Two lists follow one another. */
  lemma ListeSuite(a: seq<Ligne>, b: seq<Ligne>, c: Cliche, d: Cliche, e: Cliche)
    requires Liste(a, c, d) && Liste(b, d, e) && Croit(c, d) && Croit(d, e)
    ensures Liste(a + b, c, e)
  {
    forall l | l in a ensures l !in b && Nouvelle(l, c, e) {
      assert Nouvelle(l, c, d);
      if l.LigneReponse? {
        assert Present(d, l.id);
        assert d[l.fil].reponses <= e[l.fil].reponses;
        var i :| 0 <= i < |d[l.fil].reponses| && d[l.fil].reponses[i] == l.id;
        assert e[l.fil].reponses[i] == l.id;
      }
      assert !Nouvelle(l, d, e);
      FilGarde(c, d, e, l);
    }
    forall l | l in b ensures Nouvelle(l, c, e) {
      assert Nouvelle(l, d, e);
      if l.LigneReponse? && Present(c, l.id) { Reste(c, d, l.id); }
    }
    forall l | Nouvelle(l, c, e) && l !in b ensures l in a {
      assert !Nouvelle(l, d, e);
      ViensDAvant(c, d, e, l);
      assert Nouvelle(l, c, d);
    }
    DistinctsPlus(a, b);
  }

  lemma FilGarde(c: Cliche, d: Cliche, e: Cliche, l: Ligne)
    requires Croit(d, e) && Nouvelle(l, c, d)
    ensures l.LigneFil? ==> Nouvelle(l, c, e)
  {
  }

  lemma ViensDAvant(c: Cliche, d: Cliche, e: Cliche, l: Ligne)
    requires Croit(c, d) && Croit(d, e) && Nouvelle(l, c, e) && !Nouvelle(l, d, e)
    ensures Nouvelle(l, c, d)
  {
  }

  lemma ValiderTient(d: Disque)
    requires Inv(d)
    ensures Inv(Agir(d, Valider))
  {
    hide Croit, Liste, Scelle;
    if d.enVol.Some? {
      ListeSuite(d.traitees, d.sortie, d.premier, d.scelle, d.vol);
      CroitTrans(d.premier, d.scelle, d.vol);
    }
  }

  /** The disk after some actions. */
  ghost predicate Execution(ds: seq<Disque>, actions: seq<Action>) {
    && |ds| == |actions| + 1 && ds[0] == VIDE
    && forall i :: 0 <= i < |actions| ==>
         Permise(ds[i], actions[i]) && Faisable(ds[i], actions[i]) && ds[i + 1] == Agir(ds[i], actions[i])
  }

  lemma {:induction false} ExecutionTient(ds: seq<Disque>, actions: seq<Action>, i: nat)
    requires Execution(ds, actions) && i < |ds|
    ensures Inv(ds[i])
  {
    hide Inv, Agir, Permise, Faisable;
    if i == 0 {
      VideTient();
    } else {
      ExecutionTient(ds, actions, i - 1);
      AgirTient(ds[i - 1], actions[i - 1]);
    }
  }

  lemma VideTient()
    ensures Inv(VIDE)
  {
    ListeVide(map[]);
  }

  lemma AgirTient(d: Disque, a: Action)
    requires Inv(d) && Permise(d, a) && Faisable(d, a)
    ensures Inv(Agir(d, a))
  {
    hide Inv, Agir, Permise;
    match a
    case Ronde(c, ordre) => if d.etat.None? { AmorceTient(d, c, ordre); } else { RondeTient(d, c, ordre); }
    case Valider => ValiderTient(d);
  }

  /** Over any mix of rounds validated and rounds lost, the validated rounds have
      together listed exactly the messages between the first moment sealed and the
      last, each once; and the mark is the largest reply of the last. */
  lemma ExactementUneFois(ds: seq<Disque>, actions: seq<Action>, i: nat)
    requires Execution(ds, actions) && i < |ds|
    ensures var d := ds[i];
      && Liste(d.traitees, d.premier, d.scelle)
      && (d.etat.Some? ==> EstHaut(d.scelle, d.etat.value.filigrane))
  {
    hide Execution, Liste, Croit, EstHaut;
    ExecutionTient(ds, actions, i);
  }

  // --------------------------------------------------------------- its limit

  /** Were a detail read later than the inventory, a reply could be lost for good:
      reply 4 comes to thread B and reply 5 to thread A after the inventory; the
      detail of A raises the mark past 4, and B, read at the next round, shows
      nothing past the mark. */
  lemma DetailTardif(a: Fid, b: Fid)
    requires a != b
    ensures var l1 := Lecture(map[a := Entree(2, true), b := Entree(1, true)], map[a := [1, 3, 5], b := [2, 4]]);
      var l2 := Lecture(map[a := Entree(3, true), b := Entree(2, true)], map[a := [1, 3, 5], b := [2, 4]]);
      var e0 := Instantane(2, map[a := 1, b := 1]);
      && Complete(l1) && Complete(l2)
      && var (r1, e1) := Detecter(l1, [a, b], Some(e0));
      && var (r2, e2) := Detecter(l2, [a, b], Some(e1));
         LigneReponse(4, b) !in r1 && LigneReponse(4, b) !in r2 && e2.filigrane >= 5 && e2.comptes[b] == 2
  {
    var l1 := Lecture(map[a := Entree(2, true), b := Entree(1, true)], map[a := [1, 3, 5], b := [2, 4]]);
    var l2 := Lecture(map[a := Entree(3, true), b := Entree(2, true)], map[a := [1, 3, 5], b := [2, 4]]);
    var e0 := Instantane(2, map[a := 1, b := 1]);
    hide Detecter, Haut;
    TardifLu(a, b);
    DetecterDe(l1, [a, b], e0);
    HautDe(l1, [a, b], e0);
    var r1 := Detecter(l1, [a, b], Some(e0));
    assert LigneReponse(5, a) in r1.0;
    HautAtteint(r1.0, e0.filigrane, LigneReponse(5, a));
    DetecterDe(l2, [a, b], r1.1);
    HautDe(l2, [a, b], r1.1);
  }

  lemma TardifLu(a: Fid, b: Fid)
    requires a != b
    ensures TousLus(Lecture(map[a := Entree(2, true), b := Entree(1, true)], map[a := [1, 3, 5], b := [2, 4]]))
    ensures TousLus(Lecture(map[a := Entree(3, true), b := Entree(2, true)], map[a := [1, 3, 5], b := [2, 4]]))
    ensures Enumere([a, b], {a, b})
  {
  }

  /** No later reading against this snapshot lists that reply of that thread. */
  ghost predicate PerduePour(e: Instantane, x: nat, f: Fid) {
    forall l, ordre :: TousLus(l) && Enumere(ordre, l.fils.Keys) ==> !Listee(l, ordre, e, x, f)
  }

  ghost predicate Listee(l: Lecture, ordre: seq<Fid>, e: Instantane, x: nat, f: Fid)
    requires Complete(l) && forall g :: g in ordre ==> g in l.fils
  {
    LigneReponse(x, f) in Detecter(l, ordre, Some(e)).0
  }

  /** Exactly what a snapshot gives up: the replies at or below its mark. After any
      reading, coherent or not, a reply is out of reach of every later one exactly
      when the mark the reading left is not below it. */
  lemma PerdueExactement(e: Instantane, x: nat, f: Fid)
    ensures PerduePour(e, x, f) <==> x <= e.filigrane
  {
    hide Detecter;
    forall l, ordre | TousLus(l) && Enumere(ordre, l.fils.Keys)
      ensures Listee(l, ordre, e, x, f) <==> Relevee(l, e, LigneReponse(x, f))
    {
      DetecterDe(l, ordre, e);
    }
    if x > e.filigrane {
      var n := if f in e.comptes && e.comptes[f] == 1 then 2 else 1;
      var l := Lecture(map[f := Entree(n, true)], map[f := [x]]);
      assert Relevee(l, e, LigneReponse(x, f));
      assert TousLus(l) && Enumere([f], l.fils.Keys);
      assert Listee(l, [f], e, x, f);
    }
  }

  /** So a round that leaves a reply unread loses it exactly when it raised the mark
      to it or past it. */
  lemma PerdueApres(l: Lecture, ordre: seq<Fid>, e: Instantane, x: nat, f: Fid)
    requires TousLus(l) && Enumere(ordre, l.fils.Keys) && LigneReponse(x, f) !in Detecter(l, ordre, Some(e)).0
    ensures var (lignes, suivant) := Detecter(l, ordre, Some(e));
      PerduePour(suivant, x, f) <==>
        x <= e.filigrane || exists y, g :: LigneReponse(y, g) in lignes && x <= y
  {
    hide Detecter, PerduePour, Haut;
    var r := Detecter(l, ordre, Some(e));
    HautDe(l, ordre, e);
    PerdueExactement(r.1, x, f);
    HautExtreme(r.0, e.filigrane);
    forall y: nat, g | LigneReponse(y, g) in r.0 ensures y <= r.1.filigrane {
      HautAtteint(r.0, e.filigrane, LigneReponse(y, g));
    }
  }

  lemma HautExtreme(lignes: seq<Ligne>, h: nat)
    ensures Haut(lignes, h) >= h
    ensures Haut(lignes, h) == h || exists y, g :: LigneReponse(y, g) in lignes && y == Haut(lignes, h)
  {
    if Haut(lignes, h) != h {
      var i :| 0 <= i < |lignes| && lignes[i].LigneReponse? && lignes[i].id == Haut(lignes, h);
      assert lignes[i] == LigneReponse(Haut(lignes, h), lignes[i].fil);
    }
  }
}
