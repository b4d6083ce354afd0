/** The deposit of a forum message into an issue, once only
    (scripts/verser-message-forum.py): a marker alone on its line is the memory. */
module Verser {
  import opened Commun

  datatype Genre = Reponse | Fil

  /** The key of a message; `Texte` is how it is written. */
  datatype Cle = Cle(genre: Genre, id: nat)

  // -------------------------------------------------------------- numbers

  predicate Chiffre(c: char) { '0' <= c <= '9' }

  predicate Chiffres(t: string) { forall i :: 0 <= i < |t| ==> Chiffre(t[i]) }

  /** `int` of a run of digits: leading zeros are lost. */
  function Valeur(t: string): nat
    requires Chiffres(t)
  {
    if t == [] then 0 else Valeur(t[..|t| - 1]) * 10 + (t[|t| - 1] as int - '0' as int)
  }

  /** `%d`. */
  function Decimal(n: nat): (t: string)
    ensures t != [] && Chiffres(t) && Valeur(t) == n
  {
    var c := ('0' as int + n % 10) as char;
    if n < 10 then
      assert [c][..0] == [];
      [c]
    else
      var p := Decimal(n / 10);
      assert (p + [c])[..|p|] == p;
      p + [c]
  }

  // -------------------------------------------------------------- markers

  predicate Espace(c: char) { c == ' ' || c == '\t' }

  function Prefixe(g: Genre): string { match g case Reponse => "forum-reply:" case Fil => "forum-thread:" }

  function Texte(k: Cle): string { Prefixe(k.genre) + Decimal(k.id) }

  function SansTete(t: string): (r: string)
    ensures |r| <= |t| && (r != [] ==> !Espace(r[0]))
  {
    if t != [] && Espace(t[0]) then SansTete(t[1..]) else t
  }

  function SansQueue(t: string): (r: string)
    ensures |r| <= |t| && (r != [] ==> !Espace(r[|r| - 1]))
  {
    if t != [] && Espace(t[|t| - 1]) then SansQueue(t[..|t| - 1]) else t
  }

  /** A key standing alone, digits as they come. */
  function CleSeule(x: string): Option<Cle> {
    if Prefixe(Reponse) <= x && |x| > 12 && Chiffres(x[12..]) then Some(Cle(Reponse, Valeur(x[12..])))
    else if Prefixe(Fil) <= x && |x| > 13 && Chiffres(x[13..]) then Some(Cle(Fil, Valeur(x[13..])))
    else None
  }

  /** The marker a whole line is, if it is one: blanks, the key, blanks. */
  function MarqueurDe(ligne: string): Option<Cle> { CleSeule(SansQueue(SansTete(ligne))) }

  ghost predicate Blanc(t: string) { forall i :: 0 <= i < |t| ==> Espace(t[i]) }

  /** The pattern, read declaratively. */
  ghost predicate Pose(ligne: string, k: Cle, avant: string, chiffres: string, apres: string) {
    && Blanc(avant) && Blanc(apres) && chiffres != [] && Chiffres(chiffres)
    && ligne == avant + (if k.genre.Reponse? then "forum-reply:" else "forum-thread:") + chiffres + apres
    && Valeur(chiffres) == k.id
  }

  lemma {:induction false} TeteCoupee(t: string) returns (b: string)
    ensures Blanc(b) && t == b + SansTete(t)
  {
    if t != [] && Espace(t[0]) {
      var c := TeteCoupee(t[1..]);
      b := [t[0]] + c;
    } else {
      b := [];
    }
  }

  lemma {:induction false} QueueCoupee(t: string) returns (b: string)
    ensures Blanc(b) && t == SansQueue(t) + b
  {
    if t != [] && Espace(t[|t| - 1]) {
      var c := QueueCoupee(t[..|t| - 1]);
      b := c + [t[|t| - 1]];
    } else {
      b := [];
    }
  }

  lemma {:induction false} TeteDe(b: string, t: string)
    requires Blanc(b) && t != [] && !Espace(t[0])
    ensures SansTete(b + t) == t
  {
    if b == [] {
      assert b + t == t;
    } else {
      assert (b + t)[1..] == b[1..] + t;
      TeteDe(b[1..], t);
    }
  }

  lemma {:induction false} QueueDe(t: string, b: string)
    requires Blanc(b) && t != [] && !Espace(t[|t| - 1])
    ensures SansQueue(t + b) == t
  {
    if b == [] {
      assert t + b == t;
    } else {
      assert (t + b)[..|t + b| - 1] == t + b[..|b| - 1];
      QueueDe(t, b[..|b| - 1]);
    }
  }

  /** A line is a marker exactly when it is blanks, the prefix of its kind, digits
      that make its number, and blanks. */
  lemma MarqueurExact(ligne: string, k: Cle)
    ensures MarqueurDe(ligne) == Some(k) <==> exists a, c, b :: Pose(ligne, k, a, c, b)
  {
    hide MarqueurDe, Pose;
    if MarqueurDe(ligne) == Some(k) {
      var a, c, b := PoseTrouvee(ligne, k);
      assert Pose(ligne, k, a, c, b);
    }
    if a, c, b :| Pose(ligne, k, a, c, b) {
      PoseLue(ligne, k, a, c, b);
    }
  }

  lemma PoseTrouvee(ligne: string, k: Cle) returns (a: string, c: string, b: string)
    requires MarqueurDe(ligne) == Some(k)
    ensures Pose(ligne, k, a, c, b)
  {
    hide SansTete, SansQueue, Valeur;
    a := TeteCoupee(ligne);
    b := QueueCoupee(SansTete(ligne));
    var x := SansQueue(SansTete(ligne));
    c := x[|Prefixe(k.genre)|..];
    assert x == Prefixe(k.genre) + c;
  }

  lemma PoseLue(ligne: string, k: Cle, a: string, c: string, b: string)
    requires Pose(ligne, k, a, c, b)
    ensures MarqueurDe(ligne) == Some(k)
  {
    hide SansTete, SansQueue, Valeur, CleSeule, Chiffres, Pose, Prefixe, Espace, Blanc;
    var x := Prefixe(k.genre) + c;
    PoseDe(ligne, k, a, c, b);
    PasBlanc(c);
    TeteDe(a, x + b);
    QueueDe(x, b);
    SeuleLue(k, c);
  }

  lemma PoseDe(ligne: string, k: Cle, a: string, c: string, b: string)
    requires Pose(ligne, k, a, c, b)
    ensures Blanc(a) && Blanc(b) && c != [] && Chiffres(c) && Valeur(c) == k.id
    ensures var x := Prefixe(k.genre) + c;
      ligne == a + (x + b) && x[|x| - 1] == c[|c| - 1] && !Espace((x + b)[0])
  {
    hide Valeur, Chiffres, Blanc;
    var x := Prefixe(k.genre) + c;
    assert (x + b)[0] == 'f';
  }

  lemma PasBlanc(c: string)
    requires c != [] && Chiffres(c)
    ensures !Espace(c[|c| - 1])
  {
  }

  lemma SeuleLue(k: Cle, c: string)
    requires c != [] && Chiffres(c) && Valeur(c) == k.id
    ensures CleSeule(Prefixe(k.genre) + c) == Some(k)
  {
    hide Valeur;
    var x := Prefixe(k.genre) + c;
    assert x[|Prefixe(k.genre)|..] == c;
    assert x[6] == Prefixe(k.genre)[6];
  }

  lemma TexteLu(k: Cle)
    ensures MarqueurDe(Texte(k)) == Some(k)
  {
    assert Texte(k) == [] + Prefixe(k.genre) + Decimal(k.id) + [];
    assert Pose(Texte(k), k, [], Decimal(k.id), []);
    MarqueurExact(Texte(k), k);
  }

  // ---------------------------------------------------------------- lines

  /** One more character: a new line, or the last line longer. */
  function Ajout(ls: seq<string>, c: char): (r: seq<string>)
    requires ls != []
    ensures r != []
  {
    if c == '\n' then ls + [[]] else ls[..|ls| - 1] + [ls[|ls| - 1] + [c]]
  }

  function Lignes(t: string): (ls: seq<string>)
    ensures ls != []
  {
    if t == [] then [[]] else Ajout(Lignes(t[..|t| - 1]), t[|t| - 1])
  }

  lemma AjoutSuite(a: seq<string>, b: seq<string>, c: char)
    requires b != []
    ensures Ajout(a + b, c) == a + Ajout(b, c)
  {
    var x := a + b;
    assert x[..|x| - 1] == a + b[..|b| - 1];
  }

  lemma LignesPas(t: string, c: char)
    ensures Lignes(t + [c]) == Ajout(Lignes(t), c)
  {
    hide Ajout;
    assert (t + [c])[..|t|] == t;
  }

  lemma LignesVides(ls: seq<string>)
    requires ls != []
    ensures Ajout(ls, '\n') == ls + Lignes([])
  {
  }

  lemma {:induction false} LignesSuite(a: string, b: string)
    ensures Lignes(a + ['\n'] + b) == Lignes(a) + Lignes(b)
  {
    hide Lignes, Ajout;
    if b == [] {
      assert a + ['\n'] + b == a + ['\n'];
      LignesPas(a, '\n');
      LignesVides(Lignes(a));
    } else {
      var d, c := b[..|b| - 1], b[|b| - 1];
      assert b == d + [c];
      assert a + ['\n'] + b == (a + ['\n'] + d) + [c];
      LignesSuite(a, d);
      LignesPas(a + ['\n'] + d, c);
      LignesPas(d, c);
      AjoutSuite(Lignes(a), Lignes(d), c);
    }
  }

  lemma {:induction false} UneLigne(t: string)
    requires '\n' !in t
    ensures Lignes(t) == [t]
  {
    if t != [] {
      UneLigne(t[..|t| - 1]);
      assert t == t[..|t| - 1] + [t[|t| - 1]];
      assert [t[..|t| - 1]][..0] == [];
    }
  }

  /** The keys set on some lines. */
  function ClesDes(ls: seq<string>): set<Cle> {
    if ls == [] then {} else
      var k := MarqueurDe(ls[|ls| - 1]);
      ClesDes(ls[..|ls| - 1]) + if k.Some? then {k.value} else {}
  }

  lemma {:induction false} ClesSuite(a: seq<string>, b: seq<string>)
    ensures ClesDes(a + b) == ClesDes(a) + ClesDes(b)
  {
    hide MarqueurDe;
    if b == [] {
      assert a + b == a;
    } else {
      assert (a + b)[..|a + b| - 1] == a + b[..|b| - 1];
      ClesSuite(a, b[..|b| - 1]);
    }
  }

  /** The keys really set in a text. */
  function Marqueurs(t: string): set<Cle> { ClesDes(Lignes(t)) }

  function ClesDesTextes(ts: seq<string>): set<Cle> {
    if ts == [] then {} else ClesDesTextes(ts[..|ts| - 1]) + Marqueurs(ts[|ts| - 1])
  }

  /** The loop of the source over the body and the comments. */
  method DejaVerse(textes: seq<string>, cle: Cle) returns (b: bool)
    ensures b <==> cle in ClesDesTextes(textes)
  {
    hide Marqueurs;
    var i := 0;
    while i < |textes|
      invariant 0 <= i <= |textes| && cle !in ClesDesTextes(textes[..i])
    {
      assert textes[..i + 1][..i] == textes[..i];
      if cle in Marqueurs(textes[i]) {
        Contient(textes, i, cle);
        return true;
      }
      i := i + 1;
    }
    assert textes[..i] == textes;
    b := false;
  }

  lemma {:induction false} Contient(textes: seq<string>, i: nat, cle: Cle)
    requires i < |textes| && cle in Marqueurs(textes[i])
    ensures cle in ClesDesTextes(textes)
  {
    hide Marqueurs;
    if i < |textes| - 1 { Contient(textes[..|textes| - 1], i, cle); }
  }

  // -------------------------------------------------------------- deposits

  predicate Vide(c: char) {
    || c in " \t\n\r"
    || 0x0B <= c as int <= 0x0C || 0x1C <= c as int <= 0x1F || c as int == 0x85 || c as int == 0xA0
    || c as int == 0x1680 || 0x2000 <= c as int <= 0x200A || 0x2028 <= c as int <= 0x2029
    || c as int == 0x202F || c as int == 0x205F || c as int == 0x3000
  }

  /** `str.rstrip`. */
  function Rstrip(t: string): string { if t != [] && Vide(t[|t| - 1]) then Rstrip(t[..|t| - 1]) else t }

  /** The comment: the body, a blank line, the key alone on its line. */
  function Depot(corps: string, k: Cle): string { Rstrip(corps) + "\n\n" + Texte(k) + "\n" }

  datatype Appel = Appel(cle: Cle, corps: string, simuler: bool)

  /** `verser`: 3 when the key is already there, else 0; the texts of the issue
      after the call. */
  function VerserSur(textes: seq<string>, a: Appel): (seq<string>, nat) {
    if a.cle in ClesDesTextes(textes) then (textes, 3)
    else if a.simuler then (textes, 0)
    else (textes + [Depot(a.corps, a.cle)], 0)
  }

  /** An issue: its body and its comments. */
  class Issue {
    var textes: seq<string>

    constructor (textes: seq<string>)
      ensures this.textes == textes
    {
      this.textes := textes;
    }

    method Verser(a: Appel) returns (code: nat)
      modifies this
      ensures (textes, code) == VerserSur(old(textes), a)
    {
      hide ClesDesTextes, Depot;
      var deja := DejaVerse(textes, a.cle);
      if deja { return 3; }
      if a.simuler { return 0; }
      textes := textes + [Depot(a.corps, a.cle)];
      return 0;
    }
  }

  /** A deposit sets its own key, and whatever its body already held. */
  lemma ClesDuDepot(corps: string, k: Cle)
    ensures Marqueurs(Depot(corps, k)) == Marqueurs(Rstrip(corps)) + {k}
  {
    hide Rstrip, MarqueurDe, ClesDes, Lignes;
    var r, t := Rstrip(corps), Texte(k);
    assert Depot(corps, k) == r + ['\n'] + ([] + ['\n'] + (t + ['\n'] + []));
    LignesSuite(r, [] + ['\n'] + (t + ['\n'] + []));
    LignesSuite([], t + ['\n'] + []);
    LignesSuite(t, []);
    TexteSansSaut(k);
    UneLigne(t);
    UneLigne([]);
    ClesSuite(Lignes(r), [[]] + ([t] + [[]]));
    ClesSuite([[]], [t] + [[]]);
    ClesSuite([t], [[]]);
    ClesDuMarqueur(k);
  }

  /** The comment, line by line: those of the body without its trailing blanks, an
      empty line, the key, and an end of line. */
  lemma DepotExact(corps: string, k: Cle)
    ensures Lignes(Depot(corps, k)) == Lignes(Rstrip(corps)) + ["", Texte(k), ""]
    ensures Texte(k) == (if k.genre.Reponse? then "forum-reply:" else "forum-thread:") + Decimal(k.id)
    ensures Rstrip(corps) <= corps && (forall i :: |Rstrip(corps)| <= i < |corps| ==> Vide(corps[i]))
    ensures Rstrip(corps) != "" ==> !Vide(Rstrip(corps)[|Rstrip(corps)| - 1])
  {
    RstripExact(corps);
    hide Rstrip, MarqueurDe, Lignes, Vide;
    var r, t := Rstrip(corps), Texte(k);
    assert Depot(corps, k) == r + ['\n'] + ([] + ['\n'] + (t + ['\n'] + []));
    LignesSuite(r, [] + ['\n'] + (t + ['\n'] + []));
    LignesSuite([], t + ['\n'] + []);
    LignesSuite(t, []);
    TexteSansSaut(k);
    UneLigne(t);
    UneLigne([]);
  }

  lemma {:induction false} RstripExact(t: string)
    ensures Rstrip(t) <= t && (forall i :: |Rstrip(t)| <= i < |t| ==> Vide(t[i]))
    ensures Rstrip(t) != "" ==> !Vide(Rstrip(t)[|Rstrip(t)| - 1])
  {
    hide Vide;
    if t != [] && Vide(t[|t| - 1]) { RstripExact(t[..|t| - 1]); }
  }

  /** A number is written without leading zeros. */
  lemma {:induction false} DecimalExact(n: nat)
    ensures n >= 10 ==> |Decimal(n)| >= 2
    ensures n > 0 ==> Decimal(n)[0] != '0'
    ensures n < 10 ==> |Decimal(n)| == 1
  {
    if n >= 10 { DecimalExact(n / 10); }
  }

  lemma ClesDuMarqueur(k: Cle)
    ensures ClesDes([Texte(k)]) == {k} && ClesDes([[]]) == {}
  {
    hide Texte, MarqueurDe;
    TexteLu(k);
    var vide: string := [];
    UneCle(Texte(k));
    UneCle(vide);
    LigneVide();
  }

  lemma UneCle(t: string)
    ensures ClesDes([t]) == if MarqueurDe(t).Some? then {MarqueurDe(t).value} else {}
  {
    hide MarqueurDe;
    assert [t][..0] == [];
  }

  lemma LigneVide()
    ensures MarqueurDe([]) == None
  {
  }

  lemma TexteSansSaut(k: Cle)
    ensures '\n' !in Texte(k)
  {
    hide Valeur;
    assert forall i :: 0 <= i < |Decimal(k.id)| ==> Decimal(k.id)[i] != '\n';
  }

  // --------------------------------------------------------------- the runs

  /** The texts of the issue after some calls. */
  function Apres(textes: seq<string>, appels: seq<Appel>): seq<string> {
    if appels == [] then textes
    else VerserSur(Apres(textes, appels[..|appels| - 1]), appels[|appels| - 1]).0
  }

  function Code(textes: seq<string>, appels: seq<Appel>, i: nat): nat
    requires i < |appels|
  {
    VerserSur(Apres(textes, appels[..i]), appels[i]).1
  }

  /** The call posted a comment. */
  predicate Postee(textes: seq<string>, appels: seq<Appel>, i: nat)
    requires i < |appels|
  {
    Code(textes, appels, i) == 0 && !appels[i].simuler
  }

  /** The key was set by an earlier call, as its own or in its body. */
  ghost predicate PoseePar(textes: seq<string>, appels: seq<Appel>, n: nat, k: Cle)
    requires n <= |appels|
  {
    exists j :: 0 <= j < n && Postee(textes, appels, j)
      && (appels[j].cle == k || k in Marqueurs(Rstrip(appels[j].corps)))
  }

  lemma {:induction false} ClesApres(textes: seq<string>, appels: seq<Appel>, n: nat, k: Cle)
    requires n <= |appels|
    ensures k in ClesDesTextes(Apres(textes, appels[..n])) <==>
            k in ClesDesTextes(textes) || PoseePar(textes, appels, n, k)
  {
    hide ClesDesTextes, Marqueurs, Depot, Rstrip;
    if n == 0 {
      assert appels[..0] == [];
    } else {
      ClesApres(textes, appels, n - 1, k);
      assert appels[..n][..n - 1] == appels[..n - 1];
      var avant, a := Apres(textes, appels[..n - 1]), appels[n - 1];
      assert Apres(textes, appels[..n]) == VerserSur(avant, a).0;
      UnDePlus(avant, Depot(a.corps, a.cle));
      ClesDuDepot(a.corps, a.cle);
      assert Postee(textes, appels, n - 1) <==> a.cle !in ClesDesTextes(avant) && !a.simuler;
      PoseePlus(textes, appels, n, k);
    }
  }

  lemma PoseePlus(textes: seq<string>, appels: seq<Appel>, n: nat, k: Cle)
    requires 0 < n <= |appels|
    ensures PoseePar(textes, appels, n, k) <==>
            || PoseePar(textes, appels, n - 1, k)
            || (Postee(textes, appels, n - 1)
                && (appels[n - 1].cle == k || k in Marqueurs(Rstrip(appels[n - 1].corps))))
  {
    hide Postee, Marqueurs, Rstrip;
  }

  lemma UnDePlus(textes: seq<string>, t: string)
    ensures ClesDesTextes(textes + [t]) == ClesDesTextes(textes) + Marqueurs(t)
  {
    assert (textes + [t])[..|textes|] == textes;
    hide Marqueurs;
  }

  /** A call is refused exactly when its key stood in the issue from the start, or
      was set by an earlier deposit of the run. */
  lemma RefusExact(textes: seq<string>, appels: seq<Appel>, i: nat)
    requires i < |appels|
    ensures Code(textes, appels, i) == 3 <==>
            appels[i].cle in ClesDesTextes(textes) || PoseePar(textes, appels, i, appels[i].cle)
    ensures Code(textes, appels, i) != 3 ==> Code(textes, appels, i) == 0
  {
    hide ClesDesTextes, PoseePar, Depot, Apres;
    ClesApres(textes, appels, i, appels[i].cle);
  }

  /** Whatever the bodies hold, no key is posted twice: a second call for it
      returns 3 and leaves the issue as it was. */
  lemma UneSeuleFois(textes: seq<string>, appels: seq<Appel>, i: nat, j: nat)
    requires i < j < |appels| && Postee(textes, appels, i) && appels[j].cle == appels[i].cle
    ensures Code(textes, appels, j) == 3 && !Postee(textes, appels, j)
    ensures VerserSur(Apres(textes, appels[..j]), appels[j]).0 == Apres(textes, appels[..j])
  {
    hide ClesDesTextes, Depot, Apres, Marqueurs, Rstrip;
    RefusExact(textes, appels, j);
    assert PoseePar(textes, appels, j, appels[j].cle);
  }

  /** When no posted body holds a marker line of its own, keys do not mask one
      another: a key absent at the start is refused only after its own deposit,
      even if its number begins another or is named in prose. */
  lemma SansMasque(textes: seq<string>, appels: seq<Appel>, i: nat)
    requires i < |appels| && appels[i].cle !in ClesDesTextes(textes)
    requires forall j :: 0 <= j < i ==> Marqueurs(Rstrip(appels[j].corps)) == {}
    ensures Code(textes, appels, i) == 3 <==>
            exists j :: 0 <= j < i && Postee(textes, appels, j) && appels[j].cle == appels[i].cle
  {
    hide ClesDesTextes, Depot, Apres, Marqueurs, Rstrip, Postee;
    RefusExact(textes, appels, i);
  }

  /** The limit: a body that holds another key alone on a line masks it. */
  lemma CorpsQuiMasque(k: Cle, o: Cle, corps: string)
    requires k != o
    ensures var appels := [Appel(k, Texte(o), false), Appel(o, corps, false)];
      Postee([], appels, 0) && Code([], appels, 1) == 3
  {
    hide Texte, Marqueurs, Depot;
    var appels := [Appel(k, Texte(o), false), Appel(o, corps, false)];
    assert appels[..0] == [];
    assert Postee([], appels, 0);
    MarqueurSeul(o);
    assert PoseePar([], appels, 1, o);
    RefusExact([], appels, 1);
  }

  lemma MarqueurSeul(k: Cle)
    ensures Marqueurs(Rstrip(Texte(k))) == {k}
  {
    hide Valeur, MarqueurDe, ClesDes, Lignes;
    TexteSansSaut(k);
    assert !Vide(Texte(k)[|Texte(k)| - 1]);
    UneLigne(Texte(k));
    ClesDuMarqueur(k);
  }

  /** A key is its text: two keys never read alike. */
  lemma TextesDistincts(a: Cle, b: Cle)
    ensures Texte(a) == Texte(b) ==> a == b
  {
    TexteLu(a);
    TexteLu(b);
  }
}
