/** The lexical reader of JavaScript literals used to map the web contract
    (scripts/web-contract-map.py): template literals may hold expressions that hold
    literals in turn. */
module LitJs {
  import opened Commun

  const NIVEAU_MAX := 64

  predicate Guillemet(c: char) { c == '\'' || c == '\"' || c == '`' }

  // ------------------------------------------------------------- the reader

  /** Where the measure of the recursion stands at place `i`. */
  function Reste(t: string, i: nat): nat { if i < |t| then |t| - i else 0 }

  predicate Commence(t: string, i: nat, a: char, b: char) { i + 1 < |t| && t[i] == a && t[i + 1] == b }

  /** The first place of a character from `i` on. */
  function Place(t: string, c: char, i: nat): (r: Option<nat>)
    ensures match r
            case Some(p) => i <= p < |t| && t[p] == c && forall k :: i <= k < p ==> t[k] != c
            case None => forall k :: i <= k < |t| ==> t[k] != c
    decreases Reste(t, i)
  {
    if i >= |t| then None else if t[i] == c then Some(i) else Place(t, c, i + 1)
  }

  /** The first place of a pair from `i` on. */
  function PlacePaire(t: string, a: char, b: char, i: nat): (r: Option<nat>)
    ensures match r
            case Some(p) => i <= p && Commence(t, p, a, b) && forall k :: i <= k < p ==> !Commence(t, k, a, b)
            case None => forall k :: i <= k ==> !Commence(t, k, a, b)
    decreases Reste(t, i)
  {
    if i >= |t| then None else if Commence(t, i, a, b) then Some(i) else PlacePaire(t, a, b, i + 1)
  }

  function FinChaine(t: string, debut: nat, niveau: nat): (r: Option<nat>)
    ensures r.Some? ==> debut < r.value <= |t|
    decreases Reste(t, debut), 2
  {
    if niveau > NIVEAU_MAX || debut >= |t| || !Guillemet(t[debut]) then None
    else SuiteChaine(t, debut + 1, t[debut], niveau)
  }

  /** Inside a literal closed by `d`. */
  function SuiteChaine(t: string, i: nat, d: char, niveau: nat): (r: Option<nat>)
    ensures r.Some? ==> i < r.value <= |t|
    decreases Reste(t, i), 1
  {
    if i >= |t| then None
    else if t[i] == '\\' then SuiteChaine(t, i + 2, d, niveau)
    else if t[i] == d then Some(i + 1)
    else if d == '`' && Commence(t, i, '$', '{') then
      var fin := SuiteExpression(t, i + 2, 1, niveau + 1);
      if fin.None? then None else SuiteChaine(t, fin.value, d, niveau)
    else SuiteChaine(t, i + 1, d, niveau)
  }

  /** Inside an expression, `k` braces open. */
  function SuiteExpression(t: string, i: nat, k: nat, niveau: nat): (r: Option<nat>)
    requires k > 0
    ensures r.Some? ==> i < r.value <= |t|
    decreases Reste(t, i), 3
  {
    if i >= |t| then None
    else if Guillemet(t[i]) then
      var fin := FinChaine(t, i, niveau + 1);
      if fin.None? then None else SuiteExpression(t, fin.value, k, niveau)
    else if Commence(t, i, '/', '/') then
      var fin := Place(t, '\n', i + 2);
      if fin.None? then None else SuiteExpression(t, fin.value + 1, k, niveau)
    else if Commence(t, i, '/', '*') then
      var fin := PlacePaire(t, '*', '/', i + 2);
      if fin.None? then None else SuiteExpression(t, fin.value + 2, k, niveau)
    else if t[i] == '/' then None
    else if t[i] == '{' then SuiteExpression(t, i + 1, k + 1, niveau)
    else if t[i] == '}' then (if k == 1 then Some(i + 1) else SuiteExpression(t, i + 1, k - 1, niveau))
    else SuiteExpression(t, i + 1, k, niveau)
  }

  /** The loop of the source over a literal. */
  method FinChaineJs(t: string, debut: nat, niveau: nat) returns (r: Option<nat>)
    ensures r == FinChaine(t, debut, niveau)
    decreases Reste(t, debut), 2
  {
    if niveau > NIVEAU_MAX || debut >= |t| || !Guillemet(t[debut]) { return None; }
    var d, i := t[debut], debut + 1;
    while i < |t|
      invariant debut < i
      invariant SuiteChaine(t, i, d, niveau) == FinChaine(t, debut, niveau)
    {
      if t[i] == '\\' {
        i := i + 2;
      } else if t[i] == d {
        return Some(i + 1);
      } else if d == '`' && Commence(t, i, '$', '{') {
        var fin := FinExpressionJs(t, i + 1, niveau + 1);
        if fin.None? { return None; }
        i := fin.value;
      } else {
        i := i + 1;
      }
    }
    r := None;
  }

  /** The loop of the source over an expression; `debut` is its opening brace. */
  method FinExpressionJs(t: string, debut: nat, niveau: nat) returns (r: Option<nat>)
    ensures r == SuiteExpression(t, debut + 1, 1, niveau)
    decreases Reste(t, debut), 1
  {
    var profondeur, i := 1, debut + 1;
    while i < |t|
      invariant debut < i && profondeur > 0
      invariant SuiteExpression(t, i, profondeur, niveau) == SuiteExpression(t, debut + 1, 1, niveau)
    {
      if Guillemet(t[i]) {
        var fin := FinChaineJs(t, i, niveau + 1);
        if fin.None? { return None; }
        i := fin.value;
      } else if Commence(t, i, '/', '/') {
        var fin := Place(t, '\n', i + 2);
        if fin.None? { return None; }
        i := fin.value + 1;
      } else if Commence(t, i, '/', '*') {
        var fin := PlacePaire(t, '*', '/', i + 2);
        if fin.None? { return None; }
        i := fin.value + 2;
      } else if t[i] == '/' {
        return None;
      } else if t[i] == '{' {
        profondeur := profondeur + 1;
        i := i + 1;
      } else if t[i] == '}' {
        profondeur := profondeur - 1;
        i := i + 1;
        if profondeur == 0 { return Some(i); }
      } else {
        i := i + 1;
      }
    }
    r := None;
  }

  // ------------------------------------------------------------ the grammar

  /** What a literal holds, and what an interpolation holds. */
  datatype Morceaux =
    | FinM
    | Car(c: char, suite: Morceaux)
    | Echappe(c: char, suite: Morceaux)
    | Interpole(e: Jetons, suite: Morceaux)

  datatype Jetons =
    | FinE
    | Signe(c: char, apres: Jetons)
    | Litteral(d: char, m: Morceaux, apres: Jetons)
    | Ligne(texte: string, apres: Jetons)
    | Bloc(texte: string, apres: Jetons)
    | Ouvre(apres: Jetons)
    | Ferme(apres: Jetons)

  function EcrireM(m: Morceaux): string {
    match m
    case FinM => ""
    case Car(c, s) => [c] + EcrireM(s)
    case Echappe(c, s) => ['\\', c] + EcrireM(s)
    case Interpole(e, s) => "${" + EcrireE(e) + "}" + EcrireM(s)
  }

  function EcrireE(e: Jetons): string {
    match e
    case FinE => ""
    case Signe(c, s) => [c] + EcrireE(s)
    case Litteral(d, m, s) => [d] + EcrireM(m) + [d] + EcrireE(s)
    case Ligne(x, s) => "//" + x + "\n" + EcrireE(s)
    case Bloc(x, s) => "/*" + x + "*/" + EcrireE(s)
    case Ouvre(s) => "{" + EcrireE(s)
    case Ferme(s) => "}" + EcrireE(s)
  }

  /** A literal, delimiters included. */
  function Ecrire(d: char, m: Morceaux): string { [d] + EcrireM(m) + [d] }

  /** Well formed inside delimiter `d`, its own level being `niveau`. */
  ghost predicate BienM(m: Morceaux, d: char, niveau: nat) {
    match m
    case FinM => true
    case Car(c, s) =>
      && c != '\\' && c != d
      && (d == '`' && c == '$' ==> !(s.Car? && s.c == '{'))
      && BienM(s, d, niveau)
    case Echappe(_, s) => BienM(s, d, niveau)
    case Interpole(e, s) => d == '`' && BienE(e, 1, niveau + 1) && BienM(s, d, niveau)
  }

  /** Well formed where `k` braces are open. */
  ghost predicate BienE(e: Jetons, k: nat, niveau: nat) {
    match e
    case FinE => k == 1
    case Signe(c, s) => !Guillemet(c) && c !in "/{}" && BienE(s, k, niveau)
    case Litteral(d, m, s) => Guillemet(d) && niveau + 1 <= NIVEAU_MAX && BienM(m, d, niveau + 1) && BienE(s, k, niveau)
    case Ligne(x, s) => '\n' !in x && BienE(s, k, niveau)
    case Bloc(x, s) => (forall j :: 0 <= j < |x| ==> !Commence(x + "*/", j, '*', '/')) && BienE(s, k, niveau)
    case Ouvre(s) => BienE(s, k + 1, niveau)
    case Ferme(s) => k > 1 && BienE(s, k - 1, niveau)
  }

  // -------------------------------------------------- what is written is read

  /** The text holds `x` at place `i`. */
  ghost predicate Ici(t: string, i: nat, x: string) { i + |x| <= |t| && t[i..i + |x|] == x }

  lemma IciCoupe(t: string, i: nat, x: string, y: string)
    ensures Ici(t, i, x + y) <==> Ici(t, i, x) && Ici(t, i + |x|, y)
  {
    if Ici(t, i, x + y) {
      assert t[i..i + |x|] == (x + y)[..|x|];
      assert t[i + |x|..i + |x| + |y|] == (x + y)[|x|..];
    }
    if Ici(t, i, x) && Ici(t, i + |x|, y) {
      assert t[i..i + |x| + |y|] == t[i..i + |x|] + t[i + |x|..i + |x| + |y|];
    }
  }

  lemma IciUn(t: string, i: nat, c: char, y: string)
    ensures Ici(t, i, [c] + y) <==> i < |t| && t[i] == c && Ici(t, i + 1, y)
  {
    IciCoupe(t, i, [c], y);
    if i < |t| { assert t[i..i + 1] == [t[i]]; }
  }

  lemma IciDeux(t: string, i: nat, a: char, b: char, y: string)
    ensures Ici(t, i, [a, b] + y) <==> Commence(t, i, a, b) && Ici(t, i + 2, y)
  {
    assert [a, b] + y == [a] + ([b] + y);
    IciUn(t, i, a, [b] + y);
    IciUn(t, i + 1, b, y);
  }

  /** A content and what closes it. */
  function FermerM(m: Morceaux, d: char): string { EcrireM(m) + [d] }

  function FermerE(e: Jetons): string { EcrireE(e) + "}" }

  /** What the text must show for a content to stand at place `i`. */
  ghost predicate VuM(t: string, i: nat, m: Morceaux, d: char) {
    match m
    case FinM => i < |t| && t[i] == d
    case Car(c, s) => i < |t| && t[i] == c && Ici(t, i + 1, FermerM(s, d))
    case Echappe(c, s) => Commence(t, i, '\\', c) && Ici(t, i + 2, FermerM(s, d))
    case Interpole(e, s) =>
      Commence(t, i, '$', '{') && Ici(t, i + 2, FermerE(e)) && Ici(t, i + 2 + |FermerE(e)|, FermerM(s, d))
  }

  function LongueM(m: Morceaux, d: char): nat {
    match m
    case FinM => 1
    case Car(_, s) => 1 + |FermerM(s, d)|
    case Echappe(_, s) => 2 + |FermerM(s, d)|
    case Interpole(e, s) => 2 + |FermerE(e)| + |FermerM(s, d)|
  }

  lemma IciM(t: string, i: nat, m: Morceaux, d: char)
    ensures Ici(t, i, FermerM(m, d)) <==> VuM(t, i, m, d)
    ensures |FermerM(m, d)| == LongueM(m, d)
  {
    FormeM(m, d);
    hide EcrireM, EcrireE, FermerM, FermerE, Ici;
    match m
    case FinM =>
      IciUn(t, i, d, "");
      IciVide(t, i + 1);
    case Car(c, s) => IciUn(t, i, c, FermerM(s, d));
    case Echappe(c, s) => IciDeux(t, i, '\\', c, FermerM(s, d));
    case Interpole(e, s) =>
      IciDeux(t, i, '$', '{', FermerE(e) + FermerM(s, d));
      IciCoupe(t, i + 2, FermerE(e), FermerM(s, d));
  }

  lemma IciVide(t: string, i: nat)
    ensures Ici(t, i, "") <==> i <= |t|
  {
  }

  lemma FormeM(m: Morceaux, d: char)
    ensures FermerM(m, d) ==
            match m
            case FinM => [d] + ""
            case Car(c, s) => [c] + FermerM(s, d)
            case Echappe(c, s) => ['\\', c] + FermerM(s, d)
            case Interpole(e, s) => ['$', '{'] + (FermerE(e) + FermerM(s, d))
  {
  }

  ghost predicate VuE(t: string, i: nat, e: Jetons) {
    match e
    case FinE => i < |t| && t[i] == '}'
    case Signe(c, s) => i < |t| && t[i] == c && Ici(t, i + 1, FermerE(s))
    case Litteral(d, m, s) =>
      i < |t| && t[i] == d && Ici(t, i + 1, FermerM(m, d)) && Ici(t, i + 1 + |FermerM(m, d)|, FermerE(s))
    case Ligne(x, s) =>
      && Commence(t, i, '/', '/') && Ici(t, i + 2, x) && i + 2 + |x| < |t| && t[i + 2 + |x|] == '\n'
      && Ici(t, i + 3 + |x|, FermerE(s))
    case Bloc(x, s) => Commence(t, i, '/', '*') && Ici(t, i + 2, x + "*/") && Ici(t, i + 4 + |x|, FermerE(s))
    case Ouvre(s) => i < |t| && t[i] == '{' && Ici(t, i + 1, FermerE(s))
    case Ferme(s) => i < |t| && t[i] == '}' && Ici(t, i + 1, FermerE(s))
  }

  function LongueE(e: Jetons): nat {
    match e
    case FinE => 1
    case Signe(_, s) => 1 + |FermerE(s)|
    case Litteral(d, m, s) => 1 + |FermerM(m, d)| + |FermerE(s)|
    case Ligne(x, s) => 3 + |x| + |FermerE(s)|
    case Bloc(x, s) => 4 + |x| + |FermerE(s)|
    case Ouvre(s) => 1 + |FermerE(s)|
    case Ferme(s) => 1 + |FermerE(s)|
  }

  lemma FormeE(e: Jetons)
    ensures FermerE(e) ==
            match e
            case FinE => ['}'] + ""
            case Signe(c, s) => [c] + FermerE(s)
            case Litteral(d, m, s) => [d] + (FermerM(m, d) + FermerE(s))
            case Ligne(x, s) => ['/', '/'] + (x + (['\n'] + FermerE(s)))
            case Bloc(x, s) => ['/', '*'] + ((x + "*/") + FermerE(s))
            case Ouvre(s) => ['{'] + FermerE(s)
            case Ferme(s) => ['}'] + FermerE(s)
  {
  }

  lemma IciE(t: string, i: nat, e: Jetons)
    ensures Ici(t, i, FermerE(e)) <==> VuE(t, i, e)
    ensures |FermerE(e)| == LongueE(e)
  {
    FormeE(e);
    hide EcrireM, EcrireE, FermerM, FermerE, Ici;
    match e
    case FinE =>
      IciUn(t, i, '}', "");
      IciVide(t, i + 1);
    case Signe(c, s) => IciUn(t, i, c, FermerE(s));
    case Litteral(d, m, s) =>
      IciUn(t, i, d, FermerM(m, d) + FermerE(s));
      IciCoupe(t, i + 1, FermerM(m, d), FermerE(s));
    case Ligne(x, s) =>
      IciDeux(t, i, '/', '/', x + (['\n'] + FermerE(s)));
      IciCoupe(t, i + 2, x, ['\n'] + FermerE(s));
      IciUn(t, i + 2 + |x|, '\n', FermerE(s));
    case Bloc(x, s) =>
      IciDeux(t, i, '/', '*', (x + "*/") + FermerE(s));
      IciCoupe(t, i + 2, x + "*/", FermerE(s));
    case Ouvre(s) => IciUn(t, i, '{', FermerE(s));
    case Ferme(s) => IciUn(t, i, '}', FermerE(s));
  }

  lemma {:induction false} LireM(t: string, i: nat, m: Morceaux, d: char, niveau: nat)
    requires BienM(m, d, niveau) && Ici(t, i, FermerM(m, d)) && Guillemet(d)
    ensures SuiteChaine(t, i, d, niveau) == Some(i + |FermerM(m, d)|)
    decreases m
  {
    hide EcrireM, EcrireE, FermerM, FermerE, Ici, BienE, SuiteExpression, Guillemet;
    IciM(t, i, m, d);
    match m
    case FinM => PasAntislash(d);
    case Car(c, s) =>
      if d == '`' && c == '$' { PasAccolade(t, i + 1, s); }
      LireM(t, i + 1, s, d, niveau);
    case Echappe(c, s) => LireM(t, i + 2, s, d, niveau);
    case Interpole(e, s) =>
      LireE(t, i + 2, e, 1, niveau + 1);
      LireM(t, i + 2 + |FermerE(e)|, s, d, niveau);
  }

  lemma PasAntislash(d: char)
    requires Guillemet(d)
    ensures d != '\\' && d != '$' && d !in "/{}"
  {
  }

  /** After a dollar sign left alone no brace comes. */
  lemma PasAccolade(t: string, i: nat, s: Morceaux)
    requires Ici(t, i, FermerM(s, '`')) && !(s.Car? && s.c == '{')
    ensures i < |t| && t[i] != '{'
  {
    hide EcrireM, EcrireE, FermerM, FermerE, Ici;
    IciM(t, i, s, '`');
  }

  lemma {:induction false} LireE(t: string, i: nat, e: Jetons, k: nat, niveau: nat)
    requires k > 0 && BienE(e, k, niveau) && Ici(t, i, FermerE(e))
    ensures SuiteExpression(t, i, k, niveau) == Some(i + |FermerE(e)|)
    decreases e
  {
    hide EcrireM, EcrireE, FermerM, FermerE, Ici, BienM, SuiteChaine, Place, PlacePaire;
    IciE(t, i, e);
    match e
    case FinE =>
    case Signe(c, s) => LireE(t, i + 1, s, k, niveau);
    case Litteral(d, m, s) =>
      LireM(t, i + 1, m, d, niveau + 1);
      LireE(t, i + 1 + |FermerM(m, d)|, s, k, niveau);
    case Ligne(x, s) =>
      FinLigne(t, i + 2, x);
      LireE(t, i + 3 + |x|, s, k, niveau);
    case Bloc(x, s) =>
      FinBloc(t, i + 2, x);
      LireE(t, i + 4 + |x|, s, k, niveau);
    case Ouvre(s) => LireE(t, i + 1, s, k + 1, niveau);
    case Ferme(s) => LireE(t, i + 1, s, k - 1, niveau);
  }

  lemma FinLigne(t: string, i: nat, x: string)
    requires Ici(t, i, x) && '\n' !in x && i + |x| < |t| && t[i + |x|] == '\n'
    ensures Place(t, '\n', i) == Some(i + |x|)
  {
    forall j | i <= j < i + |x| ensures t[j] != '\n' {
      assert t[j] == t[i..i + |x|][j - i];
    }
  }

  lemma FinBloc(t: string, i: nat, x: string)
    requires Ici(t, i, x + "*/") && forall j :: 0 <= j < |x| ==> !Commence(x + "*/", j, '*', '/')
    ensures PlacePaire(t, '*', '/', i) == Some(i + |x|)
  {
    var y := x + "*/";
    assert forall j :: 0 <= j < |y| ==> t[i + j] == t[i..i + |y|][j] == y[j];
    forall j | i <= j < i + |x| ensures !Commence(t, j, '*', '/') {
      assert !Commence(y, j - i, '*', '/');
    }
    assert Commence(t, i + |x|, '*', '/');
  }

  // ------------------------------------------------- what is read was written

  lemma {:induction false} RetrouverM(t: string, i: nat, d: char, niveau: nat) returns (m: Morceaux)
    requires SuiteChaine(t, i, d, niveau).Some? && Guillemet(d)
    ensures BienM(m, d, niveau) && Ici(t, i, FermerM(m, d))
    ensures SuiteChaine(t, i, d, niveau) == Some(i + |FermerM(m, d)|)
    decreases Reste(t, i), 1
  {
    hide EcrireM, EcrireE, FermerM, FermerE, Ici, BienE, SuiteExpression, Guillemet;
    if t[i] == '\\' {
      var s := RetrouverM(t, i + 2, d, niveau);
      m := Echappe(t[i + 1], s);
    } else if t[i] == d {
      m := FinM;
    } else if d == '`' && Commence(t, i, '$', '{') {
      var e := RetrouverE(t, i + 2, 1, niveau + 1);
      var s := RetrouverM(t, i + 2 + |FermerE(e)|, d, niveau);
      m := Interpole(e, s);
    } else {
      var s := RetrouverM(t, i + 1, d, niveau);
      m := Car(t[i], s);
      IciM(t, i + 1, s, d);
    }
    IciM(t, i, m, d);
  }

  lemma {:induction false} RetrouverE(t: string, i: nat, k: nat, niveau: nat) returns (e: Jetons)
    requires k > 0 && SuiteExpression(t, i, k, niveau).Some?
    ensures BienE(e, k, niveau) && Ici(t, i, FermerE(e))
    ensures SuiteExpression(t, i, k, niveau) == Some(i + |FermerE(e)|)
    decreases Reste(t, i), 3
  {
    hide *;
    if Guillemet(t[i]) {
      e := RetrouverLitteral(t, i, k, niveau);
    } else if Commence(t, i, '/', '/') {
      e := RetrouverLigne(t, i, k, niveau);
    } else if Commence(t, i, '/', '*') {
      e := RetrouverBloc(t, i, k, niveau);
    } else {
      e := RetrouverSigne(t, i, k, niveau);
    }
  }

  lemma {:induction false} RetrouverLitteral(t: string, i: nat, k: nat, niveau: nat) returns (e: Jetons)
    requires k > 0 && SuiteExpression(t, i, k, niveau).Some? && i < |t| && Guillemet(t[i])
    ensures BienE(e, k, niveau) && Ici(t, i, FermerE(e))
    ensures SuiteExpression(t, i, k, niveau) == Some(i + |FermerE(e)|)
    decreases Reste(t, i), 2
  {
    hide EcrireM, EcrireE, FermerM, FermerE, Ici, BienM, SuiteChaine, Place, PlacePaire, Guillemet, Commence;
    var d := t[i];
    var m := RetrouverM(t, i + 1, d, niveau + 1);
    var s := RetrouverE(t, i + 1 + |FermerM(m, d)|, k, niveau);
    e := Litteral(d, m, s);
    IciE(t, i, e);
  }

  lemma {:induction false} RetrouverLigne(t: string, i: nat, k: nat, niveau: nat) returns (e: Jetons)
    requires k > 0 && SuiteExpression(t, i, k, niveau).Some?
    requires i < |t| && !Guillemet(t[i]) && Commence(t, i, '/', '/')
    ensures BienE(e, k, niveau) && Ici(t, i, FermerE(e))
    ensures SuiteExpression(t, i, k, niveau) == Some(i + |FermerE(e)|)
    decreases Reste(t, i), 2
  {
    hide EcrireM, EcrireE, FermerM, FermerE, Ici, BienM, FinChaine, Place, PlacePaire, Guillemet;
    var p := Place(t, '\n', i + 2).value;
    var s := RetrouverE(t, p + 1, k, niveau);
    e := Ligne(t[i + 2..p], s);
    IciTranche(t, i + 2, p);
    IciE(t, i, e);
  }

  lemma {:induction false} RetrouverBloc(t: string, i: nat, k: nat, niveau: nat) returns (e: Jetons)
    requires k > 0 && SuiteExpression(t, i, k, niveau).Some?
    requires i < |t| && !Guillemet(t[i]) && Commence(t, i, '/', '*')
    ensures BienE(e, k, niveau) && Ici(t, i, FermerE(e))
    ensures SuiteExpression(t, i, k, niveau) == Some(i + |FermerE(e)|)
    decreases Reste(t, i), 2
  {
    hide EcrireM, EcrireE, FermerM, FermerE, Ici, BienM, FinChaine, Place, PlacePaire, Guillemet;
    var p := PlacePaire(t, '*', '/', i + 2).value;
    var s := RetrouverE(t, p + 2, k, niveau);
    e := Bloc(t[i + 2..p], s);
    BlocRetrouve(t, i + 2, p);
    IciE(t, i, e);
  }

  lemma {:induction false} RetrouverSigne(t: string, i: nat, k: nat, niveau: nat) returns (e: Jetons)
    requires k > 0 && SuiteExpression(t, i, k, niveau).Some?
    requires i < |t| && !Guillemet(t[i]) && !Commence(t, i, '/', '/') && !Commence(t, i, '/', '*')
    ensures BienE(e, k, niveau) && Ici(t, i, FermerE(e))
    ensures SuiteExpression(t, i, k, niveau) == Some(i + |FermerE(e)|)
    decreases Reste(t, i), 2
  {
    hide EcrireM, EcrireE, FermerM, FermerE, Ici, BienM, FinChaine, Place, PlacePaire, Guillemet, Commence;
    if t[i] == '{' {
      var s := RetrouverE(t, i + 1, k + 1, niveau);
      e := Ouvre(s);
    } else if t[i] != '}' {
      var s := RetrouverE(t, i + 1, k, niveau);
      e := Signe(t[i], s);
    } else if k == 1 {
      e := FinE;
    } else {
      var s := RetrouverE(t, i + 1, k - 1, niveau);
      e := Ferme(s);
    }
    IciE(t, i, e);
  }

  lemma IciTranche(t: string, i: nat, p: nat)
    requires i <= p <= |t|
    ensures Ici(t, i, t[i..p])
  {
  }

  lemma BlocRetrouve(t: string, i: nat, p: nat)
    requires i <= p && Commence(t, p, '*', '/') && forall j :: i <= j < p ==> !Commence(t, j, '*', '/')
    ensures var x := t[i..p]; Ici(t, i, x + "*/") && forall j :: 0 <= j < |x| ==> !Commence(x + "*/", j, '*', '/')
  {
    var x := t[i..p];
    assert t[i..p + 2] == x + "*/";
    forall j | 0 <= j < |x| ensures !Commence(x + "*/", j, '*', '/') {
      assert !Commence(t, i + j, '*', '/');
      assert t[i + j] == t[i..p + 2][j] && t[i + j + 1] == t[i..p + 2][j + 1];
    }
  }

  // ------------------------------------------------------------- guarantees

  /** A literal of the grammar stands between two places of the text. */
  ghost predicate EstLitteral(t: string, debut: nat, r: nat, m: Morceaux, niveau: nat) {
    && debut < |t| && Guillemet(t[debut]) && BienM(m, t[debut], niveau)
    && Ici(t, debut, Ecrire(t[debut], m)) && r == debut + |Ecrire(t[debut], m)|
  }

  lemma IciLitteral(t: string, i: nat, d: char, m: Morceaux)
    ensures Ici(t, i, Ecrire(d, m)) <==> i < |t| && t[i] == d && Ici(t, i + 1, FermerM(m, d))
    ensures |Ecrire(d, m)| == 1 + |FermerM(m, d)|
  {
    hide EcrireM, Ici;
    assert Ecrire(d, m) == [d] + FermerM(m, d);
    IciUn(t, i, d, FermerM(m, d));
  }

  /** The reader finds an end exactly when a literal of the grammar stands there,
      and then it is the end of that literal. */
  lemma FinExacte(t: string, debut: nat, niveau: nat, r: nat)
    ensures FinChaine(t, debut, niveau) == Some(r) <==>
            niveau <= NIVEAU_MAX && exists m :: EstLitteral(t, debut, r, m, niveau)
  {
    hide SuiteChaine, BienM, Ici, FermerM, Ecrire;
    if FinChaine(t, debut, niveau) == Some(r) {
      var m := RetrouverM(t, debut + 1, t[debut], niveau);
      IciLitteral(t, debut, t[debut], m);
      assert EstLitteral(t, debut, r, m, niveau);
    }
    if niveau <= NIVEAU_MAX && exists m :: EstLitteral(t, debut, r, m, niveau) {
      var m :| EstLitteral(t, debut, r, m, niveau);
      IciLitteral(t, debut, t[debut], m);
      LireM(t, debut + 1, m, t[debut], niveau);
    }
  }

  /** Any literal of the grammar, whatever surrounds it, is read to its end. */
  lemma LitteralLu(avant: string, d: char, m: Morceaux, suite: string, niveau: nat)
    requires Guillemet(d) && niveau <= NIVEAU_MAX && BienM(m, d, niveau)
    ensures FinChaine(avant + Ecrire(d, m) + suite, |avant|, niveau) == Some(|avant| + |Ecrire(d, m)|)
  {
    hide SuiteChaine, BienM, FermerM, Ecrire;
    var t := avant + Ecrire(d, m) + suite;
    assert t[|avant|..|avant| + |Ecrire(d, m)|] == Ecrire(d, m);
    IciLitteral(t, |avant|, d, m);
    LireM(t, |avant| + 1, m, d, niveau);
  }

  // ------------------------------------------------------------ the nesting

  /** Well formed whatever the nesting. */
  ghost predicate FormeLibreM(m: Morceaux, d: char) {
    match m
    case FinM => true
    case Car(c, s) => c != '\\' && c != d && (d == '`' && c == '$' ==> !(s.Car? && s.c == '{')) && FormeLibreM(s, d)
    case Echappe(_, s) => FormeLibreM(s, d)
    case Interpole(e, s) => d == '`' && FormeLibreE(e, 1) && FormeLibreM(s, d)
  }

  ghost predicate FormeLibreE(e: Jetons, k: nat) {
    match e
    case FinE => k == 1
    case Signe(c, s) => !Guillemet(c) && c !in "/{}" && FormeLibreE(s, k)
    case Litteral(d, m, s) => Guillemet(d) && FormeLibreM(m, d) && FormeLibreE(s, k)
    case Ligne(x, s) => '\n' !in x && FormeLibreE(s, k)
    case Bloc(x, s) => (forall j :: 0 <= j < |x| ==> !Commence(x + "*/", j, '*', '/')) && FormeLibreE(s, k)
    case Ouvre(s) => FormeLibreE(s, k + 1)
    case Ferme(s) => k > 1 && FormeLibreE(s, k - 1)
  }

  /** How many literals stand one inside another below this one. */
  function ProfondeurM(m: Morceaux): nat {
    match m
    case FinM => 0
    case Car(_, s) => ProfondeurM(s)
    case Echappe(_, s) => ProfondeurM(s)
    case Interpole(e, s) => Max(ProfondeurE(e), ProfondeurM(s))
  }

  function ProfondeurE(e: Jetons): nat {
    match e
    case FinE => 0
    case Signe(_, s) => ProfondeurE(s)
    case Litteral(_, m, s) => Max(1 + ProfondeurM(m), ProfondeurE(s))
    case Ligne(_, s) => ProfondeurE(s)
    case Bloc(_, s) => ProfondeurE(s)
    case Ouvre(s) => ProfondeurE(s)
    case Ferme(s) => ProfondeurE(s)
  }

  lemma {:induction false} NiveauxM(m: Morceaux, d: char, niveau: nat)
    requires niveau <= NIVEAU_MAX
    ensures BienM(m, d, niveau) <==> FormeLibreM(m, d) && niveau + 2 * ProfondeurM(m) <= NIVEAU_MAX
    decreases m
  {
    match m
    case FinM =>
    case Car(c, s) => NiveauxM(s, d, niveau);
    case Echappe(c, s) => NiveauxM(s, d, niveau);
    case Interpole(e, s) =>
      NiveauxE(e, 1, niveau + 1);
      NiveauxM(s, d, niveau);
  }

  lemma {:induction false} NiveauxE(e: Jetons, k: nat, niveau: nat)
    requires 1 <= niveau <= NIVEAU_MAX + 1
    ensures BienE(e, k, niveau) <==>
              FormeLibreE(e, k) && (ProfondeurE(e) > 0 ==> niveau - 1 + 2 * ProfondeurE(e) <= NIVEAU_MAX)
    decreases e
  {
    match e
    case FinE =>
    case Signe(c, s) => NiveauxE(s, k, niveau);
    case Litteral(d, m, s) =>
      if niveau + 1 <= NIVEAU_MAX { NiveauxM(m, d, niveau + 1); }
      NiveauxE(s, k, niveau);
    case Ligne(x, s) => NiveauxE(s, k, niveau);
    case Bloc(x, s) => NiveauxE(s, k, niveau);
    case Ouvre(s) => NiveauxE(s, k + 1, niveau);
    case Ferme(s) => if k > 1 { NiveauxE(s, k - 1, niveau); }
  }

  /** From the top, the bound on levels is a bound of thirty-two literals one
      inside another. */
  lemma TrenteDeux(m: Morceaux, d: char)
    ensures BienM(m, d, 0) <==> FormeLibreM(m, d) && ProfondeurM(m) <= 32
  {
    hide BienM, FormeLibreM, ProfondeurM;
    NiveauxM(m, d, 0);
  }

  // ----------------------------------------------------------------- braces

  /** Braces opened less braces closed between two places. */
  function Solde(t: string, a: nat, b: nat): int
    requires b <= |t|
    decreases b
  {
    if b <= a then 0 else
      Solde(t, a, b - 1) + if t[b - 1] == '{' then 1 else if t[b - 1] == '}' then -1 else 0
  }

  /** The content up to the brace that closes the one at `debut`: the first place
      after it where as many braces are closed as opened. */
  method CorpsApresAccolade(t: string, debut: nat) returns (r: Option<string>)
    ensures r.Some? <==> debut < |t| && t[debut] == '{' && exists n :: debut < n <= |t| && Solde(t, debut, n) == 0
    ensures r.Some? ==>
              var n := debut + 2 + |r.value|;
              && n <= |t| && r.value == t[debut + 1..n - 1] && t[n - 1] == '}' && Solde(t, debut, n) == 0
              && forall k :: debut < k < n ==> Solde(t, debut, k) > 0
  {
    if debut >= |t| || t[debut] != '{' { return None; }
    var profondeur, i := 0, debut;
    while i < |t|
      invariant debut <= i <= |t| && profondeur == Solde(t, debut, i)
      invariant forall k :: debut < k <= i ==> Solde(t, debut, k) > 0
    {
      assert i > debut ==> profondeur > 0;
      if t[i] == '{' {
        profondeur := profondeur + 1;
      } else if t[i] == '}' {
        profondeur := profondeur - 1;
        if profondeur == 0 {
          assert Solde(t, debut, i + 1) == 0;
          return Some(t[debut + 1..i]);
        }
      }
      i := i + 1;
      assert Solde(t, debut, i) == profondeur;
    }
    r := None;
  }
}
