// Game controls: the registry that each `Mouvement` / `Transformation`
// construction fills, the default key bindings, the validation pattern sent to
// clients, and the two functions that turn client input into commands.

module Controle {
  import opened Commun
  import opened Element

  /** What `action()` returns: a movement vector or a transform family. */
  datatype Action = Direction(vecteur: Coord) | Transformer(famille: Famille)

  /** The text `touche + " - " + description + " - " + aide`. */
  function Decrire(touche: char, description: string, aide: string): string
  {
    [touche] + " - " + description + " - " + aide
  }

  /** A control object: its key, its "key - description - help" text, its
      help text and its action. */
  datatype Controle = Controle(touche: char, description: string, aide: string, action: Action)

  /** The full-line validation pattern built from the registered keys: one or
      more repetitions of a movement key followed by digits, or a transform key
      followed by a movement key. `Classe` is a one-character class `[..]`. */
  datatype Motif = Schema(mouvements: seq<char>, transformations: seq<char>) | Classe(touches: seq<char>)

  predicate EstChiffre(c: char)
  {
    '0' <= c <= '9'
  }

  predicate ToutChiffres(s: string)
  {
    forall k :: 0 <= k < |s| ==> EstChiffre(s[k])
  }

  /** The language of `(([M])([0-9]*)|([T])([M]))+` without the `+`'s
      requirement of one repetition. */
  predicate Repetitions(s: string, mouvements: seq<char>, transformations: seq<char>)
    decreases |s|
  {
    || s == []
    || (s[0] in mouvements
        && exists k :: 1 <= k <= |s| && ToutChiffres(s[1..k]) && Repetitions(s[k..], mouvements, transformations))
    || (|s| >= 2 && s[0] in transformations && s[1] in mouvements && Repetitions(s[2..], mouvements, transformations))
  }

  /** `re.fullmatch(motif, s)` for the two pattern shapes the server sends. */
  predicate Correspond(m: Motif, s: string)
  {
    match m
    case Schema(mvt, trf) => s != [] && Repetitions(s, mvt, trf)
    case Classe(t) => |s| == 1 && s[0] in t
  }

  /** The class-level registry shared by all controls: the keys of each
      subclass (`Mouvement.touches` and `Transformation.touches` shadow
      `Controle.touches`), the shared descriptions and key-to-control map, and
      the set of movement vectors. */
  class Controles {
    var touchesMouvement: seq<char>
    var touchesTransformation: seq<char>
    var descriptions: seq<string>
    var toucheControle: map<char, Controle>
    var directions: set<Coord>

    constructor Vide()
      ensures touchesMouvement == [] && touchesTransformation == [] && descriptions == []
      ensures toucheControle == map[] && directions == {}
    {
      touchesMouvement, touchesTransformation, descriptions := [], [], [];
      toucheControle, directions := map[], {};
    }

    /** `Mouvement(touche, direction, description, aide)`. */
    method NouveauMouvement(touche: char, direction: Coord, description: string, aide: string) returns (c: Controle)
      modifies this
      ensures c == Controle(touche, Decrire(touche, description, aide), aide, Direction(direction))
      ensures directions == old(directions) + {direction}
      ensures touchesMouvement == old(touchesMouvement) + [touche]
      ensures touchesTransformation == old(touchesTransformation)
      ensures descriptions == old(descriptions) + [c.description]
      ensures toucheControle == old(toucheControle)[touche := c]
    {
      directions := directions + {direction};
      c := Controle(touche, Decrire(touche, description, aide), aide, Direction(direction));
      touchesMouvement := touchesMouvement + [touche];
      descriptions := descriptions + [c.description];
      toucheControle := toucheControle[touche := c];
    }

    /** `Transformation(touche, transformer, description, aide)`. */
    method NouvelleTransformation(touche: char, transformer: Famille, description: string, aide: string) returns (c: Controle)
      modifies this
      ensures c == Controle(touche, Decrire(touche, description, aide), aide, Transformer(transformer))
      ensures directions == old(directions)
      ensures touchesMouvement == old(touchesMouvement)
      ensures touchesTransformation == old(touchesTransformation) + [touche]
      ensures descriptions == old(descriptions) + [c.description]
      ensures toucheControle == old(toucheControle)[touche := c]
    {
      c := Controle(touche, Decrire(touche, description, aide), aide, Transformer(transformer));
      touchesTransformation := touchesTransformation + [touche];
      descriptions := descriptions + [c.description];
      toucheControle := toucheControle[touche := c];
    }

    /** `Controle.effacer`: the shared lists and map are reset. */
    method EffacerControle()
      modifies this
      ensures descriptions == [] && toucheControle == map[]
      ensures touchesMouvement == old(touchesMouvement) && touchesTransformation == old(touchesTransformation)
      ensures directions == old(directions)
    {
      descriptions, toucheControle := [], map[];
    }

    /** `Mouvement.effacer`. */
    method EffacerMouvement()
      modifies this
      ensures touchesMouvement == [] && directions == {}
      ensures touchesTransformation == old(touchesTransformation)
      ensures descriptions == old(descriptions) && toucheControle == old(toucheControle)
    {
      touchesMouvement, directions := [], {};
    }

    /** `Transformation.effacer`. */
    method EffacerTransformation()
      modifies this
      ensures touchesTransformation == []
      ensures touchesMouvement == old(touchesMouvement) && directions == old(directions)
      ensures descriptions == old(descriptions) && toucheControle == old(toucheControle)
    {
      touchesTransformation := [];
    }

    /** Import of the control module: the four movements and the two
        transforms, in source order. */
    constructor ParDefaut()
      ensures touchesMouvement == "NSEO" && touchesTransformation == "MP"
      ensures directions == {(0, -1), (0, 1), (1, 0), (-1, 0)}
      ensures toucheControle == TouchesParDefaut()
      ensures descriptions == DescriptionsParDefaut()
    {
      touchesMouvement, touchesTransformation, descriptions := [], [], [];
      toucheControle, directions := map[], {};
      new;
      var c := NouveauMouvement('N', (0, -1), "Se déplacer vers le Nord", "Usage: N[0-99]");
      c := NouveauMouvement('S', (0, 1), "Se déplacer vers le Sud", "Usage: S[0-99]");
      c := NouveauMouvement('E', (1, 0), "Se déplacer vers l'Est", "Usage: E[0-99]");
      c := NouveauMouvement('O', (-1, 0), "Se déplacer vers l'Ouest", "Usage: O[0-99]");
      assert touchesMouvement == "NSEO";
      assert "Usage: M<" + touchesMouvement + ">" == "Usage: M<NSEO>";
      assert "Usage: P<" + touchesMouvement + ">" == "Usage: P<NSEO>";
      c := NouvelleTransformation('M', Murable, "Murer un obstacle", "Usage: M<" + touchesMouvement + ">");
      c := NouvelleTransformation('P', Percable, "Percer un obstacle", "Usage: P<" + touchesMouvement + ">");
    }
  }

  /** The key-to-action bindings after import. */
  function TouchesParDefaut(): map<char, Controle>
  {
    map[
      'N' := Controle('N', Decrire('N', "Se déplacer vers le Nord", "Usage: N[0-99]"), "Usage: N[0-99]", Direction((0, -1))),
      'S' := Controle('S', Decrire('S', "Se déplacer vers le Sud", "Usage: S[0-99]"), "Usage: S[0-99]", Direction((0, 1))),
      'E' := Controle('E', Decrire('E', "Se déplacer vers l'Est", "Usage: E[0-99]"), "Usage: E[0-99]", Direction((1, 0))),
      'O' := Controle('O', Decrire('O', "Se déplacer vers l'Ouest", "Usage: O[0-99]"), "Usage: O[0-99]", Direction((-1, 0))),
      'M' := Controle('M', Decrire('M', "Murer un obstacle", "Usage: M<NSEO>"), "Usage: M<NSEO>", Transformer(Murable)),
      'P' := Controle('P', Decrire('P', "Percer un obstacle", "Usage: P<NSEO>"), "Usage: P<NSEO>", Transformer(Percable))]
  }

  /** The "key - description - help" texts after import, in the order the
      controls are created. */
  function DescriptionsParDefaut(): seq<string>
  {
    [TouchesParDefaut()['N'].description, TouchesParDefaut()['S'].description,
     TouchesParDefaut()['E'].description, TouchesParDefaut()['O'].description,
     TouchesParDefaut()['M'].description, TouchesParDefaut()['P'].description]
  }

  // ----- extraction -----

  /** The keys of the extraction pattern, compiled once at import from the
      default bindings; later registrations do not change it. */
  const Mouvements: seq<char> := "NSEO"
  const Transformations: seq<char> := "MP"

  /** `validation_controle`: built once, at import, from the keys the
      default controls register (`ParDefaut`), and fixed from then on. */
  function MotifValidation(): (m: Motif)
    ensures forall s :: Correspond(m, s) ==> s != [] && (s[0] in Mouvements || s[0] in Transformations)
  {
    Schema(Mouvements, Transformations)
  }

  /** One match of the extraction pattern: a movement key with its (possibly
      empty) digit string, or a transform key with a movement key. */
  datatype Jeton = JMouvement(touche: char, repetition: string) | JTransformation(touche: char, direction: char)

  /** The longest prefix of ASCII digits. */
  function Chiffres(s: string): (d: string)
    ensures |d| <= |s| && d == s[..|d|] && ToutChiffres(d)
    ensures |d| < |s| ==> !EstChiffre(s[|d|])
  {
    if s != [] && EstChiffre(s[0]) then [s[0]] + Chiffres(s[1..]) else []
  }

  /** `findall` of the extraction pattern: at each position the movement
      alternative is tried first (with greedy digits), then the transform
      alternative; a position where neither matches is skipped. */
  function Analyser(s: string): seq<Jeton>
    decreases |s|
  {
    if s == [] then []
    else if s[0] in Mouvements then
      var d := Chiffres(s[1..]);
      [JMouvement(s[0], d)] + Analyser(s[1 + |d|..])
    else if |s| >= 2 && s[0] in Transformations && s[1] in Mouvements then
      [JTransformation(s[0], s[1])] + Analyser(s[2..])
    else Analyser(s[1..])
  }

  /** `int(d)` for a string of ASCII digits. */
  function Entier(d: string): nat
    requires ToutChiffres(d)
  {
    if d == [] then 0 else 10 * Entier(d[..|d| - 1]) + (d[|d| - 1] as int - '0' as int)
  }

  /** The commands one match contributes to `extraire`'s result. */
  function Commandes(j: Jeton): seq<string>
  {
    match j
    case JMouvement(k, d) =>
      if d == [] then [[k]]
      else if ToutChiffres(d) then seq(Entier(d), _ => [k])
      else []
    case JTransformation(t, m) => [[t, m]]
  }

  function Developper(js: seq<Jeton>): seq<string>
  {
    if js == [] then [] else Commandes(js[0]) + Developper(js[1..])
  }

  /** The text a match covers. */
  function Texte(j: Jeton): string
  {
    match j
    case JMouvement(k, d) => [k] + d
    case JTransformation(t, m) => [t, m]
  }

  function Couvert(js: seq<Jeton>): string
  {
    if js == [] then [] else Texte(js[0]) + Couvert(js[1..])
  }

  /** A command `extraire` can produce: one movement key, or a transform key
      and a movement key. */
  predicate CommandeValide(c: string)
  {
    (|c| == 1 && c[0] in Mouvements) || (|c| == 2 && c[0] in Transformations && c[1] in Mouvements)
  }

  /** One scanning step: the matches of a nonempty text and the commands
      they give, by the case that applies at its first position. */
  lemma AnalyserPas(s: string)
    requires s != []
    ensures s[0] in Mouvements ==>
      var d := Chiffres(s[1..]);
      Developper(Analyser(s)) == Commandes(JMouvement(s[0], d)) + Developper(Analyser(s[1 + |d|..]))
    ensures s[0] !in Mouvements && |s| >= 2 && s[0] in Transformations && s[1] in Mouvements ==>
      Developper(Analyser(s)) == [[s[0], s[1]]] + Developper(Analyser(s[2..]))
    ensures s[0] !in Mouvements && !(|s| >= 2 && s[0] in Transformations && s[1] in Mouvements) ==>
      Developper(Analyser(s)) == Developper(Analyser(s[1..]))
  {
    if s[0] in Mouvements {
      var d := Chiffres(s[1..]);
      var js := [JMouvement(s[0], d)] + Analyser(s[1 + |d|..]);
      assert js[0] == JMouvement(s[0], d) && js[1..] == Analyser(s[1 + |d|..]);
    } else if |s| >= 2 && s[0] in Transformations && s[1] in Mouvements {
      var js := [JTransformation(s[0], s[1])] + Analyser(s[2..]);
      assert js[0] == JTransformation(s[0], s[1]) && js[1..] == Analyser(s[2..]);
    }
  }

  /** The commands the match at the head of a nonempty text gives, and how
      many characters the scan then moves on (one for a skipped position). */
  function Pas(s: string): (r: (seq<string>, nat))
    requires s != []
    ensures 0 < r.1 <= |s|
    ensures Developper(Analyser(s)) == r.0 + Developper(Analyser(s[r.1..]))
  {
    AnalyserPas(s);
    if s[0] in Mouvements then
      var d := Chiffres(s[1..]);
      (Commandes(JMouvement(s[0], d)), 1 + |d|)
    else if |s| >= 2 && s[0] in Transformations && s[1] in Mouvements then
      ([[s[0], s[1]]], 2)
    else ([], 1)
  }

  /** `extraire`: the matches `findall` returns, each expanded in turn into
      its commands. */
  method Extraire(saisie: string) returns (commandes: seq<string>)
    ensures commandes == Developper(Analyser(saisie))
  {
    var extrait := Analyser(saisie);
    commandes := [];
    for k := 0 to |extrait|
      invariant commandes == Developper(extrait[..k])
    {
      DevelopperConcat(extrait[..k], [extrait[k]]);
      assert extrait[..k + 1] == extrait[..k] + [extrait[k]];
      commandes := commandes + Commandes(extrait[k]);
    }
    assert extrait[..|extrait|] == extrait;
  }

  // ----- properties of extraction -----

  /** Expansion preserves the order of the matches. */
  lemma {:induction false} DevelopperConcat(a: seq<Jeton>, b: seq<Jeton>)
    ensures Developper(a + b) == Developper(a) + Developper(b)
  {
    if a != [] {
      assert (a + b)[0] == a[0] && (a + b)[1..] == a[1..] + b;
      DevelopperConcat(a[1..], b);
    }
    else {
      assert a + b == b;
    }
  }

  /** A movement with digits d gives int(d) copies of its key; a bare
      movement one copy; a transform one two-character command. */
  lemma ExpansionJeton(j: Jeton)
    requires j.JMouvement? ==> ToutChiffres(j.repetition)
    ensures j.JMouvement? && j.repetition == [] ==> Commandes(j) == [[j.touche]]
    ensures j.JMouvement? && j.repetition != [] ==>
      |Commandes(j)| == Entier(j.repetition) && forall c :: c in Commandes(j) ==> c == [j.touche]
    ensures j.JTransformation? ==> Commandes(j) == [[j.touche, j.direction]]
  {
  }

  /** Every match of the scanner is a well-formed one. */
  lemma {:induction false} AnalyserBienForme(s: string)
    ensures forall j :: j in Analyser(s) ==>
      (j.JMouvement? && j.touche in Mouvements && ToutChiffres(j.repetition))
      || (j.JTransformation? && j.touche in Transformations && j.direction in Mouvements)
    decreases |s|
  {
    if s != [] {
      if s[0] in Mouvements {
        AnalyserBienForme(s[1 + |Chiffres(s[1..])|..]);
      } else if |s| >= 2 && s[0] in Transformations && s[1] in Mouvements {
        AnalyserBienForme(s[2..]);
      } else {
        AnalyserBienForme(s[1..]);
      }
    }
  }

  lemma {:induction false} DevelopperValide(js: seq<Jeton>)
    requires forall j :: j in js ==>
      (j.JMouvement? && j.touche in Mouvements && ToutChiffres(j.repetition))
      || (j.JTransformation? && j.touche in Transformations && j.direction in Mouvements)
    ensures forall c :: c in Developper(js) ==> CommandeValide(c)
  {
    if js != [] {
      DevelopperValide(js[1..]);
    }
  }

  /** Everything `extraire` returns is a one-key movement or a two-key
      transform, so it can be decoded with the default bindings. */
  lemma ExtractionValide(s: string)
    ensures forall c :: c in Developper(Analyser(s)) ==> CommandeValide(c)
  {
    AnalyserBienForme(s);
    DevelopperValide(Analyser(s));
  }

  /** A nonempty suffix accepted by the pattern starts with a key, never a
      digit, so the scanner's greedy digit run stops where the pattern's does. */
  lemma RepetitionsCommence(s: string)
    requires s != [] && Repetitions(s, Mouvements, Transformations)
    ensures !EstChiffre(s[0])
  {
  }

  lemma CouvertPas(s: string)
    requires s != []
    ensures s[0] in Mouvements ==>
      var d := Chiffres(s[1..]);
      Couvert(Analyser(s)) == [s[0]] + d + Couvert(Analyser(s[1 + |d|..]))
    ensures s[0] !in Mouvements && |s| >= 2 && s[0] in Transformations && s[1] in Mouvements ==>
      Couvert(Analyser(s)) == [s[0], s[1]] + Couvert(Analyser(s[2..]))
  {
    if s[0] in Mouvements {
      var d := Chiffres(s[1..]);
      var js := [JMouvement(s[0], d)] + Analyser(s[1 + |d|..]);
      assert js[0] == JMouvement(s[0], d) && js[1..] == Analyser(s[1 + |d|..]);
    } else if |s| >= 2 && s[0] in Transformations && s[1] in Mouvements {
      var js := [JTransformation(s[0], s[1])] + Analyser(s[2..]);
      assert js[0] == JTransformation(s[0], s[1]) && js[1..] == Analyser(s[2..]);
    }
  }

  /** The digit run the scanner takes after a movement key is the one the
      pattern took, when the pattern's run is followed by a non-digit. */
  lemma ChiffresAccordes(s: string, k: nat)
    requires 1 <= k <= |s| && ToutChiffres(s[1..k])
    requires k < |s| ==> !EstChiffre(s[k])
    ensures Chiffres(s[1..]) == s[1..k]
  {
    assert s[1..][..k - 1] == s[1..k];
    ChiffresMaximal(s[1..], k - 1);
    if k < |s| {
      assert s[1..][k - 1] == s[k];
    }
  }

  /** The two ways an accepted nonempty input can start. */
  lemma RepetitionsCas(s: string)
    requires s != [] && Repetitions(s, Mouvements, Transformations)
    ensures s[0] in Mouvements ==>
      exists k :: 1 <= k <= |s| && ToutChiffres(s[1..k]) && Repetitions(s[k..], Mouvements, Transformations)
    ensures s[0] !in Mouvements ==>
      |s| >= 2 && s[0] in Transformations && s[1] in Mouvements && Repetitions(s[2..], Mouvements, Transformations)
  {
  }

  /** An input that the validation pattern accepts is covered entirely by the
      scanner's matches: nothing in it is skipped. */
  lemma {:induction false} ValideEntierementCouvert(s: string)
    requires Repetitions(s, Mouvements, Transformations)
    ensures Couvert(Analyser(s)) == s
    decreases |s|
  {
    if s != [] {
      RepetitionsCas(s);
      if s[0] in Mouvements {
        var k :| 1 <= k <= |s| && ToutChiffres(s[1..k]) && Repetitions(s[k..], Mouvements, Transformations);
        ValideEntierementCouvert(s[k..]);
        ChiffresFinis(s, k);
        CouvertMouvement(s, k);
      } else {
        ValideEntierementCouvert(s[2..]);
        CouvertPas(s);
        assert s == [s[0], s[1]] + s[2..];
      }
    }
  }

  /** The digits after a movement key end where the next repetition starts. */
  lemma ChiffresFinis(s: string, k: nat)
    requires 1 <= k <= |s| && Repetitions(s[k..], Mouvements, Transformations)
    ensures k < |s| ==> !EstChiffre(s[k])
  {
    if k < |s| {
      RepetitionsCommence(s[k..]);
      assert s[k..][0] == s[k];
    }
  }

  lemma CouvertMouvement(s: string, k: nat)
    requires 1 <= k <= |s| && s[0] in Mouvements
    requires ToutChiffres(s[1..k]) && (k < |s| ==> !EstChiffre(s[k]))
    requires Couvert(Analyser(s[k..])) == s[k..]
    ensures Couvert(Analyser(s)) == s
  {
    CouvertPas(s);
    ChiffresAccordes(s, k);
    assert s == [s[0]] + s[1..k] + s[k..];
  }

  lemma ChiffresMaximal(s: string, n: nat)
    requires n <= |s| && ToutChiffres(s[..n])
    ensures |Chiffres(s)| >= n
    decreases n
  {
    if n > 0 {
      assert EstChiffre(s[..n][0]);
      assert s[1..][..n - 1] == s[1..n];
      assert ToutChiffres(s[1..][..n - 1]) by {
        forall k | 0 <= k < n - 1 ensures EstChiffre(s[1..n][k]) { assert s[..n][k + 1] == s[k + 1]; }
      }
      ChiffresMaximal(s[1..], n - 1);
    }
  }

  /** A repeat count copies the key that many times. */
  lemma ExempleRepetition()
    ensures Developper(Analyser("N3E2")) == ["N", "N", "N", "E", "E"]
  {
    var s := "N3E2";
    assert s[1..] == "3E2" && Chiffres("3E2") == "3" by {
      assert "3E2"[1..] == "E2" && Chiffres("E2") == [];
    }
    assert s[2..] == "E2";
    assert "E2"[1..] == "2" && Chiffres("2") == "2" && "E2"[2..] == [];
    assert Analyser("E2") == [JMouvement('E', "2")];
    assert Analyser(s) == [JMouvement('N', "3"), JMouvement('E', "2")];
    assert Entier("3") == 3 && Entier("2") == 2;
    DevelopperConcat([JMouvement('N', "3")], [JMouvement('E', "2")]);
  }

  /** A zero count gives no command at all. */
  lemma ExempleZero()
    ensures Developper(Analyser("N0")) == []
  {
    assert "N0"[1..] == "0" && Chiffres("0") == "0" && "N0"[2..] == [];
    assert Analyser("N0") == [JMouvement('N', "0")];
    assert Entier("0") == 0;
  }

  /** A transform key and a movement key make one command; other text is
      skipped. */
  lemma ExempleTransformation()
    ensures Developper(Analyser("xPEz")) == ["PE"]
  {
    assert "xPEz"[1..] == "PEz" && "PEz"[2..] == "z" && "z"[1..] == [];
    assert Analyser("z") == [];
    assert Analyser("PEz") == [JTransformation('P', 'E')];
  }

  // ----- decoding -----

  datatype Erreur = IndexError | KeyError

  /** `obtenir_controle`: the action of the last key, and the action of the
      first key when the command has exactly two characters. */
  function ObtenirControle(touches: map<char, Controle>, commande: string): (r: Result<(Action, Option<Action>), Erreur>)
    ensures commande == [] ==> r == Failure(IndexError)
    ensures r.Success? ==>
      && commande[|commande| - 1] in touches
      && r.value.0 == touches[commande[|commande| - 1]].action
      && (|commande| == 2 <==> r.value.1.Some?)
      && (|commande| == 2 ==> commande[0] in touches && r.value.1.value == touches[commande[0]].action)
    ensures r.Failure? && commande != [] ==>
      r.error == KeyError && (commande[|commande| - 1] !in touches || (|commande| == 2 && commande[0] !in touches))
  {
    if commande == [] then Failure(IndexError)
    else if commande[|commande| - 1] !in touches then Failure(KeyError)
    else if |commande| == 2 then
      if commande[0] in touches then
        Success((touches[commande[|commande| - 1]].action, Some(touches[commande[0]].action)))
      else Failure(KeyError)
    else Success((touches[commande[|commande| - 1]].action, None))
  }

  /** Bindings that map every extraction key to a control of the right kind. */
  predicate LieLesTouches(touches: map<char, Controle>)
  {
    && (forall k :: k in Mouvements ==> k in touches && touches[k].action.Direction?)
    && (forall k :: k in Transformations ==> k in touches && touches[k].action.Transformer?)
  }

  /** Every extracted command decodes: a movement to its vector alone, a
      transform to the movement's vector and the transform's family. */
  lemma DecoderCommande(touches: map<char, Controle>, c: string)
    requires LieLesTouches(touches) && CommandeValide(c)
    ensures ObtenirControle(touches, c).Success?
    ensures ObtenirControle(touches, c).value.0.Direction?
    ensures |c| == 1 ==> ObtenirControle(touches, c).value.1 == None
    ensures |c| == 2 ==>
      ObtenirControle(touches, c).value.1.Some? && ObtenirControle(touches, c).value.1.value.Transformer?
  {
  }

  lemma ParDefautLieLesTouches()
    ensures LieLesTouches(TouchesParDefaut())
  {
  }
}
