// The client's main thread: it takes (category, message) pairs from its
// queue, prints what the server shows, configures the validator, validates
// what the player types and sends it as a command. The socket, the two
// listening threads and the console are not modelled: what the main thread
// does outward is a list of effects.

module Client {
  import opened Commun
  import opened InterfaceClient

  /** A `(categorie, message)` pair taken from the queue. */
  datatype Courrier = Courrier(categorie: string, message: string)

  /** What the main thread does outward: a `('commande', saisie)` pair sent
      to the server, a text printed, or the `NameError` that ends the
      program. */
  datatype Effet = Envoi(commande: string) | Affichage(texte: string) | NameError

  /** The class variables of `ValidateurTexte`, as values. */
  datatype Etat = Etat(validationSchema: string, schemaParametre: bool, validationErreur: string, mode: int)

  /** Printed when the game is over. */
  const Consigne: string := "Tapez " + [Touche] + " pour quitter"

  /** The `saisie` branch as written: `valide` is the module variable left
      by earlier inputs (`None` while it was never bound), and a
      `ValidationErreur` leaves it as it was. The result says whether the
      loop goes on, what `valide` becomes and the effects. */
  function SaisieTelleQuelle(verdict: Validation, mode: int, valide: Option<bool>, saisie: string, erreur: string)
    : (r: (bool, Option<bool>, seq<Effet>))
    ensures NameError in r.2 <==> verdict.ValidationErreur? && mode == JeuEnCours && valide.None?
    ensures !r.0 <==> verdict == Quitter || NameError in r.2
    ensures Envoi(saisie) in r.2 <==>
      && verdict != Quitter && mode == JeuEnCours
      && (verdict == Instance(true) || (verdict.ValidationErreur? && valide == Some(true)))
  {
    if verdict == Quitter then (false, valide, [])
    else
      var signale := if verdict.ValidationErreur? && mode == JeuEnCours then [Affichage(verdict.message)] else [];
      var lie := if verdict.Instance? then Some(verdict.valide) else valide;
      if mode != JeuEnCours then (true, lie, signale)
      else if lie.None? then (false, lie, signale + [NameError])
      else if lie.value then (true, lie, signale + [Envoi(saisie)])
      else (true, lie, signale + [Affichage(erreur)])
  }

  /** A first input typed before the server's expression arrives raises
      `ValidationErreur`, and the test of `valide` that follows finds the
      name unbound. */
  lemma NameErrorAvantSchema()
    ensures SaisieTelleQuelle(Verdict((s, t) => s == t, [], false, JeuEnCours, "N"), JeuEnCours, None, "N", [])
         == (false, None, [Affichage(AucunSchema), NameError])
  {
    assert !Quitte("N");
    assert [Affichage(AucunSchema)] + [NameError] == [Affichage(AucunSchema), NameError];
  }

  /** The `saisie` branch with `valide` bound to false before the
      validation, as the validator's own instance does: a command is sent
      exactly when the validator accepts the input during a game, it is that
      input, and no name is ever unbound. During a game a refused input
      prints the error text, after the exception's message when there is
      one; otherwise nothing is printed. */
  function Saisie(verdict: Validation, mode: int, saisie: string, erreur: string): (r: (bool, seq<Effet>))
    ensures !r.0 <==> verdict == Quitter
    ensures NameError !in r.1
    ensures Envoi(saisie) in r.1 <==> verdict == Instance(true) && mode == JeuEnCours
    ensures forall k :: 0 <= k < |r.1| && r.1[k].Envoi? ==> r.1[k].commande == saisie
    ensures verdict == Quitter || mode != JeuEnCours ==> r.1 == []
    ensures mode == JeuEnCours && verdict == Instance(false) ==> r.1 == [Affichage(erreur)]
    ensures mode == JeuEnCours && verdict.ValidationErreur? ==> r.1 == [Affichage(verdict.message), Affichage(erreur)]
  {
    var t := SaisieTelleQuelle(verdict, mode, Some(false), saisie, erreur);
    (t.0, t.2)
  }

  /** Whenever the validator answers with an instance, the branch as
      written and the corrected one do the same. */
  lemma SaisieConforme(verdict: Validation, mode: int, valide: Option<bool>, saisie: string, erreur: string)
    requires verdict.Instance?
    ensures SaisieTelleQuelle(verdict, mode, valide, saisie, erreur)
         == (Saisie(verdict, mode, saisie, erreur).0, Some(verdict.valide), Saisie(verdict, mode, saisie, erreur).1)
  {
  }

  /** One pass of the main loop on a pair: the new validator state, whether
      the loop goes on, and the effects. An input typed during a game is
      sent when the expression in force matches it (`EtapeSaisie` states
      what is printed otherwise). */
  function Etape(correspond: (string, string) -> bool, e: Etat, c: Courrier): (r: (Etat, bool, seq<Effet>))
    ensures r.0.mode == if c.categorie == "fin" then FinDePartie else e.mode
    ensures r.0.schemaParametre == (e.schemaParametre || c.categorie == "validation_schema")
    ensures r.0.validationSchema == if c.categorie == "validation_schema" then c.message else e.validationSchema
    ensures !r.1 <==> c.categorie == "erreur" || (c.categorie == "saisie" && Quitte(c.message))
    ensures NameError !in r.2
    ensures forall k :: 0 <= k < |r.2| && r.2[k].Envoi? ==>
      && c == Courrier("saisie", r.2[k].commande) && e.mode == JeuEnCours
      && e.schemaParametre && correspond(e.validationSchema, c.message)
  {
    if c.categorie == "affichage" then (e, true, [Affichage(c.message)])
    else if c.categorie == "erreur" then (e, false, [Affichage(c.message)])
    else if c.categorie == "validation_schema" then
      (e.(validationSchema := c.message, schemaParametre := true), true, [])
    else if c.categorie == "validation_erreur" then (e.(validationErreur := c.message), true, [])
    else if c.categorie == "saisie" then
      var verdict := Verdict(correspond, e.validationSchema, e.schemaParametre, e.mode, c.message);
      var s := Saisie(verdict, e.mode, c.message, e.validationErreur);
      (e, s.0, s.1)
    else if c.categorie == "fin" then (e.(mode := FinDePartie), true, [Affichage(Consigne)])
    else (e, true, [])
  }

  /** What one `saisie` prints or sends: nothing after the game or on the
      quit key; during a game the input itself when the expression in force
      matches it, otherwise the error text, preceded by the fixed message
      when no expression was received. */
  lemma EtapeSaisie(correspond: (string, string) -> bool, e: Etat, x: string)
    ensures var r := Etape(correspond, e, Courrier("saisie", x));
      && (e.mode != JeuEnCours || Quitte(x) ==> r.2 == [])
      && (e.mode == JeuEnCours && !Quitte(x) ==>
          && (e.schemaParametre && correspond(e.validationSchema, x) ==> r.2 == [Envoi(x)])
          && (e.schemaParametre && !correspond(e.validationSchema, x) ==> r.2 == [Affichage(e.validationErreur)])
          && (!e.schemaParametre ==> r.2 == [Affichage(AucunSchema), Affichage(e.validationErreur)]))
  {
  }

  /** The main loop over the pairs the queue delivers, up to the one that
      ends it: the final validator state and all the effects, in order. */
  function Deroulement(correspond: (string, string) -> bool, e: Etat, cs: seq<Courrier>): (r: (Etat, seq<Effet>))
    ensures NameError !in r.1
    decreases |cs|
  {
    if cs == [] then (e, [])
    else
      var t := Etape(correspond, e, cs[0]);
      if !t.1 then (t.0, t.2)
      else
        var d := Deroulement(correspond, t.0, cs[1..]);
        (d.0, t.2 + d.1)
  }

  /** Once a `fin` has arrived, the game stays over and no command is ever
      sent again. */
  lemma {:induction false} FinDefinitive(correspond: (string, string) -> bool, e: Etat, cs: seq<Courrier>)
    requires e.mode == FinDePartie
    ensures Deroulement(correspond, e, cs).0.mode == FinDePartie
    ensures forall k :: 0 <= k < |Deroulement(correspond, e, cs).1| ==> !Deroulement(correspond, e, cs).1[k].Envoi?
    decreases |cs|
  {
    if cs != [] {
      var t := Etape(correspond, e, cs[0]);
      if t.1 {
        FinDefinitive(correspond, t.0, cs[1..]);
      }
    }
  }

  /** A command may be sent when the expression in force, either the one
      configured at the start or one received on the way, matches it. */
  predicate Autorise(correspond: (string, string) -> bool, e: Etat, cs: seq<Courrier>, x: string)
  {
    || (e.schemaParametre && correspond(e.validationSchema, x))
    || exists j :: 0 <= j < |cs| && cs[j].categorie == "validation_schema" && correspond(cs[j].message, x)
  }

  /** Every command sent is an input the player typed, and an expression
      the server sent (or the one in force at the start) accepts it. */
  lemma {:induction false} EnvoisValides(correspond: (string, string) -> bool, e: Etat, cs: seq<Courrier>)
    ensures forall k :: 0 <= k < |Deroulement(correspond, e, cs).1| && Deroulement(correspond, e, cs).1[k].Envoi? ==>
      var x := Deroulement(correspond, e, cs).1[k].commande;
      Courrier("saisie", x) in cs && Autorise(correspond, e, cs, x)
    decreases |cs|
  {
    if cs != [] {
      var t := Etape(correspond, e, cs[0]);
      var effets := Deroulement(correspond, e, cs).1;
      if t.1 {
        var d := Deroulement(correspond, t.0, cs[1..]);
        EnvoisValides(correspond, t.0, cs[1..]);
        assert effets == t.2 + d.1;
        forall k | 0 <= k < |effets| && effets[k].Envoi?
          ensures Courrier("saisie", effets[k].commande) in cs && Autorise(correspond, e, cs, effets[k].commande)
        {
          var x := effets[k].commande;
          if k < |t.2| {
            assert t.2[k] == effets[k];
          } else {
            assert d.1[k - |t.2|] == effets[k];
            assert Courrier("saisie", x) in cs[1..];
            assert Autorise(correspond, t.0, cs[1..], x);
            if exists j :: 0 <= j < |cs[1..]| && cs[1..][j].categorie == "validation_schema" && correspond(cs[1..][j].message, x) {
              var j :| 0 <= j < |cs[1..]| && cs[1..][j].categorie == "validation_schema" && correspond(cs[1..][j].message, x);
              assert cs[j + 1] == cs[1..][j];
            } else if cs[0].categorie == "validation_schema" {
              assert correspond(cs[0].message, x);
            }
          }
        }
      }
    }
  }

  /** The validator's class variables, read as a state. */
  function Instantane(v: ValidateurTexte): (e: Etat)
    reads v
    ensures e.schemaParametre == v.schemaParametre && e.mode == v.mode
  {
    Etat(v.validationSchema, v.schemaParametre, v.validationErreur, v.mode)
  }

  /** One pass of the main loop, on the validator's class variables. */
  method Traiter(v: ValidateurTexte, c: Courrier) returns (suite: bool, effets: seq<Effet>)
    modifies v
    ensures (Instantane(v), suite, effets) == Etape(v.correspond, old(Instantane(v)), c)
  {
    if c.categorie == "affichage" {
      suite, effets := true, [Affichage(c.message)];
    } else if c.categorie == "erreur" {
      suite, effets := false, [Affichage(c.message)];
    } else if c.categorie == "validation_schema" || c.categorie == "validation_erreur" {
      var accepte := v.Parametrer(c.categorie, c.message);
      suite, effets := true, [];
    } else if c.categorie == "saisie" {
      var verdict := v.Valider(c.message);
      if verdict == Quitter {
        return false, [];
      }
      var valide := false;
      effets := [];
      if verdict.ValidationErreur? {
        if v.mode == JeuEnCours {
          effets := [Affichage(verdict.message)];
        }
      } else {
        valide := verdict.valide;
      }
      suite := true;
      if v.mode == JeuEnCours {
        if valide {
          effets := effets + [Envoi(c.message)];
        } else {
          effets := effets + [Affichage(v.validationErreur)];
        }
      }
    } else if c.categorie == "fin" {
      v.mode := FinDePartie;
      suite, effets := true, [Affichage(Consigne)];
    } else {
      suite, effets := true, [];
    }
  }

  /** The main loop over what the queue delivers, stopping at the pair that
      ends it. */
  method Boucle(v: ValidateurTexte, cs: seq<Courrier>) returns (effets: seq<Effet>)
    modifies v
    ensures (Instantane(v), effets) == Deroulement(v.correspond, old(Instantane(v)), cs)
  {
    effets := [];
    var i := 0;
    assert cs[i..] == cs;
    ghost var tout := Deroulement(v.correspond, Instantane(v), cs);
    assert [] + tout.1 == tout.1;
    while i < |cs|
      invariant i <= |cs|
      invariant Deroulement(v.correspond, old(Instantane(v)), cs)
             == (Deroulement(v.correspond, Instantane(v), cs[i..]).0, effets + Deroulement(v.correspond, Instantane(v), cs[i..]).1)
    {
      ghost var reste := Deroulement(v.correspond, Instantane(v), cs[i..]);
      assert cs[i..][0] == cs[i] && cs[i..][1..] == cs[i + 1..];
      var suite, ds := Traiter(v, cs[i]);
      if !suite {
        effets := effets + ds;
        return;
      }
      assert reste.1 == ds + Deroulement(v.correspond, Instantane(v), cs[i + 1..]).1;
      assert effets + reste.1 == (effets + ds) + Deroulement(v.correspond, Instantane(v), cs[i + 1..]).1;
      effets := effets + ds;
      i := i + 1;
    }
    assert cs[i..] == [];
    assert effets + [] == effets;
  }
}
