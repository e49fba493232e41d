// The client's input validator `ValidateurTexte`. Its state lives in class
// variables that the server configures (`parametrer`) and the client resets
// (`effacer`); building an instance from an input is a decision over that
// state. The regular expression engine is not modelled: `correspond` stands
// for `fullmatch` of the stored expression on a text.
//
// Two revisions exist. The library one keeps a game mode and answers
// "invalid" on a mismatch; the older one, at the top of the repository, keeps
// a `fin_de_partie` flag and raises `ValidationErreur` on a mismatch.

module InterfaceClient {

  /** `Quitter.touche`. */
  const Touche: char := 'Q'

  const JeuEnCours: int := 1
  const FinDePartie: int := 2

  /** The message of the `ValidationErreur` raised when no expression was
      received. */
  const AucunSchema: string := "Aucun schéma de validation reçu du serveur"

  /** How building `ValidateurTexte(saisie)` ends: the `Quitter` exception,
      the `ValidationErreur` exception, or an instance whose truth value is
      `valide`. */
  datatype Validation = Quitter | ValidationErreur(message: string) | Instance(valide: bool)

  datatype Erreur = TypeError

  /** Texts with a quit key. */
  predicate Quitte(saisie: string)
  {
    Touche in saisie
  }

  /** `ValidateurTexte(saisie)` and its truth value, given the class
      variables: a quit key wins over everything; during a game, an input is
      valid exactly when it matches the configured expression, and without
      one it is an error; once the game is over, nothing is valid. */
  function Verdict(correspond: (string, string) -> bool, validationSchema: string, schemaParametre: bool,
                   mode: int, saisie: string): (r: Validation)
    ensures r == Quitter <==> Quitte(saisie)
    ensures r.ValidationErreur? <==> !Quitte(saisie) && mode == JeuEnCours && !schemaParametre
    ensures r.ValidationErreur? ==> r.message == AucunSchema
    ensures r == Instance(true) <==>
      !Quitte(saisie) && mode == JeuEnCours && schemaParametre && correspond(validationSchema, saisie)
  {
    if Quitte(saisie) then Quitter
    else if mode == JeuEnCours then
      if !schemaParametre then ValidationErreur(AucunSchema)
      else Instance(correspond(validationSchema, saisie))
    else Instance(false)
  }

  class ValidateurTexte {
    /** `fullmatch` of an expression, given as its text, on an input. */
    const correspond: (string, string) -> bool
    var validationSchema: string
    var schemaParametre: bool
    var validationErreur: string
    var mode: int

    /** The class variables before any configuration. */
    constructor (correspond: (string, string) -> bool)
      ensures this.correspond == correspond
      ensures !schemaParametre && validationErreur == [] && mode == JeuEnCours
    {
      this.correspond := correspond;
      validationSchema, schemaParametre, validationErreur, mode := [], false, [], JeuEnCours;
    }

    /** `ValidateurTexte(saisie)` on the current class variables. */
    function Valider(saisie: string): (r: Validation)
      reads this
      ensures r == Verdict(correspond, validationSchema, schemaParametre, mode, saisie)
    {
      Verdict(correspond, validationSchema, schemaParametre, mode, saisie)
    }

    /** `parametrer`: the expression or the error text is stored; any other
        category is refused and nothing changes. */
    method Parametrer(parametre: string, valeur: string) returns (r: Result)
      modifies this
      ensures parametre == "validation_schema" ==>
        && r == Ok && validationSchema == valeur && schemaParametre
        && validationErreur == old(validationErreur) && mode == old(mode)
      ensures parametre == "validation_erreur" ==>
        && r == Ok && validationErreur == valeur
        && validationSchema == old(validationSchema) && schemaParametre == old(schemaParametre) && mode == old(mode)
      ensures parametre != "validation_schema" && parametre != "validation_erreur" ==>
        r == Refus(TypeError) && unchanged(this)
      ensures r == Ok && schemaParametre && mode == JeuEnCours ==>
        forall s :: !Quitte(s) ==> Valider(s) == Instance(correspond(validationSchema, s))
    {
      if parametre == "validation_schema" {
        validationSchema, schemaParametre := valeur, true;
        r := Ok;
      } else if parametre == "validation_erreur" {
        validationErreur := valeur;
        r := Ok;
      } else {
        r := Refus(TypeError);
      }
    }

    /** `effacer`: back to no expression, no error text and a game in
        progress, so that every input without a quit key is an error. */
    method Effacer()
      modifies this`schemaParametre, this`validationErreur, this`mode
      ensures !schemaParametre && validationErreur == [] && mode == JeuEnCours
      ensures forall s :: !Quitte(s) ==> Valider(s) == ValidationErreur(AucunSchema)
    {
      schemaParametre, validationErreur, mode := false, [], JeuEnCours;
    }
  }

  datatype Result = Ok | Refus(erreur: Erreur)

  /** Once the game is over, an input is either a request to quit or
      invalid, whatever was configured. */
  lemma FinSansValidation(v: ValidateurTexte, saisie: string)
    requires v.mode != JeuEnCours
    ensures v.Valider(saisie) == if Quitte(saisie) then Quitter else Instance(false)
  {
  }

  /** The older revision: a `fin_de_partie` flag instead of a mode, and a
      mismatch raises `ValidationErreur` with the configured error text. */
  class ValidateurTexteRacine {
    const correspond: (string, string) -> bool
    var validationSchema: string
    var schemaParametre: bool
    var validationErreur: string
    var finDePartie: bool

    constructor (correspond: (string, string) -> bool)
      ensures this.correspond == correspond
      ensures !schemaParametre && validationErreur == [] && !finDePartie
    {
      this.correspond := correspond;
      validationSchema, schemaParametre, validationErreur, finDePartie := [], false, [], false;
    }

    /** `ValidateurTexte(saisie)`: a quit key wins; during a game the input
        is valid when it matches, and otherwise an error carries the
        configured text (or the missing-expression text); once the game is
        over, only the quit key is looked for. */
    function Valider(saisie: string): (r: Validation)
      reads this
      ensures r == Quitter <==> Quitte(saisie)
      ensures r == Instance(true) <==>
        !Quitte(saisie) && !finDePartie && schemaParametre && correspond(validationSchema, saisie)
      ensures r == Instance(false) <==> !Quitte(saisie) && finDePartie
      ensures r.ValidationErreur? ==>
        r.message == if schemaParametre then validationErreur else AucunSchema
    {
      if Quitte(saisie) then Quitter
      else if finDePartie then Instance(false)
      else if !schemaParametre then ValidationErreur(AucunSchema)
      else if correspond(validationSchema, saisie) then Instance(true)
      else ValidationErreur(validationErreur)
    }

    /** `parametrer`, as in the library revision. */
    method Parametrer(parametre: string, valeur: string) returns (r: Result)
      modifies this
      ensures parametre == "validation_schema" ==>
        && r == Ok && validationSchema == valeur && schemaParametre
        && validationErreur == old(validationErreur) && finDePartie == old(finDePartie)
      ensures parametre == "validation_erreur" ==>
        && r == Ok && validationErreur == valeur
        && validationSchema == old(validationSchema) && schemaParametre == old(schemaParametre)
        && finDePartie == old(finDePartie)
      ensures parametre != "validation_schema" && parametre != "validation_erreur" ==>
        r == Refus(TypeError) && unchanged(this)
    {
      if parametre == "validation_schema" {
        validationSchema, schemaParametre := valeur, true;
        r := Ok;
      } else if parametre == "validation_erreur" {
        validationErreur := valeur;
        r := Ok;
      } else {
        r := Refus(TypeError);
      }
    }

    /** `effacer`: no expression, no error text, the game not over. */
    method Effacer()
      modifies this`schemaParametre, this`validationErreur, this`finDePartie
      ensures !schemaParametre && validationErreur == [] && !finDePartie
      ensures forall s :: !Quitte(s) ==> Valider(s) == ValidationErreur(AucunSchema)
    {
      schemaParametre, validationErreur, finDePartie := false, [], false;
    }
  }

  /** In the older revision, a configured game never answers "invalid"
      silently: an input without a quit key is either accepted or rejected
      with the configured text. */
  lemma RacineRefusExplicite(v: ValidateurTexteRacine, saisie: string)
    requires v.schemaParametre && !v.finDePartie && !Quitte(saisie)
    ensures v.Valider(saisie) == if v.correspond(v.validationSchema, saisie) then Instance(true)
                                 else ValidationErreur(v.validationErreur)
  {
  }
}
