// Rules of the maze: the snapshot a move is judged on, the four rule checks,
// the two rule sets the decorator fills, and the evaluation of a set.
//
// A rule either returns, raises `HorsRegles` (a violation) or raises
// `PartieGagnee` (a win): the three `Issue`s. The rule sets are Python sets,
// whose iteration order is fixed within a process but not specified; every
// evaluation is therefore given the order, and the lemmas below hold for all
// orders.

module Regle {
  import opened Commun
  import opened Element

  datatype Regle = TraverserUnObstacle | RencontrerUnAdversaire | GagnerUnePartie | TransformerUnObstacle

  /** Why a move is refused: the element cannot be crossed, a player already
      stands there, or the element is not of the requested family. */
  datatype Raison =
    | NePeutTraverser(obstacle: string)
    | JoueurPresent(obstacle: string)
    | NePeutTransformer(verbe: string, obstacle: string)

  datatype Issue = Ok | HorsRegles(raison: Raison) | PartieGagnee

  /** `Etat`: the cell the move aims at, the element there, the requested
      transform and the positions of the other players. */
  datatype Etat = Etat(
    coordonneesObstacle: Coord,
    obstacle: Element,
    transformation: Option<Famille>,
    coordonneesAdversaires: seq<Coord>)

  /** `Etat.__init__`: the target is the player's position plus the
      direction; the element is the grid's, or the default obstacle where the
      grid has none. */
  function NouvelEtat(direction: Coord, transformation: Option<Famille>, grille: map<Coord, Element>,
                      defaut: Element, position: Coord, adversaires: seq<Coord>): (e: Etat)
    ensures e.coordonneesObstacle == (position.0 + direction.0, position.1 + direction.1)
    ensures e.coordonneesObstacle in grille ==> e.obstacle == grille[e.coordonneesObstacle]
    ensures e.coordonneesObstacle !in grille ==> e.obstacle == defaut
    ensures e.transformation == transformation && e.coordonneesAdversaires == adversaires
  {
    var cible := Ajouter(position, direction);
    Etat(cible, if cible in grille then grille[cible] else defaut, transformation, adversaires)
  }

  /** Another player stands on the target. */
  predicate Occupe(e: Etat)
  {
    e.coordonneesObstacle in e.coordonneesAdversaires
  }

  /** `traverser_un_obstacle`. */
  function RegleTraverser(e: Etat): Issue
  {
    if !EstTraversable(e.obstacle) then HorsRegles(NePeutTraverser(e.obstacle.description)) else Ok
  }

  /** `rencontrer_un_adversaire`: a loop over the opponents' positions. */
  function RegleRencontrer(e: Etat, adversaires: seq<Coord>): Issue
  {
    if adversaires == [] then Ok
    else if e.coordonneesObstacle == adversaires[0] then HorsRegles(JoueurPresent(e.obstacle.description))
    else RegleRencontrer(e, adversaires[1..])
  }

  /** `gagner_une_partie`. */
  function RegleGagner(e: Etat): Issue
  {
    if EstGagnable(e.obstacle) then PartieGagnee else Ok
  }

  /** `transformer_un_obstacle`. */
  function RegleTransformer(e: Etat): Issue
  {
    match e.transformation
    case None => Ok
    case Some(f) =>
      if !EstDeFamille(e.obstacle, f) then HorsRegles(NePeutTransformer(f.description, e.obstacle.description)) else Ok
  }

  /** Calling one rule on a snapshot. */
  function Appliquer(r: Regle, e: Etat): Issue
  {
    match r
    case TraverserUnObstacle => RegleTraverser(e)
    case RencontrerUnAdversaire => RegleRencontrer(e, e.coordonneesAdversaires)
    case GagnerUnePartie => RegleGagner(e)
    case TransformerUnObstacle => RegleTransformer(e)
  }

  /** The opponent loop refuses exactly an occupied target. */
  lemma {:induction false} RencontrerOccupe(e: Etat, adversaires: seq<Coord>)
    ensures RegleRencontrer(e, adversaires).Ok? <==> e.coordonneesObstacle !in adversaires
    ensures !RegleRencontrer(e, adversaires).Ok? ==>
      RegleRencontrer(e, adversaires) == HorsRegles(JoueurPresent(e.obstacle.description))
  {
    if adversaires != [] {
      RencontrerOccupe(e, adversaires[1..]);
      assert adversaires == [adversaires[0]] + adversaires[1..];
    }
  }

  /** What each rule decides: a crossing is refused iff the element is not
      Traversable, an encounter iff the target is occupied, a transform iff
      the element is outside the family; the win rule raises a win iff the
      element is Gagnable and never refuses. */
  lemma Decisions(e: Etat)
    ensures Appliquer(TraverserUnObstacle, e).HorsRegles? <==> !EstTraversable(e.obstacle)
    ensures !Appliquer(TraverserUnObstacle, e).PartieGagnee?
    ensures Appliquer(RencontrerUnAdversaire, e).HorsRegles? <==> Occupe(e)
    ensures !Appliquer(RencontrerUnAdversaire, e).PartieGagnee?
    ensures Appliquer(GagnerUnePartie, e).PartieGagnee? <==> EstGagnable(e.obstacle)
    ensures !Appliquer(GagnerUnePartie, e).HorsRegles?
    ensures Appliquer(TransformerUnObstacle, e).HorsRegles? <==>
      e.transformation.Some? && !EstDeFamille(e.obstacle, e.transformation.value)
    ensures !Appliquer(TransformerUnObstacle, e).PartieGagnee?
  {
    RencontrerOccupe(e, e.coordonneesAdversaires);
  }

  // ----- rule sets -----

  datatype JeuDeRegles = JeuMouvement | JeuTransformation

  /** The two module-level rule sets and the decorator that fills them. */
  class Regles {
    var mouvement: set<Regle>
    var transformation: set<Regle>

    /** `lister_regles(set_de_regles)(regle)`: the rule is added to the chosen
        set and handed back unchanged; a rule already registered there leaves
        both sets as they were. */
    method ListerRegles(jeu: JeuDeRegles, regle: Regle) returns (r: Regle)
      modifies this
      ensures r == regle
      ensures jeu == JeuMouvement ==>
        mouvement == old(mouvement) + {regle} && transformation == old(transformation)
      ensures jeu == JeuTransformation ==>
        transformation == old(transformation) + {regle} && mouvement == old(mouvement)
      ensures (jeu == JeuMouvement && regle in old(mouvement)) || (jeu == JeuTransformation && regle in old(transformation)) ==>
        mouvement == old(mouvement) && transformation == old(transformation)
    {
      if jeu == JeuMouvement {
        mouvement := mouvement + {regle};
      } else {
        transformation := transformation + {regle};
      }
      r := regle;
    }

    /** Import of the rule module: the decorators run in source order, the
        innermost first for the rule registered in both sets. */
    constructor ()
      ensures mouvement == ReglesMouvement && transformation == ReglesTransformation
    {
      mouvement, transformation := {}, {};
      new;
      var r := ListerRegles(JeuMouvement, TraverserUnObstacle);
      r := ListerRegles(JeuTransformation, RencontrerUnAdversaire);
      r := ListerRegles(JeuMouvement, r);
      r := ListerRegles(JeuMouvement, GagnerUnePartie);
      r := ListerRegles(JeuTransformation, TransformerUnObstacle);
    }
  }

  const ReglesMouvement: set<Regle> := {TraverserUnObstacle, RencontrerUnAdversaire, GagnerUnePartie}
  const ReglesTransformation: set<Regle> := {RencontrerUnAdversaire, TransformerUnObstacle}

  /** `ordre` is an iteration order of the set `s`. */
  predicate Enumere(ordre: seq<Regle>, s: set<Regle>)
  {
    Distinct(ordre) && Ensemble(ordre) == s
  }

  /** The rules called one after the other; the first exception ends the
      loop. */
  function Evaluer(ordre: seq<Regle>, e: Etat): Issue
  {
    if ordre == [] then Ok
    else
      var r := Appliquer(ordre[0], e);
      if r.Ok? then Evaluer(ordre[1..], e) else r
  }

  /** `verifier_regles`: the transformation set when a transform is
      requested, the movement set otherwise, each in its iteration order. */
  function VerifierRegles(e: Etat, ordreMouvement: seq<Regle>, ordreTransformation: seq<Regle>): Issue
  {
    if e.transformation.Some? then Evaluer(ordreTransformation, e) else Evaluer(ordreMouvement, e)
  }

  /** A set passes iff every rule in it passes; otherwise the result is what
      some rule of the set raised. */
  lemma {:induction false} EvaluerCaracterise(ordre: seq<Regle>, e: Etat)
    ensures Evaluer(ordre, e).Ok? <==> forall r :: r in ordre ==> Appliquer(r, e).Ok?
    ensures !Evaluer(ordre, e).Ok? ==> exists r :: r in ordre && Evaluer(ordre, e) == Appliquer(r, e)
  {
    if ordre != [] {
      EvaluerCaracterise(ordre[1..], e);
      assert ordre == [ordre[0]] + ordre[1..];
      if !Evaluer(ordre, e).Ok? && Appliquer(ordre[0], e).Ok? {
        var r :| r in ordre[1..] && Evaluer(ordre[1..], e) == Appliquer(r, e);
        assert r in ordre;
      }
    }
  }

  /** Whatever the order, a win comes from the win rule, on a winning
      element. */
  lemma {:induction false} VictoireGagnable(ordre: seq<Regle>, e: Etat)
    ensures Evaluer(ordre, e) == PartieGagnee ==> GagnerUnePartie in ordre && EstGagnable(e.obstacle)
  {
    if ordre != [] {
      VictoireGagnable(ordre[1..], e);
      Decisions(e);
    }
  }

  /** A rule placed first decides the result whenever it raises. */
  lemma PremiereDecide(ordre: seq<Regle>, e: Etat)
    requires ordre != [] && !Appliquer(ordre[0], e).Ok?
    ensures Evaluer(ordre, e) == Appliquer(ordre[0], e)
  {
  }

  /** A move with no transform: refused when the target cannot be crossed,
      or is occupied and not winning; won when it can be crossed, is free and
      is Gagnable; accepted when it can be crossed, is free and is not. These
      outcomes hold for every iteration order of the movement set. */
  lemma Mouvement(e: Etat, ordre: seq<Regle>)
    requires Enumere(ordre, ReglesMouvement)
    ensures !EstTraversable(e.obstacle) ==> Evaluer(ordre, e).HorsRegles?
    ensures Occupe(e) && !EstGagnable(e.obstacle) ==> Evaluer(ordre, e).HorsRegles?
    ensures EstTraversable(e.obstacle) && !Occupe(e) && EstGagnable(e.obstacle) ==> Evaluer(ordre, e) == PartieGagnee
    ensures Evaluer(ordre, e) == Ok <==> EstTraversable(e.obstacle) && !Occupe(e) && !EstGagnable(e.obstacle)
    ensures Occupe(e) && EstGagnable(e.obstacle) ==> !Evaluer(ordre, e).Ok?
  {
    Decisions(e);
    EvaluerCaracterise(ordre, e);
    Inclusions(e.obstacle);
    assert TraverserUnObstacle in ordre && RencontrerUnAdversaire in ordre && GagnerUnePartie in ordre;
    if !Evaluer(ordre, e).Ok? {
      var r :| r in ordre && Evaluer(ordre, e) == Appliquer(r, e);
      assert r in ReglesMouvement;
    }
  }

  /** The one case where the order decides the outcome: a Gagnable target
      that another player occupies is refused by one order and won by
      another. */
  lemma SortieOccupee(e: Etat)
    requires Occupe(e) && EstGagnable(e.obstacle)
    ensures Evaluer([RencontrerUnAdversaire, TraverserUnObstacle, GagnerUnePartie], e).HorsRegles?
    ensures Evaluer([GagnerUnePartie, TraverserUnObstacle, RencontrerUnAdversaire], e) == PartieGagnee
    ensures Enumere([RencontrerUnAdversaire, TraverserUnObstacle, GagnerUnePartie], ReglesMouvement)
    ensures Enumere([GagnerUnePartie, TraverserUnObstacle, RencontrerUnAdversaire], ReglesMouvement)
  {
    Decisions(e);
    var a := [RencontrerUnAdversaire, TraverserUnObstacle, GagnerUnePartie];
    var b := [GagnerUnePartie, TraverserUnObstacle, RencontrerUnAdversaire];
    PremiereDecide(a, e);
    PremiereDecide(b, e);
    assert Ensemble(a) == ReglesMouvement by { assert a[0] in Ensemble(a) && a[1] in Ensemble(a) && a[2] in Ensemble(a); }
    assert Ensemble(b) == ReglesMouvement by { assert b[0] in Ensemble(b) && b[1] in Ensemble(b) && b[2] in Ensemble(b); }
  }

  /** A transform is accepted iff the target is free and of the requested
      family, refused otherwise, and never wins, whatever the order. */
  lemma Transformation(e: Etat, ordre: seq<Regle>)
    requires Enumere(ordre, ReglesTransformation) && e.transformation.Some?
    ensures Evaluer(ordre, e) == Ok <==> !Occupe(e) && EstDeFamille(e.obstacle, e.transformation.value)
    ensures !Evaluer(ordre, e).Ok? ==> Evaluer(ordre, e).HorsRegles?
  {
    Decisions(e);
    EvaluerCaracterise(ordre, e);
    assert RencontrerUnAdversaire in ordre && TransformerUnObstacle in ordre;
    if !Evaluer(ordre, e).Ok? {
      var r :| r in ordre && Evaluer(ordre, e) == Appliquer(r, e);
      assert r in ReglesTransformation;
    }
  }

  /** `verifier_regles` picks the set by the presence of a transform. */
  lemma Selection(e: Etat, ordreMouvement: seq<Regle>, ordreTransformation: seq<Regle>)
    requires Enumere(ordreMouvement, ReglesMouvement) && Enumere(ordreTransformation, ReglesTransformation)
    ensures e.transformation.None? ==>
      (VerifierRegles(e, ordreMouvement, ordreTransformation) == Ok <==>
       EstTraversable(e.obstacle) && !Occupe(e) && !EstGagnable(e.obstacle))
    ensures e.transformation.Some? ==>
      (VerifierRegles(e, ordreMouvement, ordreTransformation) == Ok <==>
       !Occupe(e) && EstDeFamille(e.obstacle, e.transformation.value))
    ensures e.transformation.Some? ==> !VerifierRegles(e, ordreMouvement, ordreTransformation).PartieGagnee?
  {
    if e.transformation.None? {
      Mouvement(e, ordreMouvement);
    } else {
      Transformation(e, ordreTransformation);
    }
  }

  /** A step that wins is a move, onto a winning element. */
  lemma VictoireMouvement(e: Etat, ordreMouvement: seq<Regle>, ordreTransformation: seq<Regle>)
    requires Enumere(ordreMouvement, ReglesMouvement) && Enumere(ordreTransformation, ReglesTransformation)
    requires VerifierRegles(e, ordreMouvement, ordreTransformation) == PartieGagnee
    ensures e.transformation.None? && EstGagnable(e.obstacle)
  {
    Selection(e, ordreMouvement, ordreTransformation);
    VictoireGagnable(ordreMouvement, e);
  }
}
