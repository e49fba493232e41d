// Cell kinds of the maze and the registry that the element metaclass fills
// when each element class is created.
//
// An element class is described by its ordered list of direct bases: the
// generic `Element` class, capability mix-ins and transform families. Python's
// `issubclass(base, Mixin)` becomes `SousClasse`, the capability tests on an
// element become the predicates `EstDecryptable`, `EstTraversable`, ...

module Element {
  import opened Commun

  /** The capability mix-ins. */
  datatype Capacite = Decryptable | Decrypte | Defaut | Traversable | Gagnable | Demarrable | Transformable

  /** A transform family: a subclass of `Transformable` with its verb. */
  datatype Famille = Famille(nom: string, description: string)

  const Murable := Famille("Murable", "murer")
  const Percable := Famille("Percable", "percer")

  /** A direct base of an element class. */
  datatype Base = ElementGenerique | Mixin(capacite: Capacite) | DeFamille(famille: Famille)

  /** An element class: its name, its own `symbole_carte` (absent for the
      player markers), display symbol, description and ordered bases. */
  datatype Element = Element(
    nom: string,
    symboleCarte: Option<char>,
    symboleAffichage: string,
    description: string,
    bases: seq<Base>)

  /** `issubclass(b, c)` for a direct base `b`, following the mix-in
      hierarchy: Decrypte and Gagnable extend Decryptable, Gagnable and
      Demarrable extend Traversable, every family extends Transformable. */
  predicate SousClasse(b: Base, c: Capacite)
  {
    match b
    case ElementGenerique => false
    case DeFamille(_) => c == Transformable
    case Mixin(m) =>
      m == c
      || (c == Decryptable && m in {Decrypte, Gagnable})
      || (c == Traversable && m in {Gagnable, Demarrable})
  }

  /** Some base in the list is a subclass of `c`. */
  predicate Herite(bases: seq<Base>, c: Capacite)
  {
    exists b :: b in bases && SousClasse(b, c)
  }

  lemma HeriteTete(bases: seq<Base>)
    requires bases != []
    ensures forall c :: Herite(bases, c) <==> SousClasse(bases[0], c) || Herite(bases[1..], c)
  {
    assert bases == [bases[0]] + bases[1..];
  }

  /** `issubclass(e, c)`. */
  predicate Est(e: Element, c: Capacite)
  {
    Herite(e.bases, c)
  }

  predicate EstDecryptable(e: Element) { Est(e, Decryptable) }
  predicate EstDecrypte(e: Element) { Est(e, Decrypte) }
  predicate EstDefaut(e: Element) { Est(e, Defaut) }
  predicate EstTraversable(e: Element) { Est(e, Traversable) }
  predicate EstGagnable(e: Element) { Est(e, Gagnable) }
  predicate EstDemarrable(e: Element) { Est(e, Demarrable) }
  predicate EstTransformable(e: Element) { Est(e, Transformable) }

  /** `issubclass(e, f)` for a transform family `f`. */
  predicate EstDeFamille(e: Element, f: Famille)
  {
    DeFamille(f) in e.bases
  }

  /** The family whose `transformee` attribute the element inherits: the first
      family among its bases, as Python's method resolution order finds it. */
  function PremiereFamille(bases: seq<Base>): (r: Option<Famille>)
    ensures r.Some? ==> DeFamille(r.value) in bases
    ensures r.None? ==> forall f :: DeFamille(f) !in bases
  {
    if bases == [] then None
    else if bases[0].DeFamille? then Some(bases[0].famille)
    else PremiereFamille(bases[1..])
  }

  /** The metaclass state: symbol-to-element maps for decodable and winning
      elements, the default obstacle once one is declared, and the
      `transformee` bound to each family. */
  datatype Registre = Registre(
    decryptable: map<char, Element>,
    gagnable: map<char, Element>,
    obstacleParDefaut: Option<Element>,
    transformees: map<Famille, Element>)

  /** Effect of one base on the registry during class creation: a base that is
      a Decryptable (resp. Gagnable) subclass files the class under its own
      `symbole_carte`, a Defaut subclass makes it the default obstacle. The
      lookup of an absent `symbole_carte` raises KeyError: `None`. */
  function InscrireBase(r: Registre, e: Element, b: Base): Option<Registre>
  {
    if (SousClasse(b, Decryptable) || SousClasse(b, Gagnable)) && e.symboleCarte.None? then None
    else
      var r1 := if SousClasse(b, Decryptable) then r.(decryptable := r.decryptable[e.symboleCarte.value := e]) else r;
      var r2 := if SousClasse(b, Gagnable) then r1.(gagnable := r1.gagnable[e.symboleCarte.value := e]) else r1;
      Some(if SousClasse(b, Defaut) then r2.(obstacleParDefaut := Some(e)) else r2)
  }

  /** `Elements.__new__`: the bases in order; on KeyError the registry keeps
      the effect of the bases already handled (`Failure`). */
  function Inscrire(r: Registre, e: Element, bases: seq<Base>): Result<Registre, Registre>
    decreases |bases|
  {
    if bases == [] then Success(r)
    else match InscrireBase(r, e, bases[0])
      case None => Failure(r)
      case Some(r1) => Inscrire(r1, e, bases[1..])
  }

  /** Registration of an element that has its own symbol: it is filed under
      that symbol exactly when it is Decryptable (resp. Gagnable), and becomes
      the default obstacle exactly when it is Defaut. */
  lemma {:induction false} InscrireAvecSymbole(r: Registre, e: Element, bases: seq<Base>)
    requires e.symboleCarte.Some?
    ensures Inscrire(r, e, bases).Success?
    ensures var s := e.symboleCarte.value;
      var r' := Inscrire(r, e, bases).value;
      && r'.transformees == r.transformees
      && r'.decryptable == (if Herite(bases, Decryptable) then r.decryptable[s := e] else r.decryptable)
      && r'.gagnable == (if Herite(bases, Gagnable) then r.gagnable[s := e] else r.gagnable)
      && r'.obstacleParDefaut == (if Herite(bases, Defaut) then Some(e) else r.obstacleParDefaut)
    decreases |bases|
  {
    if bases != [] {
      InscrireAvecSymbole(InscrireBase(r, e, bases[0]).value, e, bases[1..]);
      HeriteTete(bases);
    }
  }

  /** An element without a symbol of its own can only be created when no base
      asks for one; the maps are then untouched. */
  lemma {:induction false} InscrireSansSymbole(r: Registre, e: Element, bases: seq<Base>)
    requires e.symboleCarte.None?
    ensures Inscrire(r, e, bases).Success? <==> !Herite(bases, Decryptable) && !Herite(bases, Gagnable)
    ensures var r' := match Inscrire(r, e, bases) case Success(x) => x case Failure(x) => x;
      r'.decryptable == r.decryptable && r'.gagnable == r.gagnable && r'.transformees == r.transformees
    ensures Inscrire(r, e, bases).Success? ==>
      Inscrire(r, e, bases).value.obstacleParDefaut == (if Herite(bases, Defaut) then Some(e) else r.obstacleParDefaut)
    decreases |bases|
  {
    if bases != [] {
      match InscrireBase(r, e, bases[0])
      case None =>
      case Some(r1) => InscrireSansSymbole(r1, e, bases[1..]);
      HeriteTete(bases);
    }
  }

  /** `Elements.get_decryptable`: the element filed under the symbol, else the
      default obstacle (absent only before any Defaut class exists). */
  function Decoder(r: Registre, symbole: char): (e: Option<Element>)
    ensures symbole in r.decryptable ==> e == Some(r.decryptable[symbole])
    ensures symbole !in r.decryptable ==> e == r.obstacleParDefaut
  {
    if symbole in r.decryptable then Some(r.decryptable[symbole]) else r.obstacleParDefaut
  }

  /** `Elements.enlever`: the symbol is dropped from both maps, whether or not
      it was there. */
  function Oter(r: Registre, symbole: char): (r': Registre)
    ensures symbole !in r'.decryptable && symbole !in r'.gagnable
    ensures forall s :: s != symbole && s in r.decryptable ==> s in r'.decryptable && r'.decryptable[s] == r.decryptable[s]
    ensures forall s :: s in r'.decryptable ==> s in r.decryptable
    ensures forall s :: s != symbole && s in r.gagnable ==> s in r'.gagnable && r'.gagnable[s] == r.gagnable[s]
    ensures forall s :: s in r'.gagnable ==> s in r.gagnable
    ensures r'.obstacleParDefaut == r.obstacleParDefaut && r'.transformees == r.transformees
  {
    r.(decryptable := r.decryptable - {symbole}, gagnable := r.gagnable - {symbole})
  }

  /** After `enlever`, `get_decryptable` reads the symbol as the default
      obstacle and every other symbol as before; removing it again changes
      nothing. */
  lemma OterDecode(r: Registre, symbole: char)
    ensures Decoder(Oter(r, symbole), symbole) == r.obstacleParDefaut
    ensures forall s :: s != symbole ==> Decoder(Oter(r, symbole), s) == Decoder(r, s)
    ensures Oter(Oter(r, symbole), symbole) == Oter(r, symbole)
  {
  }

  // ----- the built-in elements -----

  const Porte := Element("Porte", Some('.'), ".", "la porte",
    [ElementGenerique, Mixin(Decrypte), Mixin(Traversable), DeFamille(Murable)])
  const Mur := Element("Mur", Some('O'), "O", "le mur",
    [ElementGenerique, Mixin(Decrypte), DeFamille(Percable)])
  const Sortie := Element("Sortie", Some('U'), "U", "la sortie",
    [ElementGenerique, Mixin(Decrypte), Mixin(Gagnable)])
  const Sol := Element("Sol", Some(' '), " ", "le terrain",
    [ElementGenerique, Mixin(Decryptable), Mixin(Defaut), Mixin(Demarrable)])
  const Robot := Element("Robot", None, "X", "", [ElementGenerique])
  const Adversaire := Element("Adversaire", None, "x", "", [ElementGenerique])

  /** `transformee` of an element: the binding of the family it inherits it
      from, if that family has one. */
  function Transformee(r: Registre, e: Element): Option<Element>
  {
    match PremiereFamille(e.bases)
    case None => None
    case Some(f) => if f in r.transformees then Some(r.transformees[f]) else None
  }

  /** The elements a maze can hold: the decodable ones, the default obstacle
      and every bound `transformee`. */
  ghost predicate Connu(r: Registre, e: Element)
  {
    e in r.decryptable.Values || r.obstacleParDefaut == Some(e) || e in r.transformees.Values
  }

  /** A registry a maze can run on: it has a default obstacle and every known
      Transformable element has a `transformee`. */
  ghost predicate Complet(r: Registre)
  {
    && r.obstacleParDefaut.Some?
    && forall e :: Connu(r, e) && EstTransformable(e) ==> Transformee(r, e).Some?
  }

  /** Every element the metaclass can return is a known one. */
  lemma DecoderConnu(r: Registre, symbole: char)
    requires Complet(r)
    ensures Decoder(r, symbole).Some? && Connu(r, Decoder(r, symbole).value)
  {
  }

  lemma TransformeeConnue(r: Registre, e: Element)
    requires Transformee(r, e).Some?
    ensures Connu(r, Transformee(r, e).value)
  {
  }

  // ----- capability inclusions -----

  lemma {:induction false} HeriteInclusions(bases: seq<Base>)
    ensures Herite(bases, Gagnable) ==> Herite(bases, Traversable) && Herite(bases, Decryptable)
    ensures Herite(bases, Demarrable) ==> Herite(bases, Traversable)
    ensures Herite(bases, Decrypte) ==> Herite(bases, Decryptable)
    ensures DeFamille(Murable) in bases || DeFamille(Percable) in bases ==> Herite(bases, Transformable)
  {
    if bases != [] {
      HeriteInclusions(bases[1..]);
      HeriteTete(bases);
      assert bases == [bases[0]] + bases[1..];
    }
  }

  /** Gagnable extends Traversable and Decryptable, Demarrable extends
      Traversable, Decrypte extends Decryptable, Murable and Percable are
      Transformable. */
  lemma Inclusions(e: Element)
    ensures EstGagnable(e) ==> EstTraversable(e) && EstDecryptable(e)
    ensures EstDemarrable(e) ==> EstTraversable(e)
    ensures EstDecrypte(e) ==> EstDecryptable(e)
    ensures EstDeFamille(e, Murable) || EstDeFamille(e, Percable) ==> EstTransformable(e)
  {
    HeriteInclusions(e.bases);
  }

  /** The metaclass state as a value. */
  class Elements {
    var decryptable: map<char, Element>
    var gagnable: map<char, Element>
    var obstacleParDefaut: Option<Element>
    var transformees: map<Famille, Element>

    function Etat(): Registre
      reads this
    {
      Registre(decryptable, gagnable, obstacleParDefaut, transformees)
    }

    constructor Vide()
      ensures Etat() == Registre(map[], map[], None, map[])
    {
      decryptable, gagnable, obstacleParDefaut, transformees := map[], map[], None, map[];
    }

    /** `Elements.__new__` for the class `e`: a loop over its bases; `ok` is
        false when a base needed the missing `symbole_carte` (KeyError). */
    method Enregistrer(e: Element) returns (ok: bool)
      modifies this
      ensures Inscrire(old(Etat()), e, e.bases) == (if ok then Success(Etat()) else Failure(Etat()))
    {
      var i := 0;
      ok := true;
      while i < |e.bases|
        invariant 0 <= i <= |e.bases|
        invariant Inscrire(old(Etat()), e, e.bases) == Inscrire(Etat(), e, e.bases[i..])
        invariant transformees == old(transformees)
      {
        var b := e.bases[i];
        assert e.bases[i..][1..] == e.bases[i + 1..];
        if (SousClasse(b, Decryptable) || SousClasse(b, Gagnable)) && e.symboleCarte.None? {
          ok := false;
          return;
        }
        if SousClasse(b, Decryptable) {
          decryptable := decryptable[e.symboleCarte.value := e];
        }
        if SousClasse(b, Gagnable) {
          gagnable := gagnable[e.symboleCarte.value := e];
        }
        if SousClasse(b, Defaut) {
          obstacleParDefaut := Some(e);
        }
        i := i + 1;
      }
    }

    /** `Elements.enlever`. */
    method Enlever(symbole: char)
      modifies this
      ensures Etat() == Oter(old(Etat()), symbole)
    {
      decryptable := decryptable - {symbole};
      gagnable := gagnable - {symbole};
    }

    /** `Elements.get_decryptable`. */
    function GetDecryptable(symbole: char): (e: Option<Element>)
      reads this
      ensures symbole in decryptable ==> e == Some(decryptable[symbole])
      ensures symbole !in decryptable ==> e == obstacleParDefaut
    {
      Decoder(Etat(), symbole)
    }

    /** Assignment of a family's `transformee` class attribute. */
    method Lier(f: Famille, e: Element)
      modifies this
      ensures Etat() == old(Etat()).(transformees := old(transformees)[f := e])
    {
      transformees := transformees[f := e];
    }

    /** Import of the element module: the built-in classes are created in
        source order, then `Murable.transformee = Mur` and
        `Percable.transformee = Porte`. */
    constructor Standard()
      ensures Etat() == RegistreStandard()
    {
      decryptable, gagnable, obstacleParDefaut, transformees := map[], map[], None, map[];
      new;
      CapacitesStandard();
      var r := Etat();
      var ok := Enregistrer(Porte);
      InscrireAvecSymbole(r, Porte, Porte.bases);
      r := Etat();
      ok := Enregistrer(Mur);
      InscrireAvecSymbole(r, Mur, Mur.bases);
      r := Etat();
      ok := Enregistrer(Sortie);
      InscrireAvecSymbole(r, Sortie, Sortie.bases);
      r := Etat();
      ok := Enregistrer(Sol);
      InscrireAvecSymbole(r, Sol, Sol.bases);
      r := Etat();
      ok := Enregistrer(Robot);
      InscrireSansSymbole(r, Robot, Robot.bases);
      r := Etat();
      ok := Enregistrer(Adversaire);
      InscrireSansSymbole(r, Adversaire, Adversaire.bases);
      Lier(Murable, Mur);
      Lier(Percable, Porte);
    }
  }

  /** The registry once the element module is imported. */
  function RegistreStandard(): Registre
  {
    Registre(
      map['.' := Porte, 'O' := Mur, 'U' := Sortie, ' ' := Sol],
      map['U' := Sortie],
      Some(Sol),
      map[Murable := Mur, Percable := Porte])
  }

  /** The built-in elements have the capabilities their bases give them:
      Porte is a traversable, murable grid cell. */
  lemma CapacitesPorte()
    ensures EstDecrypte(Porte) && EstDecryptable(Porte) && EstTraversable(Porte) && EstDeFamille(Porte, Murable)
    ensures !EstGagnable(Porte) && !EstDefaut(Porte) && !EstDemarrable(Porte)
  {
    assert Mixin(Decrypte) in Porte.bases && Mixin(Traversable) in Porte.bases;
  }

  /** Mur is a grid cell that blocks and can be pierced. */
  lemma CapacitesMur()
    ensures EstDecrypte(Mur) && EstDecryptable(Mur) && EstDeFamille(Mur, Percable)
    ensures !EstTraversable(Mur) && !EstGagnable(Mur) && !EstDefaut(Mur) && !EstDemarrable(Mur)
  {
    assert Mixin(Decrypte) in Mur.bases;
  }

  /** Sortie is a winning grid cell. */
  lemma CapacitesSortie()
    ensures EstDecrypte(Sortie) && EstDecryptable(Sortie) && EstGagnable(Sortie) && EstTraversable(Sortie)
  {
    assert Mixin(Decrypte) in Sortie.bases && Mixin(Gagnable) in Sortie.bases;
  }

  /** Sortie is neither a default, a start nor a transformable cell. */
  lemma SortieFixe()
    ensures !EstDefaut(Sortie) && !EstDemarrable(Sortie) && !EstTransformable(Sortie)
  {
  }

  /** Sol is the default obstacle, a start cell absent from the grid. */
  lemma CapacitesSol()
    ensures EstDecryptable(Sol) && EstDefaut(Sol) && EstDemarrable(Sol) && EstTraversable(Sol)
    ensures !EstDecrypte(Sol)
  {
    assert Mixin(Decryptable) in Sol.bases && Mixin(Defaut) in Sol.bases && Mixin(Demarrable) in Sol.bases;
  }

  /** Sol neither wins nor transforms. */
  lemma SolInerte()
    ensures !EstGagnable(Sol) && !EstTransformable(Sol)
  {
  }

  /** The player markers are not decodable. */
  lemma CapacitesMarqueurs()
    ensures !EstDecryptable(Robot) && !EstGagnable(Robot) && !EstDefaut(Robot)
    ensures !EstDecryptable(Adversaire) && !EstGagnable(Adversaire) && !EstDefaut(Adversaire)
  {
  }

  lemma CapacitesStandard()
    ensures EstDecrypte(Porte) && EstDecryptable(Porte) && EstTraversable(Porte) && EstDeFamille(Porte, Murable)
    ensures !EstGagnable(Porte) && !EstDefaut(Porte) && !EstDemarrable(Porte)
    ensures EstDecrypte(Mur) && EstDecryptable(Mur) && EstDeFamille(Mur, Percable)
    ensures !EstTraversable(Mur) && !EstGagnable(Mur) && !EstDefaut(Mur) && !EstDemarrable(Mur)
    ensures EstDecrypte(Sortie) && EstDecryptable(Sortie) && EstGagnable(Sortie) && EstTraversable(Sortie)
    ensures !EstDefaut(Sortie) && !EstDemarrable(Sortie) && !EstTransformable(Sortie)
    ensures EstDecryptable(Sol) && EstDefaut(Sol) && EstDemarrable(Sol) && EstTraversable(Sol)
    ensures !EstDecrypte(Sol) && !EstGagnable(Sol) && !EstTransformable(Sol)
    ensures !EstDecryptable(Robot) && !EstGagnable(Robot) && !EstDefaut(Robot)
    ensures !EstDecryptable(Adversaire) && !EstGagnable(Adversaire) && !EstDefaut(Adversaire)
  {
    CapacitesPorte();
    CapacitesMur();
    CapacitesSortie();
    SortieFixe();
    CapacitesSol();
    SolInerte();
    CapacitesMarqueurs();
  }

  /** Porte and Mur transform into each other. */
  lemma TransformeesStandard()
    ensures Transformee(RegistreStandard(), Porte) == Some(Mur)
    ensures Transformee(RegistreStandard(), Mur) == Some(Porte)
  {
    assert PremiereFamille(Porte.bases) == Some(Murable);
    assert PremiereFamille(Mur.bases) == Some(Percable);
  }

  lemma ConnusStandard(e: Element)
    requires Connu(RegistreStandard(), e)
    ensures e == Porte || e == Mur || e == Sortie || e == Sol
  {
    var r := RegistreStandard();
    if e in r.decryptable.Values {
      var k :| k in r.decryptable && r.decryptable[k] == e;
    } else if e in r.transformees.Values {
      var f :| f in r.transformees && r.transformees[f] == e;
    }
  }

  /** The standard registry can run a maze. */
  lemma CompletStandard()
    ensures Complet(RegistreStandard())
  {
    forall e | Connu(RegistreStandard(), e) && EstTransformable(e)
      ensures Transformee(RegistreStandard(), e).Some?
    {
      ConnusStandard(e);
      SortieFixe();
      SolInerte();
      TransformeesStandard();
    }
  }

  /** Decoding with the standard registry: the four symbols give their
      elements, every other character gives the ground. */
  lemma DecoderStandard(c: char)
    ensures Decoder(RegistreStandard(), c) == Some(
      if c == '.' then Porte else if c == 'O' then Mur else if c == 'U' then Sortie else Sol)
  {
  }
}
