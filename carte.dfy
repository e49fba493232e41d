// A maze map read from a file (`Carte`): once its line boundaries are
// dropped, the text must hold every obligatory symbol and nothing but known
// symbols. The file's content is given; reading it is not modelled.

module Carte {
  import opened Commun
  import opened Texte

  /** The test of `verifier_contenu`, on the text without its boundaries. */
  predicate ContenuValide(contenu: string, connus: set<char>, obligatoires: set<char>)
  {
    var caracteres := SansFins(contenu);
    && (forall o :: o in obligatoires ==> o in caracteres)
    && (forall k :: 0 <= k < |caracteres| ==> caracteres[k] in connus)
  }

  class Carte {
    /** `elements_connus` and `elements_obligatoires`, set on the class before
        any map is read. */
    const connus: set<char>
    const obligatoires: set<char>
    const contenu: string
    const nom: Option<string>
    var estValide: bool

    /** `__init__` once the file is read: the content is checked. */
    constructor (contenu: string, nom: Option<string>, connus: set<char>, obligatoires: set<char>)
      ensures this.contenu == contenu && this.nom == nom
      ensures this.connus == connus && this.obligatoires == obligatoires
      ensures estValide == ContenuValide(contenu, connus, obligatoires)
    {
      this.contenu := contenu;
      this.nom := nom;
      this.connus := connus;
      this.obligatoires := obligatoires;
      estValide := false;
      new;
      VerifierContenu();
    }

    /** `verifier_contenu`: the lines are joined, then each obligatory symbol
        is looked for and each character is looked up among the known ones;
        the first failure makes the map invalid. */
    method VerifierContenu()
      modifies this`estValide
      ensures estValide == ContenuValide(contenu, connus, obligatoires)
    {
      var lignes := Lignes(contenu);
      var caracteres: string := [];
      var i := 0;
      while i < |lignes|
        invariant 0 <= i <= |lignes|
        invariant caracteres == Joindre(lignes[..i])
      {
        assert lignes[..i + 1] == lignes[..i] + [lignes[i]];
        JoindreConcat(lignes[..i], [lignes[i]]);
        assert Joindre([lignes[i]]) == lignes[i] + Joindre([]);
        caracteres := caracteres + lignes[i];
        i := i + 1;
      }
      assert lignes[..i] == lignes;
      JoindreLignes(contenu);
      var ordre := Enumerer(obligatoires);
      var j := 0;
      while j < |ordre|
        invariant 0 <= j <= |ordre|
        invariant forall k :: 0 <= k < j ==> ordre[k] in caracteres
      {
        if ordre[j] !in caracteres {
          assert ordre[j] in Ensemble(ordre);
          estValide := false;
          return;
        }
        j := j + 1;
      }
      assert forall o :: o in obligatoires ==> o in caracteres by {
        forall o | o in obligatoires ensures o in caracteres {
          assert o in Ensemble(ordre);
          var k :| 0 <= k < |ordre| && ordre[k] == o;
        }
      }
      var k := 0;
      while k < |caracteres|
        invariant 0 <= k <= |caracteres|
        invariant forall m :: 0 <= m < k ==> caracteres[m] in connus
      {
        if caracteres[k] !in connus {
          estValide := false;
          return;
        }
        k := k + 1;
      }
      estValide := true;
    }

    /** The map's flag records whether its content was found valid. */
    predicate Valide()
      reads this`estValide
    {
      estValide == ContenuValide(contenu, connus, obligatoires)
    }

    /** `__bool__`: a map is true exactly when its content holds every
        obligatory symbol and only known ones. */
    predicate EstVraie(): (b: bool)
      reads this`estValide
      requires Valide()
      ensures b <==> ContenuValide(contenu, connus, obligatoires)
    {
      estValide
    }
  }

  /** Validity read on the raw text: every obligatory symbol occurs and is
      not a line boundary, and every character that is not a line boundary
      is known. */
  lemma ValiditeDuTexte(contenu: string, connus: set<char>, obligatoires: set<char>)
    ensures ContenuValide(contenu, connus, obligatoires) <==>
      && (forall o :: o in obligatoires ==> o in contenu && !EstFinDeLigne(o))
      && (forall c :: c in contenu && !EstFinDeLigne(c) ==> c in connus)
  {
    var caracteres := SansFins(contenu);
    forall c ensures c in caracteres <==> c in contenu && !EstFinDeLigne(c) {
      DansSansFins(contenu, c);
    }
  }

  /** Line boundaries never change the verdict: inserting or removing one
      anywhere in the text gives the same answer. */
  lemma FinDeLigneSansEffet(avant: string, fin: char, apres: string, connus: set<char>, obligatoires: set<char>)
    requires EstFinDeLigne(fin)
    ensures ContenuValide(avant + [fin] + apres, connus, obligatoires) == ContenuValide(avant + apres, connus, obligatoires)
  {
    SansFinsConcat(avant + [fin], apres);
    SansFinsConcat(avant, [fin]);
    SansFinsConcat(avant, apres);
    assert SansFins([fin]) == [];
    assert SansFins(avant + [fin]) == SansFins(avant) + [];
    assert SansFins(avant + [fin] + apres) == SansFins(avant + apres);
  }

  /** An empty map is valid iff nothing is obligatory. */
  lemma CarteVide(connus: set<char>, obligatoires: set<char>)
    ensures ContenuValide([], connus, obligatoires) <==> obligatoires == {}
  {
    if obligatoires != {} {
      var o :| o in obligatoires;
      assert o !in SansFins([]);
    }
  }
}
