// The list of map files offered to the server (`Dossier`): five parallel
// lists (paths, names, extensions, sizes, contents) kept in step while
// entries are filtered out by index. Walking the file system is not
// modelled: the files found are given, one record each.

module Dossier {
  import opened Commun

  datatype Erreur = FileNotFoundError | EOFError

  /** A file as the listing records it; `contenu` is the truth value of the
      object built from the file when a class is given, `None` otherwise. */
  datatype Fichier = Fichier(chemin: string, nom: string, extension: string, taille: nat, contenu: Option<bool>)

  predicate Vrai(contenu: Option<bool>)
  {
    contenu.Some? && contenu.value
  }

  /** The entries of `s` that `garde` keeps, in order. */
  function Filtre<T>(s: seq<T>, garde: T -> bool): (r: seq<T>)
    ensures |r| <= |s|
    ensures forall x :: x in r ==> x in s && garde(x)
  {
    if s == [] then [] else (if garde(s[0]) then [s[0]] else []) + Filtre(s[1..], garde)
  }

  /** The entries of `s` whose position, counted from `base`, is not in
      `retires`. */
  function Sauf<T>(s: seq<T>, retires: set<int>, base: int): (r: seq<T>)
    ensures |r| <= |s|
  {
    if s == [] then [] else (if base in retires then [] else [s[0]]) + Sauf(s[1..], retires, base + 1)
  }

  lemma {:induction false} SaufCoupe<T>(s: seq<T>, retires: set<int>, base: int, p: nat)
    requires p <= |s|
    ensures Sauf(s, retires, base) == Sauf(s[..p], retires, base) + Sauf(s[p..], retires, base + p)
  {
    if p > 0 {
      SaufCoupe(s[1..], retires, base + 1, p - 1);
      assert s[1..][..p - 1] == s[..p][1..];
      assert s[1..][p - 1..] == s[p..];
    } else {
      assert s[p..] == s;
    }
  }

  lemma {:induction false} SaufAccord<T>(s: seq<T>, a: set<int>, b: set<int>, base: int)
    requires forall k :: base <= k < base + |s| ==> (k in a <==> k in b)
    ensures Sauf(s, a, base) == Sauf(s, b, base)
  {
    if s != [] {
      SaufAccord(s[1..], a, b, base + 1);
    }
  }

  lemma {:induction false} SaufAucun<T>(s: seq<T>, retires: set<int>, base: int)
    requires forall k :: base <= k < base + |s| ==> k !in retires
    ensures Sauf(s, retires, base) == s
  {
    if s != [] {
      SaufAucun(s[1..], retires, base + 1);
      assert s == [s[0]] + s[1..];
    }
  }

  /** Deleting position `p`, below every position already deleted, deletes
      one more index. */
  lemma Supprimer<T>(s: seq<T>, retires: set<int>, p: nat)
    requires p < |s| && p !in retires && forall r :: r in retires ==> r > p
    ensures p < |Sauf(s, retires, 0)|
    ensures Sauf(s, retires, 0)[..p] + Sauf(s, retires, 0)[p + 1..] == Sauf(s, retires + {p}, 0)
  {
    var reste := Sauf(s[p + 1..], retires, p + 1);
    SaufCoupe(s, retires, 0, p);
    SaufAucun(s[..p], retires, 0);
    assert s[p..][1..] == s[p + 1..];
    assert Sauf(s[p..], retires, p) == [s[p]] + reste;
    SaufCoupe(s, retires + {p}, 0, p);
    SaufAucun(s[..p], retires + {p}, 0);
    SaufAccord(s[p + 1..], retires + {p}, retires, p + 1);
    assert Sauf(s[p..], retires + {p}, p) == reste;
    var r := Sauf(s, retires, 0);
    assert r == s[..p] + [s[p]] + reste;
    assert r[..p] == s[..p] && r[p + 1..] == reste;
  }

  /** Deleting the positions where `garde` fails is filtering by `garde`. */
  lemma {:induction false} SaufFiltre<T>(s: seq<T>, retires: set<int>, base: int, garde: T -> bool)
    requires forall k :: 0 <= k < |s| ==> (base + k in retires <==> !garde(s[k]))
    ensures Sauf(s, retires, base) == Filtre(s, garde)
  {
    if s != [] {
      assert base + 0 in retires <==> !garde(s[0]);
      forall k | 0 <= k < |s[1..]| ensures base + 1 + k in retires <==> !garde(s[1..][k]) {
        assert s[1..][k] == s[k + 1];
      }
      SaufFiltre(s[1..], retires, base + 1, garde);
    }
  }

  /** The positions where `garde` fails, in increasing order (the index
      lists built by the three filters). */
  method Ecartes<T>(s: seq<T>, garde: T -> bool) returns (indices: seq<int>)
    ensures forall i, j :: 0 <= i < j < |indices| ==> indices[i] < indices[j]
    ensures forall i :: 0 <= i < |indices| ==> 0 <= indices[i] < |s|
    ensures Ensemble(indices) == set k | 0 <= k < |s| && !garde(s[k])
  {
    indices := [];
    var i := 0;
    while i < |s|
      invariant 0 <= i <= |s|
      invariant forall a, b :: 0 <= a < b < |indices| ==> indices[a] < indices[b]
      invariant forall a :: 0 <= a < |indices| ==> 0 <= indices[a] < i
      invariant Ensemble(indices) == set k | 0 <= k < i && !garde(s[k])
    {
      ghost var avant := Ensemble(indices);
      assert (set k | 0 <= k < i + 1 && !garde(s[k])) ==
        (set k | 0 <= k < i && !garde(s[k])) + if !garde(s[i]) then {i} else {};
      if !garde(s[i]) {
        indices := indices + [i];
        assert Ensemble(indices) == avant + {i};
      }
      i := i + 1;
    }
  }

  /** What the three filters of the constructor leave, or the error the
      first one to leave nothing raises. */
  function Garder(fichiers: seq<Fichier>, extension: string, avecClasse: bool): (r: Result<seq<Fichier>, Erreur>)
  {
    var a := if extension != "" then Filtre(fichiers, (f: Fichier) => f.extension == extension) else fichiers;
    if extension != "" && a == [] then Failure(FileNotFoundError)
    else
      var b := Filtre(a, (f: Fichier) => f.taille != 0);
      if b == [] then Failure(EOFError)
      else
        var c := if avecClasse then Filtre(b, (f: Fichier) => Vrai(f.contenu)) else b;
        if c == [] then Failure(FileNotFoundError) else Success(c)
  }

  /** What is kept passes every filter that ran, and nothing is invented. */
  lemma GarderCorrect(fichiers: seq<Fichier>, extension: string, avecClasse: bool)
    requires Garder(fichiers, extension, avecClasse).Success?
    ensures var r := Garder(fichiers, extension, avecClasse).value;
      && r != []
      && forall f :: f in r ==>
        && f in fichiers && f.taille != 0
        && (extension != "" ==> f.extension == extension)
        && (avecClasse ==> Vrai(f.contenu))
  {
  }

  class Dossier {
    var chemins: seq<string>
    var noms: seq<string>
    var extensions: seq<string>
    var tailles: seq<nat>
    var contenus: seq<Option<bool>>
    /** The records the five lists describe, position by position. */
    ghost var entrees: seq<Fichier>

    ghost predicate Valide()
      reads this
    {
      && |chemins| == |entrees| && |noms| == |entrees| && |extensions| == |entrees|
      && |tailles| == |entrees| && |contenus| == |entrees|
      && forall k :: 0 <= k < |entrees| ==>
        entrees[k] == Fichier(chemins[k], noms[k], extensions[k], tailles[k], contenus[k])
    }

    /** The constructor on an empty path: nothing is listed. */
    constructor Vide()
      ensures Valide() && entrees == []
    {
      chemins, noms, extensions, tailles, contenus := [], [], [], [], [];
      entrees := [];
    }

    /** `__len__`: the number of files, whichever list is counted. */
    function Longueur(): (n: nat)
      reads this
      requires Valide()
      ensures n == |entrees| == |chemins| == |extensions| == |tailles| == |contenus|
    {
      |noms|
    }

    /** The bookkeeping of `__ajouter`: one file more at the end of every
        list. */
    method Ajouter(f: Fichier)
      requires Valide()
      modifies this
      ensures Valide() && entrees == old(entrees) + [f]
    {
      chemins := chemins + [f.chemin];
      noms := noms + [f.nom];
      extensions := extensions + [f.extension];
      tailles := tailles + [f.taille];
      contenus := contenus + [f.contenu];
      entrees := entrees + [f];
    }

    /** One `del` on every list: the entry at `indice` goes. */
    method Effacer(indice: nat)
      requires Valide() && indice < |entrees|
      modifies this
      ensures Valide() && entrees == old(entrees)[..indice] + old(entrees)[indice + 1..]
    {
      chemins := chemins[..indice] + chemins[indice + 1..];
      noms := noms[..indice] + noms[indice + 1..];
      extensions := extensions[..indice] + extensions[indice + 1..];
      tailles := tailles[..indice] + tailles[indice + 1..];
      contenus := contenus[..indice] + contenus[indice + 1..];
      entrees := entrees[..indice] + entrees[indice + 1..];
      forall k | 0 <= k < |entrees|
        ensures entrees[k] == Fichier(chemins[k], noms[k], extensions[k], tailles[k], contenus[k])
      {
        var m := if k < indice then k else k + 1;
        assert entrees[k] == old(entrees)[m];
        assert chemins[k] == old(chemins)[m] && noms[k] == old(noms)[m] && extensions[k] == old(extensions)[m];
        assert tailles[k] == old(tailles)[m] && contenus[k] == old(contenus)[m];
      }
    }

    /** `__enlever`: the positions of an increasing index list are deleted
        from every list, the last one first, so that the positions still to
        delete do not move. */
    method Enlever(indices: seq<int>)
      requires Valide()
      requires forall i, j :: 0 <= i < j < |indices| ==> indices[i] < indices[j]
      requires forall i :: 0 <= i < |indices| ==> 0 <= indices[i] < |entrees|
      modifies this
      ensures Valide() && entrees == Sauf(old(entrees), Ensemble(indices), 0)
    {
      SaufAucun(entrees, {}, 0);
      var j := |indices|;
      assert Ensemble(indices[j..]) == {};
      while j > 0
        invariant 0 <= j <= |indices|
        invariant Valide() && entrees == Sauf(old(entrees), Ensemble(indices[j..]), 0)
      {
        j := j - 1;
        var indice := indices[j];
        assert Ensemble(indices[j..]) == Ensemble(indices[j + 1..]) + {indice} by {
          assert indices[j..] == [indice] + indices[j + 1..];
        }
        ghost var retires := Ensemble(indices[j + 1..]);
        forall r | r in retires ensures r > indice {
          var m :| 0 <= m < |indices[j + 1..]| && indices[j + 1..][m] == r;
          assert indices[j + 1 + m] == r;
        }
        Supprimer(old(entrees), retires, indice);
        Effacer(indice);
      }
      assert indices[0..] == indices;
    }

    /** What the three filters share once their index list is built: the
        entries `garde` rejects are deleted, and nothing left is an error. */
    method Retenir(indices: seq<int>, ghost garde: Fichier -> bool, erreur: Erreur) returns (r: Option<Erreur>)
      requires Valide()
      requires forall i, j :: 0 <= i < j < |indices| ==> indices[i] < indices[j]
      requires forall i :: 0 <= i < |indices| ==> 0 <= indices[i] < |entrees|
      requires Ensemble(indices) == set k | 0 <= k < |entrees| && !garde(entrees[k])
      modifies this
      ensures Valide() && entrees == Filtre(old(entrees), garde)
      ensures r == if entrees == [] then Some(erreur) else None
    {
      if indices != [] {
        Enlever(indices);
      } else {
        assert Ensemble(indices) == {};
        SaufAucun(entrees, {}, 0);
      }
      forall k | 0 <= k < |old(entrees)| ensures 0 + k in Ensemble(indices) <==> !garde(old(entrees)[k]) {
        assert k in Ensemble(indices) <==> k in set k | 0 <= k < |old(entrees)| && !garde(old(entrees)[k]);
      }
      SaufFiltre(old(entrees), Ensemble(indices), 0, garde);
      r := if Longueur() == 0 then Some(erreur) else None;
    }

    /** `filtrer_extension`: only the files with that extension stay;
        FileNotFoundError when none does. */
    method FiltrerExtension(extension: string) returns (r: Option<Erreur>)
      requires Valide()
      modifies this
      ensures Valide() && entrees == Filtre(old(entrees), (f: Fichier) => f.extension == extension)
      ensures r == if entrees == [] then Some(FileNotFoundError) else None
    {
      var indices := Ecartes(extensions, (e: string) => e == extension);
      r := Retenir(indices, (f: Fichier) => f.extension == extension, FileNotFoundError);
    }

    /** `filtrer_fichiers_non_vide`: only the non-empty files stay; EOFError
        when none does. */
    method FiltrerFichiersNonVides() returns (r: Option<Erreur>)
      requires Valide()
      modifies this
      ensures Valide() && entrees == Filtre(old(entrees), (f: Fichier) => f.taille != 0)
      ensures r == if entrees == [] then Some(EOFError) else None
    {
      var indices := Ecartes(tailles, (t: nat) => t != 0);
      r := Retenir(indices, (f: Fichier) => f.taille != 0, EOFError);
    }

    /** `filtrer_contenus`: only the files whose content object is true stay;
        FileNotFoundError when none does. */
    method FiltrerContenus() returns (r: Option<Erreur>)
      requires Valide()
      modifies this
      ensures Valide() && entrees == Filtre(old(entrees), (f: Fichier) => Vrai(f.contenu))
      ensures r == if entrees == [] then Some(FileNotFoundError) else None
    {
      var indices := Ecartes(contenus, Vrai);
      r := Retenir(indices, (f: Fichier) => Vrai(f.contenu), FileNotFoundError);
    }

    /** `__init__` on a path: every file found is listed, then the extension
        filter (when an extension is given), the size filter and the content
        filter (when a class is given) run in that order; the first error
        stops the construction. */
    method Charger(fichiers: seq<Fichier>, extension: string, avecClasse: bool) returns (erreur: Option<Erreur>)
      requires Valide() && entrees == []
      modifies this
      ensures Valide()
      ensures erreur.None? <==> Garder(fichiers, extension, avecClasse).Success?
      ensures erreur.None? ==> entrees == Garder(fichiers, extension, avecClasse).value
      ensures erreur.Some? ==> erreur.value == Garder(fichiers, extension, avecClasse).error
    {
      var i := 0;
      while i < |fichiers|
        invariant 0 <= i <= |fichiers|
        invariant Valide() && entrees == fichiers[..i]
      {
        assert fichiers[..i + 1] == fichiers[..i] + [fichiers[i]];
        Ajouter(fichiers[i]);
        i := i + 1;
      }
      assert fichiers[..i] == fichiers;
      if extension != "" {
        erreur := FiltrerExtension(extension);
        if erreur.Some? {
          return;
        }
      }
      erreur := FiltrerFichiersNonVides();
      if erreur.Some? {
        return;
      }
      if avecClasse {
        erreur := FiltrerContenus();
      }
    }
  }
}
