// Reading a maze map (`Labyrinthe._creer_labyrinthe`): every character of
// every line is read upper-cased; a registered symbol gives its element, any
// other character gives the default obstacle and is recorded as unknown.
// Winning cells are listed as exits in reading order and only the `Decrypte`
// cells are stored in the sparse grid.

module Decodage {
  import opened Commun
  import opened Element
  import opened Texte

  /** `str.upper` restricted to ASCII letters. */
  function Majuscule(c: char): char
  {
    if 'a' <= c <= 'z' then (c as int - 32) as char else c
  }

  /** The element a map character stands for. */
  function Lire(r: Registre, defaut: Element, c: char): Element
  {
    var m := Majuscule(c);
    if m in r.decryptable then r.decryptable[m] else defaut
  }

  /** What reading a map produces: the grid, the exits and the unknown
      characters. */
  datatype Decodage = Decodage(grille: map<Coord, Element>, sorties: seq<Coord>, inconnus: set<char>)

  const Vierge := Decodage(map[], [], {})

  /** Reading the character `c` at position `p`. */
  function Case(d: Decodage, r: Registre, defaut: Element, c: char, p: Coord): Decodage
  {
    var e := Lire(r, defaut, c);
    Decodage(
      if EstDecrypte(e) then d.grille[p := e] else d.grille,
      if EstGagnable(e) then d.sorties + [p] else d.sorties,
      if Majuscule(c) in r.decryptable then d.inconnus else d.inconnus + {Majuscule(c)})
  }

  /** Reading line `y`, left to right, after `d`. */
  function DecoderLigne(d: Decodage, r: Registre, defaut: Element, ligne: string, y: int): Decodage
    decreases |ligne|
  {
    if ligne == [] then d
    else
      var x := |ligne| - 1;
      Case(DecoderLigne(d, r, defaut, ligne[..x], y), r, defaut, ligne[x], (x, y))
  }

  /** Reading the lines top to bottom. */
  function DecoderLignes(r: Registre, defaut: Element, lignes: seq<string>): Decodage
    decreases |lignes|
  {
    if lignes == [] then Vierge
    else
      var y := |lignes| - 1;
      DecoderLigne(DecoderLignes(r, defaut, lignes[..y]), r, defaut, lignes[y], y)
  }

  function Decoder(r: Registre, defaut: Element, chaine: string): Decodage
  {
    DecoderLignes(r, defaut, Lignes(chaine))
  }

  /** `_creer_labyrinthe`: both loops of the source, the abscissa inside the
      ordinate. */
  method CreerLabyrinthe(r: Registre, defaut: Element, chaine: string)
    returns (grille: map<Coord, Element>, sorties: seq<Coord>, inconnus: set<char>)
    ensures Decodage(grille, sorties, inconnus) == Decoder(r, defaut, chaine)
  {
    var lignes := Lignes(chaine);
    grille, sorties, inconnus := map[], [], {};
    var y := 0;
    while y < |lignes|
      invariant 0 <= y <= |lignes|
      invariant Decodage(grille, sorties, inconnus) == DecoderLignes(r, defaut, lignes[..y])
    {
      var ligne := lignes[y];
      var x := 0;
      while x < |ligne|
        invariant 0 <= x <= |ligne|
        invariant Decodage(grille, sorties, inconnus) == DecoderLigne(DecoderLignes(r, defaut, lignes[..y]), r, defaut, ligne[..x], y)
      {
        var m := Majuscule(ligne[x]);
        var obstacle: Element;
        if m in r.decryptable {
          obstacle := r.decryptable[m];
        } else {
          obstacle := defaut;
          inconnus := inconnus + {m};
        }
        if EstGagnable(obstacle) {
          sorties := sorties + [(x, y)];
        }
        if EstDecrypte(obstacle) {
          grille := grille[(x, y) := obstacle];
        }
        assert ligne[..x + 1][..x] == ligne[..x];
        x := x + 1;
      }
      assert ligne[..x] == ligne;
      assert lignes[..y + 1][..y] == lignes[..y];
      y := y + 1;
    }
    assert lignes[..y] == lignes;
  }

  // ----- what a decoding holds -----

  /** `p` is a character of the map. */
  predicate Dans(lignes: seq<string>, p: Coord)
  {
    0 <= p.1 < |lignes| && 0 <= p.0 < |lignes[p.1]|
  }

  function Lu(r: Registre, defaut: Element, lignes: seq<string>, p: Coord): Element
    requires Dans(lignes, p)
  {
    Lire(r, defaut, lignes[p.1][p.0])
  }

  /** Reading order: by line, then by column. */
  predicate Avant(a: Coord, b: Coord)
  {
    a.1 < b.1 || (a.1 == b.1 && a.0 < b.0)
  }

  predicate Croissant(s: seq<Coord>)
  {
    forall i, j :: 0 <= i < j < |s| ==> Avant(s[i], s[j])
  }

  /** The cells of the grid after one line: the cells of the line that
      decode to a `Decrypte` element are added, the others are kept. */
  lemma {:induction false} GrilleLigne(d: Decodage, r: Registre, defaut: Element, ligne: string, y: int)
    ensures forall p :: p in DecoderLigne(d, r, defaut, ligne, y).grille <==>
      p in d.grille || (p.1 == y && 0 <= p.0 < |ligne| && EstDecrypte(Lire(r, defaut, ligne[p.0])))
    decreases |ligne|
  {
    if ligne != [] {
      var x := |ligne| - 1;
      GrilleLigne(d, r, defaut, ligne[..x], y);
      forall k | 0 <= k < x ensures ligne[..x][k] == ligne[k] { }
    }
  }

  /** The contents of the grid after one line: a cell of the line holds the
      element read there, any other cell what it held before. */
  lemma {:induction false} GrilleLigneValeurs(d: Decodage, r: Registre, defaut: Element, ligne: string, y: int)
    ensures forall p :: p in DecoderLigne(d, r, defaut, ligne, y).grille ==>
      if p.1 == y && 0 <= p.0 < |ligne| && EstDecrypte(Lire(r, defaut, ligne[p.0]))
      then DecoderLigne(d, r, defaut, ligne, y).grille[p] == Lire(r, defaut, ligne[p.0])
      else p in d.grille && DecoderLigne(d, r, defaut, ligne, y).grille[p] == d.grille[p]
    decreases |ligne|
  {
    if ligne != [] {
      var x := |ligne| - 1;
      GrilleLigne(d, r, defaut, ligne[..x], y);
      GrilleLigneValeurs(d, r, defaut, ligne[..x], y);
      forall k | 0 <= k < x ensures ligne[..x][k] == ligne[k] { }
    }
  }

  /** The grid holds exactly the cells that decode to a `Decrypte` element. */
  lemma {:induction false} GrilleDecodee(r: Registre, defaut: Element, lignes: seq<string>)
    ensures forall p :: p in DecoderLignes(r, defaut, lignes).grille <==>
      Dans(lignes, p) && EstDecrypte(Lu(r, defaut, lignes, p))
    decreases |lignes|
  {
    if lignes != [] {
      var y := |lignes| - 1;
      GrilleDecodee(r, defaut, lignes[..y]);
      GrilleLigne(DecoderLignes(r, defaut, lignes[..y]), r, defaut, lignes[y], y);
      forall k | 0 <= k < y ensures lignes[..y][k] == lignes[k] { }
    }
  }

  /** Each cell of the grid holds the element read at that cell. */
  lemma {:induction false} GrilleValeurs(r: Registre, defaut: Element, lignes: seq<string>)
    ensures forall p :: p in DecoderLignes(r, defaut, lignes).grille ==>
      Dans(lignes, p) && DecoderLignes(r, defaut, lignes).grille[p] == Lu(r, defaut, lignes, p)
    decreases |lignes|
  {
    GrilleDecodee(r, defaut, lignes);
    if lignes != [] {
      var y := |lignes| - 1;
      GrilleDecodee(r, defaut, lignes[..y]);
      GrilleValeurs(r, defaut, lignes[..y]);
      GrilleLigneValeurs(DecoderLignes(r, defaut, lignes[..y]), r, defaut, lignes[y], y);
      forall k | 0 <= k < y ensures lignes[..y][k] == lignes[k] { }
    }
  }

  /** The exits found on one line, left to right. */
  function SortiesLigne(r: Registre, defaut: Element, ligne: string, y: int): seq<Coord>
    decreases |ligne|
  {
    if ligne == [] then []
    else
      var x := |ligne| - 1;
      SortiesLigne(r, defaut, ligne[..x], y) + if EstGagnable(Lire(r, defaut, ligne[x])) then [(x, y)] else []
  }

  lemma {:induction false} SortiesApresLigne(d: Decodage, r: Registre, defaut: Element, ligne: string, y: int)
    ensures DecoderLigne(d, r, defaut, ligne, y).sorties == d.sorties + SortiesLigne(r, defaut, ligne, y)
    decreases |ligne|
  {
    if ligne != [] {
      SortiesApresLigne(d, r, defaut, ligne[..|ligne| - 1], y);
    }
  }

  /** A line's exits are its `Gagnable` cells, in increasing column order. */
  lemma {:induction false} SortiesDeLaLigne(r: Registre, defaut: Element, ligne: string, y: int)
    ensures forall q :: q in SortiesLigne(r, defaut, ligne, y) <==>
      q.1 == y && 0 <= q.0 < |ligne| && EstGagnable(Lire(r, defaut, ligne[q.0]))
    ensures Croissant(SortiesLigne(r, defaut, ligne, y))
    decreases |ligne|
  {
    if ligne != [] {
      var x := |ligne| - 1;
      SortiesDeLaLigne(r, defaut, ligne[..x], y);
      forall k | 0 <= k < x ensures ligne[..x][k] == ligne[k] { }
      var a := SortiesLigne(r, defaut, ligne[..x], y);
      assert forall q :: q in a ==> q.1 == y && q.0 < x;
    }
  }

  /** The exits are exactly the `Gagnable` cells, listed in reading order. */
  lemma {:induction false} SortiesDecodees(r: Registre, defaut: Element, lignes: seq<string>)
    ensures forall q :: q in DecoderLignes(r, defaut, lignes).sorties <==>
      Dans(lignes, q) && EstGagnable(Lu(r, defaut, lignes, q))
    ensures Croissant(DecoderLignes(r, defaut, lignes).sorties)
    decreases |lignes|
  {
    if lignes != [] {
      var y := |lignes| - 1;
      var d := DecoderLignes(r, defaut, lignes[..y]);
      SortiesDecodees(r, defaut, lignes[..y]);
      SortiesApresLigne(d, r, defaut, lignes[y], y);
      SortiesDeLaLigne(r, defaut, lignes[y], y);
      forall k | 0 <= k < y ensures lignes[..y][k] == lignes[k] { }
      assert forall q :: q in d.sorties ==> q.1 < y;
    }
  }

  lemma {:induction false} InconnusApresLigne(d: Decodage, r: Registre, defaut: Element, ligne: string, y: int)
    ensures forall c :: c in DecoderLigne(d, r, defaut, ligne, y).inconnus <==>
      c in d.inconnus || (c !in r.decryptable && exists k :: 0 <= k < |ligne| && Majuscule(ligne[k]) == c)
    decreases |ligne|
  {
    if ligne != [] {
      var x := |ligne| - 1;
      InconnusApresLigne(d, r, defaut, ligne[..x], y);
      forall k | 0 <= k < x ensures ligne[..x][k] == ligne[k] { }
      forall c | c !in r.decryptable && (exists k :: 0 <= k < |ligne| && Majuscule(ligne[k]) == c)
        ensures c in DecoderLigne(d, r, defaut, ligne, y).inconnus
      {
        var k :| 0 <= k < |ligne| && Majuscule(ligne[k]) == c;
        if k < x {
          assert Majuscule(ligne[..x][k]) == c;
        }
      }
    }
  }

  /** The unknown characters are exactly the upper-cased map characters that
      are not registered symbols. */
  lemma {:induction false} InconnusDecodes(r: Registre, defaut: Element, lignes: seq<string>)
    ensures forall c :: c in DecoderLignes(r, defaut, lignes).inconnus <==>
      c !in r.decryptable && exists p :: Dans(lignes, p) && Majuscule(lignes[p.1][p.0]) == c
    decreases |lignes|
  {
    if lignes != [] {
      var y := |lignes| - 1;
      var d := DecoderLignes(r, defaut, lignes[..y]);
      InconnusDecodes(r, defaut, lignes[..y]);
      InconnusApresLigne(d, r, defaut, lignes[y], y);
      forall k | 0 <= k < y ensures lignes[..y][k] == lignes[k] { }
      forall c | c in DecoderLignes(r, defaut, lignes).inconnus
        ensures exists p :: Dans(lignes, p) && Majuscule(lignes[p.1][p.0]) == c
      {
        if c in d.inconnus {
          var p :| Dans(lignes[..y], p) && Majuscule(lignes[..y][p.1][p.0]) == c;
          assert Dans(lignes, p);
        } else {
          var k :| 0 <= k < |lignes[y]| && Majuscule(lignes[y][k]) == c;
          assert Dans(lignes, (k, y));
        }
      }
      forall c | c !in r.decryptable && (exists p :: Dans(lignes, p) && Majuscule(lignes[p.1][p.0]) == c)
        ensures c in DecoderLignes(r, defaut, lignes).inconnus
      {
        var p :| Dans(lignes, p) && Majuscule(lignes[p.1][p.0]) == c;
        if p.1 < y {
          assert Dans(lignes[..y], p) && Majuscule(lignes[..y][p.1][p.0]) == c;
        } else {
          assert 0 <= p.0 < |lignes[y]| && Majuscule(lignes[y][p.0]) == c;
        }
      }
    }
  }
}
