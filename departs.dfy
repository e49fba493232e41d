// The size of the board (`Labyrinthe._dimensionner`) and the ranking of the
// start positions by distance from the exits
// (`Labyrinthe._determiner_departs`).

module Departs {
  import opened Commun
  import opened Element

  /** Lower-left and upper-right corners of a board. */
  type Boite = (Coord, Coord)

  predicate DansBoite(b: Boite, p: Coord)
  {
    b.0.0 <= p.0 <= b.1.0 && b.0.1 <= p.1 <= b.1.1
  }

  function Min(a: int, b: int): int { if a <= b then a else b }
  function Max(a: int, b: int): int { if a <= b then b else a }

  /** `_dimensionner` on a list of coordinates: the smallest and largest
      abscissa and ordinate, or ((0, 0), (0, 0)) for no coordinate. */
  function Bornes(cs: seq<Coord>): (b: Boite)
    ensures cs == [] ==> b == ((0, 0), (0, 0))
    ensures forall c :: c in cs ==> DansBoite(b, c)
    ensures cs != [] ==> exists c :: c in cs && c.0 == b.0.0
    ensures cs != [] ==> exists c :: c in cs && c.1 == b.0.1
    ensures cs != [] ==> exists c :: c in cs && c.0 == b.1.0
    ensures cs != [] ==> exists c :: c in cs && c.1 == b.1.1
  {
    if cs == [] then ((0, 0), (0, 0))
    else if |cs| == 1 then (cs[0], cs[0])
    else
      var r := Bornes(cs[1..]);
      assert cs == [cs[0]] + cs[1..];
      assert forall c :: c in cs[1..] ==> c in cs;
      ((Min(cs[0].0, r.0.0), Min(cs[0].1, r.0.1)), (Max(cs[0].0, r.1.0), Max(cs[0].1, r.1.1)))
  }

  /** Any box that holds every coordinate contains the computed one: it is the
      smallest. */
  lemma BornesMinimales(cs: seq<Coord>, b: Boite)
    requires cs != [] && forall c :: c in cs ==> DansBoite(b, c)
    ensures b.0.0 <= Bornes(cs).0.0 && b.0.1 <= Bornes(cs).0.1
    ensures Bornes(cs).1.0 <= b.1.0 && Bornes(cs).1.1 <= b.1.1
  {
    var m := Bornes(cs);
    var c0 :| c0 in cs && c0.0 == m.0.0;
    var c1 :| c1 in cs && c1.1 == m.0.1;
    var c2 :| c2 in cs && c2.0 == m.1.0;
    var c3 :| c3 in cs && c3.1 == m.1.1;
  }

  /** `b` is the bounding box of the set `s`: it holds every point, each of
      its four bounds is reached by a point, and an empty set has the box
      ((0, 0), (0, 0)). */
  ghost predicate Cadre(s: set<Coord>, b: Boite)
  {
    && (s == {} ==> b == ((0, 0), (0, 0)))
    && (forall p :: p in s ==> DansBoite(b, p))
    && (s != {} ==>
         && (exists p :: p in s && p.0 == b.0.0) && (exists p :: p in s && p.1 == b.0.1)
         && (exists p :: p in s && p.0 == b.1.0) && (exists p :: p in s && p.1 == b.1.1))
  }

  /** `Bornes` gives the bounding box of the listed points. */
  lemma BornesCadre(cs: seq<Coord>)
    ensures Cadre(Ensemble(cs), Bornes(cs))
  {
    if cs != [] {
      assert cs[0] in Ensemble(cs);
    }
  }

  /** A set has one bounding box: the order in which the points are listed
      does not change the board's size. */
  lemma CadreUnique(s: set<Coord>, b: Boite, c: Boite)
    requires Cadre(s, b) && Cadre(s, c)
    ensures b == c
  {
    if s != {} {
      var p0 :| p0 in s && p0.0 == b.0.0;
      var p1 :| p1 in s && p1.1 == b.0.1;
      var p2 :| p2 in s && p2.0 == b.1.0;
      var p3 :| p3 in s && p3.1 == b.1.1;
      var q0 :| q0 in s && q0.0 == c.0.0;
      var q1 :| q1 in s && q1.1 == c.0.1;
      var q2 :| q2 in s && q2.0 == c.1.0;
      var q3 :| q3 in s && q3.1 == c.1.1;
      assert DansBoite(c, p0) && DansBoite(c, p1) && DansBoite(c, p2) && DansBoite(c, p3);
      assert DansBoite(b, q0) && DansBoite(b, q1) && DansBoite(b, q2) && DansBoite(b, q3);
    }
  }

  /** The element at a position: the grid's, or the default obstacle. */
  function Terrain(grille: map<Coord, Element>, defaut: Element, p: Coord): Element
  {
    if p in grille then grille[p] else defaut
  }

  /** The cells of a box. */
  ghost function Cases(b: Boite): set<Coord>
  {
    set x: int, y: int | b.0.0 <= x <= b.1.0 && b.0.1 <= y <= b.1.1 :: (x, y)
  }

  lemma CardinalStrict<T>(a: set<T>, b: set<T>, x: T)
    requires a <= b && x in b && x !in a
    ensures |a| < |b|
  {
    assert b == a + (b - a);
    assert x in b - a;
  }

  lemma CardinalInclus<T>(a: set<T>, b: set<T>)
    requires a <= b
    ensures |a| <= |b|
  {
    assert b == a + (b - a);
  }

  /** How far from an exit a cell is reached through a cell of this kind: one
      step through a start or a passable cell, two through a cell whose
      transform is passable (it must be transformed first), none otherwise. */
  function Pas(r: Registre, terrain: Element): (n: nat)
    ensures n <= 2
  {
    if EstDemarrable(terrain) || EstTraversable(terrain) then 1
    else if EstTransformable(terrain) && Transformee(r, terrain).Some? && EstTraversable(Transformee(r, terrain).value) then 2
    else 0
  }

  /** The cell one step back from `p` along the direction `v`. */
  function Recul(p: Coord, v: Coord): Coord
  {
    (p.0 - v.0, p.1 - v.1)
  }

  /** `apres` keeps every cell of `avant` at its distance. */
  predicate Prolonge(avant: map<Coord, int>, apres: map<Coord, int>)
  {
    avant.Keys <= apres.Keys && forall p :: p in avant ==> apres[p] == avant[p]
  }

  /** `p` was reached from a neighbour: one step back along one of the
      directions is a reached cell whose distance is `p`'s less the step
      into `p`. */
  ghost predicate Provient(positions: map<Coord, int>, p: Coord, directions: seq<Coord>,
                           grille: map<Coord, Element>, defaut: Element, r: Registre)
  {
    && p in positions
    && exists k :: 0 <= k < |directions| && Recul(p, directions[k]) in positions
         && positions[p] == positions[Recul(p, directions[k])] + Pas(r, Terrain(grille, defaut, p))
  }

  /** From the reached cell `q`, every neighbour inside the board that can
      be entered has been reached, and no neighbour is farther than `q` plus
      the step into it. */
  ghost predicate Voisinage(positions: map<Coord, int>, q: Coord, directions: seq<Coord>,
                            grille: map<Coord, Element>, defaut: Element, r: Registre, boite: Boite)
  {
    && q in positions
    && forall k :: 0 <= k < |directions| ==>
         && ((DansBoite(boite, Ajouter(q, directions[k])) && Pas(r, Terrain(grille, defaut, Ajouter(q, directions[k]))) > 0)
               ==> Ajouter(q, directions[k]) in positions)
         && (Ajouter(q, directions[k]) in positions ==>
               positions[Ajouter(q, directions[k])] <= positions[q] + Pas(r, Terrain(grille, defaut, Ajouter(q, directions[k]))))
  }

  /** While layer `rang` is explored, no cell has been reached farther than
      one step beyond it. */
  predicate Plafond(positions: map<Coord, int>, rang: int, grille: map<Coord, Element>, defaut: Element, r: Registre)
  {
    forall p :: p in positions ==> positions[p] <= rang + Pas(r, Terrain(grille, defaut, p))
  }

  /** Keeping the reached cells at their distances keeps their provenance. */
  lemma ProvientProlonge(avant: map<Coord, int>, apres: map<Coord, int>, directions: seq<Coord>,
                         grille: map<Coord, Element>, defaut: Element, r: Registre)
    requires Prolonge(avant, apres)
    ensures forall p :: Provient(avant, p, directions, grille, defaut, r) ==> Provient(apres, p, directions, grille, defaut, r)
  {
    forall p | Provient(avant, p, directions, grille, defaut, r)
      ensures Provient(apres, p, directions, grille, defaut, r)
    {
      var k :| 0 <= k < |directions| && Recul(p, directions[k]) in avant
        && avant[p] == avant[Recul(p, directions[k])] + Pas(r, Terrain(grille, defaut, p));
      assert Recul(p, directions[k]) in apres;
    }
  }

  /** Reaching only cells of the board that can be entered keeps the
      neighbourhood of an explored cell as it was. */
  lemma VoisinageProlonge(avant: map<Coord, int>, apres: map<Coord, int>, directions: seq<Coord>,
                          grille: map<Coord, Element>, defaut: Element, r: Registre, boite: Boite)
    requires Prolonge(avant, apres)
    requires forall p :: p in apres && p !in avant ==> DansBoite(boite, p) && Pas(r, Terrain(grille, defaut, p)) > 0
    ensures forall q :: Voisinage(avant, q, directions, grille, defaut, r, boite) ==> Voisinage(apres, q, directions, grille, defaut, r, boite)
  {
    forall q, k | Voisinage(avant, q, directions, grille, defaut, r, boite) && 0 <= k < |directions|
      ensures Ajouter(q, directions[k]) in apres ==> Ajouter(q, directions[k]) in avant
    {
    }
  }

  /** The starts of the current layer: distinct, at distance `rang + 1`,
      start cells inside the board. */
  predicate Bande(bande: seq<Coord>, positions: map<Coord, int>, rang: int,
                  grille: map<Coord, Element>, defaut: Element, boite: Boite)
  {
    && Distinct(bande)
    && forall b :: b in bande ==>
         b in positions && positions[b] == rang + 1 && EstDemarrable(Terrain(grille, defaut, b)) && DansBoite(boite, b)
  }

  /** The innermost loop of `_determiner_departs`: the neighbours of one
      cell of layer `rang`. A neighbour inside the board and not reached yet
      is recorded at its distance, and appended to the layer's starts when it
      is a start cell. */
  method Explorer(position: Coord, directions: seq<Coord>, grille: map<Coord, Element>, defaut: Element,
                  r: Registre, boite: Boite, rang: int, positions: map<Coord, int>, bande: seq<Coord>)
    returns (positions': map<Coord, int>, bande': seq<Coord>)
    requires position in positions && positions[position] == rang
    requires Plafond(positions, rang, grille, defaut, r)
    requires Bande(bande, positions, rang, grille, defaut, boite)
    ensures Prolonge(positions, positions')
    ensures forall p :: p in positions' && p !in positions ==>
      && DansBoite(boite, p) && Pas(r, Terrain(grille, defaut, p)) > 0
      && positions'[p] == rang + Pas(r, Terrain(grille, defaut, p))
    ensures forall p {:trigger Provient(positions', p, directions, grille, defaut, r)} :: p in positions' && p !in positions ==>
      Provient(positions', p, directions, grille, defaut, r)
    ensures forall p :: p in positions' && p !in positions && EstDemarrable(Terrain(grille, defaut, p)) ==> p in bande'
    ensures Plafond(positions', rang, grille, defaut, r)
    ensures Voisinage(positions', position, directions, grille, defaut, r, boite)
    ensures Bande(bande', positions', rang, grille, defaut, boite)
    ensures forall b :: b in bande ==> b in bande'
  {
    positions', bande' := positions, bande;
    for k := 0 to |directions|
      invariant Prolonge(positions, positions')
      invariant forall p :: p in positions' && p !in positions ==>
        && DansBoite(boite, p) && Pas(r, Terrain(grille, defaut, p)) > 0
        && positions'[p] == rang + Pas(r, Terrain(grille, defaut, p))
      invariant forall p {:trigger Provient(positions', p, directions, grille, defaut, r)} :: p in positions' && p !in positions ==>
        Provient(positions', p, directions, grille, defaut, r)
      invariant forall p :: p in positions' && p !in positions && EstDemarrable(Terrain(grille, defaut, p)) ==> p in bande'
      invariant forall j :: (0 <= j < k && DansBoite(boite, Ajouter(position, directions[j]))
        && Pas(r, Terrain(grille, defaut, Ajouter(position, directions[j]))) > 0) ==> Ajouter(position, directions[j]) in positions'
      invariant Bande(bande', positions', rang, grille, defaut, boite)
      invariant forall b :: b in bande ==> b in bande'
    {
      var c := Ajouter(position, directions[k]);
      if DansBoite(boite, c) && c !in positions' {
        var terrain := Terrain(grille, defaut, c);
        var pas := Pas(r, terrain);
        if pas > 0 {
          ghost var avant := positions';
          positions' := positions'[c := rang + pas];
          ProvientProlonge(avant, positions', directions, grille, defaut, r);
          assert Recul(c, directions[k]) == position;
          if EstDemarrable(terrain) {
            bande' := bande' + [c];
          }
        }
      }
    }
  }

  /** The cells reached while layer `rang` is explored, beyond those of
      `avant`: inside the board, enterable, one or two steps farther than the
      layer, and each reached from a neighbour. */
  ghost predicate Nouvelles(avant: map<Coord, int>, apres: map<Coord, int>, rang: int, directions: seq<Coord>,
                            grille: map<Coord, Element>, defaut: Element, r: Registre, boite: Boite)
  {
    && Prolonge(avant, apres)
    && (forall p :: p in apres && p !in avant ==>
          DansBoite(boite, p) && Pas(r, Terrain(grille, defaut, p)) > 0 && rang + 1 <= apres[p] <= rang + 2)
    && (forall p {:trigger Provient(apres, p, directions, grille, defaut, r)} :: p in apres && p !in avant ==>
          Provient(apres, p, directions, grille, defaut, r))
  }

  /** Every start cell reached beyond `avant` is among the layer's starts. */
  predicate Levees(avant: map<Coord, int>, apres: map<Coord, int>, bande: seq<Coord>,
                   grille: map<Coord, Element>, defaut: Element)
  {
    forall p :: p in apres && p !in avant && EstDemarrable(Terrain(grille, defaut, p)) ==> p in bande
  }

  /** Exploring one more cell of the layer keeps what is known of the cells
      reached during the layer. */
  lemma CoucheEtape(positions: map<Coord, int>, avant: map<Coord, int>, apres: map<Coord, int>,
                    bande: seq<Coord>, bande': seq<Coord>, rang: int, directions: seq<Coord>,
                    grille: map<Coord, Element>, defaut: Element, r: Registre, boite: Boite)
    requires Nouvelles(positions, avant, rang, directions, grille, defaut, r, boite)
    requires Levees(positions, avant, bande, grille, defaut)
    requires Prolonge(avant, apres)
    requires forall p :: p in apres && p !in avant ==>
      && DansBoite(boite, p) && Pas(r, Terrain(grille, defaut, p)) > 0
      && apres[p] == rang + Pas(r, Terrain(grille, defaut, p))
    requires forall p {:trigger Provient(apres, p, directions, grille, defaut, r)} :: p in apres && p !in avant ==>
      Provient(apres, p, directions, grille, defaut, r)
    requires forall p :: p in apres && p !in avant && EstDemarrable(Terrain(grille, defaut, p)) ==> p in bande'
    requires forall b :: b in bande ==> b in bande'
    ensures Nouvelles(positions, apres, rang, directions, grille, defaut, r, boite)
    ensures Levees(positions, apres, bande', grille, defaut)
    ensures forall q :: Voisinage(avant, q, directions, grille, defaut, r, boite) ==> Voisinage(apres, q, directions, grille, defaut, r, boite)
  {
    ProvientProlonge(avant, apres, directions, grille, defaut, r);
    VoisinageProlonge(avant, apres, directions, grille, defaut, r, boite);
  }

  /** One layer of `_determiner_departs`: the neighbours of every cell at
      distance `rang`, in the dictionary's order. */
  method ParcourirCouche(positions: map<Coord, int>, rang: int, directions: seq<Coord>, grille: map<Coord, Element>,
                         defaut: Element, r: Registre, boite: Boite)
    returns (positions': map<Coord, int>, bande: seq<Coord>)
    requires Plafond(positions, rang, grille, defaut, r)
    ensures Nouvelles(positions, positions', rang, directions, grille, defaut, r, boite)
    ensures Levees(positions, positions', bande, grille, defaut)
    ensures Plafond(positions', rang, grille, defaut, r)
    ensures forall q :: q in positions && positions[q] == rang ==> Voisinage(positions', q, directions, grille, defaut, r, boite)
    ensures Bande(bande, positions', rang, grille, defaut, boite)
  {
    positions', bande := positions, [];
    var aTester := set p | p in positions && positions[p] == rang;
    while aTester != {}
      invariant Nouvelles(positions, positions', rang, directions, grille, defaut, r, boite)
      invariant Levees(positions, positions', bande, grille, defaut)
      invariant Plafond(positions', rang, grille, defaut, r)
      invariant forall q :: q in aTester ==> q in positions && positions[q] == rang
      invariant forall q :: q in positions && positions[q] == rang && q !in aTester ==>
        Voisinage(positions', q, directions, grille, defaut, r, boite)
      invariant Bande(bande, positions', rang, grille, defaut, boite)
      decreases |aTester|
    {
      var position :| position in aTester;
      aTester := aTester - {position};
      ghost var avant, bandeAvant := positions', bande;
      positions', bande := Explorer(position, directions, grille, defaut, r, boite, rang, positions', bande);
      CoucheEtape(positions, avant, positions', bandeAvant, bande, rang, directions, grille, defaut, r, boite);
    }
  }

  /** A layer that reaches a new cell of the board leaves fewer cells to
      reach. */
  lemma Progres(boite: Boite, avant: set<Coord>, apres: set<Coord>)
    requires avant <= apres && forall p :: p in apres - avant ==> DansBoite(boite, p)
    ensures apres - avant != {} ==> |Cases(boite) - apres| < |Cases(boite) - avant|
    ensures apres - avant == {} ==> apres == avant
  {
    if apres - avant != {} {
      var w :| w in apres - avant;
      assert w in Cases(boite) by { assert (w.0, w.1) == w; }
      CardinalStrict(Cases(boite) - apres, Cases(boite) - avant, w);
    } else {
      forall p | p in apres ensures p in avant {
        assert p !in apres - avant;
      }
    }
  }
  /** What is known of the starts found so far. */
  predicate Trouves(departs: seq<Coord>, positions: map<Coord, int>, rang: int,
                    grille: map<Coord, Element>, defaut: Element, boite: Boite)
  {
    && Distinct(departs)
    && (forall d :: d in departs ==> d in positions && 1 <= positions[d] <= rang)
    && (forall d :: d in departs ==> EstDemarrable(Terrain(grille, defaut, d)) && DansBoite(boite, d))
    && (forall i, j :: 0 <= i < j < |departs| ==> positions[departs[i]] <= positions[departs[j]])
  }

  /** Appending a shuffled layer keeps the starts distinct and ordered by
      distance: every earlier start is nearer than the layer. */
  lemma Allonger(departs: seq<Coord>, bande: seq<Coord>, melange: seq<Coord>, avant: map<Coord, int>,
                 positions: map<Coord, int>, rang: int, grille: map<Coord, Element>, defaut: Element, boite: Boite)
    requires Trouves(departs, avant, rang, grille, defaut, boite)
    requires avant.Keys <= positions.Keys && forall p :: p in avant ==> positions[p] == avant[p]
    requires Bande(bande, positions, rang, grille, defaut, boite)
    requires multiset(melange) == multiset(bande) && rang >= 0
    ensures Trouves(departs + melange, positions, rang + 1, grille, defaut, boite)
  {
    DistinctPermutation(bande, melange);
    forall b | b in melange ensures b in bande {
      assert multiset(melange)[b] > 0;
    }
    var s := departs + melange;
    forall d | d in s ensures d in positions && 1 <= positions[d] <= rang + 1 {
      if d in departs {
        assert d in avant && positions[d] == avant[d];
      } else {
        assert d in melange;
      }
    }
    forall i, j | 0 <= i < j < |s| ensures s[i] != s[j] && positions[s[i]] <= positions[s[j]] {
      if j < |departs| {
      } else if i >= |departs| {
        assert s[i] == melange[i - |departs|] && s[j] == melange[j - |departs|];
      } else {
        assert s[j] == melange[j - |departs|];
        assert s[j] in bande;
      }
    }
  }


  /** What is known of the reached cells before layer `rang`: every cell
      but the exits lies inside the board, can be entered, was reached from a
      neighbour and at most one step beyond an explored layer; every cell of
      an explored layer has its neighbourhood settled. */
  ghost predicate Atteintes(positions: map<Coord, int>, sorties: seq<Coord>, rang: int, directions: seq<Coord>,
                            grille: map<Coord, Element>, defaut: Element, r: Registre, boite: Boite)
  {
    && (forall p :: p in positions && p !in sorties ==>
          && DansBoite(boite, p) && Pas(r, Terrain(grille, defaut, p)) > 0
          && positions[p] < rang + Pas(r, Terrain(grille, defaut, p)))
    && (forall p {:trigger Provient(positions, p, directions, grille, defaut, r)} :: p in positions && p !in sorties ==>
          Provient(positions, p, directions, grille, defaut, r))
    && (forall q {:trigger Voisinage(positions, q, directions, grille, defaut, r, boite)} :: q in positions && positions[q] < rang ==>
          Voisinage(positions, q, directions, grille, defaut, r, boite))
  }

  /** Every start cell reached, other than an exit, is listed. */
  predicate Complets(positions: map<Coord, int>, sorties: seq<Coord>, departs: seq<Coord>,
                     grille: map<Coord, Element>, defaut: Element)
  {
    forall p :: p in positions && p !in sorties && EstDemarrable(Terrain(grille, defaut, p)) ==> p in departs
  }

  /** Exploring layer `rang` settles it and keeps what is known of the
      reached cells. */
  lemma RechercheEtape(avant: map<Coord, int>, apres: map<Coord, int>, sorties: seq<Coord>, rang: int,
                       directions: seq<Coord>, grille: map<Coord, Element>, defaut: Element, r: Registre, boite: Boite)
    requires forall s :: s in sorties ==> s in avant
    requires Atteintes(avant, sorties, rang, directions, grille, defaut, r, boite)
    requires Nouvelles(avant, apres, rang, directions, grille, defaut, r, boite)
    requires Plafond(apres, rang, grille, defaut, r)
    requires forall q :: q in avant && avant[q] == rang ==> Voisinage(apres, q, directions, grille, defaut, r, boite)
    ensures Atteintes(apres, sorties, rang + 1, directions, grille, defaut, r, boite)
  {
    ProvientProlonge(avant, apres, directions, grille, defaut, r);
    VoisinageProlonge(avant, apres, directions, grille, defaut, r, boite);
  }

  /** Appending the shuffled layer lists every start cell reached. */
  lemma CompletsEtape(avant: map<Coord, int>, apres: map<Coord, int>, sorties: seq<Coord>, departs: seq<Coord>,
                      bande: seq<Coord>, melange: seq<Coord>, grille: map<Coord, Element>, defaut: Element)
    requires Complets(avant, sorties, departs, grille, defaut)
    requires Levees(avant, apres, bande, grille, defaut)
    requires multiset(melange) == multiset(bande)
    ensures Complets(apres, sorties, departs + melange, grille, defaut)
  {
    forall p | p in bande ensures p in melange {
      assert multiset(bande)[p] > 0;
    }
  }

  /** The state of `_determiner_departs` before layer `rang`. */
  ghost predicate Recherche(positions: map<Coord, int>, departs: seq<Coord>, rang: int, hauteur: int, sorties: seq<Coord>,
                            directions: seq<Coord>, grille: map<Coord, Element>, defaut: Element, r: Registre, boite: Boite)
  {
    && rang >= 0
    && (forall s :: s in sorties ==> s in positions && positions[s] == 0)
    && (forall p :: p in positions ==> 0 <= positions[p] <= hauteur)
    && Trouves(departs, positions, rang, grille, defaut, boite)
    && Atteintes(positions, sorties, rang, directions, grille, defaut, r, boite)
    && Complets(positions, sorties, departs, grille, defaut)
  }

  /** Exploring layer `rang` and appending its shuffled starts leads to the
      state before layer `rang + 1`. */
  lemma RechercheSuivante(avant: map<Coord, int>, apres: map<Coord, int>, departs: seq<Coord>, bande: seq<Coord>,
                          melange: seq<Coord>, rang: int, hauteur: int, hauteur': int, sorties: seq<Coord>,
                          directions: seq<Coord>, grille: map<Coord, Element>, defaut: Element, r: Registre, boite: Boite)
    requires Recherche(avant, departs, rang, hauteur, sorties, directions, grille, defaut, r, boite)
    requires Nouvelles(avant, apres, rang, directions, grille, defaut, r, boite)
    requires Levees(avant, apres, bande, grille, defaut)
    requires Plafond(apres, rang, grille, defaut, r)
    requires forall q :: q in avant && avant[q] == rang ==> Voisinage(apres, q, directions, grille, defaut, r, boite)
    requires Bande(bande, apres, rang, grille, defaut, boite)
    requires multiset(melange) == multiset(bande)
    requires hauteur' == if apres.Keys != avant.Keys then Max(hauteur, rang + 2) else hauteur
    ensures Recherche(apres, departs + melange, rang + 1, hauteur', sorties, directions, grille, defaut, r, boite)
  {
    RechercheEtape(avant, apres, sorties, rang, directions, grille, defaut, r, boite);
    Allonger(departs, bande, melange, avant, apres, rang, grille, defaut, boite);
    CompletsEtape(avant, apres, sorties, departs, bande, melange, grille, defaut);
    forall p | p in apres ensures 0 <= apres[p] <= hauteur' {
      if p !in avant {
        assert apres.Keys != avant.Keys;
      }
    }
  }

  /** Before the first layer, only the exits are reached, at 0. */
  lemma RechercheInitiale(sorties: seq<Coord>, directions: seq<Coord>, grille: map<Coord, Element>, defaut: Element,
                          r: Registre, boite: Boite)
    ensures Recherche(map s | s in sorties :: 0, [], 0, 0, sorties, directions, grille, defaut, r, boite)
  {
  }

  /** Once no cell lies at or beyond layer `rang`, every reached cell has
      been explored. */
  lemma RechercheFinie(positions: map<Coord, int>, departs: seq<Coord>, rang: int, hauteur: int, sorties: seq<Coord>,
                       directions: seq<Coord>, grille: map<Coord, Element>, defaut: Element, r: Registre, boite: Boite)
    requires Recherche(positions, departs, rang, hauteur, sorties, directions, grille, defaut, r, boite)
    requires forall p :: p in positions ==> positions[p] < rang
    ensures Classement(grille, sorties, defaut, r, directions, boite, departs, positions)
  {
  }

  /** One pass of the outer loop of `_determiner_departs`: layer `rang` is
      explored and its starts, shuffled, are appended. Either a new cell of
      the board is reached or no cell is. */
  method Avancer(positions: map<Coord, int>, departs: seq<Coord>, rang: int, ghost hauteur: int, sorties: seq<Coord>,
                 directions: seq<Coord>, grille: map<Coord, Element>, defaut: Element, r: Registre, boite: Boite)
    returns (positions': map<Coord, int>, departs': seq<Coord>, ghost hauteur': int)
    requires Recherche(positions, departs, rang, hauteur, sorties, directions, grille, defaut, r, boite)
    ensures Recherche(positions', departs', rang + 1, hauteur', sorties, directions, grille, defaut, r, boite)
    ensures positions.Keys <= positions'.Keys
    ensures positions'.Keys != positions.Keys ==> |Cases(boite) - positions'.Keys| < |Cases(boite) - positions.Keys|
    ensures positions'.Keys == positions.Keys ==> hauteur' == hauteur
  {
    var bande;
    positions', bande := ParcourirCouche(positions, rang, directions, grille, defaut, r, boite);
    var melange := Melanger(bande);
    departs' := departs + melange;
    hauteur' := if positions'.Keys != positions.Keys then Max(hauteur, rang + 2) else hauteur;
    RechercheSuivante(positions, positions', departs, bande, melange, rang, hauteur, hauteur', sorties, directions, grille, defaut, r, boite);
    Progres(boite, positions.Keys, positions'.Keys);
  }

  /** `_determiner_departs`: a search by layers of equal distance from the
      exits, inside the board. A start cell is recorded when it is reached;
      each layer's starts are shuffled and appended. The directions are
      `Mouvement.directions`, in the set's iteration order. The ghost map
      `distance` holds every reached cell with its distance from the exits
      (`PlusCourt` and `CheminVers` show it is the cost of a cheapest walk). */
  method DeterminerDeparts(grille: map<Coord, Element>, sorties: seq<Coord>, defaut: Element, r: Registre,
                           directions: seq<Coord>, boite: Boite)
    returns (departs: seq<Coord>, ghost distance: map<Coord, int>)
    ensures Classement(grille, sorties, defaut, r, directions, boite, departs, distance)
  {
    var positions: map<Coord, int> := map s | s in sorties :: 0;
    departs := [];
    var rang := 0;
    ghost var hauteur := 0;
    RechercheInitiale(sorties, directions, grille, defaut, r, boite);
    while exists p :: p in positions && positions[p] >= rang
      invariant Recherche(positions, departs, rang, hauteur, sorties, directions, grille, defaut, r, boite)
      decreases |Cases(boite) - positions.Keys|, hauteur - rang
    {
      positions, departs, hauteur := Avancer(positions, departs, rang, hauteur, sorties, directions, grille, defaut, r, boite);
      rang := rang + 1;
    }
    distance := positions;
    RechercheFinie(distance, departs, rang, hauteur, sorties, directions, grille, defaut, r, boite);
  }

  /** What `_determiner_departs` leaves: the starts, distinct start cells
      of the board that are not exits, listed by non-decreasing distance; the
      exits at distance 0; every other reached cell inside the board,
      enterable, and reached from a neighbour; every reached cell with all
      its enterable neighbours reached and none farther than one step; every
      reached start cell listed. */
  ghost predicate Classement(grille: map<Coord, Element>, sorties: seq<Coord>, defaut: Element, r: Registre,
                             directions: seq<Coord>, boite: Boite, departs: seq<Coord>, distance: map<Coord, int>)
  {
    && Distinct(departs)
    && (forall d :: d in departs ==> EstDemarrable(Terrain(grille, defaut, d)) && DansBoite(boite, d) && d !in sorties)
    && (forall s :: s in sorties ==> s in distance && distance[s] == 0)
    && (forall p :: p in distance ==> distance[p] >= 0)
    && (forall d :: d in departs ==> d in distance && distance[d] >= 1)
    && (forall i, j :: 0 <= i < j < |departs| ==> distance[departs[i]] <= distance[departs[j]])
    && (forall p :: p in distance && p !in sorties ==> DansBoite(boite, p) && Pas(r, Terrain(grille, defaut, p)) > 0)
    && (forall p {:trigger Provient(distance, p, directions, grille, defaut, r)} :: p in distance && p !in sorties ==>
          Provient(distance, p, directions, grille, defaut, r))
    && (forall q {:trigger Voisinage(distance, q, directions, grille, defaut, r, boite)} :: q in distance ==>
          Voisinage(distance, q, directions, grille, defaut, r, boite))
    && (forall p :: p in distance && p !in sorties && EstDemarrable(Terrain(grille, defaut, p)) ==> p in departs)
  }

  /** `b` is one of the directions away from `a`. */
  ghost predicate Voisins(a: Coord, b: Coord, directions: seq<Coord>)
  {
    exists k :: 0 <= k < |directions| && b == Ajouter(a, directions[k])
  }

  /** A walk from an exit: each cell one direction away from the previous
      one, and every cell after the exit inside the board and enterable. */
  ghost predicate Chemin(c: seq<Coord>, sorties: seq<Coord>, directions: seq<Coord>,
                         grille: map<Coord, Element>, defaut: Element, r: Registre, boite: Boite)
  {
    && |c| >= 1 && c[0] in sorties
    && (forall i :: 1 <= i < |c| ==> DansBoite(boite, c[i]) && Pas(r, Terrain(grille, defaut, c[i])) > 0)
    && (forall i, j :: 0 <= i && j == i + 1 && j < |c| ==> Voisins(c[i], c[j], directions))
  }

  /** The cost of a walk: the steps into every cell after the first. */
  ghost function Cout(c: seq<Coord>, grille: map<Coord, Element>, defaut: Element, r: Registre): int
  {
    if |c| <= 1 then 0 else Cout(c[..|c| - 1], grille, defaut, r) + Pas(r, Terrain(grille, defaut, c[|c| - 1]))
  }

  /** A walk extended by an enterable neighbour of its end, inside the
      board, is a walk that costs the step into the neighbour more. */
  lemma Prolonger(c: seq<Coord>, p: Coord, sorties: seq<Coord>, directions: seq<Coord>,
                  grille: map<Coord, Element>, defaut: Element, r: Registre, boite: Boite)
    returns (c': seq<Coord>)
    requires Chemin(c, sorties, directions, grille, defaut, r, boite)
    requires Voisins(c[|c| - 1], p, directions) && DansBoite(boite, p) && Pas(r, Terrain(grille, defaut, p)) > 0
    ensures c' == c + [p]
    ensures Chemin(c', sorties, directions, grille, defaut, r, boite)
    ensures Cout(c', grille, defaut, r) == Cout(c, grille, defaut, r) + Pas(r, Terrain(grille, defaut, p))
  {
    c' := c + [p];
    assert c'[..|c'| - 1] == c;
    forall i, j | 0 <= i && j == i + 1 && j < |c'| ensures Voisins(c'[i], c'[j], directions) {
      if j < |c'| - 1 {
        assert c'[i] == c[i] && c'[j] == c[j];
      }
    }
  }

  /** No walk from an exit is cheaper than the recorded distance of its end,
      and its end has been reached. */
  lemma {:induction false} PlusCourt(grille: map<Coord, Element>, sorties: seq<Coord>, defaut: Element, r: Registre,
                                     directions: seq<Coord>, boite: Boite, departs: seq<Coord>, distance: map<Coord, int>,
                                     c: seq<Coord>)
    requires Classement(grille, sorties, defaut, r, directions, boite, departs, distance)
    requires Chemin(c, sorties, directions, grille, defaut, r, boite)
    ensures c[|c| - 1] in distance && distance[c[|c| - 1]] <= Cout(c, grille, defaut, r)
  {
    if |c| > 1 {
      var debut := c[..|c| - 1];
      assert Chemin(debut, sorties, directions, grille, defaut, r, boite) by {
        forall i, j | 0 <= i && j == i + 1 && j < |debut| ensures Voisins(debut[i], debut[j], directions) {
          assert debut[i] == c[i] && debut[j] == c[j];
        }
      }
      PlusCourt(grille, sorties, defaut, r, directions, boite, departs, distance, debut);
      var q := c[|c| - 2];
      assert q == debut[|debut| - 1];
      assert Voisins(c[|c| - 2], c[|c| - 1], directions);
      var k :| 0 <= k < |directions| && c[|c| - 1] == Ajouter(q, directions[k]);
      assert Voisinage(distance, q, directions, grille, defaut, r, boite);
    }
  }

  /** Every reached cell ends a walk from an exit whose cost is its
      distance. */
  lemma {:induction false} CheminVers(grille: map<Coord, Element>, sorties: seq<Coord>, defaut: Element, r: Registre,
                                      directions: seq<Coord>, boite: Boite, departs: seq<Coord>, distance: map<Coord, int>,
                                      p: Coord)
    returns (c: seq<Coord>)
    requires Classement(grille, sorties, defaut, r, directions, boite, departs, distance)
    requires p in distance
    ensures Chemin(c, sorties, directions, grille, defaut, r, boite)
    ensures c[|c| - 1] == p && Cout(c, grille, defaut, r) == distance[p]
    decreases distance[p]
  {
    if p in sorties {
      c := [p];
    } else {
      assert Provient(distance, p, directions, grille, defaut, r);
      var k :| 0 <= k < |directions| && Recul(p, directions[k]) in distance
        && distance[p] == distance[Recul(p, directions[k])] + Pas(r, Terrain(grille, defaut, p));
      var q := Recul(p, directions[k]);
      var debut := CheminVers(grille, sorties, defaut, r, directions, boite, departs, distance, q);
      assert p == Ajouter(q, directions[k]);
      c := Prolonger(debut, p, sorties, directions, grille, defaut, r, boite);
    }
  }
}
