// The server's network side: the counter that numbers the players, the
// per-connection handler and the admission flag of the TCP server. A
// handler's thread is modelled as one sequential run over what its socket
// delivers; the sockets themselves are not modelled. A handler (and so a
// client of the maze) is identified by a number.

module InterfaceServeur {
  import opened Commun
  import opened Joueurs
  import opened Nombres
  import opened Messagerie

  /** `creer_un_compteur(n)`: a generator whose state is the next value. */
  class Compteur {
    var suivant: int

    constructor (nombreInitial: int)
      ensures suivant == nombreInitial
    {
      suivant := nombreInitial;
    }

    /** `next(compteur)`. */
    method Suivant() returns (n: int)
      modifies this
      ensures n == old(suivant) && suivant == n + 1
    {
      n := suivant;
      suivant := suivant + 1;
    }
  }

  /** `compter` starts at 1. */
  const PremierNumero: nat := 1

  /** Drawing k values gives k consecutive integers from the current one. */
  method Tirer(c: Compteur, k: nat) returns (ns: seq<int>)
    modifies c
    ensures |ns| == k && c.suivant == old(c.suivant) + k
    ensures forall i :: 0 <= i < k ==> ns[i] == old(c.suivant) + i
  {
    ns := [];
    while |ns| < k
      invariant |ns| <= k && c.suivant == old(c.suivant) + |ns|
      invariant forall i :: 0 <= i < |ns| ==> ns[i] == old(c.suivant) + i
    {
      var n := c.Suivant();
      ns := ns + [n];
    }
  }

  /** The name a handler gives its player. */
  function NomJoueur(n: nat): string
  {
    "Joueur " + Decimal(n)
  }

  /** Different numbers give different names. */
  lemma NomsDistincts(a: nat, b: nat)
    ensures NomJoueur(a) == NomJoueur(b) <==> a == b
  {
    if NomJoueur(a) == NomJoueur(b) {
      assert Decimal(a) == NomJoueur(a)[7..] == NomJoueur(b)[7..] == Decimal(b);
      DecimalInjectif(a, b);
    }
  }

  /** What a socket delivers to `recevoir`: a (category, message) pair of
      strings, a failure that `recevoir` reports as `TypeError` (an object
      that does not unpickle, or one that is not iterable), or a closed or
      failed connection. Other iterables are not modelled. */
  datatype Reception = Recu(categorie: string, message: string) | Indecodable | Coupure

  /** A post on the server's message queue: the handler, its player's name,
      the category and the message (`None` for the handler's own posts). */
  datatype Poste = Poste(emetteur: IdClient, nom: string, categorie: string, message: Option<string>)

  /** The posts `handle` makes: one per pair received, in order, skipping
      a reception that raised `TypeError`, up to the first connection
      failure. */
  function Relayes(g: IdClient, nom: string, rs: seq<Reception>): (ps: seq<Poste>)
    ensures |ps| <= |rs|
    ensures forall k :: 0 <= k < |ps| ==>
      ps[k].emetteur == g && ps[k].nom == nom && ps[k].message.Some?
      && Recu(ps[k].categorie, ps[k].message.value) in rs
  {
    if rs == [] then []
    else
      match rs[0]
      case Recu(c, m) =>
        var suite := Relayes(g, nom, rs[1..]);
        assert forall k :: 0 <= k < |suite| ==> suite[k] == ([Poste(g, nom, c, Some(m))] + suite)[k + 1];
        assert forall r :: r in rs[1..] ==> r in rs;
        [Poste(g, nom, c, Some(m))] + suite
      case Indecodable =>
        assert forall r :: r in rs[1..] ==> r in rs;
        Relayes(g, nom, rs[1..])
      case Coupure => []
  }

  /** Before any failure, the posts of a stream are those of its parts. */
  lemma {:induction false} RelayesConcat(g: IdClient, nom: string, a: seq<Reception>, b: seq<Reception>)
    requires Coupure !in a
    ensures Relayes(g, nom, a + b) == Relayes(g, nom, a) + Relayes(g, nom, b)
  {
    if a != [] {
      assert (a + b)[0] == a[0] && (a + b)[1..] == a[1..] + b;
      RelayesConcat(g, nom, a[1..], b);
    } else {
      assert a + b == b;
    }
  }

  /** Nothing after a failure is posted. */
  lemma RelayesCoupure(g: IdClient, nom: string, a: seq<Reception>, b: seq<Reception>)
    requires Coupure !in a
    ensures Relayes(g, nom, a + [Coupure] + b) == Relayes(g, nom, a)
  {
    RelayesConcat(g, nom, a, [Coupure] + b);
    assert a + [Coupure] + b == a + ([Coupure] + b);
  }

  /** One more reception before any failure adds at most its own post. */
  lemma RelayesPas(g: IdClient, nom: string, rs: seq<Reception>, i: nat)
    requires i < |rs| && Coupure !in rs[..i] && !rs[i].Coupure?
    ensures Coupure !in rs[..i + 1]
    ensures Relayes(g, nom, rs[..i + 1]) == Relayes(g, nom, rs[..i]) +
      if rs[i].Recu? then [Poste(g, nom, rs[i].categorie, Some(rs[i].message))] else []
  {
    RelayesConcat(g, nom, rs[..i], [rs[i]]);
    assert rs[..i + 1] == rs[..i] + [rs[i]];
  }

  /** `RequestHandler`: created with the next number of the counter. */
  class Gestionnaire {
    const identifiant: IdClient
    const nomJoueur: string

    /** `__init__`: the player's name comes from the shared counter. */
    constructor (identifiant: IdClient, compteur: Compteur)
      requires compteur.suivant >= 0
      modifies compteur
      ensures this.identifiant == identifiant
      ensures nomJoueur == NomJoueur(old(compteur.suivant)) && compteur.suivant == old(compteur.suivant) + 1
    {
      var n := compteur.Suivant();
      this.identifiant := identifiant;
      nomJoueur := NomJoueur(n);
    }

    /** `setup`: the main thread learns of a new player. */
    method Setup(bus: Messagerie<Poste>)
      modifies bus
      ensures bus.messages == old(bus.messages) + [Poste(identifiant, nomJoueur, "nouveau_joueur", None)]
    {
      bus.Ajouter(Poste(identifiant, nomJoueur, "nouveau_joueur", None));
    }

    /** `handle`: every pair received is posted with the handler, what is
        not a pair is skipped, and a connection failure ends the loop. The
        stream given ends where the connection closes. */
    method Handle(bus: Messagerie<Poste>, rs: seq<Reception>)
      modifies bus
      ensures bus.messages == old(bus.messages) + Relayes(identifiant, nomJoueur, rs)
    {
      var i := 0;
      while i < |rs|
        invariant i <= |rs| && Coupure !in rs[..i]
        invariant bus.messages == old(bus.messages) + Relayes(identifiant, nomJoueur, rs[..i])
      {
        if rs[i].Coupure? {
          RelayesCoupure(identifiant, nomJoueur, rs[..i], rs[i + 1..]);
          assert rs == rs[..i] + [Coupure] + rs[i + 1..];
          return;
        }
        RelayesPas(identifiant, nomJoueur, rs, i);
        if rs[i].Recu? {
          bus.Ajouter(Poste(identifiant, nomJoueur, rs[i].categorie, Some(rs[i].message)));
        }
        i := i + 1;
      }
      assert rs[..i] == rs;
    }

    /** `finish`: the main thread learns that the client left. */
    method Finish(bus: Messagerie<Poste>)
      modifies bus
      ensures bus.messages == old(bus.messages) + [Poste(identifiant, nomJoueur, "quitte", None)]
    {
      bus.Ajouter(Poste(identifiant, nomJoueur, "quitte", None));
    }

    /** A whole connection: the arrival, the relayed messages, the departure. */
    method Servir(bus: Messagerie<Poste>, rs: seq<Reception>)
      modifies bus
      ensures bus.messages == old(bus.messages) + [Poste(identifiant, nomJoueur, "nouveau_joueur", None)]
                              + Relayes(identifiant, nomJoueur, rs) + [Poste(identifiant, nomJoueur, "quitte", None)]
    {
      Setup(bus);
      Handle(bus, rs);
      Finish(bus);
    }
  }

  /** Handlers created one after the other from the counter get the names of
      consecutive numbers, pairwise distinct. */
  method Connecter(compteur: Compteur, identifiants: seq<IdClient>) returns (gs: seq<Gestionnaire>)
    requires compteur.suivant >= 0
    modifies compteur
    ensures |gs| == |identifiants| && compteur.suivant == old(compteur.suivant) + |gs|
    ensures forall i :: 0 <= i < |gs| ==>
      gs[i].identifiant == identifiants[i] && gs[i].nomJoueur == NomJoueur(old(compteur.suivant) + i)
    ensures forall i, j :: 0 <= i < j < |gs| ==> gs[i].nomJoueur != gs[j].nomJoueur
  {
    gs := [];
    while |gs| < |identifiants|
      invariant |gs| <= |identifiants| && compteur.suivant == old(compteur.suivant) + |gs|
      invariant forall i :: 0 <= i < |gs| ==>
        gs[i].identifiant == identifiants[i] && gs[i].nomJoueur == NomJoueur(old(compteur.suivant) + i)
    {
      var g := new Gestionnaire(identifiants[|gs|], compteur);
      gs := gs + [g];
    }
    forall i, j | 0 <= i < j < |gs| ensures gs[i].nomJoueur != gs[j].nomJoueur {
      NomsDistincts(old(compteur.suivant) + i, old(compteur.suivant) + j);
    }
  }

  /** `ThreadedTCPServer`: the admission flag. */
  class ServeurTCP {
    var connexionAutorisee: bool

    constructor ()
      ensures !connexionAutorisee
    {
      connexionAutorisee := false;
    }

    /** `verify_request`: a connection is accepted exactly while admission
        is open. */
    function VerifyRequest(): (accepte: bool)
      reads this
      ensures accepte <==> connexionAutorisee
    {
      connexionAutorisee
    }
  }
}
