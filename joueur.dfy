// A player of the maze: who they are, where they stand and the commands they
// have queued.

module Joueurs {
  import opened Commun

  /** The network client a player belongs to. */
  type IdClient = nat

  class Joueur {
    const identifiantClient: IdClient
    const nom: string
    var coordonnees: Coord
    var commandes: seq<string>

    /** A new player stands at (0, 0) with no command queued. */
    constructor (identifiantClient: IdClient, nom: string)
      ensures this.identifiantClient == identifiantClient && this.nom == nom
      ensures coordonnees == (0, 0) && commandes == []
    {
      this.identifiantClient := identifiantClient;
      this.nom := nom;
      coordonnees := (0, 0);
      commandes := [];
    }

    /** `ajouter_commande`: the commands are queued at the tail, in order. */
    method AjouterCommande(saisie: seq<string>)
      modifies this`commandes
      ensures commandes == old(commandes) + saisie
    {
      commandes := commandes + saisie;
    }

    /** `retirer_commande`: the oldest command leaves the queue; on an empty
        queue `pop(0)` raises IndexError (`None`) and nothing changes. */
    method RetirerCommande() returns (c: Option<string>)
      modifies this`commandes
      ensures old(commandes) == [] ==> c == None && commandes == []
      ensures old(commandes) != [] ==> c == Some(old(commandes)[0]) && commandes == old(commandes)[1..]
    {
      if commandes == [] {
        c := None;
      } else {
        c := Some(commandes[0]);
        commandes := commandes[1..];
      }
    }
  }

  /** Commands queued one at a time come out in the order they went in. */
  method OrdreDesCommandes(j: Joueur, a: string, b: string) returns (premiere: Option<string>, seconde: Option<string>)
    requires j.commandes == []
    modifies j`commandes
    ensures premiere == Some(a) && seconde == Some(b) && j.commandes == []
  {
    j.AjouterCommande([a]);
    j.AjouterCommande([b]);
    premiere := j.RetirerCommande();
    seconde := j.RetirerCommande();
  }
}
