// The maze a game is played on: the decoded grid, the start cells, the
// players in turn order, the turn loop that applies the rules, and the queue
// of messages for the network clients.
//
// Two revisions of the class exist. The library one queues its messages in
// `datagrammes`; the older one, at the top of the repository, returns them
// from generators (`accueillir`, `demarrer`, `jouer`, `terminer`). The members
// ending in `Racine` model the older revision where it differs.

module Labyrinthe {
  import opened Commun
  import opened Element
  import opened Controle
  import opened Regle
  import opened Joueurs
  import opened D = Decodage
  import opened Departs

  const DebutDePartie: int := 0
  const JeuEnCours: int := 1
  const FinDePartie: int := 2

  /** What the maze takes from the rest of the program: the element registry,
      the key bindings, the movement vectors in their set's iteration order,
      the control descriptions, the input pattern, and the iteration order of
      each rule set. */
  datatype Contexte = Contexte(
    registre: Registre,
    touches: map<char, Controle>,
    directions: seq<Coord>,
    descriptions: seq<string>,
    motif: Motif,
    ordreMouvement: seq<Regle>,
    ordreTransformation: seq<Regle>)

  /** A context a maze can run in: a default obstacle exists, the input
      pattern is the one fixed at import, and the two rule orders list exactly
      the movement and the transformation rules. */
  predicate Bon(ctx: Contexte)
  {
    && ctx.registre.obstacleParDefaut.Some?
    && ctx.motif == MotifValidation()
    && Enumere(ctx.ordreMouvement, ReglesMouvement)
    && Enumere(ctx.ordreTransformation, ReglesTransformation)
  }

  function DefautDe(ctx: Contexte): Element
    requires ctx.registre.obstacleParDefaut.Some?
  {
    ctx.registre.obstacleParDefaut.value
  }

  // ----- messages -----

  datatype Categorie = Affichage | ValidationSchema | ValidationErreur | Fin

  /** The content of a message; `Plateau` stands for the text drawing of the
      board, `Vide` for the empty line. */
  datatype Message =
    | Vide
    | Bienvenue(joueur: string)
    | NomDuLabyrinthe(labyrinthe: string)
    | Plateau
    | PartieCommence(nombre: nat)
    | Description(texte: string)
    | AVousDeJouer
    | ADeJouer(joueur: string)
    | AQuitte(joueur: string)
    | CommandesAjoutees(commandes: seq<string>)
    | Violation(raison: Raison)
    | VousAvezGagne
    | AGagne(joueur: string)
    | MotifDeValidation(motif: Motif)
    | SaisieInvalide
    | ErreurDeSaisie
    | Invite(touche: char)
    | Aucun

  datatype Datagramme = Datagramme(client: IdClient, categorie: Categorie, message: Message)

  /** One message to each client, in the dictionary's order. */
  function Diffuser(clients: seq<IdClient>, m: Message): (ds: seq<Datagramme>)
    ensures |ds| == |clients|
    ensures forall i :: 0 <= i < |clients| ==> ds[i] == Datagramme(clients[i], Affichage, m)
  {
    if clients == [] then [] else [Datagramme(clients[0], Affichage, m)] + Diffuser(clients[1..], m)
  }

  /** `afficher_plateau`: each client receives the board, then an empty line. */
  function Plateaux(clients: seq<IdClient>): seq<Datagramme>
  {
    if clients == [] then []
    else [Datagramme(clients[0], Affichage, Plateau), Datagramme(clients[0], Affichage, Vide)] + Plateaux(clients[1..])
  }

  /** `a_qui_de_jouer` while a game is on: the player whose turn it is reads
      that it is theirs, every other one reads that player's name. */
  function Annonces(clients: seq<IdClient>, joueurs: map<IdClient, Joueur>, premier: Joueur): (ds: seq<Datagramme>)
    requires forall c :: c in clients ==> c in joueurs
    ensures |ds| == |clients|
    ensures forall i :: 0 <= i < |clients| ==>
      ds[i] == Datagramme(clients[i], Affichage, if joueurs[clients[i]] == premier then AVousDeJouer else ADeJouer(premier.nom))
  {
    if clients == [] then []
    else
      var m := if joueurs[clients[0]] == premier then AVousDeJouer else ADeJouer(premier.nom);
      [Datagramme(clients[0], Affichage, m)] + Annonces(clients[1..], joueurs, premier)
  }

  function Descriptions(c: IdClient, descriptions: seq<string>): seq<Datagramme>
  {
    if descriptions == [] then []
    else [Datagramme(c, Affichage, Description(descriptions[0]))] + Descriptions(c, descriptions[1..])
  }

  /** The opening of `demarrer`: the input pattern, the message for a refused
      input, the number of players and the control descriptions, client by
      client. */
  function Ouverture(clients: seq<IdClient>, motif: Motif, nombre: nat, descriptions: seq<string>): seq<Datagramme>
  {
    if clients == [] then []
    else
      var c := clients[0];
      [Datagramme(c, ValidationSchema, MotifDeValidation(motif)), Datagramme(c, ValidationErreur, SaisieInvalide),
       Datagramme(c, Affichage, PartieCommence(nombre))]
      + Descriptions(c, descriptions) + Ouverture(clients[1..], motif, nombre, descriptions)
  }

  /** `demarrer` of the older revision: the opening, the board and whose turn
      it is, client by client. */
  function OuvertureRacine(clients: seq<IdClient>, nombre: nat, descriptions: seq<string>, premier: string): seq<Datagramme>
  {
    if clients == [] then []
    else
      var c := clients[0];
      [Datagramme(c, Affichage, PartieCommence(nombre))] + Descriptions(c, descriptions)
      + [Datagramme(c, Affichage, Plateau), Datagramme(c, Affichage, Vide), Datagramme(c, Affichage, ADeJouer(premier))]
      + OuvertureRacine(clients[1..], nombre, descriptions, premier)
  }

  /** The board after a move in the older revision, with whose turn it is
      while the game goes on. */
  function PlateauxRacine(clients: seq<IdClient>, enCours: bool, premier: string): seq<Datagramme>
  {
    if clients == [] then []
    else
      [Datagramme(clients[0], Affichage, Plateau), Datagramme(clients[0], Affichage, Vide)]
      + (if enCours then [Datagramme(clients[0], Affichage, ADeJouer(premier))] else [])
      + PlateauxRacine(clients[1..], enCours, premier)
  }

  /** What one client reads at the end: who won, when someone did. */
  function Resultat(c: IdClient, j: Joueur, vainqueur: Option<Joueur>): seq<Datagramme>
  {
    if vainqueur == Some(j) then [Datagramme(c, Affichage, VousAvezGagne)]
    else if vainqueur.Some? then [Datagramme(c, Affichage, AGagne(vainqueur.value.nom))]
    else []
  }

  /** `terminer`: the result for each client, followed in the library revision
      by the end-of-game datagram. */
  function Resultats(clients: seq<IdClient>, joueurs: map<IdClient, Joueur>, vainqueur: Option<Joueur>, avecFin: bool): seq<Datagramme>
    requires forall c :: c in clients ==> c in joueurs
  {
    if clients == [] then []
    else
      Resultat(clients[0], joueurs[clients[0]], vainqueur) + (if avecFin then [Datagramme(clients[0], Fin, Aucun)] else [])
      + Resultats(clients[1..], joueurs, vainqueur, avecFin)
  }

  /** Only the winner's client is told they won, every other one reads the
      winner's name; every datagram goes to a listed client, and without the
      end-of-game datagram all of them are display messages. */
  lemma {:induction false} ResultatsVainqueur(clients: seq<IdClient>, joueurs: map<IdClient, Joueur>, vainqueur: Option<Joueur>, avecFin: bool)
    requires forall c :: c in clients ==> c in joueurs
    ensures forall d :: d in Resultats(clients, joueurs, vainqueur, avecFin) ==> d.client in clients
    ensures !avecFin ==> forall d :: d in Resultats(clients, joueurs, vainqueur, avecFin) ==> d.categorie == Affichage
    ensures forall d :: d in Resultats(clients, joueurs, vainqueur, avecFin) && d.message == VousAvezGagne ==>
      vainqueur == Some(joueurs[d.client])
    ensures forall d :: d in Resultats(clients, joueurs, vainqueur, avecFin) && d.message.AGagne? ==>
      vainqueur.Some? && vainqueur != Some(joueurs[d.client]) && d.message.joueur == vainqueur.value.nom
  {
    if clients != [] {
      ResultatsVainqueur(clients[1..], joueurs, vainqueur, avecFin);
      var tete := Resultat(clients[0], joueurs[clients[0]], vainqueur) + (if avecFin then [Datagramme(clients[0], Fin, Aucun)] else []);
      var reste := Resultats(clients[1..], joueurs, vainqueur, avecFin);
      assert Resultats(clients, joueurs, vainqueur, avecFin) == tete + reste;
      assert forall d :: d in tete ==> d.client == clients[0];
      assert forall c :: c in clients[1..] ==> c in clients;
    }
  }

  /** With no winner, each client gets the end-of-game datagram alone in the
      library revision, and nothing in the older one. */
  lemma {:induction false} ResultatsSansVainqueur(clients: seq<IdClient>, joueurs: map<IdClient, Joueur>, avecFin: bool)
    requires forall c :: c in clients ==> c in joueurs
    ensures Resultats(clients, joueurs, None, avecFin) == if avecFin then FinPourTous(clients) else []
  {
    if clients != [] {
      ResultatsSansVainqueur(clients[1..], joueurs, avecFin);
    }
  }

  function FinPourTous(clients: seq<IdClient>): seq<Datagramme>
  {
    if clients == [] then [] else [Datagramme(clients[0], Fin, Aucun)] + FinPourTous(clients[1..])
  }

  // ----- one turn -----

  /** What ends the server's main thread with an exception: while a turn is
      played, `pop(0)` on an empty player list, a key `obtenir_controle`
      cannot find, or a binding of the wrong kind; and the `KeyError` of
      `effacer_joueur` or `ajouter_commande` for a client without a player. */
  datatype Anomalie = RosterVide | CommandeInconnue(erreur: Erreur) | ActionIncompatible | ClientInconnu

  /** The outcome of one step of `jouer`: the player at the head has no
      command left, their command broke a rule, their command was played, or
      an exception ended the loop. */
  datatype Coup =
    | Arret
    | Refus(joueur: Joueur, etat: Etat, raison: Raison)
    | Joue(joueur: Joueur, commande: string, etat: Etat, issue: Issue)
    | Echec(anomalie: Anomalie)

  /** One pass of `jouer`'s loop that reached the clients: the step and, when
      it played a command and the game goes on, the player whose turn comes
      next. */
  datatype Passe = Passe(coup: Coup, suivant: Option<Joueur>)

  /** What one pass tells the clients: the broken rule's reason to the
      refused player, or the board to everyone followed, while the game goes
      on, by whose turn it is. */
  function Publication(clients: seq<IdClient>, joueurs: map<IdClient, Joueur>, p: Passe): seq<Datagramme>
    requires forall c :: c in clients ==> c in joueurs
  {
    match p.coup
    case Refus(j, _, raison) => [Datagramme(j.identifiantClient, Affichage, Violation(raison))]
    case Joue(_, _, _, _) => Plateaux(clients) + (if p.suivant.Some? then Annonces(clients, joueurs, p.suivant.value) else [])
    case _ => []
  }

  /** The messages of a run of passes, in order. */
  function Publications(clients: seq<IdClient>, joueurs: map<IdClient, Joueur>, pas: seq<Passe>): seq<Datagramme>
    requires forall c :: c in clients ==> c in joueurs
  {
    if pas == [] then []
    else Publications(clients, joueurs, pas[..|pas| - 1]) + Publication(clients, joueurs, pas[|pas| - 1])
  }

  /** The same pass in the older revision: the board comes with the next
      player's name while the game goes on. */
  function PublicationRacine(clients: seq<IdClient>, p: Passe): seq<Datagramme>
  {
    match p.coup
    case Refus(j, _, raison) => [Datagramme(j.identifiantClient, Affichage, Violation(raison))]
    case Joue(_, _, _, _) =>
      if p.suivant.Some? then PlateauxRacine(clients, true, p.suivant.value.nom) else PlateauxRacine(clients, false, "")
    case _ => []
  }

  function PublicationsRacine(clients: seq<IdClient>, pas: seq<Passe>): seq<Datagramme>
  {
    if pas == [] then []
    else PublicationsRacine(clients, pas[..|pas| - 1]) + PublicationRacine(clients, pas[|pas| - 1])
  }

  /** Once the game is over, the name passed to the older revision's board
      messages is not used. */
  lemma {:induction false} PlateauxRacineFin(clients: seq<IdClient>, a: string, b: string)
    ensures PlateauxRacine(clients, false, a) == PlateauxRacine(clients, false, b)
  {
    if clients != [] {
      PlateauxRacineFin(clients[1..], a, b);
    }
  }

  /** A message a played command sends: the board, the empty line after it,
      or whose turn it is. */
  predicate MessageDeTour(m: Message)
  {
    m == Plateau || m == Vide || m == AVousDeJouer || m.ADeJouer?
  }

  /** The board messages go to the listed clients only. */
  lemma {:induction false} PlateauxDestinataires(clients: seq<IdClient>)
    ensures forall d :: d in Plateaux(clients) ==> d.client in clients && d.categorie == Affichage && MessageDeTour(d.message)
  {
    if clients != [] {
      PlateauxDestinataires(clients[1..]);
      assert forall c :: c in clients[1..] ==> c in clients;
    }
  }

  /** `d` carries the reason of a refusal recorded in `pas` to the refused
      player's client. */
  ghost predicate Refuse(pas: seq<Passe>, d: Datagramme)
    requires d.message.Violation?
  {
    exists k :: 0 <= k < |pas| && pas[k].coup.Refus? && d.client == pas[k].coup.joueur.identifiantClient && d.message.raison == pas[k].coup.raison
  }

  /** Everything the passes of `jouer` send is a display message: either a
      broken rule's reason sent to the client of a player refused in one of
      the passes, or a board or turn message sent to a listed client. */
  lemma {:induction false} PublicationsDestinataires(clients: seq<IdClient>, joueurs: map<IdClient, Joueur>, pas: seq<Passe>)
    requires forall c :: c in clients ==> c in joueurs
    ensures forall d :: d in Publications(clients, joueurs, pas) ==>
      && d.categorie == Affichage
      && ((d.client in clients && MessageDeTour(d.message))
          || (d.message.Violation? && Refuse(pas, d)))
  {
    if pas != [] {
      var debut := pas[..|pas| - 1];
      var p := pas[|pas| - 1];
      PublicationsDestinataires(clients, joueurs, debut);
      PlateauxDestinataires(clients);
      forall d | d in Publications(clients, joueurs, pas)
        ensures && d.categorie == Affichage
                && ((d.client in clients && MessageDeTour(d.message))
                    || (d.message.Violation? && Refuse(pas, d)))
      {
        if d in Publications(clients, joueurs, debut) {
          if d.message.Violation? && !(d.client in clients && MessageDeTour(d.message)) {
            var k :| 0 <= k < |debut| && debut[k].coup.Refus? && d.client == debut[k].coup.joueur.identifiantClient && d.message.raison == debut[k].coup.raison;
            assert pas[k] == debut[k];
          }
        } else if p.coup.Refus? {
          assert pas[|pas| - 1] == p;
          assert Refuse(pas, d);
        } else if p.coup.Joue? && p.suivant.Some? && d !in Plateaux(clients) {
          var i :| 0 <= i < |clients| && Annonces(clients, joueurs, p.suivant.value)[i] == d;
        }
      }
    }
  }

  /** One pass of a call of `jouer` whose turn list started as `liste`: a
      player of that list had a command refused, with the reason the rules
      gave, or played, with the rules' outcome; the player announced next is
      one of that list too, announced exactly after a played command that did
      not win. */
  predicate PasseValide(ctx: Contexte, p: Passe, liste: seq<Joueur>)
  {
    && (p.coup.Refus? || p.coup.Joue?)
    && p.coup.joueur in liste
    && (p.coup.Refus? ==>
          VerifierRegles(p.coup.etat, ctx.ordreMouvement, ctx.ordreTransformation) == HorsRegles(p.coup.raison))
    && (p.coup.Joue? ==> p.coup.issue == VerifierRegles(p.coup.etat, ctx.ordreMouvement, ctx.ordreTransformation))
    && (p.suivant.Some? ==> p.coup.Joue? && p.suivant.value in liste)
    && (p.coup.Joue? ==> (p.suivant.None? <==> p.coup.issue == PartieGagnee))
  }

  /** The passes of one call of `jouer`. */
  predicate Tours(ctx: Contexte, pas: seq<Passe>, liste: seq<Joueur>)
  {
    forall k :: 0 <= k < |pas| ==> PasseValide(ctx, pas[k], liste)
  }

  lemma PasseElargie(ctx: Contexte, p: Passe, a: seq<Joueur>, b: seq<Joueur>)
    requires PasseValide(ctx, p, a) && forall j :: j in a ==> j in b
    ensures PasseValide(ctx, p, b)
  {
  }

  lemma TourEnregistre(ctx: Contexte, pas: seq<Passe>, p: Passe, liste: seq<Joueur>)
    requires Tours(ctx, pas, liste) && PasseValide(ctx, p, liste)
    ensures Tours(ctx, pas + [p], liste)
  {
    assert forall k :: 0 <= k < |pas| ==> (pas + [p])[k] == pas[k];
  }

  /** Under `Tours`, every reason a run of passes sends goes to the client of
      a player of the turn list, and is the verdict the rules gave on that
      player's refused command. */
  lemma {:induction false} ViolationsDesJoueurs(ctx: Contexte, clients: seq<IdClient>, joueurs: map<IdClient, Joueur>,
                                                pas: seq<Passe>, liste: seq<Joueur>)
    requires forall c :: c in clients ==> c in joueurs
    requires Tours(ctx, pas, liste)
    ensures forall d :: d in Publications(clients, joueurs, pas) && d.message.Violation? ==>
      exists j, e :: (j in liste && d.client == j.identifiantClient
                      && VerifierRegles(e, ctx.ordreMouvement, ctx.ordreTransformation) == HorsRegles(d.message.raison))
  {
    PublicationsDestinataires(clients, joueurs, pas);
    forall d | d in Publications(clients, joueurs, pas) && d.message.Violation?
      ensures exists j, e :: (j in liste && d.client == j.identifiantClient
                              && VerifierRegles(e, ctx.ordreMouvement, ctx.ordreTransformation) == HorsRegles(d.message.raison))
    {
      assert !MessageDeTour(d.message);
      var k :| 0 <= k < |pas| && pas[k].coup.Refus? && d.client == pas[k].coup.joueur.identifiantClient && d.message.raison == pas[k].coup.raison;
      assert PasseValide(ctx, pas[k], liste);
    }
  }

  lemma PublieRacine(clients: seq<IdClient>, pas: seq<Passe>, p: Passe)
    ensures PublicationsRacine(clients, pas + [p]) == PublicationsRacine(clients, pas) + PublicationRacine(clients, p)
  {
    assert (pas + [p])[..|pas|] == pas;
  }

  /** Moving the head of a list to its tail keeps its elements. */
  lemma Rotation<T>(s: seq<T>)
    requires s != []
    ensures multiset(s[1..] + [s[0]]) == multiset(s)
  {
    assert s == [s[0]] + s[1..];
  }

  lemma Concatener<T>(a: seq<T>, b: seq<T>, c: seq<T>)
    ensures a + b + c == a + (b + c)
  {
  }

  /** Appending a pass appends its messages. */
  lemma Publie(clients: seq<IdClient>, joueurs: map<IdClient, Joueur>, pas: seq<Passe>, p: Passe)
    requires forall c :: c in clients ==> c in joueurs
    ensures Publications(clients, joueurs, pas + [p]) == Publications(clients, joueurs, pas) + Publication(clients, joueurs, p)
  {
    assert (pas + [p])[..|pas|] == pas;
  }

  /** `obtenir_controle` followed by `Etat`: the snapshot a command is judged
      on. */
  function Instantane(ctx: Contexte, commande: string, grille: map<Coord, Element>, position: Coord,
                      adversaires: seq<Coord>): (r: Result<Etat, Anomalie>)
    requires ctx.registre.obstacleParDefaut.Some?
    ensures r.Success? ==> r.value.obstacle == Terrain(grille, DefautDe(ctx), r.value.coordonneesObstacle)
    ensures r.Success? ==> r.value.coordonneesAdversaires == adversaires
    ensures r.Failure? ==> r.error.CommandeInconnue? || r.error == ActionIncompatible
  {
    match ObtenirControle(ctx.touches, commande)
    case Failure(e) => Failure(CommandeInconnue(e))
    case Success((action, transformation)) =>
      if !action.Direction? || (transformation.Some? && !transformation.value.Transformer?) then Failure(ActionIncompatible)
      else
        var famille := if transformation.Some? then Some(transformation.value.famille) else None;
        Success(NouvelEtat(action.vecteur, famille, grille, DefautDe(ctx), position, adversaires))
  }

  /** Every command the extraction produces gives a snapshot: the target is
      the position moved by the last key's vector, and a transform is asked
      for exactly when the command has a transform key in front. */
  lemma InstantaneCommande(ctx: Contexte, c: string, grille: map<Coord, Element>, position: Coord, adversaires: seq<Coord>)
    requires ctx.registre.obstacleParDefaut.Some? && LieLesTouches(ctx.touches) && CommandeValide(c)
    ensures Instantane(ctx, c, grille, position, adversaires).Success?
    ensures var e := Instantane(ctx, c, grille, position, adversaires).value;
      && e.coordonneesObstacle == Ajouter(position, ctx.touches[c[|c| - 1]].action.vecteur)
      && (e.transformation.Some? <==> |c| == 2)
      && (|c| == 2 ==> e.transformation == Some(ctx.touches[c[0]].action.famille))
  {
    DecoderCommande(ctx.touches, c);
  }

  /** The grid after a transform: the target takes the element's
      `transformee` when that is one the grid holds, and is cleared
      otherwise. No other cell changes. */
  function GrilleTransformee(r: Registre, grille: map<Coord, Element>, e: Etat): (g: map<Coord, Element>)
    ensures forall p :: p != e.coordonneesObstacle ==> (p in g <==> p in grille) && (p in g ==> g[p] == grille[p])
    ensures e.coordonneesObstacle in g <==>
      EstTransformable(e.obstacle) && Transformee(r, e.obstacle).Some? && EstDecrypte(Transformee(r, e.obstacle).value)
    ensures e.coordonneesObstacle in g ==> g[e.coordonneesObstacle] == Transformee(r, e.obstacle).value
  {
    var t := Transformee(r, e.obstacle);
    if EstTransformable(e.obstacle) && t.Some? && EstDecrypte(t.value) then grille[e.coordonneesObstacle := t.value]
    else grille - {e.coordonneesObstacle}
  }

  /** The positions of the listed players. */
  function Positions(js: seq<Joueur>): (ps: seq<Coord>)
    reads set j | j in js
    ensures |ps| == |js|
    ensures forall i :: 0 <= i < |js| ==> ps[i] == js[i].coordonnees
  {
    if js == [] then [] else [js[0].coordonnees] + Positions(js[1..])
  }

  /** The number of commands still queued: what each played or refused step
      uses up. */
  function Attente(js: seq<Joueur>): nat
    reads set j | j in js
  {
    if js == [] then 0 else |js[0].commandes| + Attente(js[1..])
  }

  lemma {:induction false} AttenteConcat(a: seq<Joueur>, b: seq<Joueur>)
    ensures Attente(a + b) == Attente(a) + Attente(b)
  {
    if a != [] {
      assert (a + b)[1..] == a[1..] + b;
      AttenteConcat(a[1..], b);
    } else {
      assert a + b == b;
    }
  }

  // ----- the roster -----

  /** `dict_client_joueur` and `liste_joueurs` agree: the dictionary's keys
      are listed once each, in `clients`; the turn order holds each player
      once, and every client's player; two clients never share a player. */
  ghost predicate Inscrits(clients: seq<IdClient>, joueurs: map<IdClient, Joueur>, liste: seq<Joueur>)
  {
    && Distinct(clients) && Ensemble(clients) == joueurs.Keys
    && Distinct(liste)
    && (forall c :: c in joueurs ==> joueurs[c] in liste)
    && (forall a, b :: a in joueurs && b in joueurs && a != b ==> joueurs[a] != joueurs[b])
  }

  /** Adding a new player under a client: a new key is listed at the end, a
      known one keeps its place and its entry is replaced. */
  lemma InscritsAjout(clients: seq<IdClient>, joueurs: map<IdClient, Joueur>, liste: seq<Joueur>, c: IdClient, j: Joueur)
    requires Inscrits(clients, joueurs, liste) && j !in liste
    ensures Inscrits(if c in joueurs then clients else clients + [c], joueurs[c := j], liste + [j])
  {
    var cs := if c in joueurs then clients else clients + [c];
    assert Ensemble(cs) == joueurs.Keys + {c};
    var l := liste + [j];
    forall a, b | 0 <= a < b < |l| ensures l[a] != l[b] {
      if b == |liste| {
        assert l[a] in liste;
      }
    }
  }

  /** Removing a client's player: the key leaves `clients`, the player leaves
      the turn order, and the roster stays consistent. */
  lemma InscritsRetrait(clients: seq<IdClient>, joueurs: map<IdClient, Joueur>, liste: seq<Joueur>, c: IdClient)
    requires Inscrits(clients, joueurs, liste) && c in joueurs
    ensures Inscrits(Retirer(clients, c), joueurs - {c}, Retirer(liste, joueurs[c]))
    ensures c !in Retirer(clients, c) && joueurs[c] !in Retirer(liste, joueurs[c])
    ensures |Retirer(liste, joueurs[c])| == |liste| - 1
  {
    RetirerDistinct(clients, c);
    RetirerDistinct(liste, joueurs[c]);
    assert c in Ensemble(clients);
  }

  /** Reordering the turn order keeps the roster consistent. */
  lemma InscritsPermutation(clients: seq<IdClient>, joueurs: map<IdClient, Joueur>, a: seq<Joueur>, b: seq<Joueur>)
    requires Inscrits(clients, joueurs, a) && multiset(a) == multiset(b)
    ensures Inscrits(clients, joueurs, b)
  {
    DistinctPermutation(a, b);
    forall c | c in joueurs ensures joueurs[c] in b {
      assert multiset(a)[joueurs[c]] > 0;
    }
  }

  /** The invariant of a maze, on the values of its fields. */
  ghost predicate Coherent(ctx: Contexte, mode: int, clients: seq<IdClient>, joueurs: map<IdClient, Joueur>,
                           liste: seq<Joueur>, departs: seq<Coord>)
  {
    && Bon(ctx)
    && DebutDePartie <= mode <= FinDePartie
    && Inscrits(clients, joueurs, liste)
    && |liste| <= |departs|
    && Distinct(departs)
  }

  /** Reordering the turn list, or ending the game, keeps the invariant. */
  lemma CoherentPermutation(ctx: Contexte, mode: int, mode2: int, clients: seq<IdClient>, joueurs: map<IdClient, Joueur>,
                            a: seq<Joueur>, b: seq<Joueur>, departs: seq<Coord>)
    requires Coherent(ctx, mode, clients, joueurs, a, departs) && multiset(a) == multiset(b)
    requires DebutDePartie <= mode2 <= FinDePartie
    ensures Coherent(ctx, mode2, clients, joueurs, b, departs)
  {
    InscritsPermutation(clients, joueurs, a, b);
    assert |b| == |multiset(b)| == |multiset(a)| == |a|;
  }

  /** Players given consecutive cells of a list without repetition stand on
      pairwise different cells. */
  lemma CasesDistinctes(ordre: seq<Joueur>, liste: seq<Joueur>, departs: seq<Coord>, indice: nat)
    requires multiset(ordre) == multiset(liste) && Distinct(departs) && indice + |ordre| <= |departs|
    requires forall k :: 0 <= k < |ordre| ==> ordre[k].coordonnees == departs[indice + k]
    ensures forall a, b :: a in liste && b in liste && a != b ==> a.coordonnees != b.coordonnees
  {
    forall a, b | a in liste && b in liste && a != b
      ensures a.coordonnees != b.coordonnees
    {
      assert multiset(liste)[a] > 0 && multiset(liste)[b] > 0;
      assert a in ordre && b in ordre;
      var ka :| 0 <= ka < |ordre| && ordre[ka] == a;
      var kb :| 0 <= kb < |ordre| && ordre[kb] == b;
    }
  }

  /** Players taken in the given order get consecutive cells of `departs`
      from `indice` on. */
  method Attribuer(ordre: seq<Joueur>, departs: seq<Coord>, indice: nat)
    requires Distinct(ordre) && indice + |ordre| <= |departs|
    modifies set j | j in ordre
    ensures forall k :: 0 <= k < |ordre| ==> ordre[k].coordonnees == departs[indice + k]
    ensures forall j :: j in ordre ==> j.commandes == old(j.commandes)
  {
    var k := 0;
    while k < |ordre|
      invariant 0 <= k <= |ordre|
      invariant forall m :: 0 <= m < k ==> ordre[m].coordonnees == departs[indice + m]
      invariant forall j :: j in ordre ==> j.commandes == old(j.commandes)
    {
      ordre[k].coordonnees := departs[indice + k];
      k := k + 1;
    }
  }

  class Labyrinthe {
    const ctx: Contexte
    const nom: string
    var grille: map<Coord, Element>
    var sorties: seq<Coord>
    var departs: seq<Coord>
    var inconnus: set<char>
    /** `dict_client_joueur`, with its keys in insertion order in `clients`. */
    var joueurs: map<IdClient, Joueur>
    var clients: seq<IdClient>
    /** The turn order: the next player to move is at the head. */
    var listeJoueurs: seq<Joueur>
    var mode: int
    var vainqueur: Option<Joueur>
    var datagrammes: seq<Datagramme>

    function Defaut(): Element
      requires Bon(ctx)
    {
      DefautDe(ctx)
    }

    /** The roster is consistent, there are never more players than start
        cells, and the start cells are listed once each. */
    ghost predicate Valide()
      reads this`mode, this`clients, this`joueurs, this`listeJoueurs, this`departs
    {
      Coherent(ctx, mode, clients, joueurs, listeJoueurs, departs)
    }

    /** The points the board must show: the grid's cells and, once the game
        has started, the players' positions. */
    ghost function Coordonnees(): set<Coord>
      reads this, set j | j in listeJoueurs
    {
      grille.Keys + if mode >= JeuEnCours then set j | j in listeJoueurs :: j.coordonnees else {}
    }

    /** `_dimensionner`: the bounding box of the board. */
    method Dimensionner() returns (b: Boite)
      ensures Cadre(Coordonnees(), b)
    {
      var cles := Enumerer(grille.Keys);
      if mode >= JeuEnCours {
        var ps := Positions(listeJoueurs);
        assert Ensemble(ps) == set j | j in listeJoueurs :: j.coordonnees by {
          forall p | p in set j | j in listeJoueurs :: j.coordonnees ensures p in ps {
            var j :| j in listeJoueurs && j.coordonnees == p;
            var i :| 0 <= i < |listeJoueurs| && listeJoueurs[i] == j;
            assert ps[i] == p;
          }
        }
        cles := cles + ps;
      }
      assert Ensemble(cles) == Coordonnees();
      b := Bornes(cles);
      BornesCadre(cles);
    }

    /** `__init__`: the grid is decoded, then the start cells are searched
        inside the grid's bounding box and listed by distance from the exits
        (`Classement`); nobody has joined yet. */
    constructor (chaine: string, nom: string, ctx: Contexte)
      requires Bon(ctx)
      ensures this.ctx == ctx && this.nom == nom
      ensures D.Decodage(grille, sorties, inconnus) == D.Decoder(ctx.registre, DefautDe(ctx), chaine)
      ensures joueurs == map[] && clients == [] && listeJoueurs == []
      ensures mode == DebutDePartie && vainqueur == None && datagrammes == []
      ensures Distinct(departs)
      ensures exists b, distance ::
        Cadre(grille.Keys, b) && Classement(grille, sorties, DefautDe(ctx), ctx.registre, ctx.directions, b, departs, distance)
      ensures forall d :: d in departs ==> EstDemarrable(Terrain(grille, DefautDe(ctx), d)) && d !in sorties
      ensures Valide()
    {
      this.ctx := ctx;
      this.nom := nom;
      var g, s, i := CreerLabyrinthe(ctx.registre, DefautDe(ctx), chaine);
      grille, sorties, inconnus := g, s, i;
      departs := [];
      joueurs, clients, listeJoueurs := map[], [], [];
      mode, vainqueur, datagrammes := DebutDePartie, None, [];
      new;
      var boite := Dimensionner();
      assert Coordonnees() == grille.Keys;
      ghost var distance;
      departs, distance := DeterminerDeparts(grille, sorties, DefautDe(ctx), ctx.registre, ctx.directions, boite);
    }

    /** `est_ouvert`: a start cell is left for one more player. */
    predicate EstOuvert()
      reads this
    {
      |listeJoueurs| < |departs|
    }

    /** `_ajouter_joueur`: before the game, while a start cell is free, a new
        player joins at the end of the turn order. A client that joins again
        has their entry replaced; the older player stays in the turn order. */
    method AjouterJoueurInterne(c: IdClient, nomJoueur: string) returns (j: Option<Joueur>)
      requires Valide()
      modifies this`joueurs, this`clients, this`listeJoueurs
      ensures Valide()
      ensures j.Some? <==> old(mode) == DebutDePartie && old(|listeJoueurs|) < |departs|
      ensures j.None? ==> joueurs == old(joueurs) && clients == old(clients) && listeJoueurs == old(listeJoueurs)
      ensures j.Some? ==>
        && fresh(j.value) && j.value.identifiantClient == c && j.value.nom == nomJoueur
        && j.value.coordonnees == (0, 0) && j.value.commandes == []
        && joueurs == old(joueurs)[c := j.value]
        && listeJoueurs == old(listeJoueurs) + [j.value]
        && clients == if c in old(joueurs) then old(clients) else old(clients) + [c]
    {
      if mode == DebutDePartie && EstOuvert() {
        var joueur := new Joueur(c, nomJoueur);
        InscritsAjout(clients, joueurs, listeJoueurs, c, joueur);
        if c !in joueurs {
          clients := clients + [c];
        }
        joueurs := joueurs[c := joueur];
        listeJoueurs := listeJoueurs + [joueur];
        j := Some(joueur);
      } else {
        j := None;
      }
    }

    /** `_effacer_joueur`: the client's player leaves the dictionary and the
        turn order (an unknown client raises KeyError: `false`, nothing
        changes). During a game, when at most one player is left, the game
        ends and the remaining player, if any, wins. */
    method EffacerJoueurInterne(c: IdClient) returns (connu: bool)
      requires Valide()
      modifies this`joueurs, this`clients, this`listeJoueurs, this`mode, this`vainqueur
      ensures Valide()
      ensures connu <==> c in old(joueurs)
      ensures !connu ==>
        joueurs == old(joueurs) && clients == old(clients) && listeJoueurs == old(listeJoueurs)
        && mode == old(mode) && vainqueur == old(vainqueur)
      ensures connu ==>
        && joueurs == old(joueurs) - {c}
        && clients == Retirer(old(clients), c) && c !in clients
        && listeJoueurs == Retirer(old(listeJoueurs), old(joueurs)[c])
        && old(joueurs)[c] !in listeJoueurs
        && |listeJoueurs| == old(|listeJoueurs|) - 1
      ensures connu && old(mode) >= JeuEnCours && |listeJoueurs| <= 1 ==>
        mode == FinDePartie && vainqueur == if listeJoueurs == [] then old(vainqueur) else Some(listeJoueurs[0])
      ensures !(connu && old(mode) >= JeuEnCours && |listeJoueurs| <= 1) ==>
        mode == old(mode) && vainqueur == old(vainqueur)
    {
      if c !in joueurs {
        return false;
      }
      var joueur := joueurs[c];
      InscritsRetrait(clients, joueurs, listeJoueurs, c);
      joueurs := joueurs - {c};
      clients := Retirer(clients, c);
      listeJoueurs := Retirer(listeJoueurs, joueur);
      if mode >= JeuEnCours && |listeJoueurs| <= 1 {
        mode := FinDePartie;
        if listeJoueurs != [] {
          vainqueur := Some(listeJoueurs[0]);
        }
      }
      connu := true;
    }

    /** `a_qui_de_jouer`: while the game is not over, whose turn it is, to
        every client. */
    function AnnoncesTour(): seq<Datagramme>
      reads this`mode, this`clients, this`joueurs, this`listeJoueurs, this`departs
      requires Valide()
    {
      assert forall c :: c in clients ==> c in Ensemble(clients);
      if mode < FinDePartie && listeJoueurs != [] then Annonces(clients, joueurs, listeJoueurs[0]) else []
    }

    /** `ajouter_joueur`: a player who could join is welcomed with an empty
        line, a greeting, the maze's name and the board. */
    method AjouterJoueur(c: IdClient, nomJoueur: string) returns (j: Option<Joueur>)
      requires Valide()
      modifies this`joueurs, this`clients, this`listeJoueurs, this`datagrammes
      ensures Valide()
      ensures j.Some? <==> old(mode) == DebutDePartie && old(|listeJoueurs|) < |departs|
      ensures j.None? ==> joueurs == old(joueurs) && clients == old(clients) && listeJoueurs == old(listeJoueurs)
      ensures j.Some? ==> joueurs == old(joueurs)[c := j.value] && listeJoueurs == old(listeJoueurs) + [j.value] && fresh(j.value)
      ensures datagrammes == old(datagrammes) + if j.Some? then Accueil(c, nomJoueur) else []
    {
      j := AjouterJoueurInterne(c, nomJoueur);
      if j.Some? {
        datagrammes := datagrammes + Accueil(c, nomJoueur);
      }
    }

    function Accueil(c: IdClient, nomJoueur: string): seq<Datagramme>
    {
      [Datagramme(c, Affichage, Vide), Datagramme(c, Affichage, Bienvenue(nomJoueur)),
       Datagramme(c, Affichage, NomDuLabyrinthe(nom)), Datagramme(c, Affichage, Plateau)]
    }

    /** `accueillir` of the older revision: the same welcome, returned. */
    method Accueillir(c: IdClient, nomJoueur: string) returns (ds: seq<Datagramme>)
      requires Valide()
      modifies this`joueurs, this`clients, this`listeJoueurs
      ensures Valide()
      ensures ds != [] <==> old(mode) == DebutDePartie && old(|listeJoueurs|) < |departs|
      ensures ds != [] ==> ds == Accueil(c, nomJoueur) && c in joueurs && listeJoueurs == old(listeJoueurs) + [joueurs[c]]
      ensures ds == [] ==> joueurs == old(joueurs) && clients == old(clients) && listeJoueurs == old(listeJoueurs)
    {
      var j := AjouterJoueurInterne(c, nomJoueur);
      ds := if j.Some? then Accueil(c, nomJoueur) else [];
    }

    /** `effacer_joueur`: during a game, the remaining clients learn who left,
        then get the board and whose turn it is. */
    method EffacerJoueur(c: IdClient) returns (connu: bool)
      requires Valide()
      modifies this`joueurs, this`clients, this`listeJoueurs, this`mode, this`vainqueur, this`datagrammes
      ensures Valide()
      ensures connu <==> c in old(joueurs)
      ensures !connu ==> joueurs == old(joueurs) && listeJoueurs == old(listeJoueurs) && mode == old(mode)
      ensures connu ==>
        && joueurs == old(joueurs) - {c} && c !in clients
        && listeJoueurs == Retirer(old(listeJoueurs), old(joueurs)[c])
        && |listeJoueurs| == old(|listeJoueurs|) - 1
      ensures old(mode) == DebutDePartie ==> mode == DebutDePartie
      ensures datagrammes == old(datagrammes) +
        if connu && mode >= JeuEnCours then Diffuser(clients, AQuitte(old(joueurs)[c].nom)) + Plateaux(clients) + AnnoncesTour()
        else []
    {
      var nomJoueur := if c in joueurs then joueurs[c].nom else [];
      connu := EffacerJoueurInterne(c);
      if connu && mode >= JeuEnCours {
        var depart := Diffuser(clients, AQuitte(nomJoueur)) + Plateaux(clients) + AnnoncesTour();
        datagrammes := datagrammes + depart;
      }
    }

    /** The placement part of `demarrer`: the game starts; an index is drawn
        so that every player gets a start cell; the turn order is shuffled;
        the players, taken in a second random order, get consecutive start
        cells from the index on. Start cells are listed without repetition,
        so no two players share a cell. */
    method Placer() returns (ghost indice: nat, ghost ordre: seq<Joueur>)
      requires Valide()
      modifies this`mode, this`listeJoueurs, set j | j in listeJoueurs
      ensures Valide() && mode == JeuEnCours
      ensures multiset(listeJoueurs) == multiset(old(listeJoueurs))
      ensures multiset(ordre) == multiset(listeJoueurs) && |ordre| == |listeJoueurs|
      ensures indice + |listeJoueurs| <= |departs|
      ensures forall k :: 0 <= k < |ordre| ==> ordre[k].coordonnees == departs[indice + k]
      ensures forall a, b :: a in listeJoueurs && b in listeJoueurs && a != b ==> a.coordonnees != b.coordonnees
      ensures forall j :: j in old(listeJoueurs) ==> j.commandes == old(j.commandes)
    {
      var i :| 0 <= i <= |departs| - |listeJoueurs|;
      indice := i;
      ghost var avant := listeJoueurs;
      var nouvelle := Melanger(listeJoueurs);
      CoherentPermutation(ctx, mode, JeuEnCours, clients, joueurs, avant, nouvelle, departs);
      mode, listeJoueurs := JeuEnCours, nouvelle;
      var o := Melanger(listeJoueurs);
      DistinctPermutation(listeJoueurs, o);
      assert |o| == |listeJoueurs| by {
        assert |multiset(o)| == |multiset(listeJoueurs)|;
      }
      assert forall j :: j in o ==> j in avant by {
        forall j | j in o ensures j in avant {
          assert multiset(o)[j] > 0;
        }
      }
      Attribuer(o, departs, i);
      ordre := o;
      CasesDistinctes(o, listeJoueurs, departs, i);
    }

    /** `demarrer`: the players are placed, then every client receives the
        opening, the board and whose turn it is. */
    method Demarrer() returns (ghost indice: nat, ghost ordre: seq<Joueur>)
      requires Valide()
      modifies this`mode, this`listeJoueurs, this`datagrammes, set j | j in listeJoueurs
      ensures Valide() && mode == JeuEnCours
      ensures multiset(listeJoueurs) == multiset(old(listeJoueurs))
      ensures indice + |listeJoueurs| <= |departs|
      ensures multiset(ordre) == multiset(listeJoueurs) && |ordre| == |listeJoueurs|
      ensures forall k :: 0 <= k < |ordre| ==> ordre[k].coordonnees == departs[indice + k]
      ensures forall a, b :: a in listeJoueurs && b in listeJoueurs && a != b ==> a.coordonnees != b.coordonnees
      ensures datagrammes == old(datagrammes) + Ouverture(clients, ctx.motif, |listeJoueurs|, ctx.descriptions)
        + Plateaux(clients) + AnnoncesTour()
    {
      indice, ordre := Placer();
      datagrammes := datagrammes + Ouverture(clients, ctx.motif, |listeJoueurs|, ctx.descriptions)
        + Plateaux(clients) + AnnoncesTour();
    }

    /** `demarrer` of the older revision: the same placement; the messages
        are returned. */
    method DemarrerRacine() returns (ds: seq<Datagramme>, ghost indice: nat, ghost ordre: seq<Joueur>)
      requires Valide()
      modifies this`mode, this`listeJoueurs, set j | j in listeJoueurs
      ensures Valide() && mode == JeuEnCours
      ensures multiset(listeJoueurs) == multiset(old(listeJoueurs))
      ensures indice + |listeJoueurs| <= |departs|
      ensures multiset(ordre) == multiset(listeJoueurs) && |ordre| == |listeJoueurs|
      ensures forall k :: 0 <= k < |ordre| ==> ordre[k].coordonnees == departs[indice + k]
      ensures forall a, b :: a in listeJoueurs && b in listeJoueurs && a != b ==> a.coordonnees != b.coordonnees
      ensures clients != [] ==>
        listeJoueurs != [] && ds == OuvertureRacine(clients, |listeJoueurs|, ctx.descriptions, listeJoueurs[0].nom)
      ensures clients == [] ==> ds == []
    {
      indice, ordre := Placer();
      if clients == [] {
        ds := [];
      } else {
        assert clients[0] in Ensemble(clients);
        assert joueurs[clients[0]] in listeJoueurs;
        ds := OuvertureRacine(clients, |listeJoueurs|, ctx.descriptions, listeJoueurs[0].nom);
      }
    }

    /** The player at the head leaves the turn order and their oldest
        command is taken (`pop(0)`, then `retirer_commande`). */
    method Prendre(courant: Joueur) returns (commande: Option<string>)
      requires Valide() && listeJoueurs != [] && courant == listeJoueurs[0]
      modifies this`listeJoueurs, courant`commandes
      ensures listeJoueurs == old(listeJoueurs)[1..] && courant !in listeJoueurs
      ensures Coherent(ctx, mode, clients, joueurs, [courant] + listeJoueurs, departs)
      ensures Positions(listeJoueurs) == old(Positions(listeJoueurs[1..]))
      ensures old(Attente(listeJoueurs)) == |old(courant.commandes)| + Attente(listeJoueurs)
      ensures old(courant.commandes) == [] ==> commande == None && courant.commandes == []
      ensures old(courant.commandes) != [] ==>
        commande == Some(old(courant.commandes)[0]) && courant.commandes == old(courant.commandes)[1..]
    {
      ghost var avant := listeJoueurs;
      assert avant == [courant] + avant[1..];
      assert Coherent(ctx, mode, clients, joueurs, avant, departs);
      listeJoueurs := listeJoueurs[1..];
      assert forall k :: 0 <= k < |listeJoueurs| ==> listeJoueurs[k] == old(listeJoueurs)[k + 1];
      ghost var attente := Attente(listeJoueurs);
      ghost var positions := Positions(listeJoueurs);
      commande := courant.RetirerCommande();
      assert Attente(listeJoueurs) == attente && Positions(listeJoueurs) == positions;
    }

    /** The effect of a command on the board: a move places the player on
        the target, a transform changes the target cell. */
    method Deplacer(courant: Joueur, e: Etat)
      modifies this`grille, courant`coordonnees
      ensures e.transformation.None? ==> courant.coordonnees == e.coordonneesObstacle && grille == old(grille)
      ensures e.transformation.Some? ==>
        courant.coordonnees == old(courant.coordonnees) && grille == GrilleTransformee(ctx.registre, old(grille), e)
    {
      if e.transformation.Some? {
        grille := GrilleTransformee(ctx.registre, grille, e);
      } else {
        courant.coordonnees := e.coordonneesObstacle;
      }
    }

    /** A command that breaks no rule is played: a move places the player on
        the target, a transform changes the target cell, and a move onto an
        exit ends the game with the player as winner. The player then goes to
        the tail of the turn order. */
    method Executer(courant: Joueur, e: Etat, issue: Issue)
      requires Bon(ctx) && !issue.HorsRegles?
      requires issue == PartieGagnee ==> e.transformation.None? && EstGagnable(e.obstacle)
      requires e.obstacle == Terrain(grille, Defaut(), e.coordonneesObstacle)
      requires courant !in listeJoueurs
      modifies this`listeJoueurs, this`grille, this`mode, this`vainqueur, courant`coordonnees
      ensures listeJoueurs == old(listeJoueurs) + [courant]
      ensures Attente(listeJoueurs) == old(Attente(listeJoueurs)) + |courant.commandes|
      ensures e.transformation.None? ==> courant.coordonnees == e.coordonneesObstacle && grille == old(grille)
      ensures e.transformation.Some? ==>
        courant.coordonnees == old(courant.coordonnees) && grille == GrilleTransformee(ctx.registre, old(grille), e)
      ensures issue == PartieGagnee ==>
        mode == FinDePartie && vainqueur == Some(courant) && EstGagnable(Terrain(grille, Defaut(), courant.coordonnees))
      ensures issue != PartieGagnee ==> mode == old(mode) && vainqueur == old(vainqueur)
    {
      ghost var attente := Attente(listeJoueurs);
      if issue == PartieGagnee {
        mode := FinDePartie;
        vainqueur := Some(courant);
      }
      Deplacer(courant, e);
      assert Attente(listeJoueurs) == attente;
      assert Attente([courant]) == |courant.commandes| by {
        assert [courant][1..] == [];
      }
      AttenteConcat(listeJoueurs, [courant]);
      listeJoueurs := listeJoueurs + [courant];
    }

    /** The player who left the head of the turn order goes back to it. */
    method Remettre(courant: Joueur)
      requires Coherent(ctx, mode, clients, joueurs, [courant] + listeJoueurs, departs)
      modifies this`listeJoueurs
      ensures listeJoueurs == [courant] + old(listeJoueurs) && Valide()
    {
      listeJoueurs := [courant] + listeJoueurs;
    }

    /** The command just taken from the player who left the head of the turn
        order is judged: a key the bindings lack ends the loop, a command
        that breaks a rule puts the player back at the head, and any other is
        played. */
    method Juger(courant: Joueur, commande: string) returns (coup: Coup)
      requires Coherent(ctx, mode, clients, joueurs, [courant] + listeJoueurs, departs) && courant !in listeJoueurs
      modifies this`listeJoueurs, this`grille, this`mode, this`vainqueur, courant`coordonnees
      ensures !coup.Echec? ==> Valide()
      ensures coup.Echec? ==>
        && (coup.anomalie.CommandeInconnue? || coup.anomalie == ActionIncompatible)
        && listeJoueurs == old(listeJoueurs) && grille == old(grille)
        && mode == old(mode) && vainqueur == old(vainqueur)
      ensures coup.Refus? ==>
        && coup.joueur == courant
        && Instantane(ctx, commande, old(grille), old(courant.coordonnees), old(Positions(listeJoueurs))) == Success(coup.etat)
        && VerifierRegles(coup.etat, ctx.ordreMouvement, ctx.ordreTransformation) == HorsRegles(coup.raison)
        && listeJoueurs == [courant] + old(listeJoueurs) && grille == old(grille)
        && mode == old(mode) && vainqueur == old(vainqueur) && courant.coordonnees == old(courant.coordonnees)
      ensures coup.Joue? ==>
        && coup.joueur == courant && coup.commande == commande
        && Instantane(ctx, commande, old(grille), old(courant.coordonnees), old(Positions(listeJoueurs))) == Success(coup.etat)
        && coup.issue == VerifierRegles(coup.etat, ctx.ordreMouvement, ctx.ordreTransformation)
        && !coup.issue.HorsRegles?
        && listeJoueurs == old(listeJoueurs) + [courant]
        && (coup.etat.transformation.None? ==>
              courant.coordonnees == coup.etat.coordonneesObstacle && grille == old(grille))
        && (coup.etat.transformation.Some? ==>
              courant.coordonnees == old(courant.coordonnees)
              && grille == GrilleTransformee(ctx.registre, old(grille), coup.etat))
        && (coup.issue == PartieGagnee ==>
              mode == FinDePartie && vainqueur == Some(courant)
              && EstGagnable(Terrain(grille, Defaut(), courant.coordonnees)))
        && (coup.issue != PartieGagnee ==> mode == old(mode) && vainqueur == old(vainqueur))
      ensures coup.Refus? || coup.Joue? ==> Attente(listeJoueurs) == old(Attente(listeJoueurs)) + |courant.commandes|
      ensures !coup.Arret?
    {
      var instantane := Instantane(ctx, commande, grille, courant.coordonnees, Positions(listeJoueurs));
      if instantane.Failure? {
        return Echec(instantane.error);
      }
      var e := instantane.value;
      var issue := VerifierRegles(e, ctx.ordreMouvement, ctx.ordreTransformation);
      ghost var autres := listeJoueurs;
      if issue.HorsRegles? {
        Remettre(courant);
        return Refus(courant, e, issue.raison);
      }
      if issue == PartieGagnee {
        VictoireMouvement(e, ctx.ordreMouvement, ctx.ordreTransformation);
      }
      Executer(courant, e, issue);
      assert multiset(listeJoueurs) == multiset([courant] + autres);
      CoherentPermutation(ctx, old(mode), mode, clients, joueurs, [courant] + autres, listeJoueurs, departs);
      coup := Joue(courant, commande, e, issue);
    }

    /** One step of `jouer`. The player at the head of the turn order leaves
        it and their oldest command is taken. With no command left they go
        back to the head and the loop stops. A command that breaks a rule is
        dropped and they go back to the head. Otherwise the command is played:
        a move places them on the target, a transform changes the target cell;
        a move onto an exit wins the game. They then go to the tail. */
    method JouerUnCoup() returns (coup: Coup)
      requires Valide() && mode < FinDePartie
      modifies this`listeJoueurs, this`grille, this`mode, this`vainqueur, set j | j in listeJoueurs
      ensures old(listeJoueurs) == [] <==> coup == Echec(RosterVide)
      ensures coup.Echec? ==> coup.anomalie != ClientInconnu
      ensures !coup.Echec? ==> old(listeJoueurs) != [] && Valide()
      ensures !coup.Echec? ==> multiset(listeJoueurs) == multiset(old(listeJoueurs))
      ensures coup.Arret? <==> old(listeJoueurs) != [] && old(listeJoueurs[0].commandes) == []
      ensures coup.Arret? ==> listeJoueurs == old(listeJoueurs) && listeJoueurs[0].commandes == []
      ensures coup.Refus? ==>
        && coup.joueur == old(listeJoueurs)[0] && listeJoueurs == old(listeJoueurs)
        && coup.joueur.commandes == old(coup.joueur.commandes)[1..]
        && coup.joueur.coordonnees == old(coup.joueur.coordonnees)
      ensures coup.Joue? ==>
        && coup.joueur == old(listeJoueurs)[0] && listeJoueurs == old(listeJoueurs)[1..] + [coup.joueur]
        && coup.commande == old(coup.joueur.commandes)[0]
        && coup.joueur.commandes == old(coup.joueur.commandes)[1..]
      ensures coup.Joue? && coup.issue == PartieGagnee ==>
        && mode == FinDePartie && vainqueur == Some(coup.joueur) && coup.joueur in listeJoueurs
        && EstGagnable(Terrain(grille, Defaut(), coup.joueur.coordonnees))
      ensures !(coup.Joue? && coup.issue == PartieGagnee) ==> mode == old(mode) && vainqueur == old(vainqueur)
      ensures coup.Refus? || coup.Joue? ==> Attente(listeJoueurs) < old(Attente(listeJoueurs))
      ensures coup.Refus? ==> VerifierRegles(coup.etat, ctx.ordreMouvement, ctx.ordreTransformation) == HorsRegles(coup.raison)
      ensures coup.Joue? ==> coup.issue == VerifierRegles(coup.etat, ctx.ordreMouvement, ctx.ordreTransformation)
    {
      if listeJoueurs == [] {
        return Echec(RosterVide);
      }
      ghost var avant := listeJoueurs;
      assert avant == [avant[0]] + avant[1..];
      var courant := listeJoueurs[0];
      var commande := Prendre(courant);
      if commande.None? {
        Remettre(courant);
        return Arret;
      }
      assert listeJoueurs == avant[1..];
      coup := Juger(courant, commande.value);
      if coup.Joue? {
        Rotation(avant);
      } else if coup.Refus? {
        assert listeJoueurs == avant;
      }
    }

    /** One pass of `jouer`'s loop: a step, then what it tells the clients.
        A refused command is reported to its player with the broken rule's
        reason; after a played one every client gets the board, then whose
        turn it is. */
    method Tour() returns (coup: Coup)
      requires Valide() && mode < FinDePartie
      modifies this`listeJoueurs, this`grille, this`mode, this`vainqueur, this`datagrammes, set j | j in listeJoueurs
      ensures !coup.Echec? ==> Valide() && multiset(listeJoueurs) == multiset(old(listeJoueurs))
      ensures coup.Arret? ==> listeJoueurs != [] && listeJoueurs[0].commandes == []
      ensures !coup.Echec? ==> listeJoueurs != []
      ensures coup.Refus? || coup.Joue? ==> old(listeJoueurs) != [] && coup.joueur == old(listeJoueurs)[0]
      ensures coup.Refus? ==> VerifierRegles(coup.etat, ctx.ordreMouvement, ctx.ordreTransformation) == HorsRegles(coup.raison)
      ensures coup.Joue? ==> coup.issue == VerifierRegles(coup.etat, ctx.ordreMouvement, ctx.ordreTransformation)
      ensures coup.Joue? && coup.issue == PartieGagnee ==>
        && mode == FinDePartie && vainqueur == Some(coup.joueur) && coup.joueur in listeJoueurs
        && EstGagnable(Terrain(grille, Defaut(), coup.joueur.coordonnees))
      ensures !(coup.Joue? && coup.issue == PartieGagnee) ==> mode == old(mode)
      ensures coup.Refus? || coup.Joue? ==> Attente(listeJoueurs) < old(Attente(listeJoueurs))
      ensures coup.Refus? ==>
        datagrammes == old(datagrammes) + [Datagramme(coup.joueur.identifiantClient, Affichage, Violation(coup.raison))]
      ensures coup.Joue? ==> datagrammes == old(datagrammes) + Plateaux(clients) + AnnoncesTour()
      ensures coup.Arret? || coup.Echec? ==> datagrammes == old(datagrammes)
      ensures coup.Echec? ==> coup.anomalie != ClientInconnu
      ensures forall c :: c in clients ==> c in joueurs
      ensures !coup.Echec? ==> datagrammes == old(datagrammes) + Publication(clients, joueurs, Passe(coup, Prochain(coup)))
      ensures coup.Refus? || coup.Joue? ==> PasseValide(ctx, Passe(coup, Prochain(coup)), old(listeJoueurs))
    {
      assert forall c :: c in clients ==> c in Ensemble(clients);
      coup := JouerUnCoup();
      ghost var attente := Attente(listeJoueurs);
      if !coup.Echec? {
        Publier(coup);
      }
      assert Attente(listeJoueurs) == attente;
    }

    /** The player announced after a step: the head of the turn list when
        the step played a command and the game goes on. */
    ghost function Prochain(coup: Coup): Option<Joueur>
      reads this`mode, this`listeJoueurs
    {
      if coup.Joue? && mode < FinDePartie && listeJoueurs != [] then Some(listeJoueurs[0]) else None
    }

    /** What a step shows: a refused move to its player only, a move played
        to everyone with whose turn it is next. */
    method Publier(coup: Coup)
      requires Valide()
      modifies this`datagrammes
      ensures forall c :: c in clients ==> c in joueurs
      ensures datagrammes == old(datagrammes) + Publication(clients, joueurs, Passe(coup, Prochain(coup)))
      ensures coup.Refus? ==>
        datagrammes == old(datagrammes) + [Datagramme(coup.joueur.identifiantClient, Affichage, Violation(coup.raison))]
      ensures coup.Joue? ==> datagrammes == old(datagrammes) + Plateaux(clients) + AnnoncesTour()
      ensures !coup.Refus? && !coup.Joue? ==> datagrammes == old(datagrammes)
    {
      assert forall c :: c in clients ==> c in Ensemble(clients);
      match coup {
        case Refus(j, _, raison) =>
          datagrammes := datagrammes + [Datagramme(j.identifiantClient, Affichage, Violation(raison))];
        case Joue(_, _, _, _) =>
          assert AnnoncesTour() == if Prochain(coup).Some? then Annonces(clients, joueurs, Prochain(coup).value) else [];
          Concatener(datagrammes, Plateaux(clients), AnnoncesTour());
          datagrammes := datagrammes + Plateaux(clients) + AnnoncesTour();
        case _ =>
      }
    }

    /** `jouer`: steps are played until the game is over or the player at the
        head has no command left; an exception ends the loop early. Every
        pass that reached the clients is recorded in `pas`, and the queue
        gains exactly their messages. When the loop ends without an
        exception, either the game is over or the player to move has nothing
        queued; a game this call ends has a winner standing on an exit. */
    method Jouer() returns (anomalie: Option<Anomalie>, ghost pas: seq<Passe>)
      requires Valide()
      modifies this`listeJoueurs, this`grille, this`mode, this`vainqueur, this`datagrammes, set j | j in listeJoueurs
      ensures anomalie != Some(ClientInconnu)
      ensures forall c :: c in clients ==> c in joueurs
      ensures datagrammes == old(datagrammes) + Publications(clients, joueurs, pas)
      ensures Tours(ctx, pas, old(listeJoueurs))
      ensures anomalie.None? ==> Valide() && multiset(listeJoueurs) == multiset(old(listeJoueurs))
      ensures anomalie.None? ==> mode == FinDePartie || (listeJoueurs != [] && listeJoueurs[0].commandes == [])
      ensures anomalie.None? && old(mode) < FinDePartie && mode == FinDePartie ==>
        && vainqueur.Some? && vainqueur.value in listeJoueurs
        && EstGagnable(Terrain(grille, Defaut(), vainqueur.value.coordonnees))
    {
      anomalie, pas := None, [];
      assert forall c :: c in clients ==> c in Ensemble(clients);
      while mode < FinDePartie
        invariant Valide()
        invariant multiset(listeJoueurs) == multiset(old(listeJoueurs))
        invariant forall j :: j in listeJoueurs ==> j in old(listeJoueurs)
        invariant old(mode) < FinDePartie && mode == FinDePartie ==>
          && vainqueur.Some? && vainqueur.value in listeJoueurs
          && EstGagnable(Terrain(grille, Defaut(), vainqueur.value.coordonnees))
        invariant datagrammes == old(datagrammes) + Publications(clients, joueurs, pas)
        invariant Tours(ctx, pas, old(listeJoueurs))
        decreases Attente(listeJoueurs)
      {
        ghost var avant, tete := datagrammes, listeJoueurs;
        var coup := Tour();
        if coup.Echec? {
          return Some(coup.anomalie), pas;
        } else if coup.Arret? {
          break;
        }
        ghost var passe := Passe(coup, Prochain(coup));
        PasseElargie(ctx, passe, tete, old(listeJoueurs));
        Publie(clients, joueurs, pas, passe);
        Concatener(old(datagrammes), Publications(clients, joueurs, pas), Publication(clients, joueurs, passe));
        assert forall j :: j in listeJoueurs ==> j in old(listeJoueurs) by {
          forall j | j in listeJoueurs ensures j in old(listeJoueurs) {
            assert multiset(listeJoueurs)[j] > 0;
          }
        }
        TourEnregistre(ctx, pas, passe, old(listeJoueurs));
        pas := pas + [passe];
      }
    }

    /** `jouer` of the older revision: the same loop; the messages of the
        passes recorded in `pas` are returned, the board after a move coming
        with the next player's name while the game goes on. */
    method JouerRacine() returns (ds: seq<Datagramme>, anomalie: Option<Anomalie>, ghost pas: seq<Passe>)
      requires Valide()
      modifies this`listeJoueurs, this`grille, this`mode, this`vainqueur, set j | j in listeJoueurs
      ensures ds == PublicationsRacine(clients, pas)
      ensures Tours(ctx, pas, old(listeJoueurs))
      ensures anomalie.None? ==> Valide() && multiset(listeJoueurs) == multiset(old(listeJoueurs))
      ensures anomalie.None? ==> mode == FinDePartie || (listeJoueurs != [] && listeJoueurs[0].commandes == [])
      ensures anomalie.None? && old(mode) < FinDePartie && mode == FinDePartie ==>
        && vainqueur.Some? && vainqueur.value in listeJoueurs
        && EstGagnable(Terrain(grille, Defaut(), vainqueur.value.coordonnees))
    {
      ds, anomalie, pas := [], None, [];
      while mode < FinDePartie
        invariant Valide()
        invariant multiset(listeJoueurs) == multiset(old(listeJoueurs))
        invariant forall j :: j in listeJoueurs ==> j in old(listeJoueurs)
        invariant old(mode) < FinDePartie && mode == FinDePartie ==>
          && vainqueur.Some? && vainqueur.value in listeJoueurs
          && EstGagnable(Terrain(grille, Defaut(), vainqueur.value.coordonnees))
        invariant ds == PublicationsRacine(clients, pas)
        invariant Tours(ctx, pas, old(listeJoueurs))
        decreases Attente(listeJoueurs)
      {
        var coup := JouerUnCoup();
        ghost var passe := Passe(coup, if coup.Joue? && mode < FinDePartie then Some(listeJoueurs[0]) else None);
        match coup {
          case Echec(a) =>
            return ds, Some(a), pas;
          case Arret =>
            break;
          case Refus(j, _, raison) =>
            ds := ds + [Datagramme(j.identifiantClient, Affichage, Violation(raison))];
          case Joue(_, _, _, _) =>
            if mode >= FinDePartie {
              PlateauxRacineFin(clients, listeJoueurs[0].nom, "");
            }
            ds := ds + PlateauxRacine(clients, mode < FinDePartie, listeJoueurs[0].nom);
        }
        PublieRacine(clients, pas, passe);
        assert forall j :: j in listeJoueurs ==> j in old(listeJoueurs) by {
          forall j | j in listeJoueurs ensures j in old(listeJoueurs) {
            assert multiset(listeJoueurs)[j] > 0;
          }
        }
        TourEnregistre(ctx, pas, passe, old(listeJoueurs));
        pas := pas + [passe];
      }
    }

    /** `ajouter_commande`: the input is turned into commands and queued for
        the client's player (an unknown client raises KeyError: `false`);
        when that player has commands waiting, the client is told which were
        added. */
    method AjouterCommande(c: IdClient, saisie: string) returns (connu: bool)
      requires Valide()
      modifies this`datagrammes, set k | k in joueurs :: joueurs[k]
      ensures Valide()
      ensures connu <==> c in joueurs
      ensures connu ==> joueurs[c].commandes == old(joueurs[c].commandes) + Developper(Analyser(saisie))
      ensures connu ==>
        datagrammes == old(datagrammes) +
          if joueurs[c].commandes != [] then [Datagramme(c, Affichage, CommandesAjoutees(Developper(Analyser(saisie))))] else []
      ensures !connu ==> datagrammes == old(datagrammes)
      ensures forall k :: k in joueurs && k != c ==> joueurs[k].commandes == old(joueurs[k].commandes)
    {
      var commandes := Extraire(saisie);
      if c !in joueurs {
        return false;
      }
      var joueur := joueurs[c];
      joueur.AjouterCommande(commandes);
      if joueur.commandes != [] {
        datagrammes := datagrammes + [Datagramme(c, Affichage, CommandesAjoutees(commandes))];
      }
      connu := true;
    }

    /** `ajouter_commande` of the older revision: the player's whole queue is
        returned. */
    method AjouterCommandeRacine(c: IdClient, saisie: string) returns (r: Option<seq<string>>)
      requires Valide()
      modifies set k | k in joueurs :: joueurs[k]
      ensures Valide()
      ensures r.Some? <==> c in joueurs
      ensures r.Some? ==> r.value == joueurs[c].commandes == old(joueurs[c].commandes) + Developper(Analyser(saisie))
      ensures forall k :: k in joueurs && k != c ==> joueurs[k].commandes == old(joueurs[k].commandes)
    {
      var commandes := Extraire(saisie);
      if c !in joueurs {
        return None;
      }
      var joueur := joueurs[c];
      joueur.AjouterCommande(commandes);
      r := Some(joueur.commandes);
    }

    /** `get_datagrammes`: the queued messages come out oldest first, and the
        queue is left empty. */
    method GetDatagrammes() returns (ds: seq<Datagramme>)
      modifies this`datagrammes
      ensures ds == old(datagrammes) && datagrammes == []
    {
      ds := [];
      while datagrammes != []
        invariant ds + datagrammes == old(datagrammes)
        decreases |datagrammes|
      {
        ds := ds + [datagrammes[0]];
        datagrammes := datagrammes[1..];
      }
    }

    /** `terminer`: every client learns the result, then receives the
        end-of-game datagram. */
    method Terminer()
      requires Valide()
      modifies this`datagrammes
      ensures datagrammes == old(datagrammes) + Resultats(clients, joueurs, vainqueur, true)
    {
      assert forall c :: c in clients ==> c in Ensemble(clients);
      datagrammes := datagrammes + Resultats(clients, joueurs, vainqueur, true);
    }

    /** `terminer` of the older revision: the results alone, returned; no
        end-of-game datagram is among them. */
    method TerminerRacine() returns (ds: seq<Datagramme>)
      requires Valide()
      ensures ds == Resultats(clients, joueurs, vainqueur, false)
      ensures forall d :: d in ds ==> d.client in clients && d.categorie == Affichage
    {
      assert forall c :: c in clients ==> c in Ensemble(clients);
      ds := Resultats(clients, joueurs, vainqueur, false);
      ResultatsVainqueur(clients, joueurs, vainqueur, false);
    }
  }
}
