// The server script: the port argument's validator, then the main thread's
// two loops over the server's message queue, first the lobby that admits
// players until one of them asks to start, then the game that runs until the
// maze declares it over. What the handlers post is the queue's content; a
// queue found empty ends a loop (the real thread would wait for more).

module Serveur {
  import opened Commun
  import opened Nombres
  import opened Controle
  import opened Joueurs
  import opened Labyrinthe
  import opened Messagerie
  import opened InterfaceServeur

  const PortMini: int := 0
  const PortMaxi: int := 65535

  datatype ErreurArgument = ArgumentTypeError(message: string)

  /** The one message for every refused port. */
  const MessageErreur: string := "Le port est un nombre compris entre " + Decimal(0) + " et " + Decimal(65535) + "."

  /** `validateur_port`: the text must read as an integer between the two
      bounds; otherwise the same error is raised. */
  function ValidateurPort(saisie: string): (r: Result<int, ErreurArgument>)
    ensures r.Success? <==> EstEntier(saisie) && PortMini <= ValeurEntiere(saisie) <= PortMaxi
    ensures r.Success? ==> r.value == ValeurEntiere(saisie)
    ensures r.Failure? ==> r.error == ArgumentTypeError(MessageErreur)
  {
    if !EstEntier(saisie) then Failure(ArgumentTypeError(MessageErreur))
    else
      var port := ValeurEntiere(saisie);
      if port < PortMini || port > PortMaxi then Failure(ArgumentTypeError(MessageErreur))
      else Success(port)
  }

  /** Every port written in decimal is accepted as itself, with or without a
      plus sign; a minus sign is accepted only before zero. */
  lemma PortsAcceptes(p: nat)
    requires p <= PortMaxi
    ensures ValidateurPort(Decimal(p)) == Success(p)
    ensures ValidateurPort("+" + Decimal(p)) == Success(p)
    ensures ValidateurPort("-" + Decimal(p)) == if p == 0 then Success(0) else Failure(ArgumentTypeError(MessageErreur))
  {
    LireDecimal(p);
    assert ("+" + Decimal(p))[1..] == Decimal(p);
    assert ("-" + Decimal(p))[1..] == Decimal(p);
  }

  /** Numbers past the upper bound are refused with the shared message. */
  lemma PortsRefuses(p: nat)
    requires p > PortMaxi
    ensures ValidateurPort(Decimal(p)) == Failure(ArgumentTypeError(MessageErreur))
  {
    LireDecimal(p);
  }

  /** `touche_commencer`. */
  const ToucheCommencer: char := 'C'

  /** What the lobby sends a newcomer after the maze's own messages: the
      pattern of the start key, the error text, the invitation. */
  function Consignes(c: IdClient): seq<Datagramme>
  {
    [Datagramme(c, ValidationSchema, MotifDeValidation(Classe([ToucheCommencer]))),
     Datagramme(c, ValidationErreur, ErreurDeSaisie),
     Datagramme(c, Affichage, Invite(ToucheCommencer))]
  }

  /** The post that ends the lobby. */
  predicate Commencer(p: Poste)
  {
    p.categorie == "commande" && p.message == Some([ToucheCommencer])
  }

  /** The lobby's `nouveau_joueur` branch: the maze admits the player if it
      can, its messages go out, then the lobby's own three, and admission
      stays open exactly while a start cell is free. */
  method NouveauJoueur(lab: Labyrinthe, serveur: ServeurTCP, p: Poste) returns (envoyes: seq<Datagramme>)
    requires lab.Valide()
    modifies lab`joueurs, lab`clients, lab`listeJoueurs, lab`datagrammes, serveur
    ensures lab.Valide() && lab.datagrammes == []
    ensures serveur.connexionAutorisee == lab.EstOuvert()
    ensures forall j :: j in lab.listeJoueurs ==> j in old(lab.listeJoueurs) || fresh(j)
    ensures envoyes == old(lab.datagrammes) +
      (if old(lab.mode) == DebutDePartie && old(|lab.listeJoueurs|) < |lab.departs| then lab.Accueil(p.emetteur, p.nom) else [])
      + Consignes(p.emetteur)
  {
    var j := lab.AjouterJoueur(p.emetteur, p.nom);
    var ds := lab.GetDatagrammes();
    envoyes := ds + Consignes(p.emetteur);
    serveur.connexionAutorisee := lab.EstOuvert();
  }

  /** The lobby: posts are taken oldest first; a newcomer joins, a departure
      removes its player, and the first `commande` carrying the start key
      ends the loop; anything else is ignored. The departure of a client
      without a player raises `KeyError`, which ends the program, here the
      loop. The first `lus` posts were read, and the last of them is the
      start request exactly when the lobby ended on one. */
  method Salon(lab: Labyrinthe, serveur: ServeurTCP, bus: Messagerie<Poste>)
    returns (commence: bool, envoyes: seq<Datagramme>, anomalie: Option<Anomalie>, ghost lus: nat)
    requires lab.Valide() && lab.mode == DebutDePartie && lab.datagrammes == []
    requires serveur.connexionAutorisee ==> lab.EstOuvert()
    modifies lab`joueurs, lab`clients, lab`listeJoueurs, lab`mode, lab`vainqueur, lab`datagrammes, serveur, bus
    ensures lab.Valide() && lab.mode == DebutDePartie && lab.datagrammes == []
    ensures serveur.connexionAutorisee ==> lab.EstOuvert()
    ensures lus <= |old(bus.messages)| && bus.messages == old(bus.messages)[lus..]
    ensures forall k :: 0 <= k < lus ==> (Commencer(old(bus.messages)[k]) <==> commence && k == lus - 1)
    ensures !commence && anomalie.None? ==> bus.messages == []
    ensures anomalie.Some? ==>
      && anomalie == Some(ClientInconnu) && !commence && lus >= 1
      && old(bus.messages)[lus - 1].categorie == "quitte" && old(bus.messages)[lus - 1].emetteur !in lab.joueurs
    ensures forall j :: j in lab.listeJoueurs ==> j in old(lab.listeJoueurs) || fresh(j)
  {
    commence, envoyes, anomalie, lus := false, [], None, 0;
    while bus.messages != []
      invariant lab.Valide() && lab.mode == DebutDePartie && lab.datagrammes == []
      invariant forall j :: j in lab.listeJoueurs ==> j in old(lab.listeJoueurs) || fresh(j)
      invariant serveur.connexionAutorisee ==> lab.EstOuvert()
      invariant lus <= |old(bus.messages)| && bus.messages == old(bus.messages)[lus..]
      invariant forall k :: 0 <= k < lus ==> !Commencer(old(bus.messages)[k])
      decreases |bus.messages|
    {
      var p := bus.Obtenir();
      assert p == old(bus.messages)[lus];
      lus := lus + 1;
      if p.categorie == "nouveau_joueur" {
        var ds := NouveauJoueur(lab, serveur, p);
        envoyes := envoyes + ds;
      } else if p.categorie == "quitte" {
        var connu := lab.EffacerJoueur(p.emetteur);
        if !connu {
          anomalie := Some(ClientInconnu);
          return;
        }
      } else if Commencer(p) {
        commence := true;
        return;
      }
    }
  }

  /** The game loop's `quitte` branch: the player is removed and the maze's
      messages go out. A client without a player raises `KeyError` before
      anything changes. */
  method Depart(lab: Labyrinthe, p: Poste) returns (envoyes: seq<Datagramme>, anomalie: Option<Anomalie>)
    requires lab.Valide()
    modifies lab`joueurs, lab`clients, lab`listeJoueurs, lab`mode, lab`vainqueur, lab`datagrammes
    ensures lab.Valide()
    ensures anomalie == if p.emetteur in old(lab.joueurs) then None else Some(ClientInconnu)
    ensures anomalie.Some? ==>
      && envoyes == [] && lab.joueurs == old(lab.joueurs) && lab.listeJoueurs == old(lab.listeJoueurs)
      && lab.mode == old(lab.mode) && lab.datagrammes == old(lab.datagrammes)
    ensures anomalie.None? ==> lab.datagrammes == [] && lab.joueurs == old(lab.joueurs) - {p.emetteur}
    ensures forall j :: j in lab.listeJoueurs ==> j in old(lab.listeJoueurs)
    ensures anomalie.None? ==>
      envoyes == old(lab.datagrammes) +
        if lab.mode >= JeuEnCours then
          Diffuser(lab.clients, AQuitte(old(lab.joueurs)[p.emetteur].nom)) + Plateaux(lab.clients) + lab.AnnoncesTour()
        else []
  {
    var connu := lab.EffacerJoueur(p.emetteur);
    if !connu {
      return [], Some(ClientInconnu);
    }
    envoyes := lab.GetDatagrammes();
    anomalie := None;
  }

  /** The notice `ajouter_commande` queues for client `c` whose player had
      `avant` queued: the commands read from `texte`, sent only when the
      player then has commands at all. */
  function Notification(c: IdClient, avant: seq<string>, texte: string): (ds: seq<Datagramme>)
    ensures |ds| <= 1
    ensures ds == [] <==> avant == [] && Developper(Analyser(texte)) == []
    ensures forall d :: d in ds ==> d.client == c && d.categorie == Affichage && d.message.CommandesAjoutees?
  {
    var ajoutees := Developper(Analyser(texte));
    if avant + ajoutees != [] then [Datagramme(c, Affichage, CommandesAjoutees(ajoutees))] else []
  }

  /** The game loop's `commande` branch: the commands are queued for the
      sender's player, the turns are played, and the maze's messages go
      out: what was queued before, the notice of the added commands when the
      player has some, then the messages of the passes `pas` of `jouer`. A
      client without a player raises `KeyError` before the turns are
      played; an exception in `jouer` ends the program too, here the loop. */
  method Commande(lab: Labyrinthe, p: Poste, texte: string)
    returns (envoyes: seq<Datagramme>, anomalie: Option<Anomalie>, ghost pas: seq<Passe>)
    requires lab.Valide()
    modifies lab`listeJoueurs, lab`grille, lab`mode, lab`vainqueur, lab`datagrammes, set j | j in lab.listeJoueurs
    ensures anomalie == Some(ClientInconnu) <==> p.emetteur !in lab.joueurs
    ensures p.emetteur !in lab.joueurs ==>
      && envoyes == [] && lab.Valide() && lab.datagrammes == old(lab.datagrammes)
      && lab.listeJoueurs == old(lab.listeJoueurs) && lab.mode == old(lab.mode) && lab.grille == old(lab.grille)
    ensures anomalie.None? ==> lab.Valide() && lab.datagrammes == [] && multiset(lab.listeJoueurs) == multiset(old(lab.listeJoueurs))
    ensures anomalie.None? ==> lab.mode == FinDePartie || (lab.listeJoueurs != [] && lab.listeJoueurs[0].commandes == [])
    ensures anomalie.None? ==>
      && p.emetteur in lab.joueurs
      && envoyes == old(lab.datagrammes) + Notification(p.emetteur, old(lab.joueurs[p.emetteur].commandes), texte)
                    + Publications(lab.clients, lab.joueurs, pas)
      && Tours(lab.ctx, pas, old(lab.listeJoueurs))
  {
    assert forall k :: k in lab.joueurs ==> lab.joueurs[k] in lab.listeJoueurs;
    var connu := lab.AjouterCommande(p.emetteur, texte);
    if !connu {
      return [], Some(ClientInconnu), [];
    }
    anomalie, pas := lab.Jouer();
    envoyes := [];
    if anomalie.None? {
      envoyes := lab.GetDatagrammes();
    }
  }

  /** The game loop: posts are taken oldest first while the game is not
      over; a departure removes its player, a `commande` is played; anything
      else (a newcomer among them) is ignored. When it ends without an
      exception, the game is over or the queue is exhausted; a `KeyError`
      comes from the last post read, a departure or a command of a client
      without a player. */
  method Principale(lab: Labyrinthe, bus: Messagerie<Poste>)
    returns (envoyes: seq<Datagramme>, anomalie: Option<Anomalie>, ghost lus: nat)
    requires lab.Valide() && lab.datagrammes == []
    modifies lab`joueurs, lab`clients, lab`listeJoueurs, lab`grille, lab`mode, lab`vainqueur, lab`datagrammes, bus
    modifies set j | j in lab.listeJoueurs
    ensures lus <= |old(bus.messages)| && bus.messages == old(bus.messages)[lus..]
    ensures anomalie.None? ==> lab.Valide() && lab.datagrammes == []
    ensures anomalie.None? ==> lab.mode >= FinDePartie || bus.messages == []
    ensures anomalie == Some(ClientInconnu) ==>
      && lus >= 1 && old(bus.messages)[lus - 1].emetteur !in lab.joueurs
      && old(bus.messages)[lus - 1].categorie in {"quitte", "commande"}
  {
    envoyes, anomalie, lus := [], None, 0;
    while lab.mode < FinDePartie && bus.messages != []
      invariant lab.Valide() && lab.datagrammes == [] && anomalie.None?
      invariant lus <= |old(bus.messages)| && bus.messages == old(bus.messages)[lus..]
      invariant forall j :: j in lab.listeJoueurs ==> j in old(lab.listeJoueurs)
      decreases |bus.messages|
    {
      var p := bus.Obtenir();
      assert p == old(bus.messages)[lus];
      lus := lus + 1;
      if p.categorie == "quitte" {
        var ds;
        ds, anomalie := Depart(lab, p);
        envoyes := envoyes + ds;
        if anomalie.Some? {
          return;
        }
      } else if p.categorie == "commande" && p.message.Some? {
        ghost var avant := lab.listeJoueurs;
        var ds;
        ghost var pas;
        ds, anomalie, pas := Commande(lab, p, p.message.value);
        envoyes := envoyes + ds;
        if anomalie.Some? {
          return;
        }
        forall j | j in lab.listeJoueurs ensures j in old(lab.listeJoueurs) {
          assert j in avant by {
            assert multiset(lab.listeJoueurs)[j] > 0;
          }
        }
      }
    }
  }

  /** After the lobby: the game starts, and its opening, the board and the
      first turn announcement go out. */
  method Ouvrir(lab: Labyrinthe) returns (envoyes: seq<Datagramme>)
    requires lab.Valide() && lab.datagrammes == []
    modifies lab`mode, lab`listeJoueurs, lab`datagrammes, set j | j in lab.listeJoueurs
    ensures lab.Valide() && lab.mode == JeuEnCours && lab.datagrammes == []
    ensures multiset(lab.listeJoueurs) == multiset(old(lab.listeJoueurs))
    ensures envoyes == Ouverture(lab.clients, lab.ctx.motif, |lab.listeJoueurs|, lab.ctx.descriptions)
      + Plateaux(lab.clients) + lab.AnnoncesTour()
  {
    ghost var indice, ordre := lab.Demarrer();
    ghost var ouverture := Ouverture(lab.clients, lab.ctx.motif, |lab.listeJoueurs|, lab.ctx.descriptions);
    assert lab.datagrammes == [] + ouverture + Plateaux(lab.clients) + lab.AnnoncesTour();
    assert [] + ouverture == ouverture;
    envoyes := lab.GetDatagrammes();
  }

  /** Once the game is over: the results go out. */
  method Conclure(lab: Labyrinthe) returns (envoyes: seq<Datagramme>)
    requires lab.Valide() && lab.datagrammes == []
    modifies lab`datagrammes
    ensures lab.datagrammes == []
    ensures envoyes == Resultats(lab.clients, lab.joueurs, lab.vainqueur, true)
  {
    lab.Terminer();
    envoyes := lab.GetDatagrammes();
  }

  /** After the lobby: the opening goes out, the game loop runs and, once
      the game is over, the results go out last. */
  method Jeu(lab: Labyrinthe, bus: Messagerie<Poste>) returns (envoyes: seq<Datagramme>, anomalie: Option<Anomalie>)
    requires lab.Valide() && lab.datagrammes == []
    modifies lab`joueurs, lab`clients, lab`listeJoueurs, lab`grille, lab`mode, lab`vainqueur, lab`datagrammes, bus
    modifies set j | j in lab.listeJoueurs
    ensures anomalie.None? ==> lab.Valide() && (lab.mode == FinDePartie || bus.messages == [])
    ensures anomalie.None? && lab.mode == FinDePartie ==>
      var resultats := Resultats(lab.clients, lab.joueurs, lab.vainqueur, true);
      |resultats| <= |envoyes| && envoyes[|envoyes| - |resultats|..] == resultats
  {
    ghost var inscrits := lab.listeJoueurs;
    envoyes := Ouvrir(lab);
    assert forall j :: j in lab.listeJoueurs ==> j in inscrits by {
      forall j | j in lab.listeJoueurs ensures j in inscrits {
        assert multiset(lab.listeJoueurs)[j] > 0;
      }
    }
    var ds;
    ghost var lus;
    ds, anomalie, lus := Principale(lab, bus);
    envoyes := envoyes + ds;
    if anomalie.None? && lab.mode == FinDePartie {
      ds := Conclure(lab);
      envoyes := envoyes + ds;
      assert envoyes[|envoyes| - |ds|..] == ds;
    }
  }

  /** The script once the maze is built: admission opens as the maze allows
      and the lobby runs. On the start request admission closes and the game
      is played; a `KeyError` in the lobby ends the program before. */
  method Partie(lab: Labyrinthe, serveur: ServeurTCP, bus: Messagerie<Poste>)
    returns (commence: bool, envoyes: seq<Datagramme>, anomalie: Option<Anomalie>)
    requires lab.Valide() && lab.mode == DebutDePartie && lab.datagrammes == []
    modifies lab, serveur, bus, set j | j in lab.listeJoueurs
    ensures !commence ==> lab.mode == DebutDePartie && (serveur.connexionAutorisee ==> lab.EstOuvert())
    ensures !commence ==> (anomalie.None? ==> bus.messages == []) && (anomalie.Some? ==> anomalie == Some(ClientInconnu))
    ensures commence ==> !serveur.connexionAutorisee
    ensures commence && anomalie.None? ==> lab.Valide() && (lab.mode == FinDePartie || bus.messages == [])
  {
    serveur.connexionAutorisee := lab.EstOuvert();
    ghost var lus;
    commence, envoyes, anomalie, lus := Salon(lab, serveur, bus);
    if !commence {
      return;
    }
    serveur.connexionAutorisee := false;
    var ds;
    ds, anomalie := Jeu(lab, bus);
    envoyes := envoyes + ds;
  }
}
