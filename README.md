# Roboc maze game: a verified model of its engine

Roboc is a text maze game played over the network. A server reads a maze map,
admits players in a lobby and, once one of them asks to start, places them on
start cells ranked by their distance from the exits. It then plays their
queued commands in turn under the maze's rules until someone reaches an exit
or only one player is left. A client validates what the player types against
the pattern the server sent and forwards the accepted commands.

This project models that core in Dafny:

- the cell kinds and the registry the element metaclass fills (`element.dfy`);
- the controls, the default key bindings, the validation pattern, and the
  extraction and decoding of commands (`controle.dfy`);
- the rule snapshot, the four rules, the two rule sets and their evaluation (`regle.dfy`);
- the player's command queue (`joueur.dfy`);
- the map validator (`carte.dfy`), built on `str.splitlines` (`texte.dfy`);
- the list of map files and its filters (`dossier.dfy`);
- the message queue and the three-byte length header (`messagerie.dfy`);
- the maze itself (`labyrinthe.dfy`), with the map reading (`decodage.dfy`)
  and the bounding box and start-cell search (`departs.dfy`);
- the client's input validator (`interface_client.dfy`);
- the server's player counter, connection handler and admission flag
  (`interface_serveur.dfy`);
- the server script's port validator and its lobby and game loops (`serveur.dfy`);
- the client script's main loop (`client.dfy`);
- decimal text of integers (`nombres.dfy`) and shared vocabulary (`commun.dfy`).

Objects the source updates in place are classes: the player, the maze, the
element registry, the control registry, the validator, the message queue, the
map file list, the counter and the handler. Their methods state the whole new
state. Pure decisions are functions, with lemmas stating what they promise.

The repository holds two revisions: `lib/` and an older one at its top level.

- `regle.py`, `controle.py` and `messagerie.py` at the top level differ from
  their `lib/` versions only in comments, names of parameters and imports.
  The `lib/` members model both.
- `client.py`'s `validateur_port` (lines 15-36) is the same function as
  `serveur.py`'s. `Serveur.ValidateurPort` models both.
- The older `labyrinthe.py` decodes the map, ranks the start cells, admits
  and removes players exactly as `lib/labyrinthe.py` does:
  - `creer_labyrinthe` (106-128), `determiner_departs` (130-174) and
    `dimensionner` (176-201);
  - `ajouter_joueur` (242-257) and `effacer_joueur` (259-278);
  - the placement of `demarrer` (318-324).

  Its methods that return their messages from generators are the members
  ending in `Racine`. So are the validator of the older
  `interface_client.py`, which raises on a mismatch, and its lines.

Python's randomness (`randint`, `sample`, `shuffle`) is an arbitrary choice in
the allowed range or an arbitrary permutation. A Python set's iteration order
is an explicit parameter, and the rule lemmas hold for every order.

## Model

| member | source | states |
|---|---|---|
| Joueurs.Joueur.constructor | lib/joueur.py:23-34 | a new player keeps the client and the name given, stands at (0, 0) and has no command queued |
| Joueurs.Joueur.AjouterCommande | lib/joueur.py:36-43 | the commands given are queued at the tail, in order, after those already queued |
| Joueurs.Joueur.RetirerCommande | lib/joueur.py:45-53 | the oldest command is returned and leaves the queue; an empty queue raises (`None`) and stays empty |
| Joueurs.OrdreDesCommandes | lib/joueur.py:36-53 | two commands queued one at a time come out in the order they went in, leaving the queue empty |
| Messagerie.Entete | lib/messagerie.py:58-62 | the header of a length is three bytes that read back big-endian as that length; a length of 2^24 or more raises OverflowError |
| Messagerie.LongueurRecue | lib/messagerie.py:83-86 | an empty header means the connection was closed; otherwise the length read is below 2^24 |
| Messagerie.AllerRetour | lib/messagerie.py:58-62 | every length that fits is read back by the receiver as the length that was sent |
| Messagerie.EnteteDepuisOctets | lib/messagerie.py:83-86 | every three-byte header is exactly the header of the length it reads as, so header and length are in one-to-one correspondence |
| Messagerie.Messagerie.constructor | lib/messagerie.py:102-103 | the shared list starts empty |
| Messagerie.Messagerie.Ajouter | lib/messagerie.py:105-118 | the message is appended at the end of the list and nothing else changes |
| Messagerie.Messagerie.Obtenir | lib/messagerie.py:119-133 | the oldest message is removed and returned, the rest keep their order |
| Messagerie.Messagerie.Effacer | lib/messagerie.py:134-141 | the list is empty afterwards |
| Messagerie.Ordre | lib/messagerie.py:105-133 | two messages added one after the other are obtained in the same order, leaving the list empty |
| Texte.Ligne | lib/carte.py:66 | the first line returned by `splitlines` is the longest prefix free of boundary characters, and it stops at a boundary or at the end of the text |
| Texte.JoindreLignes | lib/carte.py:65-67 | the lines of a text, concatenated, give back exactly the text with its boundary characters removed |
| Texte.DansSansFins | lib/carte.py:65-67 | a character is kept when the lines are joined iff it occurs in the text and is not a line boundary |
| Texte.LignesSansFin | lib/labyrinthe.py:126 | no line returned by `splitlines` contains a boundary character |
| Texte.ExempleLignes | lib/labyrinthe.py:126 | "\r\n" counts as one boundary and an empty line between two boundaries is kept |
| Carte.Carte.constructor | lib/carte.py:26-42 | a map keeps its content and name and is valid exactly when its content passes validation |
| Carte.Carte.VerifierContenu | lib/carte.py:57-78 | the map is marked valid iff, once the lines are joined, every obligatory symbol occurs and every character is known |
| Carte.ValiditeDuTexte | lib/carte.py:57-78 | on the raw text, validity means: every obligatory symbol occurs outside line boundaries, and every character that is not a boundary is known |
| Carte.FinDeLigneSansEffet | lib/carte.py:65-67 | inserting or removing a line boundary anywhere never changes the verdict |
| Carte.CarteVide | lib/carte.py:57-78 | an empty map is valid iff nothing is obligatory |
| Carte.Carte.EstVraie | lib/carte.py:80-87 | a map object is true exactly when its content holds every obligatory symbol and only known ones |
| Dossier.Dossier.Vide | lib/dossier.py:46-52 | with an empty path the five lists start empty and nothing is listed |
| Dossier.Dossier.Longueur | lib/dossier.py:169-176 | `len` is the number of files listed, and every one of the five lists has that length |
| Dossier.Dossier.Ajouter | lib/dossier.py:60-77 | one file is added at the end of all five lists, which stay in step |
| Dossier.Dossier.Effacer | lib/dossier.py:87-92 | one `del` at an index on all five lists removes exactly that file, the others keep their order |
| Dossier.Dossier.Enlever | lib/dossier.py:79-92 | deleting an increasing list of indices, last one first, removes exactly the files at those original positions |
| Dossier.Ecartes | lib/dossier.py:126-129 | the index list built by a filter is increasing, in range, and holds exactly the positions whose entry fails the test |
| Dossier.Supprimer | lib/dossier.py:87-92 | deleting a position lower than every position already deleted removes one more original position, which is why the deletions run in reverse |
| Dossier.Dossier.Retenir | lib/dossier.py:130-133 | deleting the rejected indices leaves exactly the entries the test keeps, in order; an empty result is the filter's error |
| Dossier.Dossier.FiltrerExtension | lib/dossier.py:117-133 | only the files with that extension remain, in order; FileNotFoundError iff none remains |
| Dossier.Dossier.FiltrerFichiersNonVides | lib/dossier.py:135-150 | only the non-empty files remain, in order; EOFError iff none remains |
| Dossier.Dossier.FiltrerContenus | lib/dossier.py:152-167 | only the files whose content object is true remain, in order; FileNotFoundError iff none remains |
| Dossier.Dossier.Charger | lib/dossier.py:52-58 | listing the files, then the extension, size and content filters in that order, gives the files all the filters that ran keep, or the error of the first filter that left nothing |
| Dossier.GarderCorrect | lib/dossier.py:52-58 | a successful listing is non-empty and holds only files found, non-empty, with the extension asked for and, with a class, a true content |
| Dossier.Filtre | lib/dossier.py:126-131 | a filter keeps no more entries than it was given, and each one kept was given and passes the test |
| Element.PremiereFamille | lib/element.py:72-94 | the family whose `transformee` an element inherits is one of its bases, and there is none only when no base is a family |
| Element.InscrireAvecSymbole | lib/element.py:111-129 | creating a class that has a map symbol files it under that symbol exactly when it is Decryptable (resp. Gagnable), makes it the default obstacle exactly when it is Defaut, and never fails |
| Element.InscrireSansSymbole | lib/element.py:111-129 | creating a class without a map symbol succeeds iff no base is Decryptable or Gagnable (otherwise KeyError), and leaves both maps untouched |
| Element.Decoder | lib/element.py:141-155 | `get_decryptable` returns the class filed under the symbol, and the default obstacle for any other symbol |
| Element.Oter | lib/element.py:157-170 | `enlever` drops the symbol from both maps whether or not it was there, and changes no other entry |
| Element.OterDecode | lib/element.py:141-170 | after `enlever`, `get_decryptable` reads the symbol as the default obstacle and every other symbol as before; a second `enlever` of the same symbol changes nothing |
| Element.Inclusions | lib/element.py:30-94 | Gagnable implies Traversable and Decryptable, Demarrable implies Traversable, Decrypte implies Decryptable, Murable and Percable imply Transformable |
| Element.DecoderConnu | lib/element.py:141-155 | in a registry with a default obstacle, every symbol decodes to an element the maze knows |
| Element.TransformeeConnue | lib/element.py:244-247 | a bound `transformee` is an element the maze knows |
| Element.Elements.Vide | lib/element.py:106-108 | the metaclass starts with empty maps and no default obstacle |
| Element.Elements.Enregistrer | lib/element.py:111-129 | the loop over the bases of a new class updates the registry as the per-base rule says, and stops with KeyError at a base that needs the missing symbol |
| Element.Elements.Enlever | lib/element.py:157-170 | the registry after `enlever` is the one `Oter` describes |
| Element.Elements.GetDecryptable | lib/element.py:141-155 | the class filed under the symbol, else the default obstacle |
| Element.Elements.Lier | lib/element.py:244-247 | binding a family's `transformee` changes that binding only |
| Element.Elements.Standard | lib/element.py:173-247 | importing the module leaves '.', 'O', 'U' and ' ' decodable to Porte, Mur, Sortie and Sol, 'U' winning, Sol as default obstacle, and Mur and Porte as the `transformee` of Murable and Percable |
| Element.CapacitesPorte | lib/element.py:182-190 | Porte is Decrypte, Decryptable, Traversable and Murable, and is not Gagnable, Defaut or Demarrable |
| Element.CapacitesMur | lib/element.py:193-201 | Mur is Decrypte, Decryptable and Percable, and is not Traversable, Gagnable, Defaut or Demarrable |
| Element.CapacitesSortie | lib/element.py:204-212 | Sortie is Decrypte, Decryptable, Gagnable and Traversable |
| Element.SortieFixe | lib/element.py:204-212 | Sortie is not Defaut, Demarrable or Transformable |
| Element.CapacitesSol | lib/element.py:215-223 | Sol is Decryptable, Defaut, Demarrable and Traversable, and is not Decrypte |
| Element.SolInerte | lib/element.py:215-223 | Sol is neither Gagnable nor Transformable |
| Element.CapacitesMarqueurs | lib/element.py:226-241 | Robot and Adversaire are neither Decryptable, Gagnable nor Defaut |
| Element.TransformeesStandard | lib/element.py:244-247 | Porte transforms into Mur and Mur into Porte |
| Element.ConnusStandard | lib/element.py:173-247 | the only elements the standard registry knows are Porte, Mur, Sortie and Sol |
| Element.CompletStandard | lib/element.py:215-247 | the standard registry has a default obstacle and a `transformee` for every transformable element it knows |
| Element.DecoderStandard | lib/element.py:141-155 | with the standard registry '.', 'O' and 'U' decode to Porte, Mur and Sortie, and every other character to Sol |
| Controle.Controles.Vide | lib/controle.py:38-40 | the class-level key lists, descriptions, key map and direction set start empty |
| Controle.Controles.NouveauMouvement | lib/controle.py:42-56 | a movement control carries its key, "key - description - help" text, help and vector; the vector joins the direction set, the key joins the movement keys and the shared map, the text joins the descriptions, and the transform keys stay as they were |
| Controle.Controles.NouvelleTransformation | lib/controle.py:153-165 | a transform control carries its key, text, help and family; the key joins the transform keys and the shared map, the text joins the descriptions, and the movement keys and directions stay as they were |
| Controle.Controles.EffacerControle | lib/controle.py:65-73 | `Controle.effacer` empties the descriptions and the key map and leaves the subclasses' own lists alone |
| Controle.Controles.EffacerMouvement | lib/controle.py:128-135 | `Mouvement.effacer` empties the movement keys and directions only |
| Controle.Controles.EffacerTransformation | lib/controle.py:187-193 | `Transformation.effacer` empties the transform keys only |
| Controle.MotifValidation | lib/controle.py:212 | the pattern is fixed at import from the default keys; every input it accepts is nonempty and starts with one of the movement keys NSEO or transform keys MP |
| Controle.Controles.ParDefaut | lib/controle.py:204-210 | after import the movement keys are N, S, E, O with their four vectors, the transform keys are M and P, the key map binds the six controls, and the descriptions are their six "key - description - help" texts in creation order |
| Controle.Chiffres | lib/controle.py:126 | the digit group of a movement is the longest run of ASCII digits after the key |
| Controle.Pas | lib/controle.py:212-214 | at each position `findall` either takes a movement with its digits, or a transform with a movement, or skips one character, and the result splits accordingly |
| Controle.AnalyserPas | lib/controle.py:212-214 | the commands of a nonempty text are those of its first match followed by those of the rest, case by case |
| Controle.Extraire | lib/controle.py:217-238 | the loop over the matches `findall` returns expands each in turn, so `extraire` returns exactly the expansion, in order, of all the matches |
| Controle.DevelopperConcat | lib/controle.py:230-237 | expanding matches keeps their order |
| Controle.ExpansionJeton | lib/controle.py:230-237 | a movement with digits gives int(digits) copies of its key, a bare movement one copy, a transform one two-character command |
| Controle.AnalyserBienForme | lib/controle.py:213-214 | every match is a movement key with digits or a transform key with a movement key |
| Controle.ExtractionValide | lib/controle.py:217-238 | every command `extraire` returns is one movement key or a transform key followed by a movement key |
| Controle.ValideEntierementCouvert | lib/controle.py:212-214 | an input the validation pattern accepts is covered entirely by the extraction matches: nothing in it is skipped |
| Controle.RepetitionsCommence | lib/controle.py:212 | a nonempty input the validation pattern accepts starts with a key, never with a digit |
| Controle.RepetitionsCas | lib/controle.py:212 | an accepted input starts either with a movement and digits or with a transform and a movement, followed by another accepted input |
| Controle.ChiffresAccordes | lib/controle.py:212-214 | when the pattern's digit run after a movement is followed by a non-digit, the scanner takes the same run |
| Controle.ExempleRepetition | lib/controle.py:230-235 | "N3E2" gives N, N, N, E, E |
| Controle.ExempleZero | lib/controle.py:232-233 | "N0" gives no command at all |
| Controle.ExempleTransformation | lib/controle.py:228-237 | "xPEz" gives the single command "PE"; the other characters are skipped |
| Controle.ObtenirControle | lib/controle.py:241-254 | the action of the last key, and of the first key exactly when the command has two characters; an empty command raises IndexError and an unbound key KeyError |
| Controle.DecoderCommande | lib/controle.py:241-254 | with bindings for every extraction key, each extracted command decodes to a vector, plus a transform family exactly when it has two keys |
| Controle.ParDefautLieLesTouches | lib/controle.py:204-210 | the bindings after import cover every extraction key with a control of the right kind |
| Regle.NouvelEtat | lib/regle.py:63-82 | the target is the player's position plus the direction; the element is the grid's at the target, or the default obstacle where the grid has none; the transform and the opponents' positions are kept |
| Regle.RencontrerOccupe | lib/regle.py:140-153 | the opponent loop refuses iff some opponent stands on the target, and then with the "player present" reason |
| Regle.Decisions | lib/regle.py:127-181 | crossing is refused iff the element is not Traversable, an encounter iff the target is occupied, a transform iff the element is outside the requested family; only the win rule wins, iff the element is Gagnable |
| Regle.Regles.ListerRegles | lib/regle.py:106-124 | the decorator adds the rule to the chosen set only, and returns the rule unchanged; decorating a rule already in the set leaves both sets as they were |
| Regle.Regles.constructor | lib/regle.py:106-181 | after import the movement set holds the crossing, encounter and win rules, and the transformation set the encounter and transform rules |
| Regle.EvaluerCaracterise | lib/regle.py:102-103 | a set passes iff every rule in it passes; otherwise the outcome is the exception one of its rules raised |
| Regle.VictoireGagnable | lib/regle.py:156-166 | in any order, a win comes from the win rule on a Gagnable element |
| Regle.PremiereDecide | lib/regle.py:102-103 | the first rule called decides the outcome whenever it raises |
| Regle.Mouvement | lib/regle.py:98-166 | for every iteration order: a move onto a non-Traversable element, or onto an occupied non-winning cell, is refused; onto a free Traversable Gagnable cell it wins; it passes iff the target is Traversable, free and not Gagnable |
| Regle.SortieOccupee | lib/regle.py:140-166 | an occupied winning cell is refused in one iteration order of the movement set and won in another |
| Regle.Transformation | lib/regle.py:98-181 | for every iteration order a transform passes iff the target is free and of the requested family, and otherwise is refused, never won |
| Regle.Selection | lib/regle.py:90-103 | `verifier_regles` uses the transformation set exactly when a transform is requested, with the outcomes above |
| Regle.VictoireMouvement | lib/regle.py:90-103 | a step that wins is a move without transform onto a Gagnable element |
| Decodage.CreerLabyrinthe | lib/labyrinthe.py:126-136 | the loop over lines and characters leaves exactly the grid, exits and unknown characters that the recursive reading `Decoder` gives |
| Decodage.GrilleDecodee | lib/labyrinthe.py:126-136 | a cell is in the grid iff it lies on the map and the element read there (upper-cased, unknown read as the default element) is Decrypte |
| Decodage.GrilleValeurs | lib/labyrinthe.py:129-136 | every grid cell holds the element read at that place on the map |
| Decodage.SortiesDecodees | lib/labyrinthe.py:126-134 | a coordinate is listed as an exit iff it lies on the map and its element is Gagnable; exits come line by line, left to right, so none is listed twice |
| Decodage.InconnusDecodes | lib/labyrinthe.py:128-132 | a character is recorded as unknown iff it is not decryptable and some character of the map upper-cases to it |
| Departs.Bornes | lib/labyrinthe.py:196-209 | with no coordinate the box is ((0, 0), (0, 0)); otherwise it contains every coordinate and each of its four bounds is reached by one of them |
| Departs.BornesMinimales | lib/labyrinthe.py:199-205 | any box holding every coordinate contains the computed box |
| Departs.BornesCadre | lib/labyrinthe.py:196-209 | the computed box is the bounding box of the set of coordinates |
| Departs.CadreUnique | lib/labyrinthe.py:199-209 | a set has one bounding box only |
| Departs.Explorer | lib/labyrinthe.py:162-178 | the neighbours of one cell: known distances are kept; a newly reached cell lies on the board at the cell's distance plus the cost of entering it (one for a start or passable cell, two for a cell transformable into a passable one) and is reached from a recorded neighbour; afterwards every enterable neighbour on the board is recorded and no recorded neighbour costs more than through this cell; the new start cells join the layer's starts |
| Departs.ParcourirCouche | lib/labyrinthe.py:159-178 | one layer: every newly reached cell is on the board at the layer's distance plus its entry cost, reached from a recorded neighbour; every cell of the layer has all its enterable neighbours recorded at no more than through it; the collected starts are exactly the new start cells, distinct |
| Departs.Avancer | lib/labyrinthe.py:158-182 | one pass of the outer loop keeps the search's invariant for the next distance, and either reaches a new cell of the board or reaches none |
| Departs.Progres | lib/labyrinthe.py:158-182 | a layer that reaches a new cell leaves fewer unreached cells of the board; one that reaches none changes nothing (the search terminates) |
| Departs.Allonger | lib/labyrinthe.py:179-181 | appending a shuffled layer keeps the starts distinct and ordered by distance |
| Departs.DeterminerDeparts | lib/labyrinthe.py:155-182 | the start cells found are distinct start cells inside the board, none an exit, listed by non-decreasing distance; exits are at 0, every other reached cell is on the board, enterable and reached from a recorded neighbour at that neighbour's distance plus its entry cost; every enterable neighbour on the board of a reached cell is reached; every reached start cell is listed |
| Departs.PlusCourt | lib/labyrinthe.py:155-182 | the end of any walk from an exit through enterable cells of the board is reached, at a distance no greater than the walk's cost |
| Departs.CheminVers | lib/labyrinthe.py:155-182 | every reached cell ends a walk from an exit whose cost is its distance, so the distance is the cost of a cheapest walk |
| Labyrinthe.Diffuser | lib/labyrinthe.py:351-352 | each client, in dictionary order, receives the same display message once |
| Labyrinthe.Annonces | lib/labyrinthe.py:304-310 | one message per client: the player whose turn it is reads that it is theirs, every other reads that player's name |
| Labyrinthe.ResultatsVainqueur | lib/labyrinthe.py:460-471 | only the winner's client reads that they won, any other reads the winner's name; every datagram goes to a listed client; without the end datagram all are display messages |
| Labyrinthe.ResultatsSansVainqueur | lib/labyrinthe.py:460-471 | with no winner each client only gets the end datagram (library revision), or nothing (older revision) |
| Labyrinthe.Instantane | lib/labyrinthe.py:430-431 | a snapshot that can be built judges the element standing at its target and the other players' positions |
| Labyrinthe.InstantaneCommande | lib/labyrinthe.py:395-431 | every command produced by the extraction yields a snapshot whose target is the position moved by the last key's vector, with a transform requested exactly when the command starts with a transform key |
| Labyrinthe.GrilleTransformee | lib/labyrinthe.py:443-451 | after a transform the target holds the element's `transformee` when that is Decrypte and is cleared otherwise; no other cell changes |
| Labyrinthe.InscritsAjout | lib/labyrinthe.py:260-264 | adding a player under a new client lists the client last; a known client keeps its place and its entry is replaced |
| Labyrinthe.InscritsRetrait | lib/labyrinthe.py:278-280 | removing a client's player takes the client and that player out, and the turn list shrinks by one |
| Labyrinthe.InscritsPermutation | lib/labyrinthe.py:371 | shuffling the turn list keeps dictionary and list in agreement |
| Labyrinthe.CasesDistinctes | lib/labyrinthe.py:370-374 | players given consecutive cells of a list without repetition stand on pairwise different cells |
| Labyrinthe.Attribuer | lib/labyrinthe.py:372-374 | the k-th player in the drawn order gets the start cell at index + k; commands are untouched |
| Labyrinthe.Labyrinthe.Dimensionner | lib/labyrinthe.py:184-209 | the box returned is the bounding box of the grid's cells and, once the game has started, of the players' positions |
| Labyrinthe.Labyrinthe.constructor | lib/labyrinthe.py:48-73 | the grid, exits and unknown characters are those decoded from the map; no player, opening mode, no datagram; the start cells are every start cell reachable from an exit inside the grid's box, listed once each by non-decreasing distance from the exits, as `DeterminerDeparts` states |
| Labyrinthe.Labyrinthe.AjouterJoueurInterne | lib/labyrinthe.py:250-266 | a player joins iff the game has not started and a start cell is free; the new player is added to the dictionary and at the end of the turn list; otherwise nothing changes; the roster stays consistent |
| Labyrinthe.Labyrinthe.EffacerJoueurInterne | lib/labyrinthe.py:268-287 | an unknown client changes nothing; a known one leaves dictionary and turn list; during a game, with at most one player left, the game ends and the remaining player, if any, wins |
| Labyrinthe.Labyrinthe.AjouterJoueur | lib/labyrinthe.py:322-337 | joins as above, and a joined player is sent the empty line, greeting, maze name and board, in that order |
| Labyrinthe.Labyrinthe.Accueillir | labyrinthe.py:289-303 | the same welcome is returned iff the player joined; nothing else is returned |
| Labyrinthe.Labyrinthe.EffacerJoueur | lib/labyrinthe.py:339-354 | the player leaves as above; during a game every remaining client learns who left, then gets the board and whose turn it is |
| Labyrinthe.Labyrinthe.Placer | lib/labyrinthe.py:368-374 | the game starts; the turn list is a permutation of the old one; players get consecutive start cells from a drawn index that leaves a cell for each, so no two share a cell |
| Labyrinthe.Labyrinthe.Demarrer | lib/labyrinthe.py:356-384 | placement as above, then every client receives the input pattern, the refusal message, the player count and the control descriptions, then the boards and whose turn it is |
| Labyrinthe.Labyrinthe.DemarrerRacine | labyrinthe.py:305-333 | placement as above; each client is returned the player count, the descriptions, the board and the first player's name |
| Labyrinthe.Labyrinthe.Prendre | lib/labyrinthe.py:422-424 | the head player leaves the turn list and their oldest command is taken, or none when the queue is empty |
| Labyrinthe.Labyrinthe.Deplacer | lib/labyrinthe.py:443-453 | a move places the player on the target and leaves the grid; a transform changes the target cell and leaves the player |
| Labyrinthe.Labyrinthe.Executer | lib/labyrinthe.py:439-455 | a command that breaks no rule is played; a winning one ends the game with the player as winner standing on a Gagnable cell; the player goes to the tail |
| Labyrinthe.Labyrinthe.Juger | lib/labyrinthe.py:430-455 | an unknown key changes nothing; a rule broken puts the player back at the head with nothing else changed; otherwise the command is played with the outcome `verifier_regles` gives |
| Labyrinthe.Labyrinthe.JouerUnCoup | lib/labyrinthe.py:421-456 | an empty turn list is an error; a player with no command goes back to the head and the loop stops; a refused or played command is the head player's, uses up one queued command, and carries the rules' verdict (the refusal's reason, or the outcome played); the turn list stays a permutation |
| Labyrinthe.Labyrinthe.Tour | lib/labyrinthe.py:421-458 | a refused command is reported to its player only; after a played one every client gets the board, then whose turn it is; the pass is the head player's, with the rules' verdict |
| Labyrinthe.Labyrinthe.Publier | lib/labyrinthe.py:435-458 | the messages of one step: the rule's reason to the refused player, or boards and turn announcements to everyone |
| Labyrinthe.Labyrinthe.Jouer | lib/labyrinthe.py:401-458 | the loop ends (fewer commands queued each pass); the queue gains exactly the messages of the recorded passes, each a command of one of the call's players, refused with the reason the rules gave or played with the rules' outcome, the next player announced after every played command that did not win; without an error either the game is over or the head player has nothing queued; a game it ends has a winner on a Gagnable cell |
| Labyrinthe.PublicationsDestinataires | lib/labyrinthe.py:435-458 | everything a run of passes sends is a display message: a broken rule's reason to the client of a player refused in one of the passes, or a board or turn message to a listed client |
| Labyrinthe.ViolationsDesJoueurs | lib/labyrinthe.py:430-436 | for the passes of one call, every reason sent goes to the client of a player of the turn list and is a verdict the rules gave |
| Labyrinthe.PlateauxRacineFin | labyrinthe.py:417-421 | once the game is over, the boards sent do not depend on the next player's name |
| Labyrinthe.Labyrinthe.JouerRacine | labyrinthe.py:361-421 | the same loop, with the same passes; the messages returned are exactly those of the recorded passes, the boards after a move coming with the next player's name while the game goes on |
| Labyrinthe.Labyrinthe.AjouterCommande | lib/labyrinthe.py:386-399 | an unknown client raises (`false`); otherwise the extracted commands are queued for that player only, and the client is told which were added when commands are waiting |
| Labyrinthe.Labyrinthe.AjouterCommandeRacine | labyrinthe.py:346-359 | the extracted commands are queued for the client's player only, and the whole queue is returned |
| Labyrinthe.Labyrinthe.GetDatagrammes | lib/labyrinthe.py:105-112 | the queued datagrams come out oldest first and the queue is left empty |
| Labyrinthe.Labyrinthe.Terminer | lib/labyrinthe.py:460-471 | every client learns the result, then receives the end-of-game datagram |
| Labyrinthe.Labyrinthe.TerminerRacine | labyrinthe.py:423-433 | the results alone are returned, all display messages to listed clients |
| InterfaceClient.Verdict | lib/interface_client.py:54-76 | an input holding the quit key raises Quitter; otherwise, during a game, no expression yet raises ValidationErreur with the fixed message, and the instance is true iff the expression matches the whole input; after the game any other input gives a false instance |
| InterfaceClient.ValidateurTexte.constructor | lib/interface_client.py:47-52 | the class variables start with no expression, no error text and a game in progress |
| InterfaceClient.ValidateurTexte.Valider | lib/interface_client.py:54-104 | building the validator on an input, and its truth value, is the verdict on the current class variables |
| InterfaceClient.ValidateurTexte.Parametrer | lib/interface_client.py:79-95 | `validation_schema` stores the expression and marks it set, `validation_erreur` stores the error text, any other name raises TypeError and changes nothing; once set, matching inputs are accepted during a game |
| InterfaceClient.ValidateurTexte.Effacer | lib/interface_client.py:107-114 | back to no expression, no error text and a game in progress: every input without the quit key raises ValidationErreur again |
| InterfaceClient.FinSansValidation | lib/interface_client.py:65-69 | once the game is over an input either quits or gives a false instance; no expression is consulted |
| InterfaceClient.ValidateurTexteRacine.constructor | interface_client.py:46-49 | the older class variables start with no expression, no error text and the game not over |
| InterfaceClient.ValidateurTexteRacine.Valider | interface_client.py:51-105 | the quit key wins; during a game the input is accepted iff the expression matches, a mismatch raises ValidationErreur with the stored text, no expression raises it with the fixed message; after the game the instance is false |
| InterfaceClient.ValidateurTexteRacine.Parametrer | interface_client.py:79-95 | as in the library revision |
| InterfaceClient.ValidateurTexteRacine.Effacer | interface_client.py:108-115 | back to no expression, no error text, the game not over |
| InterfaceClient.RacineRefusExplicite | interface_client.py:66-76 | in the older revision a configured game never yields a false instance: a mismatch is an explicit ValidationErreur carrying the server's text |
| InterfaceServeur.Compteur.constructor | interface_serveur.py:18-29 | the counter's next value is the initial number |
| InterfaceServeur.Compteur.Suivant | interface_serveur.py:27-29 | `next` returns the current value and the following call returns it plus one |
| InterfaceServeur.Tirer | interface_serveur.py:27-33 | k draws give k consecutive integers from the current value |
| InterfaceServeur.NomsDistincts | interface_serveur.py:59 | two handlers get the same player name iff they drew the same number |
| InterfaceServeur.Relayes | interface_serveur.py:80-86 | each pair of strings received is posted with its handler and player name, in order; a reception that raises TypeError (not unpickled, or not iterable) is skipped, and a connection failure ends the stream |
| InterfaceServeur.RelayesConcat | interface_serveur.py:80-86 | before a failure, the posts of a stream are those of its parts |
| InterfaceServeur.RelayesCoupure | interface_serveur.py:85-86 | nothing received after a failure is posted |
| InterfaceServeur.Gestionnaire.constructor | interface_serveur.py:49-61 | a handler's player name is "Joueur " followed by the counter's next value, and the counter moves on by one |
| InterfaceServeur.Gestionnaire.Setup | interface_serveur.py:63-69 | the main thread's queue receives the handler's `nouveau_joueur` post |
| InterfaceServeur.Gestionnaire.Handle | interface_serveur.py:71-86 | the queue receives exactly the relayed posts of what the socket delivers |
| InterfaceServeur.Gestionnaire.Finish | interface_serveur.py:88-93 | the queue receives the handler's `quitte` post |
| InterfaceServeur.Gestionnaire.Servir | interface_serveur.py:63-93 | a connection posts its arrival, its relayed messages, then its departure, in that order |
| InterfaceServeur.Connecter | interface_serveur.py:33-59 | handlers created one after another take consecutive counter values and have pairwise different player names |
| InterfaceServeur.ServeurTCP.constructor | interface_serveur.py:104-117 | a new server refuses connections |
| InterfaceServeur.ServeurTCP.VerifyRequest | interface_serveur.py:119-129 | a connection is accepted exactly while admission is open |
| Nombres.Decimal | interface_serveur.py:59 | `str` of a natural number is a non-empty string of digits that reads back as that number |
| Nombres.DecimalInjectif | interface_serveur.py:59 | two numbers with the same decimal text are equal |
| Nombres.LireDecimal | serveur.py:32 | `int` of the decimal text of a natural number gives that number back |
| Serveur.ValidateurPort | serveur.py:17-38 | a text is accepted iff it reads as an integer between 0 and 65535, and then as that integer; anything else raises ArgumentTypeError with the shared message |
| Serveur.PortsAcceptes | serveur.py:29-38 | every port up to 65535 written in decimal, with or without "+", is accepted as itself; with "-" only 0 is |
| Serveur.PortsRefuses | serveur.py:36-37 | a number past 65535 is refused with the shared message |
| Serveur.NouveauJoueur | serveur.py:138-146 | a newcomer joins if the maze admits them; the maze's messages go out, then the start-key pattern, the error text and the invitation; admission stays open exactly while a start cell is free |
| Serveur.Salon | serveur.py:113-153 | posts are read oldest first; the lobby ends on the first `commande` carrying the start key, which is the last post read, and otherwise reads the whole queue; a `quitte` from a client without a player stops it with KeyError; the maze stays in its opening mode and admission open only while a start cell is free |
| Serveur.Depart | serveur.py:186-190 | a client without a player raises KeyError and nothing changes; otherwise its player is removed and, during a game, the others learn who left, then get the board and whose turn it is |
| Serveur.Commande | serveur.py:192-197 | a client without a player raises KeyError before anything is queued or played; without an exception, what is sent is the maze's earlier queue, the notice of the added commands, then exactly the messages of the passes played, and the game is over or the player to move has nothing queued |
| Serveur.Notification | lib/labyrinthe.py:395-399 | at most one notice, to the sender's client, listing the commands read; none exactly when the player has no command at all |
| Serveur.Principale | serveur.py:181-197 | posts are read oldest first; without an exception the loop ends when the game is over or the queue is exhausted; a KeyError comes from the last post read, a `quitte` or `commande` of a client without a player |
| Serveur.Ouvrir | serveur.py:161-165 | the game starts and every client is sent the opening, the board and whose turn it is |
| Serveur.Conclure | serveur.py:211-214 | every client is sent the result, then the end-of-game datagram |
| Serveur.Jeu | serveur.py:161-214 | after the opening and the game loop, a game that is over ends with the results sent to every client |
| Serveur.Partie | serveur.py:113-214 | admission follows the maze's free start cells during the lobby and is closed once the game starts; a lobby the queue ran out on leaves the maze in its opening mode, and a lobby stopped by an exception stopped on an unknown client's KeyError |
| Client.SaisieTelleQuelle | client.py:137-152 | as written: an input raising ValidationErreur during a game while `valide` was never bound ends in NameError; the loop stops on the quit key or that error; a command is sent when the instance is true, or after a ValidationErreur when a stale `valide` is true |
| Client.NameErrorAvantSchema | client.py:137-152 | a first input "N" typed during a game before the server's expression arrives prints the error message, then stops the program with NameError |
| Client.Saisie | client.py:137-152 | with `valide` bound to false first: the loop stops only on the quit key, no name is unbound, and a command is sent exactly when the validator accepts the input during a game, and it is that input; a rejected input during a game prints the configured error text, after the exception's own text for a ValidationErreur; outside a game nothing is printed |
| Client.SaisieConforme | client.py:138-152 | whenever the validator builds an instance, the branch as written and the corrected one do the same |
| Client.Etape | client.py:127-156 | one pass of the loop: `fin` ends the game, `validation_schema` sets the expression, `erreur` or the quit key stop the loop, and a command is sent only for a `saisie` accepted by the expression in force during a game |
| Client.EtapeSaisie | client.py:137-152 | for a `saisie`: nothing is printed or sent after the game or on the quit key; during a game the input is sent when the expression in force matches it, otherwise the configured error text is printed, preceded by the fixed message when no expression was received |
| Client.Deroulement | client.py:120-156 | the corrected main loop never stops on an unbound name |
| Client.FinDefinitive | client.py:154-155 | once `fin` has arrived, the game stays over and no command is sent again |
| Client.EnvoisValides | client.py:120-156 | every command sent is an input the player typed, and an expression in force (configured at the start or received on the way) accepts it |
| Client.Traiter | client.py:127-156 | one pass of the loop on the validator's class variables gives the new state, continuation and effects of the pure step |
| Client.Boucle | client.py:120-156 | the loop over the queue's pairs leaves the validator and the effects that the pure main loop gives |
| Commun.RetirerMultiset | lib/labyrinthe.py:280 | `list.remove` takes away one occurrence of the element and nothing else |
| Commun.RetirerDistinct | lib/labyrinthe.py:278-280 | in a list without repetition, `remove` takes away exactly that element, keeps the list without repetition and shortens it by one when present |
| Commun.Enumerer | lib/labyrinthe.py:162 | iterating over a finite set visits each element exactly once |
| Commun.Melanger | lib/labyrinthe.py:371-372 | `sample(s, len(s))` and `shuffle` give a permutation of the list |
| Labyrinthe.Labyrinthe.Remettre | lib/labyrinthe.py:426 | the player who left the head of the turn order is put back at the head, and the roster is consistent again |

## Left out

- Sockets, `send`/`recv` and pickle serialisation are not modelled. The length header's arithmetic is, and the content of a connection is the sequence of receptions a handler gets.
- Threads, `threading.Condition` and `serve_forever` are not modelled. The two client threads (`InterfaceClient`, `InterfaceServeur`) and their run loops are not either. Every queue is sequential. `Messagerie.Obtenir` requires a non-empty queue where the source waits.
- Serveur.Salon, Serveur.Principale, Client.Boucle: a queue found empty ends the loop, where the real thread would wait for the next post. Their contracts describe the posts already queued.
- The file system is not modelled: walking the map folder, file sizes and reading a map. The files found and their contents are inputs.
- `argparse`, `input()`, `print` and `exit()` are not modelled. Neither is the interactive choice of a map in `serveur.py`, nor the connection retry loop of `client.py`. `print` in the client loop is an `Affichage` effect.
- The regular expression engine is not modelled. The validator's `fullmatch` is an abstract predicate `correspond`. `extraire`'s `findall` is an explicit scanner over the fixed key sets. `re.compile` errors on a malformed pattern are not modelled.
- Nombres.LireDecimal, Serveur.ValidateurPort: `int()` reads only an optional sign followed by ASCII digits. Whitespace, underscores and other Unicode digits are not accepted.
- The board's text drawing (`_afficher_plateau`) is the abstract message `Plateau`. Message texts are constructors of `Message`, not strings.
- The element metaclass is not modelled as a metaclass. Element classes are values, and the registry is a class whose `Enregistrer` plays the part of `__new__`. Map symbols are single characters.
- Texte.LignesSansFin: the line boundaries are the fixed set `str.splitlines` recognises, listed in `texte.dfy`.
- Handlers and clients are identified by a number rather than the handler object.
- Client.Boucle: the `ValueError`/`TypeError` retry and the `KeyboardInterrupt` exit of `obtenir` are not modelled. Neither is the shutdown after the loop (stopping the input thread, closing the connection).
- Serveur.Salon: the admission flag is refreshed only after a newcomer joins, as in the source. After a departure it may stay closed while a start cell is free, so the contract states one direction only.
- Serveur.Principale: a `nouveau_joueur` post during the game is ignored, as the source's loop ignores it. The handler's own connection stays open; that is not modelled.
- Serveur.Jeu: the results are stated as the final part of what is sent. What is sent before them is, post by post, what Serveur.Ouvrir, Serveur.Depart and Serveur.Commande send, each stated in its own contract; the loops' contracts do not restate that concatenation.
- InterfaceServeur.Relayes: peers are assumed to send pairs of strings or objects that fail as `TypeError`. The source posts any other iterable as received (interface_serveur.py:82). A post of the wrong length is then dropped by the unpacking of either server loop, which catches `ValueError` (serveur.py:134-137, 182-185), so the lobby and the game go on as if it were skipped. Two-element iterables that are not pairs of strings are not modelled.
- Labyrinthe.GrilleTransformee, Departs.Pas: a Transformable element whose family has no `transformee` bound makes the source raise AttributeError (lib/labyrinthe.py:177 and :445). The model clears the cell, or gives a cost of 0, instead. Only a family defined outside the library can lack the binding: Murable and Percable are bound at import (element.py:246-247), and `Element.CompletStandard` states it for the standard registry.
- An element class cannot be the base of another element class (a `class MaPorte(Porte)`). An element's bases are capability classes only, so inheriting a registered element's capabilities is not expressible.
- Departs.DeterminerDeparts: `shuffle` is any permutation of the layer's starts, so the order among starts at the same distance is not fixed.
- Decodage.CreerLabyrinthe: `str.upper` is modelled on ASCII letters only. Python also upper-cases other letters ('é' to 'É', 'ß' to "SS"), so a map holding them decodes and records unknown characters differently; Unicode case tables are not modelled.
- Decodage.InconnusDecodes: the unknown characters recorded are ASCII upper-cased, not `str.upper`'s result, for the same reason.
- Regle.SortieOccupee: an occupied exit is refused or won depending on the set's iteration order. The model states both possible outcomes rather than choosing one.

## Findings

| source | as written | input that shows it | evidently intended | confidence | as-written member | corrected member |
|---|---|---|---|---|---|---|
| client.py:137-152 | in the `saisie` branch, a `ValidationErreur` raised by `ValidateurTexte(message)` is caught and the loop goes on to test `valide`. That name was never bound when it is the first input. | during a game, a first input such as "N" typed before the server's `validation_schema` arrives: the error is printed, then `if valide:` raises NameError and the client stops | `valide` bound to false before the validation, so the input is not sent and the configured error text is printed | not executed | Client.NameErrorAvantSchema | Client.Saisie |
