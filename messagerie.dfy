// The message queue shared by the threads (`Messagerie`) and the length
// header of a transmitted object (`Transmission`): the serialised object is
// preceded by its length on three big-endian bytes. Sockets, serialisation
// and the lock are not modelled; waiting for a message becomes the
// precondition that the queue is not empty.

module Messagerie {
  import opened Commun

  type Octet = b: int | 0 <= b < 256

  /** `longueur_entete`. */
  const LongueurEntete: nat := 3
  /** The first length three bytes cannot hold. */
  const Capacite: nat := 0x100_0000

  datatype Erreur = OverflowError | ConnectionFermee

  /** `int.from_bytes(..., byteorder='big')`. */
  function DepuisOctets(octets: seq<Octet>): nat
  {
    if octets == [] then 0 else DepuisOctets(octets[..|octets| - 1]) * 256 + octets[|octets| - 1] as int
  }

  lemma TroisOctets(octets: seq<Octet>)
    requires |octets| == 3
    ensures DepuisOctets(octets) == (octets[0] as int * 256 + octets[1] as int) * 256 + octets[2] as int
  {
    var deux := octets[..2];
    var un := deux[..1];
    assert un[..0] == [] && un[0] == octets[0];
    assert DepuisOctets(un) == octets[0] as int;
    assert deux[1] == octets[1];
    assert DepuisOctets(deux) == DepuisOctets(un) * 256 + octets[1] as int;
  }

  /** `longueur.to_bytes(length=3, byteorder='big')`: OverflowError when the
      length does not fit. */
  function Entete(longueur: nat): (r: Result<seq<Octet>, Erreur>)
    ensures r.Failure? <==> longueur >= Capacite
    ensures r.Failure? ==> r.error == OverflowError
    ensures r.Success? ==> |r.value| == LongueurEntete && DepuisOctets(r.value) == longueur
  {
    if longueur >= Capacite then Failure(OverflowError)
    else
      var octets: seq<Octet> := [longueur / 0x1_0000, longueur / 0x100 % 0x100, longueur % 0x100];
      TroisOctets(octets);
      Decomposer(longueur);
      Success(octets)
  }

  lemma Decomposer(n: nat)
    ensures n == (n / 0x1_0000 * 256 + n / 0x100 % 0x100) * 256 + n % 0x100
  {
    var q := n / 0x100;
    assert n == q * 256 + n % 0x100;
    assert q == q / 256 * 256 + q % 256;
    assert q / 256 == n / 0x1_0000;
  }

  lemma {:induction false} DepuisOctetsBorne(octets: seq<Octet>)
    ensures DepuisOctets(octets) < Puissance256(|octets|)
  {
    if octets != [] {
      DepuisOctetsBorne(octets[..|octets| - 1]);
    }
  }

  function Puissance256(n: nat): nat
  {
    if n == 0 then 1 else 256 * Puissance256(n - 1)
  }

  /** Every three-byte header is the header of the length it reads as. */
  lemma EnteteDepuisOctets(octets: seq<Octet>)
    requires |octets| == LongueurEntete
    ensures Entete(DepuisOctets(octets)) == Success(octets)
  {
    var n := DepuisOctets(octets);
    DepuisOctetsBorne(octets);
    TroisOctets(octets);
    var a, b, c := octets[0] as int, octets[1] as int, octets[2] as int;
    assert n == a * 65536 + b * 256 + c;
    assert n / 256 == a * 256 + b && n % 256 == c;
    assert n / 65536 == a && (n / 256) % 256 == b;
    assert Puissance256(3) == Capacite;
    var r := Entete(n).value;
    assert r[0] == octets[0] && r[1] == octets[1] && r[2] == octets[2];
    assert r == octets;
  }

  /** The header's length part of `recevoir`: no header means the other side
      closed the connection; otherwise the bytes received are read big-endian.
      A short read gives fewer than three bytes, read the same way. */
  function LongueurRecue(entete: seq<Octet>): (r: Result<nat, Erreur>)
    requires |entete| <= LongueurEntete
    ensures r.Failure? <==> entete == []
    ensures r.Failure? ==> r.error == ConnectionFermee
    ensures r.Success? ==> r.value < Capacite
  {
    DepuisOctetsBorne(entete);
    if entete == [] then Failure(ConnectionFermee) else Success(DepuisOctets(entete))
  }

  /** A header sent is read back as the length it was made from. */
  lemma AllerRetour(longueur: nat)
    requires longueur < Capacite
    ensures Entete(longueur).Success?
    ensures LongueurRecue(Entete(longueur).value) == Success(longueur)
  {
  }

  /** The shared list of messages: a first-in first-out queue. */
  class Messagerie<T> {
    var messages: seq<T>

    constructor ()
      ensures messages == []
    {
      messages := [];
    }

    /** `ajouter`: the message goes to the end of the list. */
    method Ajouter(m: T)
      modifies this
      ensures messages == old(messages) + [m]
    {
      messages := messages + [m];
    }

    /** `obtenir`: the oldest message is removed and returned. */
    method Obtenir() returns (m: T)
      requires messages != []
      modifies this
      ensures m == old(messages)[0] && messages == old(messages)[1..]
    {
      m := messages[0];
      messages := messages[1..];
    }

    /** `effacer`. */
    method Effacer()
      modifies this
      ensures messages == []
    {
      messages := [];
    }
  }

  /** Messages come out in the order they went in. */
  method Ordre<T>(q: Messagerie<T>, a: T, b: T) returns (premier: T, second: T)
    requires q.messages == []
    modifies q
    ensures premier == a && second == b && q.messages == []
  {
    q.Ajouter(a);
    q.Ajouter(b);
    premier := q.Obtenir();
    second := q.Obtenir();
  }
}
