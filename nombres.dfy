// Decimal text of integers: `str(n)` for the player counter and `int(s)` for
// the port argument. Only an optional sign followed by ASCII digits is read
// as an integer; the digit predicates and their value come from the command
// parser.

module Nombres {
  import opened Controle

  function Chiffre(n: nat): (c: char)
    requires n < 10
    ensures EstChiffre(c) && c as int - '0' as int == n
  {
    ('0' as int + n) as char
  }

  /** `str(n)` of a natural number: its digits, most significant first. */
  function Decimal(n: nat): (s: string)
    ensures s != [] && ToutChiffres(s) && Entier(s) == n
    decreases n
  {
    if n < 10 then
      var s := [Chiffre(n)];
      assert s[..0] == [];
      s
    else
      var d := Decimal(n / 10);
      var s := d + [Chiffre(n % 10)];
      assert s[..|s| - 1] == d;
      s
  }

  /** Two numbers with the same text are equal. */
  lemma DecimalInjectif(a: nat, b: nat)
    ensures Decimal(a) == Decimal(b) <==> a == b
  {
  }

  /** What `int()` accepts here: a sign, then at least one ASCII digit. */
  predicate EstEntier(s: string)
  {
    if s != [] && (s[0] == '+' || s[0] == '-') then |s| >= 2 && ToutChiffres(s[1..])
    else s != [] && ToutChiffres(s)
  }

  /** `int(s)` on such a text. */
  function ValeurEntiere(s: string): int
    requires EstEntier(s)
  {
    if s[0] == '-' then -(Entier(s[1..]) as int)
    else if s[0] == '+' then Entier(s[1..])
    else Entier(s)
  }

  /** The text of a natural number reads back as that number. */
  lemma LireDecimal(n: nat)
    ensures EstEntier(Decimal(n)) && ValeurEntiere(Decimal(n)) == n
  {
    var s := Decimal(n);
    assert EstChiffre(s[0]);
  }
}
