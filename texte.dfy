// Splitting a text into lines, as `str.splitlines` does for the maze files.
//
// Line boundaries are the characters `str.splitlines` recognises: line feed,
// carriage return (with "\r\n" counted as one boundary), vertical tab, form
// feed, the file, group and record separators (U+001C to U+001E), next line
// (U+0085) and the line and paragraph separators (U+2028, U+2029). A final
// boundary does not open an empty last line.

module Texte {

  predicate EstFinDeLigne(c: char)
  {
    || c == '\n' || c == '\r' || c == '\U{0B}' || c == '\U{0C}'
    || c == '\U{1C}' || c == '\U{1D}' || c == '\U{1E}'
    || c == '\U{85}' || c == '\U{2028}' || c == '\U{2029}'
  }

  /** The characters before the first boundary. */
  function Ligne(s: string): (l: string)
    ensures |l| <= |s| && l == s[..|l|]
    ensures forall k :: 0 <= k < |l| ==> !EstFinDeLigne(l[k])
    ensures |l| < |s| ==> EstFinDeLigne(s[|l|])
  {
    if s == [] || EstFinDeLigne(s[0]) then [] else [s[0]] + Ligne(s[1..])
  }

  /** The length of the boundary that ends the first line: 0 at the end of the
      text, 2 for "\r\n", 1 otherwise. */
  function Fin(s: string): (n: nat)
    ensures |Ligne(s)| + n <= |s|
    ensures n == 0 <==> |Ligne(s)| == |s|
  {
    var k := |Ligne(s)|;
    if k == |s| then 0
    else if s[k] == '\r' && k + 1 < |s| && s[k + 1] == '\n' then 2
    else 1
  }

  /** What follows the first line and its boundary. */
  function Suite(s: string): (r: string)
    requires s != []
    ensures |r| < |s|
  {
    s[|Ligne(s)| + Fin(s)..]
  }

  /** `str.splitlines()`. */
  function Lignes(s: string): seq<string>
    decreases |s|
  {
    if s == [] then [] else [Ligne(s)] + Lignes(Suite(s))
  }

  /** The lines put back together without their boundaries (`"".join`). */
  function Joindre(lignes: seq<string>): string
  {
    if lignes == [] then [] else lignes[0] + Joindre(lignes[1..])
  }

  /** The text with every boundary character removed. */
  function SansFins(s: string): (r: string)
    ensures |r| <= |s|
  {
    if s == [] then []
    else if EstFinDeLigne(s[0]) then SansFins(s[1..])
    else [s[0]] + SansFins(s[1..])
  }

  lemma {:induction false} SansFinsConcat(a: string, b: string)
    ensures SansFins(a + b) == SansFins(a) + SansFins(b)
  {
    if a != [] {
      assert (a + b)[0] == a[0] && (a + b)[1..] == a[1..] + b;
      SansFinsConcat(a[1..], b);
    } else {
      assert a + b == b;
    }
  }

  lemma {:induction false} SansFinsLigne(l: string)
    requires forall k :: 0 <= k < |l| ==> !EstFinDeLigne(l[k])
    ensures SansFins(l) == l
  {
    if l != [] {
      SansFinsLigne(l[1..]);
    }
  }

  /** The boundary that ends the first line. */
  function Bord(s: string): (b: string)
    requires s != []
    ensures s == Ligne(s) + b + Suite(s)
    ensures SansFins(b) == []
  {
    var b := s[|Ligne(s)|..|Ligne(s)| + Fin(s)];
    assert |b| > 0 ==> EstFinDeLigne(b[0]);
    assert |b| == 2 ==> b[1..][0] == '\n' && b[1..][1..] == [];
    b
  }

  /** Joining the lines gives back the text minus its boundaries: the
      boundaries, and only they, are lost. */
  lemma {:induction false} JoindreLignes(s: string)
    ensures Joindre(Lignes(s)) == SansFins(s)
    decreases |s|
  {
    if s != [] {
      var l, b, r := Ligne(s), Bord(s), Suite(s);
      calc {
        SansFins(s);
        { SansFinsConcat(l + b, r); }
        SansFins(l + b) + SansFins(r);
        { SansFinsConcat(l, b); SansFinsLigne(l); }
        l + SansFins(r);
        { JoindreLignes(r); }
        l + Joindre(Lignes(r));
      }
      assert Lignes(s)[1..] == Lignes(r);
    }
  }

  lemma {:induction false} JoindreConcat(a: seq<string>, b: seq<string>)
    ensures Joindre(a + b) == Joindre(a) + Joindre(b)
  {
    if a != [] {
      assert (a + b)[0] == a[0] && (a + b)[1..] == a[1..] + b;
      JoindreConcat(a[1..], b);
    } else {
      assert a + b == b;
    }
  }

  /** A character survives the removal of the boundaries iff it occurs in the
      text and is not a boundary. */
  lemma {:induction false} DansSansFins(s: string, c: char)
    ensures c in SansFins(s) <==> c in s && !EstFinDeLigne(c)
  {
    if s != [] {
      DansSansFins(s[1..], c);
      assert s == [s[0]] + s[1..];
    }
  }

  /** No line holds a boundary character. */
  lemma {:induction false} LignesSansFin(s: string)
    ensures forall i, k :: 0 <= i < |Lignes(s)| && 0 <= k < |Lignes(s)[i]| ==> !EstFinDeLigne(Lignes(s)[i][k])
    decreases |s|
  {
    if s != [] {
      LignesSansFin(Suite(s));
      forall i, k | 0 <= i < |Lignes(s)| && 0 <= k < |Lignes(s)[i]|
        ensures !EstFinDeLigne(Lignes(s)[i][k])
      {
        if i > 0 {
          assert Lignes(s)[i] == Lignes(Suite(s))[i - 1];
        }
      }
    }
  }

  /** "\r\n" is one boundary, and an empty line between two boundaries is
      kept. */
  lemma ExempleLignes()
    ensures Lignes("a\r\n\nb") == ["a", "", "b"]
  {
    var s := "a\r\n\nb";
    assert Ligne(s[1..]) == [];
    assert Ligne(s) == "a";
    assert Fin(s) == 2;
    assert Suite(s) == "\nb";
    assert Ligne("\nb") == [] && Fin("\nb") == 1;
    assert Suite("\nb") == "b";
    assert Ligne("b") == "b" && Fin("b") == 0;
    assert Suite("b") == [];
  }
}
