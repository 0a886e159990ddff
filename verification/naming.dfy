/**
 * Name mangling shared by the code generators: the snake-case conversion
 * (one loop, copied into the GraphQL and bitflags plugins) and the names of
 * the generated GraphQL type variables. Letters are classified as ASCII.
 */
module Naming {

  predicate IsUpper(c: char)
  {
    'A' <= c <= 'Z'
  }

  predicate IsLower(c: char)
  {
    'a' <= c <= 'z'
  }

  /** `unicode.ToLower` on ASCII: upper-case letters map to lower case, anything else is kept. */
  function ToLower(c: char): (d: char)
    ensures !IsUpper(d)
    ensures IsUpper(c) ==> IsLower(d) && d as int == c as int + 32
    ensures !IsUpper(c) ==> d == c
  {
    if IsUpper(c) then (c as int + 32) as char else c
  }

  /**
   * Whether snake case puts '_' before rune i: i is not the first rune, rune i
   * is upper case, and the rune after it or the rune before it is lower case.
   */
  predicate Boundary(s: string, i: int)
  {
    0 < i < |s| && IsUpper(s[i]) && ((i + 1 < |s| && IsLower(s[i + 1])) || IsLower(s[i - 1]))
  }

  /** What one step of the loop writes for rune i. */
  function Piece(s: string, i: int): string
    requires 0 <= i < |s|
  {
    (if Boundary(s, i) then "_" else "") + [ToLower(s[i])]
  }

  /** The output after the loop has handled the first n runes. */
  function SnakePrefix(s: string, n: nat): (r: string)
    requires n <= |s|
    ensures n <= |r| <= 2 * n
  {
    if n == 0 then "" else SnakePrefix(s, n - 1) + Piece(s, n - 1)
  }

  /** The snake-case form of s. */
  function Snake(s: string): (r: string)
    ensures |s| <= |r| <= 2 * |s|
  {
    SnakePrefix(s, |s|)
  }

  /** The snake-case loop: for each rune, an underscore at a word boundary, then the rune in lower case. */
  method SnakeCase(name: string) returns (out: string)
    ensures out == Snake(name)
  {
    out := "";
    var i := 0;
    while i < |name|
      invariant 0 <= i <= |name|
      invariant out == SnakePrefix(name, i)
    {
      if i > 0 && IsUpper(name[i]) && ((i + 1 < |name| && IsLower(name[i + 1])) || IsLower(name[i - 1])) {
        out := out + "_";
      }
      out := out + [ToLower(name[i])];
      i := i + 1;
    }
  }

  /** The number of underscores written for the first n runes. */
  function Count(s: string, n: nat): nat
    requires n <= |s|
  {
    if n == 0 then 0 else Count(s, n - 1) + (if Boundary(s, n - 1) then 1 else 0)
  }

  /** Where rune i of s lands in Snake(s). */
  function Pos(s: string, i: nat): nat
    requires i < |s|
  {
    i + Count(s, i + 1)
  }

  lemma {:induction false} CountMono(s: string, m: nat, n: nat)
    requires m <= n <= |s|
    ensures Count(s, m) <= Count(s, n) <= Count(s, m) + (n - m)
  {
    if m < n {
      CountMono(s, m, n - 1);
    }
  }

  lemma {:induction false} PrefixLength(s: string, n: nat)
    requires n <= |s|
    ensures |SnakePrefix(s, n)| == n + Count(s, n)
  {
    if n > 0 {
      PrefixLength(s, n - 1);
    }
  }

  /** Every rune already written stays where it is as the loop goes on. */
  lemma {:induction false} PrefixContents(s: string, n: nat, i: nat)
    requires i < n <= |s|
    ensures Pos(s, i) < |SnakePrefix(s, n)|
    ensures SnakePrefix(s, n)[Pos(s, i)] == ToLower(s[i])
    ensures Boundary(s, i) ==> SnakePrefix(s, n)[Pos(s, i) - 1] == '_'
  {
    PrefixLength(s, n - 1);
    PrefixLength(s, n);
    if i < n - 1 {
      PrefixContents(s, n - 1, i);
      CountMono(s, i + 1, n - 1);
    }
  }

  /**
   * Snake case only inserts: the output is |s| plus the number of boundaries
   * long, rune i of s appears lower-cased at Pos(s, i), an underscore sits
   * right before it exactly at a boundary, and nothing comes before the first rune.
   */
  lemma {:induction false} SnakeShape(s: string)
    ensures |Snake(s)| == |s| + Count(s, |s|) >= |s|
    ensures |s| > 0 ==> Pos(s, 0) == 0
    ensures forall i: nat :: i < |s| ==> Pos(s, i) < |Snake(s)| && (Boundary(s, i) ==> Pos(s, i) > 0)
    ensures forall i: nat :: i < |s| ==> Snake(s)[Pos(s, i)] == ToLower(s[i])
    ensures forall i: nat :: i < |s| && Boundary(s, i) ==> Snake(s)[Pos(s, i) - 1] == '_'
    ensures forall i: nat :: i + 1 < |s| ==> Pos(s, i + 1) == Pos(s, i) + 1 + (if Boundary(s, i + 1) then 1 else 0)
  {
    PrefixLength(s, |s|);
    forall i: nat | i < |s|
      ensures Pos(s, i) < |Snake(s)| && Snake(s)[Pos(s, i)] == ToLower(s[i])
      ensures Boundary(s, i) ==> Snake(s)[Pos(s, i) - 1] == '_'
    {
      PrefixContents(s, |s|, i);
    }
    if |s| > 0 {
      assert Count(s, 1) == 0;
    }
  }

  predicate NoUpper(s: string)
  {
    forall i :: 0 <= i < |s| ==> !IsUpper(s[i])
  }

  /** Snake case never leaves an upper-case letter. */
  lemma {:induction false} SnakeNoUpper(s: string, n: nat)
    requires n <= |s|
    ensures NoUpper(SnakePrefix(s, n))
  {
    if n > 0 {
      SnakeNoUpper(s, n - 1);
    }
  }

  /** A string without upper-case letters comes back unchanged. */
  lemma {:induction false} NoUpperUnchanged(s: string, n: nat)
    requires n <= |s| && NoUpper(s)
    ensures SnakePrefix(s, n) == s[..n]
  {
    if n > 0 {
      NoUpperUnchanged(s, n - 1);
      assert !Boundary(s, n - 1);
      assert s[..n] == s[..n - 1] + [s[n - 1]];
    }
  }

  /** Snake case is idempotent. */
  lemma SnakeIdempotent(s: string)
    ensures Snake(Snake(s)) == Snake(s)
  {
    var t := Snake(s);
    SnakeNoUpper(s, |s|);
    NoUpperUnchanged(t, |t|);
    assert t[..|t|] == t;
  }

  /** The message name of the bundled example: a single capitalised word. */
  lemma SnakeDessert()
    ensures Snake("Dessert") == "dessert"
  {
    var d := "Dessert";
    assert !Boundary(d, 0);
    assert forall i :: 1 <= i < |d| ==> !IsUpper(d[i]);
    assert SnakePrefix(d, 1) == "d";
    assert SnakePrefix(d, 4) == "dess";
    assert SnakePrefix(d, 7) == "dessert";
  }

  /** An acronym run: the underscore goes before the last capital, which starts the next word. */
  lemma SnakeAcronym()
    ensures Snake("HTTPServer") == "http_server"
  {
    var h := "HTTPServer";
    assert Boundary(h, 4);
    assert forall i :: 0 <= i < |h| && i != 4 ==> !Boundary(h, i);
    assert SnakePrefix(h, 4) == "http";
    assert SnakePrefix(h, 5) == "http_s";
    assert SnakePrefix(h, 10) == "http_server";
  }

  /** `strings.Join`: the parts in order with sep between neighbours. */
  function Join(parts: seq<string>, sep: string): string
  {
    if |parts| == 0 then ""
    else if |parts| == 1 then parts[0]
    else Join(parts[..|parts| - 1], sep) + sep + parts[|parts| - 1]
  }

  /** The Go variable that holds the generated GraphQL object for type n. */
  function TypeVarName(n: string): (r: string)
    ensures |r| == |n| + 11
    ensures r[..7] == "GraphQL" && r[|r| - 4..] == "Type" && r[7..|r| - 4] == n
  {
    "GraphQL" + n + "Type"
  }

  /** Distinct type names give distinct variable names. */
  lemma TypeVarNameInjective(a: string, b: string)
    requires TypeVarName(a) == TypeVarName(b)
    ensures a == b
  {
  }
}
