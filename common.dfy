/** Shared vocabulary: optional values, rows of a table, and the few
  * string operations of the Java standard library that the services use. */
module Common {

  datatype Option<T> = None | Some(value: T)
  {
    /** `value` when present, otherwise `default` (Java's `orElse`). */
    function GetOr(default: T): T
    {
      if Some? then value else default
    }
  }

  /** The result of a library call that either returns or throws with a
    * message (a parse, a decode). */
  datatype Attempt<T> = Ok(value: T) | Thrown(message: string)

  /** The message of a NullPointerException (a missing JSON field
    * dereferenced); its text depends on the Java runtime. */
  const NullPointerMessage := "null"

  /** Why a service call is refused: an AccessDeniedException (HTTP 403) or
    * another exception. */
  datatype Refusal = AccessDenied(message: string) | Failure(message: string)

  /** The outcome of a read-side service call. */
  datatype Answer<T> = Granted(value: T) | Refused(refusal: Refusal)

  // ------------------------------------------------------------------
  // Tables as sequences of rows, in insertion order
  // ------------------------------------------------------------------

  /** Index of the first row satisfying `p` (a repository `findBy…`). */
  function FirstIndex<T>(s: seq<T>, p: T -> bool): (r: Option<nat>)
    ensures r.Some? ==> r.value < |s| && p(s[r.value])
    ensures r.Some? ==> forall j :: 0 <= j < r.value ==> !p(s[j])
    ensures r.None? <==> forall j :: 0 <= j < |s| ==> !p(s[j])
  {
    if s == [] then None
    else if p(s[0]) then Some(0)
    else
      match FirstIndex(s[1..], p)
      case None => None
      case Some(k) => Some(k + 1)
  }

  /** The rows satisfying `p`, in their order (a `SELECT … WHERE`). */
  function Filter<T(!new)>(s: seq<T>, p: T -> bool): (r: seq<T>)
    ensures |r| <= |s|
    ensures forall x :: x in r <==> x in s && p(x)
  {
    if s == [] then []
    else (if p(s[0]) then [s[0]] else []) + Filter(s[1..], p)
  }

  /** Deleting the row at index `i`. */
  function RemoveAt<T>(s: seq<T>, i: nat): (r: seq<T>)
    requires i < |s|
    ensures |r| == |s| - 1
    ensures forall j :: 0 <= j < i ==> r[j] == s[j]
    ensures forall j :: i <= j < |r| ==> r[j] == s[j + 1]
  {
    s[..i] + s[i + 1..]
  }

  /** No two rows share a key: a UNIQUE constraint. */
  ghost predicate UniqueBy<T, K>(s: seq<T>, key: T -> K)
  {
    forall i, j :: 0 <= i < |s| && 0 <= j < |s| && key(s[i]) == key(s[j]) ==> i == j
  }

  lemma {:induction false} FilterKeepsUnique<T(!new), K>(s: seq<T>, p: T -> bool, key: T -> K)
    requires UniqueBy(s, key)
    ensures UniqueBy(Filter(s, p), key)
    decreases |s|
  {
    if s != [] {
      assert UniqueBy(s[1..], key) by {
        forall i, j | 0 <= i < |s[1..]| && 0 <= j < |s[1..]| && key(s[1..][i]) == key(s[1..][j])
          ensures i == j
        {
          assert key(s[i + 1]) == key(s[j + 1]);
        }
      }
      FilterKeepsUnique(s[1..], p, key);
      var rest := Filter(s[1..], p);
      if p(s[0]) {
        var r := [s[0]] + rest;
        assert r == Filter(s, p);
        forall x | x in rest ensures key(x) != key(s[0]) {
          var k :| 0 <= k < |s[1..]| && s[1..][k] == x;
          assert s[k + 1] == x;
        }
        forall i, j | 0 <= i < |r| && 0 <= j < |r| && key(r[i]) == key(r[j])
          ensures i == j
        {
          if i != 0 && j != 0 {
            assert key(rest[i - 1]) == key(rest[j - 1]);
          }
        }
      } else {
        assert Filter(s, p) == rest;
      }
    }
  }

  lemma AppendKeepsUnique<T, K>(s: seq<T>, x: T, key: T -> K)
    requires UniqueBy(s, key)
    requires forall j :: 0 <= j < |s| ==> key(s[j]) != key(x)
    ensures UniqueBy(s + [x], key)
  {
    var r := s + [x];
    forall i, j | 0 <= i < |r| && 0 <= j < |r| && key(r[i]) == key(r[j])
      ensures i == j
    {
      if i < |s| && j < |s| {
        assert key(s[i]) == key(s[j]);
      }
    }
  }

  lemma RemoveKeepsUnique<T, K>(s: seq<T>, i: nat, key: T -> K)
    requires i < |s|
    requires UniqueBy(s, key)
    ensures UniqueBy(RemoveAt(s, i), key)
  {
    var r := RemoveAt(s, i);
    forall a, b | 0 <= a < |r| && 0 <= b < |r| && key(r[a]) == key(r[b])
      ensures a == b
    {
      var a' := if a < i then a else a + 1;
      var b' := if b < i then b else b + 1;
      assert key(s[a']) == key(s[b']);
    }
  }

  /** Under a UNIQUE key, removing row `i` removes exactly the rows with its key. */
  lemma RemoveAtUniqueRows<T, K>(s: seq<T>, i: nat, key: T -> K)
    requires i < |s|
    requires UniqueBy(s, key)
    ensures forall x :: x in RemoveAt(s, i) <==> x in s && key(x) != key(s[i])
  {
    var r := RemoveAt(s, i);
    forall x
      ensures x in r <==> x in s && key(x) != key(s[i])
    {
      if x in r {
        var k :| 0 <= k < |r| && r[k] == x;
        var k' := if k < i then k else k + 1;
        assert r[k] == s[k'];
      }
      if x in s && key(x) != key(s[i]) {
        var k :| 0 <= k < |s| && s[k] == x;
        if k < i { assert r[k] == x; } else { assert r[k - 1] == x; }
      }
    }
  }

  /** Replacing a row by one whose key no row has keeps keys unique. */
  lemma UpdateFreshKeepsUnique<T, K>(s: seq<T>, i: nat, x: T, key: T -> K)
    requires i < |s|
    requires UniqueBy(s, key)
    requires forall j :: 0 <= j < |s| ==> key(s[j]) != key(x)
    ensures UniqueBy(s[i := x], key)
  {
    var r := s[i := x];
    forall a, b | 0 <= a < |r| && 0 <= b < |r| && key(r[a]) == key(r[b])
      ensures a == b
    {
      if a != i && b != i {
        assert key(s[a]) == key(s[b]);
      }
    }
  }

  /** Replacing a row by one with the same key keeps keys unique. */
  lemma UpdateKeepsUnique<T, K>(s: seq<T>, i: nat, x: T, key: T -> K)
    requires i < |s|
    requires UniqueBy(s, key)
    requires key(x) == key(s[i])
    ensures UniqueBy(s[i := x], key)
  {
    var r := s[i := x];
    forall a, b | 0 <= a < |r| && 0 <= b < |r| && key(r[a]) == key(r[b])
      ensures a == b
    {
      assert key(s[a]) == key(s[b]);
    }
  }

  // ------------------------------------------------------------------
  // Strings (java.lang.String)
  // ------------------------------------------------------------------

  predicate StartsWith(s: string, prefix: string)
  {
    |prefix| <= |s| && s[..|prefix|] == prefix
  }

  /** `String.contains` */
  predicate Contains(s: string, sub: string)
    decreases |s|
  {
    StartsWith(s, sub) || (s != [] && Contains(s[1..], sub))
  }

  /** `Character.toUpperCase`, restricted to ASCII letters. */
  function UpperChar(c: char): (r: char)
    ensures 'a' <= c <= 'z' ==> 'A' <= r <= 'Z'
    ensures !('a' <= c <= 'z') ==> r == c
  {
    if 'a' <= c <= 'z' then (c as int - 32) as char else c
  }

  /** `String.toUpperCase`, restricted to ASCII letters. */
  function ToUpper(s: string): (r: string)
    ensures |r| == |s|
    ensures forall i :: 0 <= i < |s| ==> r[i] == UpperChar(s[i])
  {
    seq(|s|, i requires 0 <= i < |s| => UpperChar(s[i]))
  }

  lemma ToUpperIdempotent(s: string)
    ensures ToUpper(ToUpper(s)) == ToUpper(s)
  {
  }

  /** Splitting at every separator, keeping every piece (empty ones too). */
  function SplitAll(s: string, sep: char): (r: seq<string>)
    ensures |r| >= 1
    ensures forall p :: p in r ==> sep !in p
    decreases |s|
  {
    if s == [] then [""]
    else
      var rest := SplitAll(s[1..], sep);
      if s[0] == sep then [""] + rest
      else [[s[0]] + rest[0]] + rest[1..]
  }

  /** Drops the empty strings at the end of a split, as `String.split` does. */
  function DropTrailingEmpty(ps: seq<string>): (r: seq<string>)
    ensures |r| <= |ps| && r == ps[..|r|]
    ensures r != [] ==> r[|r| - 1] != ""
    ensures forall k :: |r| <= k < |ps| ==> ps[k] == ""
  {
    if ps == [] then []
    else if ps[|ps| - 1] == "" then DropTrailingEmpty(ps[..|ps| - 1])
    else ps
  }

  /** `s.split(sep)` for a one-character separator: no match gives `[s]`,
    * otherwise the pieces with the trailing empty ones removed. */
  function JavaSplit(s: string, sep: char): seq<string>
  {
    if sep !in s then [s] else DropTrailingEmpty(SplitAll(s, sep))
  }

  /** Pieces glued back together with the separator. */
  function Join(parts: seq<string>, sep: char): string
    requires |parts| >= 1
  {
    if |parts| == 1 then parts[0] else parts[0] + [sep] + Join(parts[1..], sep)
  }

  lemma {:induction false} SplitAllJoin(parts: seq<string>, sep: char)
    requires |parts| >= 1
    requires forall p :: p in parts ==> sep !in p
    ensures SplitAll(Join(parts, sep), sep) == parts
    decreases |Join(parts, sep)|, |parts|
  {
    var head := parts[0];
    if head == [] {
      if |parts| == 1 {
        assert Join(parts, sep) == [];
      } else {
        var tail := Join(parts[1..], sep);
        assert Join(parts, sep) == [sep] + tail;
        assert ([sep] + tail)[1..] == tail;
        SplitAllJoin(parts[1..], sep);
        assert [""] + parts[1..] == parts;
      }
    } else {
      var rest := [head[1..]] + parts[1..];
      assert head[0] != sep by { assert head[0] in head; }
      assert forall p :: p in rest ==> sep !in p by {
        forall p | p in rest ensures sep !in p {
          if p == head[1..] {
            forall k | 0 <= k < |p| ensures p[k] != sep {
              assert p[k] == head[k + 1];
              assert head[k + 1] in head;
            }
          } else {
            assert p in parts[1..];
          }
        }
      }
      var s := Join(parts, sep);
      assert s[0] == head[0];
      assert s[1..] == Join(rest, sep) by {
        if |parts| == 1 {
          assert rest == [head[1..]];
        } else {
          assert rest[1..] == parts[1..];
          assert Join(rest, sep) == head[1..] + [sep] + Join(parts[1..], sep);
        }
      }
      SplitAllJoin(rest, sep);
      var r := SplitAll(s, sep);
      assert r == [[head[0]] + rest[0]] + rest[1..];
      assert [head[0]] + head[1..] == head;
      assert rest[1..] == parts[1..];
      assert [head] + parts[1..] == parts;
    }
  }

  lemma {:induction false} SepInJoin(parts: seq<string>, sep: char)
    requires |parts| >= 2
    ensures sep in Join(parts, sep)
  {
    assert Join(parts, sep)[|parts[0]|] == sep;
  }

  /** Splitting a joined string gives the pieces back, as long as no piece
    * holds the separator and the last one is not empty. */
  lemma JavaSplitJoin(parts: seq<string>, sep: char)
    requires |parts| >= 2
    requires forall p :: p in parts ==> sep !in p
    requires parts[|parts| - 1] != ""
    ensures JavaSplit(Join(parts, sep), sep) == parts
  {
    SepInJoin(parts, sep);
    SplitAllJoin(parts, sep);
  }

  /** `Long.toString` */
  function IntToString(n: int): (r: string)
    ensures |r| >= 1
  {
    if n < 0 then "-" + NatToString(-n) else NatToString(n)
  }

  function NatToString(n: nat): (r: string)
    ensures |r| >= 1
    ensures forall c :: c in r ==> '0' <= c <= '9'
  {
    if n < 10 then [Digit(n)] else NatToString(n / 10) + [Digit(n % 10)]
  }

  function Digit(d: nat): (c: char)
    requires d < 10
    ensures '0' <= c <= '9'
  {
    ['0', '1', '2', '3', '4', '5', '6', '7', '8', '9'][d]
  }
}
