/** Text helpers: Python's str.strip, substring search and SQL text assembly. */
module Strings {

  /** The characters Python's str.isspace accepts, which str.strip() removes. */
  predicate IsSpace(c: char) {
    c == ' ' || ('\t' <= c <= '\r') || ('\U{1c}' <= c <= '\U{1f}')
    || c == '\U{85}' || c == '\U{a0}' || c == '\U{1680}'
    || ('\U{2000}' <= c <= '\U{200a}') || c == '\U{2028}' || c == '\U{2029}'
    || c == '\U{202f}' || c == '\U{205f}' || c == '\U{3000}'
  }

  /** Number of whitespace characters at the start of s. */
  function LeadingSpaces(s: string): (n: nat)
    ensures n <= |s|
  {
    if s != [] && IsSpace(s[0]) then 1 + LeadingSpaces(s[1..]) else 0
  }

  /** Number of whitespace characters at the end of s. */
  function TrailingSpaces(s: string): (n: nat)
    ensures n <= |s|
  {
    if s != [] && IsSpace(s[|s| - 1]) then 1 + TrailingSpaces(s[..|s| - 1]) else 0
  }

  /** str.strip(): drop leading and trailing whitespace. */
  function Trim(s: string): string {
    var t := s[LeadingSpaces(s)..];
    t[..|t| - TrailingSpaces(t)]
  }

  lemma {:induction false} LeadingSpacesSpec(s: string)
    ensures forall k :: 0 <= k < LeadingSpaces(s) ==> IsSpace(s[k])
    ensures LeadingSpaces(s) < |s| ==> !IsSpace(s[LeadingSpaces(s)])
  {
    if s != [] && IsSpace(s[0]) {
      LeadingSpacesSpec(s[1..]);
    }
  }

  lemma {:induction false} TrailingSpacesSpec(s: string)
    ensures forall k :: |s| - TrailingSpaces(s) <= k < |s| ==> IsSpace(s[k])
    ensures TrailingSpaces(s) < |s| ==> !IsSpace(s[|s| - TrailingSpaces(s) - 1])
  {
    if s != [] && IsSpace(s[|s| - 1]) {
      TrailingSpacesSpec(s[..|s| - 1]);
    }
  }

  /**
   * What str.strip() promises: the result is s with an all-space prefix and
   * an all-space suffix removed, and it neither begins nor ends with a space.
   */
  lemma TrimSpec(s: string)
    ensures exists i, j :: 0 <= i <= j <= |s| && Trim(s) == s[i..j]
                        && (forall k :: 0 <= k < i ==> IsSpace(s[k]))
                        && (forall k :: j <= k < |s| ==> IsSpace(s[k]))
    ensures Trim(s) == [] || (!IsSpace(Trim(s)[0]) && !IsSpace(Trim(s)[|Trim(s)| - 1]))
  {
    var i := LeadingSpaces(s);
    var t := s[i..];
    var j := i + |t| - TrailingSpaces(t);
    LeadingSpacesSpec(s);
    TrailingSpacesSpec(t);
    assert Trim(s) == s[i..j];
    forall k | j <= k < |s| ensures IsSpace(s[k]) {
      assert s[k] == t[k - i];
    }
    if Trim(s) != [] {
      assert Trim(s)[0] == s[i];
      assert Trim(s)[|Trim(s)| - 1] == t[|t| - TrailingSpaces(t) - 1];
    }
  }

  lemma {:induction false} NoLeadingSpace(s: string)
    requires s == [] || !IsSpace(s[0])
    ensures LeadingSpaces(s) == 0
  {
  }

  lemma {:induction false} NoTrailingSpace(s: string)
    requires s == [] || !IsSpace(s[|s| - 1])
    ensures TrailingSpaces(s) == 0
  {
  }

  /** Stripping twice is stripping once. */
  lemma TrimIdempotent(s: string)
    ensures Trim(Trim(s)) == Trim(s)
  {
    TrimSpec(s);
    var t := Trim(s);
    NoLeadingSpace(t);
    assert t[LeadingSpaces(t)..] == t;
    NoTrailingSpace(t);
  }

  /** sub occurs in s starting at position i. */
  predicate OccursAt(s: string, sub: string, i: nat) {
    i + |sub| <= |s| && s[i..i + |sub|] == sub
  }

  /** sub occurs in s as a contiguous substring. */
  predicate Contains(s: string, sub: string) {
    exists i: nat | i <= |s| :: OccursAt(s, sub, i)
  }

  /** Python's sep.join(parts). */
  function Join(sep: string, parts: seq<string>): string {
    if parts == [] then ""
    else if |parts| == 1 then parts[0]
    else parts[0] + sep + Join(sep, parts[1..])
  }

  /** [x] * n */
  function Repeat(x: string, n: nat): (r: seq<string>)
    ensures |r| == n
    ensures forall i :: 0 <= i < n ==> r[i] == x
  {
    if n == 0 then [] else [x] + Repeat(x, n - 1)
  }

  /** The DB-API parameter marker. */
  const Marker: string := "%s"

  /** Number of "%s" markers in a piece of SQL text. */
  function Placeholders(s: string): nat {
    if |s| < 2 then 0
    else (if s[0] == '%' && s[1] == 's' then 1 else 0) + Placeholders(s[1..])
  }

  lemma MarkerCount()
    ensures Placeholders(Marker) == 1
  {
    assert Marker[1..] == "s";
  }

  lemma {:induction false} NoPercentNoPlaceholders(s: string)
    requires '%' !in s
    ensures Placeholders(s) == 0
  {
    if |s| >= 2 {
      assert s[0] in s;
      assert forall c :: c in s[1..] ==> c in s;
      NoPercentNoPlaceholders(s[1..]);
    }
  }

  /**
   * Marker counts add up under concatenation unless a '%' at the end of a
   * meets an 's' at the start of b.
   */
  lemma {:induction false} PlaceholdersAppend(a: string, b: string)
    requires a == [] || b == [] || a[|a| - 1] != '%' || b[0] != 's'
    ensures Placeholders(a + b) == Placeholders(a) + Placeholders(b)
  {
    if a == [] {
      assert a + b == b;
    } else if |a| == 1 {
      if |b| >= 1 {
        assert (a + b)[1..] == b;
      }
    } else {
      assert (a + b)[1..] == a[1..] + b;
      PlaceholdersAppend(a[1..], b);
    }
  }

  /** ", ".join(["%s"] * n) holds exactly n markers. */
  lemma {:induction false} MarkerListCount(n: nat)
    ensures Placeholders(Join(", ", Repeat(Marker, n))) == n
    ensures n > 0 ==> var j := Join(", ", Repeat(Marker, n)); |j| > 0 && j[0] == '%' && j[|j| - 1] == 's'
  {
    if n == 1 {
      MarkerCount();
    } else if n > 1 {
      var rest := Join(", ", Repeat(Marker, n - 1));
      assert Repeat(Marker, n)[1..] == Repeat(Marker, n - 1);
      MarkerListCount(n - 1);
      MarkerCount();
      NoPercentNoPlaceholders(", ");
      PlaceholdersAppend(Marker, ", ");
      PlaceholdersAppend(Marker + ", ", rest);
      assert Join(", ", Repeat(Marker, n)) == Marker + ", " + rest;
    }
  }

  /** Total number of "%s" markers in a list of SQL fragments. */
  function SumPlaceholders(parts: seq<string>): nat {
    if parts == [] then 0 else Placeholders(parts[0]) + SumPlaceholders(parts[1..])
  }

  /** A text without '%' holds no marker, and neither does a join of such texts. */
  lemma {:induction false} NoPercentJoin(sep: string, parts: seq<string>)
    requires '%' !in sep
    requires forall i :: 0 <= i < |parts| ==> '%' !in parts[i]
    ensures '%' !in Join(sep, parts)
  {
    if |parts| > 1 {
      NoPercentJoin(sep, parts[1..]);
    }
  }

  /**
   * Joining fragments with a separator that holds no '%' and does not begin
   * with 's' neither creates nor destroys a marker.
   */
  lemma {:induction false} JoinPlaceholders(sep: string, parts: seq<string>)
    requires '%' !in sep && sep != [] && sep[0] != 's'
    ensures Placeholders(Join(sep, parts)) == SumPlaceholders(parts)
  {
    if |parts| == 1 {
      assert parts[1..] == [];
    } else if |parts| > 1 {
      var rest := Join(sep, parts[1..]);
      JoinPlaceholders(sep, parts[1..]);
      NoPercentNoPlaceholders(sep);
      PlaceholdersAppend(parts[0], sep);
      assert (parts[0] + sep)[|parts[0] + sep| - 1] == sep[|sep| - 1];
      assert sep[|sep| - 1] in sep;
      PlaceholdersAppend(parts[0] + sep, rest);
      assert Join(sep, parts) == parts[0] + sep + rest;
    }
  }

  /** A prefix without '%' adds no marker and cannot complete one. */
  lemma PlaceholdersAfterPlain(a: string, b: string)
    requires '%' !in a
    ensures Placeholders(a + b) == Placeholders(b)
  {
    if a != [] {
      assert a[|a| - 1] in a;
    }
    PlaceholdersAppend(a, b);
    NoPercentNoPlaceholders(a);
  }

  /** A suffix without '%' that does not begin with 's' adds no marker and cannot complete one. */
  lemma PlaceholdersBeforePlain(a: string, b: string)
    requires '%' !in b && (b == [] || b[0] != 's')
    ensures Placeholders(a + b) == Placeholders(a)
  {
    PlaceholdersAppend(a, b);
    NoPercentNoPlaceholders(b);
  }

  lemma NoPercentConcat(a: string, b: string)
    requires '%' !in a && '%' !in b
    ensures '%' !in a + b
  {
  }
}
