/**
 The pieces of Python's string semantics that the orchestration layer relies
 on: `.lower()` (on ASCII letters), `pat in s`, `s.split(sep, 1)` unpacked into
 two names, `str(n)` for a count, and the shape of `str(uuid.uuid4())`.
 */
module PyStr {
  import opened Wrappers

  /** The delimiter between a document id and a query in a chat payload. */
  const Sep: string := "::"

  // ---------------------------------------------------------------------------
  // Lower-casing

  predicate IsUpper(c: char) {
    'A' <= c <= 'Z'
  }

  function LowerChar(c: char): char {
    if IsUpper(c) then (c as int + 32) as char else c
  }

  /** `s.lower()`, restricted to ASCII letters. */
  function Lower(s: string): (r: string)
    ensures |r| == |s|
    ensures forall i :: 0 <= i < |r| ==> !IsUpper(r[i])
    ensures forall i :: 0 <= i < |s| && !IsUpper(s[i]) ==> r[i] == s[i]
    ensures forall i :: 0 <= i < |s| && IsUpper(s[i]) ==> r[i] as int - 'a' as int == s[i] as int - 'A' as int
  {
    seq(|s|, i requires 0 <= i < |s| => LowerChar(s[i]))
  }

  /** Lower-casing twice is lower-casing once. */
  lemma LowerIdempotent(s: string)
    ensures Lower(Lower(s)) == Lower(s)
  {
  }

  // ---------------------------------------------------------------------------
  // Substring search

  /** `pat` occurs in `s` starting at index `i`. */
  predicate OccursAt(s: string, pat: string, i: nat) {
    i + |pat| <= |s| && s[i..i + |pat|] == pat
  }

  /** An occurrence in `s[1..]` is an occurrence in `s`, one index later. */
  lemma OccursAtTail(s: string, pat: string)
    requires s != []
    ensures forall i: nat :: OccursAt(s[1..], pat, i) <==> OccursAt(s, pat, i + 1)
    ensures forall i: nat :: 0 < i ==> (OccursAt(s, pat, i) <==> OccursAt(s[1..], pat, i - 1))
  {
    forall i: nat
      ensures OccursAt(s[1..], pat, i) <==> OccursAt(s, pat, i + 1)
    {
      if i + 1 + |pat| <= |s| {
        assert s[1..][i..i + |pat|] == s[i + 1..i + 1 + |pat|];
      }
    }
  }

  /** Python's `pat in s`; the empty pattern occurs in every string. */
  function Contains(s: string, pat: string): (r: bool)
    ensures r <==> exists i: nat :: OccursAt(s, pat, i)
    decreases |s|
  {
    if |s| < |pat| then false
    else if s[..|pat|] == pat then
      assert OccursAt(s, pat, 0);
      true
    else
      OccursAtTail(s, pat);
      assert !OccursAt(s, pat, 0);
      Contains(s[1..], pat)
  }

  // ---------------------------------------------------------------------------
  // Splitting on the first occurrence of a separator

  /**
   `s.split(sep, 1)` when it yields two parts: the text before the first
   occurrence of `sep` and the text after it. None when `sep` does not occur,
   the case in which `a, b = s.split(sep, 1)` raises ValueError.
   */
  function SplitOnce(s: string, sep: string): (r: Option<(string, string)>)
    requires sep != []
    ensures r.None? <==> !Contains(s, sep)
    ensures r.Some? ==> s == r.value.0 + sep + r.value.1
    ensures r.Some? ==> forall i: nat :: i < |r.value.0| ==> !OccursAt(s, sep, i)
    decreases |s|
  {
    if |s| < |sep| then None
    else if s[..|sep|] == sep then
      assert s == [] + sep + s[|sep|..];
      Some(([], s[|sep|..]))
    else
      match SplitOnce(s[1..], sep)
      case None => None
      case Some(parts) =>
        SplitOnceStep(s, sep, parts.0, parts.1);
        Some(([s[0]] + parts.0, parts.1))
  }

  /** The first occurrence in `s[1..]` is the first in `s` when `s` does not start with `sep`. */
  lemma SplitOnceStep(s: string, sep: string, head: string, tail: string)
    requires s != [] && !OccursAt(s, sep, 0)
    requires s[1..] == head + sep + tail
    requires forall i: nat :: i < |head| ==> !OccursAt(s[1..], sep, i)
    ensures s == [s[0]] + head + sep + tail
    ensures forall i: nat :: i < 1 + |head| ==> !OccursAt(s, sep, i)
  {
    OccursAtTail(s, sep);
    assert s == [s[0]] + s[1..];
  }

  /**
   The split is determined by its first part: whenever `sep` does not occur in
   `a + sep + b` before the end of `a`, splitting gives back `a` and `b`.
   */
  lemma {:induction false} SplitOnceOfJoin(a: string, sep: string, b: string)
    requires sep != []
    requires forall i: nat :: i < |a| ==> !OccursAt(a + sep + b, sep, i)
    ensures SplitOnce(a + sep + b, sep) == Some((a, b))
  {
    var s := a + sep + b;
    assert s[|a|..|a| + |sep|] == sep;
    assert OccursAt(s, sep, |a|);
    var r := SplitOnce(s, sep);
    var h, t := r.value.0, r.value.1;
    assert s[|h|..|h| + |sep|] == sep by {
      assert s == h + sep + t;
    }
    assert OccursAt(s, sep, |h|);
    assert |h| == |a|;
    assert h == s[..|a|] == a;
    assert t == s[|a| + |sep|..] == b;
  }

  /**
   Joining an id and a query with "::" and splitting again gives both back
   when the id has no "::" of its own and does not end in ':'. The query may
   contain "::".
   */
  lemma JoinThenSplit(id: string, query: string)
    requires !Contains(id, Sep)
    requires id == [] || id[|id| - 1] != ':'
    ensures SplitOnce(id + Sep + query, Sep) == Some((id, query))
  {
    var s := id + Sep + query;
    forall i: nat | i < |id|
      ensures !OccursAt(s, Sep, i)
    {
      if i + 1 < |id| {
        assert s[i..i + 2] == id[i..i + 2];
        assert !OccursAt(id, Sep, i);
      } else {
        assert s[i..i + 2][0] == s[i] == id[|id| - 1];
      }
    }
    SplitOnceOfJoin(id, Sep, query);
  }

  /**
   An id ending in ':' never survives the round trip: its last colon and the
   separator form an earlier "::", so the cut comes one character too soon.
   */
  lemma TrailingColonMovesToQuery(id: string, query: string)
    requires id != [] && id[|id| - 1] == ':'
    ensures SplitOnce(id + Sep + query, Sep) != Some((id, query))
  {
    var s := id + Sep + query;
    assert s[|id| - 1..|id| + 1] == Sep;
    assert OccursAt(s, Sep, |id| - 1);
  }

  /**
   An id that holds "::" itself never survives the round trip: the cut comes
   at the id's own separator.
   */
  lemma SepInIdMovesToQuery(id: string, query: string)
    requires Contains(id, Sep)
    ensures SplitOnce(id + Sep + query, Sep) != Some((id, query))
  {
    var i: nat :| OccursAt(id, Sep, i);
    var s := id + Sep + query;
    assert s[i..i + 2] == id[i..i + 2];
    assert OccursAt(s, Sep, i);
  }

  /**
   Exactly the ids with no "::" of their own and no trailing ':' come back
   unchanged from being joined to a query and split again.
   */
  lemma JoinThenSplitExactly(id: string, query: string)
    ensures SplitOnce(id + Sep + query, Sep) == Some((id, query))
        <==> !Contains(id, Sep) && (id == [] || id[|id| - 1] != ':')
  {
    if Contains(id, Sep) {
      SepInIdMovesToQuery(id, query);
    } else if id != [] && id[|id| - 1] == ':' {
      TrailingColonMovesToQuery(id, query);
    } else {
      JoinThenSplit(id, query);
    }
  }

  // ---------------------------------------------------------------------------
  // Identifiers produced by str(uuid.uuid4())

  predicate IsLowerHex(c: char) {
    '0' <= c <= '9' || 'a' <= c <= 'f'
  }

  /** The canonical 8-4-4-4-12 lower-case form of a UUID. */
  predicate IsUuidText(s: string) {
    && |s| == 36
    && (forall i :: 0 <= i < |s| && i in {8, 13, 18, 23} ==> s[i] == '-')
    && (forall i :: 0 <= i < |s| && i !in {8, 13, 18, 23} ==> IsLowerHex(s[i]))
  }

  /** A generated id survives being joined to any query and split again. */
  lemma UuidJoinThenSplit(id: string, query: string)
    requires IsUuidText(id)
    ensures SplitOnce(id + Sep + query, Sep) == Some((id, query))
  {
    forall i: nat
      ensures !OccursAt(id, Sep, i)
    {
      if i + 2 <= |id| {
        assert id[i..i + 2][0] == id[i] != ':';
      }
    }
    JoinThenSplit(id, query);
  }

  // ---------------------------------------------------------------------------
  // Decimal rendering of a count

  predicate IsDigit(c: char) {
    '0' <= c <= '9'
  }

  function DigitChar(d: nat): (c: char)
    requires d < 10
  {
    ('0' as int + d) as char
  }

  /** `str(n)` for a non-negative integer. */
  function DecimalString(n: nat): (r: string)
    ensures r != [] && forall i :: 0 <= i < |r| ==> IsDigit(r[i])
    ensures r[0] == '0' <==> n == 0
    ensures r[0] == '0' ==> r == "0"
  {
    if n < 10 then [DigitChar(n)] else DecimalString(n / 10) + [DigitChar(n % 10)]
  }

  function DigitValue(c: char): (d: nat)
    requires IsDigit(c)
  {
    c as int - '0' as int
  }

  /** `int(s)` for a string of decimal digits. */
  function DecimalValue(s: string): nat
    requires forall i :: 0 <= i < |s| ==> IsDigit(s[i])
  {
    if s == [] then 0 else 10 * DecimalValue(s[..|s| - 1]) + DigitValue(s[|s| - 1])
  }

  /** The rendered count reads back as the count. */
  lemma {:induction false} DecimalRoundTrip(n: nat)
    ensures DecimalValue(DecimalString(n)) == n
  {
    if n >= 10 {
      var r := DecimalString(n);
      assert r[..|r| - 1] == DecimalString(n / 10);
      DecimalRoundTrip(n / 10);
    }
  }
}
