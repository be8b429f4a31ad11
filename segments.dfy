/** The three JavaScript array and string operations the list view chains to
    turn a resource URL into an identifier: `split`, `filter(Boolean)` and
    `pop`. */
module Segments {
  import opened Records

  /** `s.split(sep)`: the pieces between separators, empty pieces included;
      the empty string splits to one empty piece. */
  function Split(s: string, sep: char): (parts: seq<string>)
    ensures |parts| >= 1
    ensures forall i :: 0 <= i < |parts| ==> sep !in parts[i]
    decreases |s|
  {
    if s == [] then [""]
    else
      var rest := Split(s[1..], sep);
      if s[0] == sep then [""] + rest
      else [[s[0]] + rest[0]] + rest[1..]
  }

  /** `parts.join(sep)`; Join undoes Split (JoinSplit). */
  function Join(parts: seq<string>, sep: char): string
    requires |parts| >= 1
  {
    if |parts| == 1 then parts[0] else parts[0] + [sep] + Join(parts[1..], sep)
  }

  /** `filter(Boolean)` on strings: keeps the non-empty ones, in order. */
  function NonEmpty(parts: seq<string>): (kept: seq<string>)
    ensures |kept| <= |parts|
    ensures forall i :: 0 <= i < |kept| ==> kept[i] != [] && kept[i] in parts
    ensures forall x :: x in parts && x != [] ==> x in kept
  {
    if parts == [] then []
    else if parts[0] == [] then NonEmpty(parts[1..])
    else [parts[0]] + NonEmpty(parts[1..])
  }

  /** `pop()` on an array nobody else holds: its last element, or
      `undefined` when it is empty. */
  function Last(xs: seq<string>): (r: Option<string>)
    ensures r.None? <==> xs == []
    ensures r.Some? ==> r.value == xs[|xs| - 1] && r.value in xs
  {
    if xs == [] then None else Some(xs[|xs| - 1])
  }

  /** Splitting loses nothing: joining the pieces gives the string back. */
  lemma {:induction false} JoinSplit(s: string, sep: char)
    ensures Join(Split(s, sep), sep) == s
    decreases |s|
  {
    if s != [] {
      var rest := Split(s[1..], sep);
      JoinSplit(s[1..], sep);
      if s[0] == sep {
        assert ([""] + rest)[1..] == rest;
        assert s == [sep] + s[1..];
      } else {
        var parts := [[s[0]] + rest[0]] + rest[1..];
        assert parts[1..] == rest[1..];
        if |rest| > 1 {
          assert Join(rest, sep) == rest[0] + [sep] + Join(rest[1..], sep);
          assert Join(parts, sep) == [s[0]] + rest[0] + [sep] + Join(rest[1..], sep);
        }
        assert s == [s[0]] + s[1..];
      }
    }
  }

  /** A string without the separator is a single piece. */
  lemma {:induction false} SplitWithoutSeparator(s: string, sep: char)
    requires sep !in s
    ensures Split(s, sep) == [s]
    decreases |s|
  {
    if s != [] {
      SplitWithoutSeparator(s[1..], sep);
      assert [s[0]] + s[1..] == s;
    }
  }

  /** Splitting at a separator splits the two sides independently. */
  lemma {:induction false} SplitAtSeparator(a: string, b: string, sep: char)
    ensures Split(a + [sep] + b, sep) == Split(a, sep) + Split(b, sep)
    decreases |a|
  {
    var s := a + [sep] + b;
    if a == [] {
      assert s == [sep] + b;
      assert s[1..] == b;
    } else {
      assert s[0] == a[0];
      assert s[1..] == a[1..] + [sep] + b;
      SplitAtSeparator(a[1..], b, sep);
    }
  }

  /** Filtering distributes over concatenation. */
  lemma {:induction false} NonEmptyConcat(a: seq<string>, b: seq<string>)
    ensures NonEmpty(a + b) == NonEmpty(a) + NonEmpty(b)
    decreases |a|
  {
    if a != [] {
      assert (a + b)[0] == a[0];
      assert (a + b)[1..] == a[1..] + b;
      NonEmptyConcat(a[1..], b);
    } else {
      assert a + b == b;
    }
  }

  /** Filtering one piece keeps it exactly when it is non-empty; with
      NonEmptyConcat this fixes the result, order included, for any input. */
  lemma NonEmptySingleton(x: string)
    ensures NonEmpty([x]) == if x == [] then [] else [x]
  {
    assert [x][1..] == [];
  }

  /** Piece `j` of `parts` is `x`, and every piece after it is empty. */
  predicate LastNonEmptyAt(parts: seq<string>, j: int, x: string)
  {
    0 <= j < |parts| && parts[j] == x && x != [] && forall k :: j < k < |parts| ==> parts[k] == []
  }

  /** The last piece kept is the last non-empty piece of the input: every
      piece after it is empty. */
  lemma {:induction false} NonEmptyLast(parts: seq<string>) returns (j: int)
    requires NonEmpty(parts) != []
    ensures LastNonEmptyAt(parts, j, NonEmpty(parts)[|NonEmpty(parts)| - 1])
    decreases |parts|
  {
    var rest := parts[1..];
    if parts[0] == [] {
      var i := NonEmptyLast(rest);
      assert parts[i + 1] == rest[i];
      assert forall k :: i + 1 < k < |parts| ==> parts[k] == rest[k - 1];
      j := i + 1;
    } else if NonEmpty(rest) == [] {
      assert forall k :: 0 < k < |parts| ==> parts[k] in rest;
      assert NonEmpty(parts) == [parts[0]];
      j := 0;
    } else {
      var i := NonEmptyLast(rest);
      assert parts[i + 1] == rest[i];
      assert forall k :: i + 1 < k < |parts| ==> parts[k] == rest[k - 1];
      j := i + 1;
    }
  }

  /** A string of separators only splits into empty pieces. */
  lemma {:induction false} SplitOfSeparators(s: string, sep: char)
    requires forall i :: 0 <= i < |s| ==> s[i] == sep
    ensures forall j :: 0 <= j < |Split(s, sep)| ==> Split(s, sep)[j] == []
    decreases |s|
  {
    if s != [] {
      SplitOfSeparators(s[1..], sep);
    }
  }

  /** Joining empty pieces gives separators only. */
  lemma {:induction false} JoinOfEmptyPieces(parts: seq<string>, sep: char)
    requires |parts| >= 1
    requires forall j :: 0 <= j < |parts| ==> parts[j] == []
    ensures forall i :: 0 <= i < |Join(parts, sep)| ==> Join(parts, sep)[i] == sep
    decreases |parts|
  {
    if |parts| > 1 {
      JoinOfEmptyPieces(parts[1..], sep);
      assert Join(parts, sep) == [sep] + Join(parts[1..], sep);
    }
  }

  /** Filtering empty pieces keeps nothing. */
  lemma {:induction false} NonEmptyOfEmptyPieces(parts: seq<string>)
    requires forall j :: 0 <= j < |parts| ==> parts[j] == []
    ensures NonEmpty(parts) == []
    decreases |parts|
  {
    if parts != [] {
      NonEmptyOfEmptyPieces(parts[1..]);
    }
  }
}
