/** Column decoding for the genre/region/age table: a column named
    `<genre>_<age>` is split on `_` as Python's `str.split('_')` does. */
module ColumnNames {

  import opened Wrappers

  const SEPARATOR: char := '_'

  /** `s.split(sep)`: the maximal runs between separators, so there is one
      more part than there are separators, and empty parts are kept. */
  function Split(s: string, sep: char): (parts: seq<string>)
    ensures |parts| >= 1
    decreases |s|
  {
    if |s| == 0 then [""]
    else
      var rest := Split(s[1..], sep);
      if s[0] == sep then [""] + rest
      else [[s[0]] + rest[0]] + rest[1..]
  }

  /** `sep.join(parts)`. */
  function Join(parts: seq<string>, sep: char): string
  {
    if |parts| == 0 then ""
    else if |parts| == 1 then parts[0]
    else parts[0] + [sep] + Join(parts[1..], sep)
  }

  /** Joining the parts back gives the original name. */
  lemma {:induction false} JoinSplit(s: string, sep: char)
    ensures Join(Split(s, sep), sep) == s
    decreases |s|
  {
    if |s| > 0 {
      var rest := Split(s[1..], sep);
      JoinSplit(s[1..], sep);
      if s[0] == sep {
        assert Split(s, sep)[1..] == rest;
        assert s == [s[0]] + s[1..];
      } else {
        var parts := Split(s, sep);
        if |rest| == 1 {
          assert s == [s[0]] + rest[0];
        } else {
          assert parts[1..] == rest[1..];
          assert Join(rest, sep) == rest[0] + [sep] + Join(rest[1..], sep);
          assert s == [s[0]] + s[1..];
        }
      }
    }
  }

  /** No part contains the separator. */
  lemma {:induction false} SplitPartsHaveNoSeparator(s: string, sep: char)
    ensures forall i :: 0 <= i < |Split(s, sep)| ==> sep !in Split(s, sep)[i]
    decreases |s|
  {
    if |s| > 0 {
      SplitPartsHaveNoSeparator(s[1..], sep);
      var rest := Split(s[1..], sep);
      if s[0] != sep {
        assert forall i :: 1 <= i < |Split(s, sep)| ==> Split(s, sep)[i] == rest[i];
      }
    }
  }

  /** There are at least two parts exactly when the separator occurs. */
  lemma {:induction false} SplitHasTwoParts(s: string, sep: char)
    ensures |Split(s, sep)| >= 2 <==> sep in s
    decreases |s|
  {
    if |s| > 0 {
      SplitHasTwoParts(s[1..], sep);
      assert s == [s[0]] + s[1..];
    }
  }

  /** Splitting a join of separator-free parts gives the parts back. */
  lemma {:induction false} SplitJoin(parts: seq<string>, sep: char)
    requires |parts| >= 1
    requires forall i :: 0 <= i < |parts| ==> sep !in parts[i]
    ensures Split(Join(parts, sep), sep) == parts
    decreases |parts|, |parts[0]|
  {
    if |parts[0]| > 0 {
      var head := parts[0];
      var shorter := [head[1..]] + parts[1..];
      assert shorter[1..] == parts[1..];
      SplitJoin(shorter, sep);
      assert Join(parts, sep) == [head[0]] + Join(shorter, sep);
      assert head == [head[0]] + head[1..];
    } else if |parts| > 1 {
      SplitJoin(parts[1..], sep);
      assert Join(parts, sep) == [sep] + Join(parts[1..], sep);
    }
  }

  /** Token 0 is the genre, token 1 the age band. */
  datatype ColumnKey = ColumnKey(genre: string, age: string)

  /** `col.split('_')` with fewer than two parts means "not a genre column";
      parts beyond the second are ignored. */
  function Decode(col: string): (r: Option<ColumnKey>)
    ensures r.Some? <==> SEPARATOR in col
    ensures r.Some? ==> SEPARATOR !in r.value.genre && SEPARATOR !in r.value.age
    ensures r.Some? ==>
      var prefix := r.value.genre + [SEPARATOR] + r.value.age;
      |prefix| <= |col| && col[..|prefix|] == prefix &&
      (|prefix| == |col| || col[|prefix|] == SEPARATOR)
  {
    SplitHasTwoParts(col, SEPARATOR);
    SplitPartsHaveNoSeparator(col, SEPARATOR);
    DecodeLayout(col);
    var parts := Split(col, SEPARATOR);
    if |parts| >= 2 then Some(ColumnKey(parts[0], parts[1])) else None
  }

  /** Where the first two parts sit inside the name. */
  lemma DecodeLayout(col: string)
    ensures var parts := Split(col, SEPARATOR);
      |parts| >= 2 ==>
        var prefix := parts[0] + [SEPARATOR] + parts[1];
        |prefix| <= |col| && col[..|prefix|] == prefix &&
        (|prefix| == |col| || col[|prefix|] == SEPARATOR)
  {
    var parts := Split(col, SEPARATOR);
    if |parts| >= 2 {
      JoinSplit(col, SEPARATOR);
      var prefix := parts[0] + [SEPARATOR] + parts[1];
      if |parts| == 2 {
        assert col == prefix;
      } else {
        assert Join(parts, SEPARATOR) == parts[0] + [SEPARATOR] + Join(parts[1..], SEPARATOR);
        assert Join(parts[1..], SEPARATOR) == parts[1] + [SEPARATOR] + Join(parts[2..], SEPARATOR);
        assert col == prefix + [SEPARATOR] + Join(parts[2..], SEPARATOR);
      }
    }
  }
}
