/**
 * The PHP string functions the Monday client applies to query documents:
 * `implode`, `explode`, `str_replace` with a single search string,
 * `addslashes` and its inverse `stripslashes`.
 */
module PhpStrings {

  /** `pat` occurs in `s` starting at index `i`. */
  ghost predicate OccursAt(s: string, pat: string, i: int)
  {
    0 <= i && i + |pat| <= |s| && s[i..i + |pat|] == pat
  }

  ghost predicate Occurs(s: string, pat: string)
  {
    exists i :: OccursAt(s, pat, i)
  }

  /** `implode($glue, $pieces)` for a list of strings. */
  function Implode(glue: string, pieces: seq<string>): string
  {
    if pieces == [] then ""
    else if |pieces| == 1 then pieces[0]
    else pieces[0] + glue + Implode(glue, pieces[1..])
  }

  /**
   * `explode($sep, $s)`: the pieces of `s` between the occurrences of `sep`,
   * found from left to right. PHP refuses an empty separator.
   */
  function Explode(sep: string, s: string): (r: seq<string>)
    requires sep != ""
    ensures |r| >= 1
    decreases |s|
  {
    if |s| < |sep| then [s]
    else if s[..|sep|] == sep then [""] + Explode(sep, s[|sep|..])
    else
      var rest := Explode(sep, s[1..]);
      [[s[0]] + rest[0]] + rest[1..]
  }

  /**
   * `str_replace($search, $replace, $subject)`: every occurrence of `search`,
   * found from left to right without overlap, becomes `replace`; an empty
   * `search` leaves the subject as it is.
   */
  function StrReplace(search: string, replace: string, subject: string): string
    decreases |subject|
  {
    if search == [] || |subject| < |search| then subject
    else if subject[..|search|] == search then replace + StrReplace(search, replace, subject[|search|..])
    else [subject[0]] + StrReplace(search, replace, subject[1..])
  }

  lemma {:induction false} ImplodeExtendsHead(glue: string, c: char, pieces: seq<string>)
    requires pieces != []
    ensures Implode(glue, [[c] + pieces[0]] + pieces[1..]) == [c] + Implode(glue, pieces)
  {
    var ps := [[c] + pieces[0]] + pieces[1..];
    assert ps[1..] == pieces[1..];
  }

  lemma {:induction false} ImplodeStartsWithHead(glue: string, pieces: seq<string>)
    requires pieces != []
    ensures |pieces[0]| <= |Implode(glue, pieces)|
    ensures Implode(glue, pieces)[..|pieces[0]|] == pieces[0]
  {
  }

  /** Exploding and imploding with the same separator gives the string back. */
  lemma {:induction false} ImplodeExplode(sep: string, s: string)
    requires sep != ""
    ensures Implode(sep, Explode(sep, s)) == s
    decreases |s|
  {
    if |s| < |sep| {
    } else if s[..|sep|] == sep {
      var rest := Explode(sep, s[|sep|..]);
      ImplodeExplode(sep, s[|sep|..]);
      assert ([""] + rest)[1..] == rest;
      assert s == sep + s[|sep|..];
    } else {
      ImplodeExplode(sep, s[1..]);
      ImplodeExtendsHead(sep, s[0], Explode(sep, s[1..]));
      assert s == [s[0]] + s[1..];
    }
  }

  lemma SliceAfterFirst(c: char, t: string, i: int, j: int)
    requires 0 < i <= j <= |t| + 1
    ensures ([c] + t)[i..j] == t[i - 1..j - 1]
  {
  }

  /** No piece produced by `explode` contains the separator. */
  lemma {:induction false} ExplodePiecesAvoidSeparator(sep: string, s: string)
    requires sep != ""
    ensures forall p :: p in Explode(sep, s) ==> !Occurs(p, sep)
    decreases |s|
  {
    if |s| < |sep| {
      assert !Occurs(s, sep);
    } else if s[..|sep|] == sep {
      ExplodePiecesAvoidSeparator(sep, s[|sep|..]);
      assert !Occurs("", sep);
    } else {
      var rest := Explode(sep, s[1..]);
      ExplodePiecesAvoidSeparator(sep, s[1..]);
      ImplodeExplode(sep, s[1..]);
      ImplodeStartsWithHead(sep, rest);
      var head := [s[0]] + rest[0];
      assert head == s[..|head|];
      assert rest[0] in rest;
      forall i ensures !OccursAt(head, sep, i) {
        if i == 0 && |sep| <= |head| {
          assert head[..|sep|] == s[..|sep|];
        } else if 0 < i && i + |sep| <= |head| {
          SliceAfterFirst(s[0], rest[0], i, i + |sep|);
          assert !OccursAt(rest[0], sep, i - 1);
        }
      }
      assert Explode(sep, s) == [head] + rest[1..];
    }
  }

  /**
   * The cuts fall at leftmost occurrences: no occurrence of the separator
   * starts inside a piece and runs into the separator that follows it. An
   * occurrence overlapping one already cut is therefore skipped, as PHP
   * skips it.
   */
  lemma {:induction false} ExplodeCutsLeftmost(sep: string, s: string)
    requires sep != ""
    ensures forall k :: 0 <= k < |Explode(sep, s)| - 1 ==>
              !Occurs(Explode(sep, s)[k] + sep[..|sep| - 1], sep)
    decreases |s|
  {
    var r := Explode(sep, s);
    if |s| < |sep| {
    } else if s[..|sep|] == sep {
      var rest := Explode(sep, s[|sep|..]);
      ExplodeCutsLeftmost(sep, s[|sep|..]);
      assert r == [""] + rest;
      var first := r[0] + sep[..|sep| - 1];
      assert |first| == |sep| - 1;
      assert !Occurs(first, sep) by {
        forall i ensures !OccursAt(first, sep, i) {
        }
      }
      forall k | 1 <= k < |r| - 1 ensures !Occurs(r[k] + sep[..|sep| - 1], sep) {
        assert r[k] == rest[k - 1];
      }
    } else {
      var rest := Explode(sep, s[1..]);
      ExplodeCutsLeftmost(sep, s[1..]);
      assert r == [[s[0]] + rest[0]] + rest[1..];
      forall k | 1 <= k < |r| - 1 ensures !Occurs(r[k] + sep[..|sep| - 1], sep) {
        assert r[k] == rest[k];
      }
      if |r| > 1 {
        var u := rest[0] + sep[..|sep| - 1];
        FirstPieceStartsRest(sep, s, rest);
        PrefixAfterFirst(s, |u|);
        NoOccurrenceAfterFirst(s[0], u, sep, s);
        assert r[0] + sep[..|sep| - 1] == [s[0]] + u;
      }
    }
  }

  /**
   * A prefix `[c] + u` of `s`, where `s` does not start with `sep` and `u`
   * holds no occurrence of `sep`, holds none either.
   */
  lemma NoOccurrenceAfterFirst(c: char, u: string, sep: string, s: string)
    requires sep != "" && |s| >= |sep| && s[..|sep|] != sep
    requires |u| + 1 <= |s| && [c] + u == s[..|u| + 1]
    requires !Occurs(u, sep)
    ensures !Occurs([c] + u, sep)
  {
    var t := [c] + u;
    forall i ensures !OccursAt(t, sep, i) {
      if i == 0 && |sep| <= |t| {
        assert t[..|sep|] == s[..|sep|];
      } else if 0 < i && i + |sep| <= |t| {
        SliceAfterFirst(c, u, i, i + |sep|);
        assert !OccursAt(u, sep, i - 1);
      }
    }
  }

  /** The first piece, followed by the separator, begins the rest of the subject. */
  lemma FirstPieceStartsRest(sep: string, s: string, rest: seq<string>)
    requires sep != "" && |s| >= 1
    requires rest == Explode(sep, s[1..]) && |rest| > 1
    ensures |rest[0]| + |sep| <= |s[1..]|
    ensures s[1..][..|rest[0]| + |sep| - 1] == rest[0] + sep[..|sep| - 1]
  {
    ImplodeExplode(sep, s[1..]);
    ImplodeBeginsWithFirstGlue(sep, rest);
  }

  /** With two or more pieces, the first piece and the glue open the result. */
  lemma ImplodeBeginsWithFirstGlue(glue: string, pieces: seq<string>)
    requires glue != "" && |pieces| > 1
    ensures |pieces[0]| + |glue| <= |Implode(glue, pieces)|
    ensures Implode(glue, pieces)[..|pieces[0]| + |glue| - 1] == pieces[0] + glue[..|glue| - 1]
  {
    var tail := Implode(glue, pieces[1..]);
    assert Implode(glue, pieces) == pieces[0] + glue + tail;
    PrefixOfConcat(pieces[0], glue, tail, |pieces[0]| + |glue| - 1);
  }

  lemma PrefixAfterFirst(s: string, n: int)
    requires 0 <= n < |s|
    ensures s[..n + 1] == [s[0]] + s[1..][..n]
  {
  }

  lemma PrefixOfConcat(a: string, b: string, c: string, n: int)
    requires |a| <= n <= |a| + |b|
    ensures (a + b + c)[..n] == a + b[..n - |a|]
  {
  }

  /**
   * `str_replace` is `implode($replace, explode($search, $subject))`: the
   * subject is cut at every occurrence of `search` found from left to
   * right, skipping any that overlaps one already cut (see
   * `ExplodeCutsLeftmost`), and glued back with `replace`.
   */
  lemma {:induction false} StrReplaceIsImplodeOfExplode(search: string, replace: string, subject: string)
    requires search != ""
    ensures StrReplace(search, replace, subject) == Implode(replace, Explode(search, subject))
    decreases |subject|
  {
    if |subject| < |search| {
    } else if subject[..|search|] == search {
      var rest := Explode(search, subject[|search|..]);
      StrReplaceIsImplodeOfExplode(search, replace, subject[|search|..]);
      assert ([""] + rest)[1..] == rest;
    } else {
      StrReplaceIsImplodeOfExplode(search, replace, subject[1..]);
      ImplodeExtendsHead(replace, subject[0], Explode(search, subject[1..]));
    }
  }

  /** A subject in which `search` does not occur is returned unchanged. */
  lemma {:induction false} StrReplaceAbsent(search: string, replace: string, subject: string)
    ensures !Occurs(subject, search) ==> StrReplace(search, replace, subject) == subject
    decreases |subject|
  {
    if search != [] && |subject| >= |search| && !Occurs(subject, search) {
      assert !OccursAt(subject, search, 0);
      forall i ensures !OccursAt(subject[1..], search, i) {
        if 0 <= i && i + |search| <= |subject| - 1 {
          assert subject[1..][i..i + |search|] == subject[i + 1..i + 1 + |search|];
          assert !OccursAt(subject, search, i + 1);
        }
      }
      StrReplaceAbsent(search, replace, subject[1..]);
    }
  }

  /** `s` with every `c` removed, the other characters kept in order. */
  function Without(c: char, s: string): (r: string)
    ensures c !in r
    ensures |r| <= |s|
  {
    if s == [] then []
    else if s[0] == c then Without(c, s[1..])
    else [s[0]] + Without(c, s[1..])
  }

  lemma {:induction false} WithoutKeepsOthers(c: char, s: string, d: char)
    requires d != c
    ensures multiset(Without(c, s))[d] == multiset(s)[d]
  {
    if s != [] {
      WithoutKeepsOthers(c, s[1..], d);
      assert s == [s[0]] + s[1..];
    }
  }

  lemma {:induction false} WithoutAbsent(c: char, s: string)
    requires c !in s
    ensures Without(c, s) == s
  {
    if s != [] {
      WithoutAbsent(c, s[1..]);
    }
  }

  lemma {:induction false} WithoutPreservesAbsence(c: char, s: string, d: char)
    requires d !in s
    ensures d !in Without(c, s)
  {
    if s != [] {
      WithoutPreservesAbsence(c, s[1..], d);
    }
  }

  /** Replacing a single character by nothing is removing that character. */
  lemma {:induction false} StrReplaceCharByNothing(c: char, s: string)
    ensures StrReplace([c], "", s) == Without(c, s)
  {
    if s != [] {
      StrReplaceCharByNothing(c, s[1..]);
      assert s[..1] == [s[0]];
      assert s[1..] == s[|[c]|..];
    }
  }

  /** The characters `addslashes` puts a backslash before. */
  predicate NeedsSlash(c: char)
  {
    c == '\'' || c == '"' || c == '\\' || c == '\0'
  }

  /** How many characters of `s` `addslashes` escapes. */
  function SlashCount(s: string): nat
  {
    if s == [] then 0 else (if NeedsSlash(s[0]) then 1 else 0) + SlashCount(s[1..])
  }

  /**
   * `addslashes($s)`: a backslash before every `'`, `"` and `\`, and a NUL
   * character written as a backslash followed by `0`.
   */
  function AddSlashes(s: string): (r: string)
    ensures |r| == |s| + SlashCount(s)
    ensures '\0' !in r
    ensures forall i :: 0 <= i < |r| && (r[i] == '\'' || r[i] == '"') ==> 0 < i && r[i - 1] == '\\'
    ensures (forall i :: 0 <= i < |s| ==> !NeedsSlash(s[i])) ==> r == s
  {
    if s == [] then []
    else
      (if s[0] == '\0' then "\\0"
       else if NeedsSlash(s[0]) then ['\\', s[0]]
       else [s[0]])
      + AddSlashes(s[1..])
  }

  /**
   * `stripslashes($s)`: a backslash is dropped and the character after it
   * kept, except that a backslash before `0` gives NUL; a trailing lone
   * backslash disappears.
   */
  function StripSlashes(s: string): string
    decreases |s|
  {
    if s == [] then []
    else if s[0] == '\\' then
      if |s| == 1 then []
      else [if s[1] == '0' then '\0' else s[1]] + StripSlashes(s[2..])
    else [s[0]] + StripSlashes(s[1..])
  }

  /** `stripslashes` undoes `addslashes`. */
  lemma {:induction false} StripSlashesUndoesAddSlashes(s: string)
    ensures StripSlashes(AddSlashes(s)) == s
  {
    if s != [] {
      StripSlashesUndoesAddSlashes(s[1..]);
      var t := AddSlashes(s);
      if NeedsSlash(s[0]) {
        assert t[2..] == AddSlashes(s[1..]);
      } else {
        assert t[1..] == AddSlashes(s[1..]);
      }
    }
  }
}
