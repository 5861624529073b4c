/** The JavaScript string operations the core relies on, over ASCII:
    `trim`, `toLowerCase`, `split` (by single characters and by a
    character-class run such as `/[\/, ]+/`) and `join`. */
module Strings {

  /** Whitespace removed by `String.prototype.trim`, restricted to ASCII:
      space, tab, line feed, vertical tab, form feed, carriage return. */
  predicate IsSpace(c: char) {
    c == ' ' || '\t' <= c <= '\r'
  }

  predicate AllSpace(s: string) {
    forall i :: 0 <= i < |s| ==> IsSpace(s[i])
  }

  /** No character of `s` is in `cs`. */
  predicate Avoids(s: string, cs: set<char>) {
    forall i :: 0 <= i < |s| ==> s[i] !in cs
  }

  /** Neither the first nor the last character is whitespace. */
  predicate IsTrimmed(s: string) {
    s == [] || (!IsSpace(s[0]) && !IsSpace(s[|s| - 1]))
  }

  /** The first index at or after `i` that is not whitespace (or `|s|`). */
  function SkipSpaces(s: string, i: nat): (k: nat)
    requires i <= |s|
    ensures i <= k <= |s|
    ensures k < |s| ==> !IsSpace(s[k])
    ensures forall m :: i <= m < k ==> IsSpace(s[m])
    decreases |s| - i
  {
    if i < |s| && IsSpace(s[i]) then SkipSpaces(s, i + 1) else i
  }

  /** The end of `s[..j]` once its trailing whitespace is removed. */
  function SkipSpacesBack(s: string, j: nat): (k: nat)
    requires j <= |s|
    ensures k <= j
    ensures k > 0 ==> !IsSpace(s[k - 1])
    ensures forall m :: k <= m < j ==> IsSpace(s[m])
  {
    if j > 0 && IsSpace(s[j - 1]) then SkipSpacesBack(s, j - 1) else j
  }

  /** `s.trim()`: the result has no surrounding whitespace, leaves an
      already trimmed string alone and is empty exactly when `s` is blank;
      `TrimStripsRuns` shows it is `s` without its outer whitespace. */
  function Trim(s: string): (r: string)
    ensures IsTrimmed(r)
    ensures |r| <= |s|
    ensures IsTrimmed(s) ==> r == s
    ensures r == [] <==> AllSpace(s)
  {
    var a := SkipSpaces(s, 0);
    var b := SkipSpacesBack(s, |s|);
    if a < b then s[a..b] else []
  }

  /** Trimming removes a leading and a trailing run of whitespace and keeps
      what lies between. */
  lemma TrimStripsRuns(s: string)
    ensures var r := Trim(s);
            exists a :: 0 <= a <= |s| - |r| && r == s[a..a + |r|] && AllSpace(s[..a]) && AllSpace(s[a + |r|..])
  {
    var a := SkipSpaces(s, 0);
    var b := SkipSpacesBack(s, |s|);
    if a < b {
      assert AllSpace(s[..a]) && AllSpace(s[b..]);
    } else {
      assert AllSpace(s[..0]) && s[0..0] == [] && s[0..] == s;
    }
  }

  /** Trimming only removes characters. */
  lemma TrimAvoids(s: string, cs: set<char>)
    requires Avoids(s, cs)
    ensures Avoids(Trim(s), cs)
  {
  }

  /** A whitespace character in front of a trimmed string is removed by
      trimming. */
  lemma TrimSpaceBefore(c: char, x: string)
    requires IsSpace(c) && IsTrimmed(x)
    ensures Trim([c] + x) == x
  {
    var t := [c] + x;
    if x == [] {
      assert AllSpace(t);
    } else {
      assert t[1] == x[0] && t[|t| - 1] == x[|x| - 1];
      assert SkipSpaces(t, 0) == SkipSpaces(t, 1) == 1;
      assert SkipSpacesBack(t, |t|) == |t|;
      assert t[1..] == x;
    }
  }

  /** ASCII `toLowerCase` of one character. */
  function ToLowerChar(c: char): char {
    if 'A' <= c <= 'Z' then (c as int + 32) as char else c
  }

  /** ASCII `toLowerCase`. */
  function ToLower(s: string): (r: string)
    ensures |r| == |s|
    ensures forall i :: 0 <= i < |r| ==> !('A' <= r[i] <= 'Z')
    ensures forall i :: 0 <= i < |s| && !('A' <= s[i] <= 'Z') ==> r[i] == s[i]
    ensures forall i :: 0 <= i < |s| && 'A' <= s[i] <= 'Z' ==> r[i] == (s[i] as int + 32) as char
  {
    seq(|s|, i requires 0 <= i < |s| => ToLowerChar(s[i]))
  }

  /** `a.toLowerCase() === b.toLowerCase()`. */
  predicate SameIgnoringCase(a: string, b: string) {
    ToLower(a) == ToLower(b)
  }

  /** `s.split(sep)` generalised to a set of single-character separators:
      the pieces between consecutive separator characters, so `k`
      separators give `k + 1` pieces and the empty string gives `[""]`. */
  function Split(s: string, seps: set<char>): (r: seq<string>)
    ensures |r| >= 1
    ensures forall p :: p in r ==> Avoids(p, seps)
    decreases |s|
  {
    if s == [] then [[]]
    else if s[0] in seps then [[]] + Split(s[1..], seps)
    else
      var rest := Split(s[1..], seps);
      assert rest[0] in rest && Avoids([s[0]] + rest[0], seps);
      assert forall p :: p in rest[1..] ==> p in rest;
      [[s[0]] + rest[0]] + rest[1..]
  }

  /** `xs.join(sep)`. */
  function Join(xs: seq<string>, sep: string): string {
    if |xs| == 0 then ""
    else if |xs| == 1 then xs[0]
    else xs[0] + sep + Join(xs[1..], sep)
  }

  /** Splitting at `d` and joining with `d` gives the input back. */
  lemma {:induction false} JoinSplit(s: string, d: char)
    ensures Join(Split(s, {d}), [d]) == s
    decreases |s|
  {
    if s != [] {
      JoinSplit(s[1..], d);
      var rest := Split(s[1..], {d});
      if s[0] != d && |rest| > 1 {
        assert [[s[0]] + rest[0]] + rest[1..] == [[s[0]] + rest[0]] + rest[1..];
        assert Join(rest, [d]) == rest[0] + [d] + Join(rest[1..], [d]);
      }
    }
  }

  /** A string without separators is a single piece. */
  lemma {:induction false} SplitNoSeparator(s: string, seps: set<char>)
    requires Avoids(s, seps)
    ensures Split(s, seps) == [s]
    decreases |s|
  {
    if s != [] {
      SplitNoSeparator(s[1..], seps);
      assert [s[0]] + s[1..] == s;
    }
  }

  /** Splitting at a separator between `a` and `b` splits each side. */
  lemma {:induction false} SplitAppend(a: string, d: char, b: string, seps: set<char>)
    requires d in seps
    ensures Split(a + [d] + b, seps) == Split(a, seps) + Split(b, seps)
    decreases |a|
  {
    var s := a + [d] + b;
    if a == [] {
      assert s[1..] == b;
    } else {
      assert s[0] == a[0];
      assert s[1..] == a[1..] + [d] + b;
      SplitAppend(a[1..], d, b, seps);
    }
  }

  /** Splitting a `d`-joined list of `d`-free strings gives the list back. */
  lemma {:induction false} SplitJoin(xs: seq<string>, d: char)
    requires xs != []
    requires forall x :: x in xs ==> Avoids(x, {d})
    ensures Split(Join(xs, [d]), {d}) == xs
    decreases |xs|
  {
    SplitNoSeparator(xs[0], {d});
    if |xs| > 1 {
      var rest := xs[1..];
      assert forall x :: x in rest ==> x in xs;
      SplitJoin(rest, d);
      SplitAppend(xs[0], d, Join(rest, [d]), {d});
      assert Join(xs, [d]) == xs[0] + [d] + Join(rest, [d]);
    }
  }

  /** Strips every leading separator character (the rest of a `+` run). */
  function DropSeparators(s: string, seps: set<char>): (r: string)
    ensures |r| <= |s| && r == s[|s| - |r|..]
    ensures r == [] || r[0] !in seps
    ensures forall i :: 0 <= i < |s| - |r| ==> s[i] in seps
  {
    if s != [] && s[0] in seps then DropSeparators(s[1..], seps) else s
  }

  /** `s.split(/[seps]+/)`: JavaScript splits at every maximal run of
      separator characters, so an inner run gives no empty piece while a
      leading or trailing run gives an empty first or last piece. */
  function SplitRuns(s: string, seps: set<char>): (r: seq<string>)
    ensures |r| >= 1
    ensures forall p :: p in r ==> Avoids(p, seps)
    decreases |s|
  {
    if s == [] then [[]]
    else if s[0] in seps then
      var t := DropSeparators(s[1..], seps);
      [[]] + SplitRuns(t, seps)
    else
      var rest := SplitRuns(s[1..], seps);
      assert rest[0] in rest && Avoids([s[0]] + rest[0], seps);
      assert forall p :: p in rest[1..] ==> p in rest;
      [[s[0]] + rest[0]] + rest[1..]
  }

  /** Up to the first separator, both splits agree. */
  lemma {:induction false} SplitRunsFirstPiece(s: string, seps: set<char>)
    ensures SplitRuns(s, seps)[0] == Split(s, seps)[0]
    decreases |s|
  {
    if s != [] && s[0] !in seps {
      SplitRunsFirstPiece(s[1..], seps);
    }
  }

  /** `pieces.map(c => c.trim()).filter(c => c.length > 0)`. */
  function CleanEntries(pieces: seq<string>): (r: seq<string>)
    ensures forall x :: x in r ==> x != [] && IsTrimmed(x)
    ensures |r| <= |pieces|
  {
    if pieces == [] then []
    else
      var t := Trim(pieces[0]);
      (if t == [] then [] else [t]) + CleanEntries(pieces[1..])
  }

  /** Cleaning distributes over concatenation: every piece yields its own
      entry, in the order of the pieces. */
  lemma {:induction false} CleanEntriesAppend(a: seq<string>, b: seq<string>)
    ensures CleanEntries(a + b) == CleanEntries(a) + CleanEntries(b)
    decreases |a|
  {
    if a == [] {
      assert a + b == b;
    } else {
      assert (a + b)[1..] == a[1..] + b;
      CleanEntriesAppend(a[1..], b);
    }
  }

  /** Entries that are already non-empty and trimmed pass unchanged. */
  lemma {:induction false} CleanEntriesOfClean(xs: seq<string>)
    requires forall x :: x in xs ==> x != [] && IsTrimmed(x)
    ensures CleanEntries(xs) == xs
    decreases |xs|
  {
    if xs != [] {
      var rest := xs[1..];
      assert forall x :: x in rest ==> x in xs;
      CleanEntriesOfClean(rest);
      assert Trim(xs[0]) == xs[0];
    }
  }

  /** Blank pieces yield no entry. */
  lemma {:induction false} CleanEntriesOfBlank(pieces: seq<string>)
    requires forall p :: p in pieces ==> AllSpace(p)
    ensures CleanEntries(pieces) == []
    decreases |pieces|
  {
    if pieces != [] {
      CleanEntriesOfBlank(pieces[1..]);
    }
  }

  /** Characters that no piece contains appear in no entry. */
  lemma {:induction false} CleanEntriesAvoid(pieces: seq<string>, cs: set<char>)
    requires forall p :: p in pieces ==> Avoids(p, cs)
    ensures forall x :: x in CleanEntries(pieces) ==> Avoids(x, cs)
    decreases |pieces|
  {
    if pieces != [] {
      var rest := pieces[1..];
      assert forall p :: p in rest ==> p in pieces;
      CleanEntriesAvoid(rest, cs);
      TrimAvoids(pieces[0], cs);
    }
  }

  /** Only whitespace and separators: every piece is blank. */
  lemma {:induction false} SplitBlank(s: string, seps: set<char>)
    requires forall i :: 0 <= i < |s| ==> IsSpace(s[i]) || s[i] in seps
    ensures forall p :: p in Split(s, seps) ==> AllSpace(p)
    decreases |s|
  {
    if s != [] {
      var rest := Split(s[1..], seps);
      SplitBlank(s[1..], seps);
      if s[0] !in seps {
        assert rest[0] in rest && AllSpace([s[0]] + rest[0]);
        assert forall p :: p in rest[1..] ==> p in rest;
      }
    }
  }

  /** The entry (if any) that one piece contributes. */
  function EntryOf(p: string): seq<string> {
    if Trim(p) == [] then [] else [Trim(p)]
  }

  /** One step of the cleaning, as a rewrite rule for the proofs below. */
  lemma CleanEntriesCons(pieces: seq<string>)
    requires pieces != []
    ensures CleanEntries(pieces) == EntryOf(pieces[0]) + CleanEntries(pieces[1..])
  {
  }

  /** A leading separator only contributes an empty piece, which cleaning drops. */
  lemma CleanSplitLeadingSeparator(s: string, seps: set<char>)
    requires s != [] && s[0] in seps
    ensures CleanEntries(Split(s, seps)) == CleanEntries(Split(s[1..], seps))
  {
    var pieces := Split(s, seps);
    assert pieces[0] == [] && pieces[1..] == Split(s[1..], seps);
    CleanEntriesCons(pieces);
  }

  lemma {:induction false} CleanSplitDropSeparators(s: string, seps: set<char>)
    ensures CleanEntries(Split(DropSeparators(s, seps), seps)) == CleanEntries(Split(s, seps))
    decreases |s|
  {
    if s != [] && s[0] in seps {
      CleanSplitDropSeparators(s[1..], seps);
      CleanSplitLeadingSeparator(s, seps);
    }
  }

  /** After trimming and dropping empty pieces, splitting at maximal runs of
      separators and splitting at every separator give the same entries. */
  lemma {:induction false} CleanSplitRuns(s: string, seps: set<char>)
    ensures CleanEntries(SplitRuns(s, seps)) == CleanEntries(Split(s, seps))
    decreases |s|
  {
    if s == [] {
    } else if s[0] in seps {
      var t := DropSeparators(s[1..], seps);
      CleanSplitRuns(t, seps);
      CleanSplitDropSeparators(s[1..], seps);
      CleanSplitLeadingSeparator(s, seps);
      var pieces := SplitRuns(s, seps);
      assert pieces[0] == [] && pieces[1..] == SplitRuns(t, seps);
      CleanEntriesCons(pieces);
    } else {
      var r := SplitRuns(s[1..], seps);
      var q := Split(s[1..], seps);
      CleanSplitRuns(s[1..], seps);
      SplitRunsFirstPiece(s[1..], seps);
      CleanEntriesCons(r);
      CleanEntriesCons(q);
      var h := EntryOf(r[0]);
      assert CleanEntries(r[1..]) == CleanEntries(r)[|h|..];
      assert CleanEntries(q[1..]) == CleanEntries(q)[|h|..];
      var rs := SplitRuns(s, seps);
      var qs := Split(s, seps);
      assert rs[0] == qs[0] && rs[1..] == r[1..] && qs[1..] == q[1..];
      CleanEntriesCons(rs);
      CleanEntriesCons(qs);
    }
  }
}
