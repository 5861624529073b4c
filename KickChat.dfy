/** The chat panel (src/components/KickChat.jsx): the emote tokenizer that
    renders a message's content, the capped message log, and the panel's
    state driven by the channel lookup and the chat transport's callbacks. */
module KickChat {
  import opened Wrappers
  import opened KickApi
  import opened Seqs

  // ---------------------------------------------------------------------
  // The emote pattern `\[emote:(\d+):([\w]+)\]`
  // ---------------------------------------------------------------------

  /** `\d` without the `u` flag. */
  predicate IsDigit(c: char) {
    '0' <= c <= '9'
  }

  /** `\w` without the `u` flag: `[A-Za-z0-9_]`. */
  predicate IsWordChar(c: char) {
    IsDigit(c) || 'a' <= c <= 'z' || 'A' <= c <= 'Z' || c == '_'
  }

  /** What `(\d+)` captures. */
  predicate IsEmoteId(id: string) {
    id != [] && forall i :: 0 <= i < |id| ==> IsDigit(id[i])
  }

  /** What `([\w]+)` captures. */
  predicate IsEmoteName(name: string) {
    name != [] && forall i :: 0 <= i < |name| ==> IsWordChar(name[i])
  }

  const EmotePrefix: string := "[emote:"

  /** The text `[emote:<id>:<name>]`. */
  function Token(id: string, name: string): string {
    EmotePrefix + id + ":" + name + "]"
  }

  /** `t` is a whole match of the emote pattern. */
  ghost predicate IsToken(t: string) {
    exists id, name :: IsEmoteId(id) && IsEmoteName(name) && t == Token(id, name)
  }

  /** `t` holds a match of the emote pattern somewhere. */
  ghost predicate ContainsToken(t: string) {
    exists x, y :: 0 <= x <= y <= |t| && IsToken(t[x..y])
  }

  /** The end of the run of digits starting at `i`. */
  function DigitsEnd(s: string, i: nat): (k: nat)
    requires i <= |s|
    ensures i <= k <= |s|
    ensures k < |s| ==> !IsDigit(s[k])
    decreases |s| - i
  {
    if i < |s| && IsDigit(s[i]) then DigitsEnd(s, i + 1) else i
  }

  /** Everything `DigitsEnd` skips is a digit. */
  lemma {:induction false} DigitsEndRun(s: string, i: nat)
    requires i <= |s|
    ensures forall m :: i <= m < DigitsEnd(s, i) ==> IsDigit(s[m])
    decreases |s| - i
  {
    if i < |s| && IsDigit(s[i]) {
      DigitsEndRun(s, i + 1);
    }
  }

  /** The end of the run of word characters starting at `i`. */
  function WordEnd(s: string, i: nat): (k: nat)
    requires i <= |s|
    ensures i <= k <= |s|
    ensures k < |s| ==> !IsWordChar(s[k])
    decreases |s| - i
  {
    if i < |s| && IsWordChar(s[i]) then WordEnd(s, i + 1) else i
  }

  /** Everything `WordEnd` skips is a word character. */
  lemma {:induction false} WordEndRun(s: string, i: nat)
    requires i <= |s|
    ensures forall m :: i <= m < WordEnd(s, i) ==> IsWordChar(s[m])
    decreases |s| - i
  {
    if i < |s| && IsWordChar(s[i]) {
      WordEndRun(s, i + 1);
    }
  }

  /** A run of digits ended by a non-digit is what `DigitsEnd` finds, and
      likewise for word characters. */
  lemma RunEnds(s: string, i: nat, d: nat, j: nat, w: nat)
    requires i <= d < |s| && j <= w < |s|
    requires (forall m :: i <= m < d ==> IsDigit(s[m])) && !IsDigit(s[d])
    requires (forall m :: j <= m < w ==> IsWordChar(s[m])) && !IsWordChar(s[w])
    ensures DigitsEnd(s, i) == d && WordEnd(s, j) == w
  {
    DigitsEndRun(s, i);
    WordEndRun(s, j);
  }

  /** One match: where it starts and ends in the content, and its groups. */
  datatype EmoteMatch = EmoteMatch(start: nat, end: nat, id: string, name: string)

  /** `t` spelled out piece by piece is `Token(id, name)`. */
  lemma TokenPieces(t: string, id: string, name: string)
    ensures t == Token(id, name) <==>
              |t| == |id| + |name| + 9 && t[..7] == EmotePrefix && t[7..7 + |id|] == id &&
              t[7 + |id|] == ':' && t[8 + |id|..|t| - 1] == name && t[|t| - 1] == ']'
  {
    var k := Token(id, name);
    assert |k| == |id| + |name| + 9;
    assert k[..7] == EmotePrefix && k[7..7 + |id|] == id && k[7 + |id|] == ':';
    assert k[8 + |id|..|k| - 1] == name && k[|k| - 1] == ']';
    if |t| == |k| && t[..7] == EmotePrefix && t[7..7 + |id|] == id &&
       t[7 + |id|] == ':' && t[8 + |id|..|t| - 1] == name && t[|t| - 1] == ']' {
      assert t == t[..7] + t[7..7 + |id|] + [t[7 + |id|]] + t[8 + |id|..|t| - 1] + [t[|t| - 1]];
    }
  }

  /** The pattern tried at position `i`. Neither `\d+` (followed by `:`) nor
      `\w+` (followed by `]`) can give back a character to let the rest
      match, so the longest runs decide the match. */
  function MatchAt(s: string, i: nat): (r: Option<EmoteMatch>)
    requires i <= |s|
    ensures r.Some? ==> r.value.start == i && i < r.value.end <= |s|
  {
    if i + 7 <= |s| && s[i..i + 7] == EmotePrefix then
      var d := DigitsEnd(s, i + 7);
      if d > i + 7 && d < |s| && s[d] == ':' then
        var w := WordEnd(s, d + 1);
        if w > d + 1 && w < |s| && s[w] == ']' then
          Some(EmoteMatch(i, w + 1, s[i + 7..d], s[d + 1..w]))
        else None
      else None
    else None
  }

  /** A match captures a valid id and name. */
  lemma MatchAtGroups(s: string, i: nat)
    requires i <= |s| && MatchAt(s, i).Some?
    ensures IsEmoteId(MatchAt(s, i).value.id) && IsEmoteName(MatchAt(s, i).value.name)
  {
    var d := DigitsEnd(s, i + 7);
    DigitsEndRun(s, i + 7);
    WordEndRun(s, d + 1);
  }

  /** A match covers exactly `[emote:<id>:<name>]`. */
  lemma MatchAtSpan(s: string, i: nat)
    requires i <= |s| && MatchAt(s, i).Some?
    ensures s[i..MatchAt(s, i).value.end] == Token(MatchAt(s, i).value.id, MatchAt(s, i).value.name)
  {
    var m := MatchAt(s, i).value;
    var d := DigitsEnd(s, i + 7);
    var w := WordEnd(s, d + 1);
    assert m.id == s[i + 7..d] && m.name == s[d + 1..w] && m.end == w + 1;
    assert s[i..w + 1] == s[i..i + 7] + s[i + 7..d] + [s[d]] + s[d + 1..w] + [s[w]];
  }

  /** Where a token sits in the content, its pieces sit at known offsets. */
  lemma TokenAt(s: string, i: nat, j: nat, id: string, name: string)
    requires i <= j <= |s| && s[i..j] == Token(id, name)
    ensures j == i + |id| + |name| + 9
    ensures s[i..i + 7] == EmotePrefix && s[i + 7..i + 7 + |id|] == id && s[i + 7 + |id|] == ':'
    ensures s[i + 8 + |id|..j - 1] == name && s[j - 1] == ']'
  {
    var t := s[i..j];
    TokenPieces(t, id, name);
    SliceOfSlice(s, i, j, 0, 7);
    SliceOfSlice(s, i, j, 7, 7 + |id|);
    SliceOfSlice(s, i, j, 8 + |id|, |t| - 1);
    assert t[..7] == t[0..7];
  }

  /** Every whole match found in the content is found by `MatchAt` at its
      first character. */
  lemma MatchAtComplete(s: string, i: nat, j: nat, id: string, name: string)
    requires i <= j <= |s|
    requires IsEmoteId(id) && IsEmoteName(name) && s[i..j] == Token(id, name)
    ensures MatchAt(s, i) == Some(EmoteMatch(i, j, id, name))
  {
    TokenAt(s, i, j, id, name);
    var d := i + 7 + |id|;
    var w := d + 1 + |name|;
    forall m | i + 7 <= m < d ensures IsDigit(s[m]) {
      assert s[m] == s[i + 7..d][m - i - 7];
    }
    forall m | d + 1 <= m < w ensures IsWordChar(s[m]) {
      assert s[m] == s[d + 1..w][m - d - 1];
    }
    RunEnds(s, i + 7, d, d + 1, w);
  }

  /** `emoteRegex.exec(content)` with `lastIndex == from`: the leftmost
      match starting at or after `from` (see `NextMatchFound` and `NextMatchFirst`). */
  function NextMatch(s: string, from: nat): (r: Option<EmoteMatch>)
    requires from <= |s|
    ensures r.Some? ==> from <= r.value.start < r.value.end <= |s|
    decreases |s| - from
  {
    match MatchAt(s, from)
    case Some(m) => Some(m)
    case None => if from == |s| then None else NextMatch(s, from + 1)
  }

  /** What `NextMatch` returns is a match at its start. */
  lemma {:induction false} NextMatchFound(s: string, from: nat)
    requires from <= |s| && NextMatch(s, from).Some?
    ensures MatchAt(s, NextMatch(s, from).value.start) == NextMatch(s, from)
    decreases |s| - from
  {
    if MatchAt(s, from).None? {
      assert NextMatch(s, from) == NextMatch(s, from + 1);
      NextMatchFound(s, from + 1);
    }
  }

  /** No match starts between `from` and what `NextMatch` returns, nor
      anywhere after `from` when it returns nothing. */
  lemma {:induction false} NextMatchFirst(s: string, from: nat, k: nat)
    requires from <= k <= |s|
    requires NextMatch(s, from).None? || k < NextMatch(s, from).value.start
    ensures MatchAt(s, k).None?
    decreases |s| - from
  {
    if k > from {
      assert MatchAt(s, from).None?;
      assert NextMatch(s, from) == NextMatch(s, from + 1);
      NextMatchFirst(s, from + 1, k);
    }
  }

  // ---------------------------------------------------------------------
  // renderContent
  // ---------------------------------------------------------------------

  /** `https://files.kick.com/emotes/<id>/fullsize`. */
  function EmoteUrl(id: string): string {
    "https://files.kick.com/emotes/" + id + "/fullsize"
  }

  /** A piece of rendered content: a text run, or an emote image with its
      id, its name (the `alt` and `title`) and its `src`. */
  datatype Part = Text(text: string) | Emote(id: string, name: string, url: string)

  /** What `renderContent` returns: `null`, the content itself, or the
      parts. */
  datatype Rendered = Nothing | Plain(content: string) | Parts(parts: seq<Part>)

  /** The text before a match that starts at `start`, if any. */
  function TextBefore(s: string, last: nat, start: nat): seq<Part>
    requires last <= start <= |s|
  {
    if start > last then [Text(s[last..start])] else []
  }

  /** The text after the last match, if any. */
  function TextAfter(s: string, last: nat): seq<Part>
    requires last <= |s|
  {
    if last < |s| then [Text(s[last..])] else []
  }

  /** The image part for a match. */
  function EmotePart(m: EmoteMatch): Part {
    Emote(m.id, m.name, EmoteUrl(m.id))
  }

  /** The parts the loop produces from position `last` on. */
  function Scan(s: string, last: nat): seq<Part>
    requires last <= |s|
    decreases |s| - last
  {
    match NextMatch(s, last)
    case None => TextAfter(s, last)
    case Some(m) => TextBefore(s, last, m.start) + [EmotePart(m)] + Scan(s, m.end)
  }

  /** The text a part stands for in the content. */
  function PartSource(p: Part): string {
    match p
    case Text(t) => t
    case Emote(id, name, _) => Token(id, name)
  }

  /** The content the parts were read from. */
  function Unparse(ps: seq<Part>): string {
    if ps == [] then [] else PartSource(ps[0]) + Unparse(ps[1..])
  }

  lemma {:induction false} UnparseAppend(a: seq<Part>, b: seq<Part>)
    ensures Unparse(a + b) == Unparse(a) + Unparse(b)
    decreases |a|
  {
    if a == [] {
      assert a + b == b;
    } else {
      assert (a + b)[0] == a[0];
      assert (a + b)[1..] == a[1..] + b;
      UnparseAppend(a[1..], b);
    }
  }

  /** Text parts are never empty. */
  predicate TextsNonEmpty(ps: seq<Part>) {
    forall i :: 0 <= i < |ps| && ps[i].Text? ==> ps[i].text != []
  }

  /** A text part is always followed by an emote part, or ends the list. */
  predicate NoAdjacentTexts(ps: seq<Part>) {
    forall i :: 0 <= i < |ps| - 1 ==> ps[i].Text? ==> ps[i + 1].Emote?
  }

  /** Every emote part has a valid id and name and the image of its id. */
  predicate EmotesValid(ps: seq<Part>) {
    forall i :: 0 <= i < |ps| && ps[i].Emote? ==>
      IsEmoteId(ps[i].id) && IsEmoteName(ps[i].name) && ps[i].url == EmoteUrl(ps[i].id)
  }

  /** No text part holds a match of the emote pattern. */
  ghost predicate TextsTokenFree(ps: seq<Part>) {
    forall i :: 0 <= i < |ps| && ps[i].Text? ==> !ContainsToken(ps[i].text)
  }

  lemma UnparseOne(p: Part)
    ensures Unparse([p]) == PartSource(p)
  {
    assert [p][1..] == [];
  }

  /** One step of the scan gives back the text before the match and the
      match itself. */
  lemma ScanStepSource(s: string, last: nat)
    requires last <= |s| && NextMatch(s, last).Some?
    ensures Unparse(Scan(s, last)) ==
              s[last..NextMatch(s, last).value.start] +
              s[NextMatch(s, last).value.start..NextMatch(s, last).value.end] +
              Unparse(Scan(s, NextMatch(s, last).value.end))
  {
    var m := NextMatch(s, last).value;
    var pre := TextBefore(s, last, m.start);
    var e := EmotePart(m);
    assert Scan(s, last) == pre + [e] + Scan(s, m.end);
    NextMatchFound(s, last);
    MatchAtSpan(s, m.start);
    UnparseAppend(pre + [e], Scan(s, m.end));
    UnparseAppend(pre, [e]);
    UnparseOne(e);
    if m.start > last {
      UnparseOne(Text(s[last..m.start]));
    }
  }

  /** Joining the parts back, each emote written as `[emote:<id>:<name>]`,
      gives the scanned content exactly. */
  lemma {:induction false} ScanReconstructs(s: string, last: nat)
    requires last <= |s|
    ensures Unparse(Scan(s, last)) == s[last..]
    decreases |s| - last
  {
    match NextMatch(s, last)
    case None =>
      if last < |s| {
        UnparseOne(Text(s[last..]));
      }
    case Some(m) =>
      ScanStepSource(s, last);
      ScanReconstructs(s, m.end);
      SuffixPieces(s, last, m.start, m.end);
  }

  /** The parts of `pre + [e] + rest` by position. */
  lemma PartsAt(pre: seq<Part>, e: Part, rest: seq<Part>)
    ensures var ps := pre + [e] + rest;
            forall i :: 0 <= i < |ps| ==>
              ps[i] == (if i < |pre| then pre[i] else if i == |pre| then e else rest[i - |pre| - 1])
  {
  }

  /** The scan produces something for non-empty input, no empty text part,
      never two text parts in a row, and only valid emotes. */
  lemma {:induction false} ScanShape(s: string, last: nat)
    requires last <= |s|
    ensures last < |s| ==> Scan(s, last) != []
    ensures TextsNonEmpty(Scan(s, last)) && EmotesValid(Scan(s, last))
    ensures NoAdjacentTexts(Scan(s, last))
    decreases |s| - last
  {
    match NextMatch(s, last)
    case None =>
    case Some(m) =>
      var pre := TextBefore(s, last, m.start);
      var e := EmotePart(m);
      var rest := Scan(s, m.end);
      NextMatchFound(s, last);
      MatchAtGroups(s, m.start);
      ScanShape(s, m.end);
      PartsAt(pre, e, rest);
  }

  /** No text part contains a whole match: the matches are found leftmost
      first, so any match inside a text run would have been taken. */
  lemma {:induction false} ScanTokenFree(s: string, last: nat)
    requires last <= |s|
    ensures TextsTokenFree(Scan(s, last))
    decreases |s| - last
  {
    match NextMatch(s, last)
    case None =>
      if last < |s| {
        NoMatchNoToken(s, last, |s|);
        assert s[last..] == s[last..|s|];
      }
    case Some(m) =>
      var pre := TextBefore(s, last, m.start);
      var e := EmotePart(m);
      var rest := Scan(s, m.end);
      ScanTokenFree(s, m.end);
      if m.start > last {
        NoMatchNoToken(s, last, m.start);
      }
      PartsAt(pre, e, rest);
  }

  /** A whole match inside `s[a..b]` is a match `MatchAt` finds. */
  lemma TokenInside(s: string, a: nat, b: nat, x: nat, y: nat)
    requires a <= b <= |s| && x <= y <= b - a && IsToken(s[a..b][x..y])
    ensures a + x < b && MatchAt(s, a + x).Some?
  {
    var id, name :| IsEmoteId(id) && IsEmoteName(name) && s[a..b][x..y] == Token(id, name);
    SliceOfSlice(s, a, b, x, y);
    MatchAtComplete(s, a + x, a + y, id, name);
  }

  /** The stretch from `a` up to the next match (or the end) holds no
      whole match. */
  lemma NoMatchNoToken(s: string, a: nat, b: nat)
    requires a <= b <= |s|
    requires NextMatch(s, a).None? || b <= NextMatch(s, a).value.start
    ensures !ContainsToken(s[a..b])
  {
    if ContainsToken(s[a..b]) {
      var x, y :| 0 <= x <= y <= |s[a..b]| && IsToken(s[a..b][x..y]);
      TokenInside(s, a, b, x, y);
      NextMatchFirst(s, a, a + x);
    }
  }

  /** One turn of the loop: what was collected, the text before the match,
      if any, and the emote, followed by the scan from the end of the match,
      are still the whole scan. */
  lemma ScanAdvance(done: seq<Part>, s: string, last: nat)
    requires last <= |s| && NextMatch(s, last).Some?
    requires done + Scan(s, last) == Scan(s, 0)
    ensures done + TextBefore(s, last, NextMatch(s, last).value.start) + [EmotePart(NextMatch(s, last).value)] +
              Scan(s, NextMatch(s, last).value.end) == Scan(s, 0)
  {
    var m := NextMatch(s, last).value;
    assert Scan(s, last) == TextBefore(s, last, m.start) + [EmotePart(m)] + Scan(s, m.end);
  }

  /** After the last match the scan is the remaining text, if any. */
  lemma ScanRest(s: string, last: nat)
    requires last <= |s| && NextMatch(s, last).None?
    ensures Scan(s, last) == TextAfter(s, last)
  {
  }

  /** Everything proved about the parts of non-empty content. */
  lemma ScanFacts(s: string)
    requires s != []
    ensures Scan(s, 0) != [] && Unparse(Scan(s, 0)) == s
    ensures TextsNonEmpty(Scan(s, 0)) && NoAdjacentTexts(Scan(s, 0)) && EmotesValid(Scan(s, 0))
    ensures TextsTokenFree(Scan(s, 0))
  {
    ScanShape(s, 0);
    ScanReconstructs(s, 0);
    ScanTokenFree(s, 0);
    assert s[0..] == s;
  }

  /** The loop of `renderContent` over `emoteRegex.exec`: the text before
      each match, the emote, and the text after the last match. */
  method CollectParts(s: string) returns (parts: seq<Part>)
    ensures parts == Scan(s, 0)
  {
    parts := [];
    var lastIndex: nat := 0;
    var m := NextMatch(s, lastIndex);
    while m.Some?
      invariant lastIndex <= |s|
      invariant m == NextMatch(s, lastIndex)
      invariant parts + Scan(s, lastIndex) == Scan(s, 0)
      decreases |s| - lastIndex
    {
      var found := m.value;
      ghost var done := parts;
      if found.start > lastIndex {
        parts := parts + [Text(s[lastIndex..found.start])];
      }
      parts := parts + [Emote(found.id, found.name, EmoteUrl(found.id))];
      assert parts == done + TextBefore(s, lastIndex, found.start) + [EmotePart(found)];
      ScanAdvance(done, s, lastIndex);
      lastIndex := found.end;
      m := NextMatch(s, lastIndex);
    }
    ScanRest(s, lastIndex);
    if lastIndex < |s| {
      parts := parts + [Text(s[lastIndex..])];
    }
  }

  /** `renderContent`: `null` for missing or empty content; otherwise the
      collected parts. They are never empty, so the `: content` fallback is
      never taken; they rebuild the content and are well formed. */
  method RenderContent(content: Option<string>) returns (r: Rendered)
    ensures content.None? || content.value == [] <==> r == Nothing
    ensures content.Some? && content.value != [] ==> r == Parts(Scan(content.value, 0))
    ensures r.Parts? ==> r.parts != [] && Unparse(r.parts) == content.value
    ensures r.Parts? ==> TextsNonEmpty(r.parts) && NoAdjacentTexts(r.parts) && EmotesValid(r.parts)
    ensures r.Parts? ==> TextsTokenFree(r.parts)
  {
    if content.None? || content.value == [] {
      return Nothing;
    }
    var s := content.value;
    var parts := CollectParts(s);
    ScanFacts(s);
    if |parts| > 0 {
      r := Parts(parts);
    } else {
      r := Plain(s);
    }
  }

  // ---------------------------------------------------------------------
  // The message log
  // ---------------------------------------------------------------------

  /** The panel keeps at most this many messages. */
  const MaxMessages: nat := 100

  /** The last hundred of everything received, in order. */
  function Window<T>(xs: seq<T>): (r: seq<T>)
    ensures |r| <= MaxMessages
  {
    if |xs| <= MaxMessages then xs else xs[|xs| - MaxMessages..]
  }

  /** `[...prev, parsed]`, cut to its last hundred entries by `slice(-100)`. */
  function AppendCapped<T>(log: seq<T>, m: T): (r: seq<T>)
    ensures |r| <= MaxMessages || |r| == |log| + 1
    ensures r != [] && r[|r| - 1] == m
  {
    var next := log + [m];
    if |next| > MaxMessages then next[|next| - MaxMessages..] else next
  }

  /** Appending to a log of at most a hundred gives one more entry, or a
      hundred, with the new message last and the survivors in order. */
  lemma AppendCappedShape<T>(log: seq<T>, m: T)
    requires |log| <= MaxMessages
    ensures var r := AppendCapped(log, m);
            |r| == (if |log| < MaxMessages then |log| + 1 else MaxMessages) &&
            r[|r| - 1] == m && r[..|r| - 1] == log[|log| + 1 - |r|..]
  {
    var r := AppendCapped(log, m);
    if |log| == MaxMessages {
      assert r == log[1..] + [m];
    } else {
      assert r == log + [m];
    }
  }

  /** The capped log is always the window of everything received. */
  lemma WindowAppend<T>(xs: seq<T>, m: T)
    ensures AppendCapped(Window(xs), m) == Window(xs + [m])
  {
    if |xs| > MaxMessages {
      assert Window(xs) + [m] == (xs + [m])[|xs| - MaxMessages..];
      assert (xs + [m])[|xs| - MaxMessages..][1..] == (xs + [m])[|xs| + 1 - MaxMessages..];
    }
  }

  /** A chat message as the panel reads it: the decoded object, or the
      string payload itself when it could not be decoded. */
  datatype Entry =
    | Message(id: Option<string>, username: Option<string>, color: Option<string>, content: Option<string>)
    | Raw(text: string)

  /** What the transport delivers: a decoded object or a string. */
  datatype Payload = ObjectPayload(msg: Entry) | StringPayload(text: string)

  /** `parsed`: a string payload goes through `JSON.parse`; `decoded` is its
      outcome, with `None` when it throws, and then the string is kept. */
  function Ingest(data: Payload, decoded: Option<Entry>): (e: Entry)
    ensures data.ObjectPayload? ==> e == data.msg
    ensures data.StringPayload? && decoded.None? ==> e == Raw(data.text)
    ensures data.StringPayload? && decoded.Some? ==> e == decoded.value
  {
    match data
    case ObjectPayload(msg) => msg
    case StringPayload(text) => decoded.GetOr(Raw(text))
  }

  // ---------------------------------------------------------------------
  // The panel
  // ---------------------------------------------------------------------

  /** The status line. */
  datatype Status =
    | Disconnected
    | FetchingInfo
    | ConnectingSocket
    | NoChatroomId
    | TransportState(current: string)
    | ConnectionError
    | OnlineListening
    | AuthSubError

  /** The text shown in the status bar. */
  function StatusText(st: Status): string {
    match st
    case Disconnected => "Disconnected"
    case FetchingInfo => "Fetching Info..."
    case ConnectingSocket => "Connecting Socket..."
    case NoChatroomId => "Error: No Chatroom ID"
    case TransportState(current) => "State: " + current
    case ConnectionError => "Connection Error"
    case OnlineListening => "Online & Listening"
    case AuthSubError => "Auth/Sub Error"
  }

  /** No status reads `Connected`, and only `OnlineListening` reads
      `Online & Listening`. */
  lemma StatusTexts(st: Status)
    ensures StatusText(st) != "Connected"
    ensures StatusText(st) == "Online & Listening" <==> st == OnlineListening
  {
    match st
    case TransportState(current) =>
      assert StatusText(st)[0] == 'S';
      assert "Connected"[0] == 'C' && "Online & Listening"[0] == 'O';
    case _ =>
      assert |"Connected"| == 9 && |"Online & Listening"| == 18;
  }

  /** The "Waiting for messages..." hint as written: an empty log and the
      status text `Connected`, a text no status ever has, so it never
      shows. */
  function WaitingHintAsWritten(messages: seq<Entry>, st: Status): (shown: bool)
    ensures !shown
  {
    StatusTexts(st);
    messages == [] && StatusText(st) == "Connected"
  }

  /** The hint as intended: an empty log once the chat subscription is up,
      which is when the status text reads `Online & Listening`. */
  function WaitingHint(messages: seq<Entry>, st: Status): (shown: bool)
    ensures shown <==> messages == [] && StatusText(st) == "Online & Listening"
  {
    StatusTexts(st);
    messages == [] && st == OnlineListening
  }

  class ChatPanel {
    /** The `channel` prop. */
    var channel: string
    var messages: seq<Entry>
    var chatroomId: Option<int>
    var status: Status
    /** Everything appended since the log was last cleared. */
    ghost var received: seq<Entry>

    /** The log is the last hundred messages received, and a chatroom id
        is only ever stored when truthy. */
    ghost predicate Valid()
      reads this
    {
      messages == Window(received) && (chatroomId.Some? ==> chatroomId.value != 0)
    }

    /** Mounting: the initial state, then the first run of the lookup
        effect, which for a non-empty channel sets `Fetching Info...` (the
        log is already empty). */
    constructor (channel: string)
      ensures Valid()
      ensures this.channel == channel && messages == [] && chatroomId == None
      ensures status == (if channel != [] then FetchingInfo else Disconnected)
    {
      this.channel := channel;
      messages := [];
      chatroomId := None;
      status := if channel != [] then FetchingInfo else Disconnected;
      received := [];
    }

    /** A new `channel` prop. The same name does not re-run the effect; a
        different empty name only changes the prop; a different non-empty
        name sets `Fetching Info...` and clears the log, while the chatroom
        id stays as it was. */
    method ChannelChanged(newChannel: string)
      requires Valid()
      modifies this
      ensures Valid()
      ensures channel == newChannel && chatroomId == old(chatroomId)
      ensures newChannel == old(channel) || newChannel == [] ==>
                messages == old(messages) && status == old(status)
      ensures newChannel != old(channel) && newChannel != [] ==> messages == [] && status == FetchingInfo
    {
      if newChannel != channel {
        channel := newChannel;
        if newChannel != [] {
          status := FetchingInfo;
          messages := [];
          received := [];
        }
      }
    }

    /** The awaited `getChannelInfo` result. It is applied whatever the
        channel is by now: a truthy chatroom id is stored, otherwise the
        error status is set and the old id is kept. */
    method InfoResult(info: Option<ChannelInfo>)
      requires Valid()
      modifies this
      ensures Valid()
      ensures var id := ChatroomIdOf(info);
              if id.Some? then chatroomId == id && status == ConnectingSocket
              else chatroomId == old(chatroomId) && status == NoChatroomId
      ensures channel == old(channel) && messages == old(messages)
    {
      var id := ChatroomIdOf(info);
      if id.Some? {
        chatroomId := id;
        status := ConnectingSocket;
      } else {
        status := NoChatroomId;
      }
    }

    /** The connection's `state_change` callback. */
    method TransportStateChanged(current: string)
      requires Valid() && chatroomId.Some?
      modifies this`status
      ensures Valid() && status == TransportState(current)
    {
      status := TransportState(current);
    }

    /** The connection's `error` callback. */
    method TransportError()
      requires Valid() && chatroomId.Some?
      modifies this`status
      ensures Valid() && status == ConnectionError
    {
      status := ConnectionError;
    }

    /** `pusher:subscription_succeeded`. */
    method SubscriptionSucceeded()
      requires Valid() && chatroomId.Some?
      modifies this`status
      ensures Valid() && status == OnlineListening
    {
      status := OnlineListening;
    }

    /** `pusher:subscription_error`. */
    method SubscriptionFailed()
      requires Valid() && chatroomId.Some?
      modifies this`status
      ensures Valid() && status == AuthSubError
    {
      status := AuthSubError;
    }

    /** A chat message event: appended in every status, undecodable strings
        included, keeping the last hundred. */
    method MessageReceived(data: Payload, decoded: Option<Entry>)
      requires Valid() && chatroomId.Some?
      modifies this
      ensures Valid()
      ensures messages == AppendCapped(old(messages), Ingest(data, decoded))
      ensures received == old(received) + [Ingest(data, decoded)]
      ensures channel == old(channel) && chatroomId == old(chatroomId) && status == old(status)
    {
      var entry := Ingest(data, decoded);
      WindowAppend(received, entry);
      messages := AppendCapped(messages, entry);
      received := received + [entry];
    }
  }

  /** Without a stale-result guard, a slow lookup for a channel the panel
      has since left overwrites the chatroom id of the channel now shown:
      the panel opens on `first`, switches to `second`, receives the reply
      for `second` and then the late reply for `first`. */
  method StaleLookupScenario(first: string, second: string, firstInfo: ChannelInfo, secondInfo: ChannelInfo)
    returns (p: ChatPanel)
    requires first != [] && second != [] && first != second
    requires ChatroomIdOf(Some(firstInfo)).Some?
    requires ChatroomIdOf(Some(firstInfo)) != ChatroomIdOf(Some(secondInfo))
    ensures p.channel == second && p.chatroomId == ChatroomIdOf(Some(firstInfo))
    ensures p.chatroomId != ChatroomIdOf(Some(secondInfo))
  {
    p := new ChatPanel(first);
    p.ChannelChanged(second);
    p.InfoResult(Some(secondInfo));
    p.InfoResult(Some(firstInfo));
  }
}
