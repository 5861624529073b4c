/** The channel grid of the main view (src/App.jsx): the list of up to nine
    channels, the channel whose chat is open, whether the stream view is on,
    and the `channels` query parameter that mirrors the list in the URL. */
module App {
  import opened Wrappers
  import opened Strings
  import opened Seqs

  /** At most nine streams are shown at once. */
  const MaxChannels: nat := 9

  /** A path segment that is never taken for a channel. */
  const IndexPage: string := "index.html"

  /** Separators accepted in the add-channel box (`/[\/, ]+/`). */
  const InputSeparators: set<char> := {'/', ',', ' '}

  /** A channel name as the list keeps it: non-empty and trimmed. */
  predicate IsChannelName(x: string) {
    x != [] && IsTrimmed(x)
  }

  // ---------------------------------------------------------------------
  // Loading the list from the URL
  // ---------------------------------------------------------------------

  /** What one path piece contributes. */
  function SegmentOf(p: string): seq<string> {
    var t := Trim(p);
    if t != [] && t != IndexPage then [t] else []
  }

  /** `.map(c => c.trim()).filter(c => c.length > 0 && c !== 'index.html')`
      over the path pieces. */
  function PathSegments(pieces: seq<string>): (r: seq<string>)
    ensures IndexPage !in r
    ensures forall x :: x in r ==> IsChannelName(x)
  {
    if pieces == [] then [] else SegmentOf(pieces[0]) + PathSegments(pieces[1..])
  }

  /** A piece's segment is its cleaned entry unless that is `index.html`. */
  lemma SegmentOfEntry(p: string)
    ensures SegmentOf(p) == RemoveAll(EntryOf(p), IndexPage)
  {
    var e := EntryOf(p);
    if e != [] {
      assert e[..0] == [];
    }
  }

  /** The path pieces give exactly their trimmed non-empty forms, in order,
      except `index.html`. */
  lemma {:induction false} PathSegmentsClean(pieces: seq<string>)
    ensures PathSegments(pieces) == RemoveAll(CleanEntries(pieces), IndexPage)
    decreases |pieces|
  {
    if pieces != [] {
      var rest := pieces[1..];
      var e := EntryOf(pieces[0]);
      PathSegmentsClean(rest);
      CleanEntriesCons(pieces);
      RemoveAllAppend(e, CleanEntries(rest), IndexPage);
      SegmentOfEntry(pieces[0]);
    }
  }

  /** The channel names written as path segments (`/a/b/c`). */
  function PathEntries(pathname: string): seq<string> {
    PathSegments(Split(pathname, {'/'}))
  }

  /** `params.get('channels')?.split(',') || []`. */
  function QueryPieces(query: Option<string>): seq<string> {
    match query
    case Some(v) => Split(v, {','})
    case None => []
  }

  /** The channel names written in the `channels` query value: non-empty,
      trimmed and free of commas. */
  function QueryEntries(query: Option<string>): (r: seq<string>)
    ensures forall x :: x in r ==> IsChannelName(x) && Avoids(x, {','})
  {
    CleanEntriesAvoid(QueryPieces(query), {','});
    CleanEntries(QueryPieces(query))
  }

  /** The list read from the URL on mount: path entries, then query entries,
      trimmed, non-empty, without exact repetitions and cut to nine. */
  function LoadedChannels(pathname: string, query: Option<string>): (r: seq<string>)
    ensures |r| <= MaxChannels
    ensures Distinct(r)
    ensures forall x :: x in r ==> IsChannelName(x)
  {
    var all := CleanEntries(PathEntries(pathname) + QueryPieces(query));
    var unique := Dedup(all);
    assert forall x :: x in unique ==> IsChannelName(x);
    if |unique| <= MaxChannels then unique
    else
      assert forall x :: x in unique[..MaxChannels] ==> x in unique;
      unique[..MaxChannels]
  }

  /** The combined list is the path entries followed by the query entries. */
  lemma LoadedEntries(pathname: string, query: Option<string>)
    ensures CleanEntries(PathEntries(pathname) + QueryPieces(query))
         == PathEntries(pathname) + QueryEntries(query)
  {
    CleanEntriesAppend(PathEntries(pathname), QueryPieces(query));
    CleanEntriesOfClean(PathEntries(pathname));
  }

  /** The first nine distinct elements of `entries`. */
  function FirstDistinct(entries: seq<string>): (r: seq<string>)
    ensures |r| <= MaxChannels
  {
    var unique := Dedup(entries);
    if |unique| <= MaxChannels then unique else unique[..MaxChannels]
  }

  /** The loaded list is the first nine distinct URL entries. */
  lemma LoadedFirstDistinct(pathname: string, query: Option<string>)
    ensures LoadedChannels(pathname, query) == FirstDistinct(PathEntries(pathname) + QueryEntries(query))
  {
    LoadedEntries(pathname, query);
  }

  /** What the loaded list holds and in which order: only URL entries, each
      at the place of its first occurrence (path before query), every entry
      present unless nine are already there, and the distinct path entries
      first. */
  lemma LoadedOrder(pathname: string, query: Option<string>)
    ensures var entries := PathEntries(pathname) + QueryEntries(query);
            var r := LoadedChannels(pathname, query);
            (forall x :: x in r ==> x in entries) &&
            (forall x :: x in entries ==> x in r || |r| == MaxChannels) &&
            (forall i, j :: 0 <= i < j < |r| ==> FirstIndex(entries, r[i]) < FirstIndex(entries, r[j]))
    ensures var d := Dedup(PathEntries(pathname));
            var r := LoadedChannels(pathname, query);
            (|d| <= MaxChannels ==> |d| <= |r| && r[..|d|] == d) &&
            (|d| >= MaxChannels ==> r == d[..MaxChannels])
  {
    LoadedFirstDistinct(pathname, query);
    FirstDistinctOrder(PathEntries(pathname) + QueryEntries(query));
    FirstDistinctPrefix(PathEntries(pathname), QueryEntries(query));
  }

  /** `FirstDistinct` keeps only entries, in first-occurrence order, and
      drops an entry only when it is full. */
  lemma FirstDistinctOrder(entries: seq<string>)
    ensures var r := FirstDistinct(entries);
            (forall x :: x in r ==> x in entries) &&
            (forall x :: x in entries ==> x in r || |r| == MaxChannels) &&
            (forall i, j :: 0 <= i < j < |r| ==> FirstIndex(entries, r[i]) < FirstIndex(entries, r[j]))
  {
    var unique := Dedup(entries);
    var r := FirstDistinct(entries);
    DedupFirstOccurrenceOrder(entries);
    forall x | x in r ensures x in entries {
      var k :| 0 <= k < |r| && r[k] == x;
      assert unique[k] == x;
    }
    forall x | x in entries ensures x in r || |r| == MaxChannels {
      assert x in unique;
    }
    forall i, j | 0 <= i < j < |r| ensures FirstIndex(entries, r[i]) < FirstIndex(entries, r[j]) {
      assert r[i] == unique[i] && r[j] == unique[j];
    }
  }

  /** The distinct elements of a prefix come first. */
  lemma FirstDistinctPrefix(a: seq<string>, b: seq<string>)
    ensures var d := Dedup(a);
            var r := FirstDistinct(a + b);
            (|d| <= MaxChannels ==> |d| <= |r| && r[..|d|] == d) &&
            (|d| >= MaxChannels ==> r == d[..MaxChannels])
  {
    DedupPrefix(a, b);
  }

  /** `index.html` is dropped from the path only: in the loaded list it can
      only come from the query value, where it is kept like any name. */
  lemma IndexPageOnlyFromQuery(pathname: string, query: Option<string>)
    ensures IndexPage in LoadedChannels(pathname, query) ==> IndexPage in QueryEntries(query)
    ensures IndexPage in QueryEntries(query) ==>
              IndexPage in LoadedChannels(pathname, query) || |LoadedChannels(pathname, query)| == MaxChannels
  {
    LoadedOrder(pathname, query);
    assert IndexPage !in PathEntries(pathname);
  }

  // ---------------------------------------------------------------------
  // Writing the list to the URL
  // ---------------------------------------------------------------------

  /** The `channels` query parameter `updateUrl` leaves behind: the names
      joined with `,`, or no parameter at all for an empty list. */
  function ChannelsParam(channels: seq<string>): (p: Option<string>)
    ensures p.None? <==> channels == []
  {
    if |channels| > 0 then Some(Join(channels, ",")) else None
  }

  /** Reading back what `updateUrl` wrote, at path `/`, gives the same list,
      for lists the model keeps (at most nine distinct trimmed names) whose
      names hold no comma. */
  lemma UrlRoundTrip(channels: seq<string>)
    requires |channels| <= MaxChannels && Distinct(channels)
    requires forall x :: x in channels ==> IsChannelName(x) && Avoids(x, {','})
    ensures LoadedChannels("/", ChannelsParam(channels)) == channels
  {
    RootPathEntries();
    ReadBack("/", channels);
  }

  /** At a path that names no channel, the list is read back from the
      query parameter `updateUrl` wrote. */
  lemma ReadBack(pathname: string, channels: seq<string>)
    requires PathEntries(pathname) == []
    requires |channels| <= MaxChannels && Distinct(channels)
    requires forall x :: x in channels ==> IsChannelName(x) && Avoids(x, {','})
    ensures LoadedChannels(pathname, ChannelsParam(channels)) == channels
  {
    var q := ChannelsParam(channels);
    LoadedFirstDistinct(pathname, q);
    QueryReadBack(channels);
    assert PathEntries(pathname) + QueryEntries(q) == channels;
    DedupDistinct(channels);
  }

  /** The query value `updateUrl` writes reads back as the same names. */
  lemma QueryReadBack(channels: seq<string>)
    requires forall x :: x in channels ==> IsChannelName(x) && Avoids(x, {','})
    ensures QueryEntries(ChannelsParam(channels)) == channels
  {
    if channels != [] {
      SplitJoin(channels, ',');
      CleanEntriesOfClean(channels);
    }
  }

  /** The root path `/` names no channel. */
  lemma RootPathEntries()
    ensures PathEntries("/") == []
  {
    assert "/" == [] + ['/'] + [];
    SplitAppend([], '/', [], {'/'});
    assert Split("/", {'/'}) == [[], []];
  }

  // ---------------------------------------------------------------------
  // Adding channels from the input box
  // ---------------------------------------------------------------------

  /** The names typed in the add box, split at runs of `/`, `,` and space,
      trimmed and non-empty. */
  function Tokens(input: string): (r: seq<string>)
    ensures forall x :: x in r ==> IsChannelName(x) && Avoids(x, InputSeparators)
  {
    var pieces := SplitRuns(input, InputSeparators);
    CleanEntriesAvoid(pieces, InputSeparators);
    CleanEntries(pieces)
  }

  /** Input made only of whitespace and separators yields no name. */
  lemma {:induction false} TokensOfBlank(input: string)
    requires forall i :: 0 <= i < |input| ==> IsSpace(input[i]) || input[i] in InputSeparators
    ensures Tokens(input) == []
  {
    CleanSplitRuns(input, InputSeparators);
    SplitBlank(input, InputSeparators);
    CleanEntriesOfBlank(Split(input, InputSeparators));
  }

  /** `currentChannels.some(c => c.toLowerCase() === name.toLowerCase())`. */
  predicate ContainsIgnoringCase(channels: seq<string>, name: string) {
    exists i :: 0 <= i < |channels| && SameIgnoringCase(channels[i], name)
  }

  /** One step of the `forEach`: skip when full or already present
      (ignoring case), otherwise append. */
  function AddOne(channels: seq<string>, name: string): seq<string> {
    if |channels| >= MaxChannels || ContainsIgnoringCase(channels, name) then channels
    else channels + [name]
  }

  /** The list after offering `names` one by one, in input order. */
  function AddAll(channels: seq<string>, names: seq<string>): (r: seq<string>)
    ensures |channels| <= |r| && r[..|channels|] == channels
    ensures |channels| <= MaxChannels ==> |r| <= MaxChannels
    ensures |channels| >= MaxChannels ==> r == channels
    decreases |names|
  {
    if names == [] then channels
    else AddOne(AddAll(channels, names[..|names| - 1]), names[|names| - 1])
  }

  /** Every appended name comes from the input and differs, ignoring case,
      from every name before it. */
  lemma {:induction false} AddAllFresh(channels: seq<string>, names: seq<string>)
    ensures forall i, j :: 0 <= j < i < |AddAll(channels, names)| && |channels| <= i ==>
              !SameIgnoringCase(AddAll(channels, names)[j], AddAll(channels, names)[i])
    ensures forall i :: |channels| <= i < |AddAll(channels, names)| ==> AddAll(channels, names)[i] in names
    decreases |names|
  {
    if names != [] {
      var init := names[..|names| - 1];
      var prev := AddAll(channels, init);
      var name := names[|names| - 1];
      var r := AddAll(channels, names);
      AddAllFresh(channels, init);
      assert forall x :: x in init ==> x in names;
      if r != prev {
        assert r == prev + [name];
        assert forall j :: 0 <= j < |prev| ==> !SameIgnoringCase(prev[j], name);
        forall i, j | 0 <= j < i < |r| && |channels| <= i ensures !SameIgnoringCase(r[j], r[i]) {
          if i < |prev| {
            assert r[i] == prev[i] && r[j] == prev[j];
          } else {
            assert r[i] == name && r[j] == prev[j];
          }
        }
        forall i | |channels| <= i < |r| ensures r[i] in names {
          if i < |prev| {
            assert r[i] == prev[i] && prev[i] in init;
          }
        }
      }
    }
  }

  /** The appended names are taken from the input in input order. */
  lemma {:induction false} AddAllInInputOrder(channels: seq<string>, names: seq<string>)
    ensures IsSubseq(AddAll(channels, names)[|channels|..], names)
    decreases |names|
  {
    if names != [] {
      var init := names[..|names| - 1];
      var prev := AddAll(channels, init);
      AddAllInInputOrder(channels, init);
      var r := AddAll(channels, names);
      if r != prev {
        assert r[|channels|..] == prev[|channels|..] + [names[|names| - 1]];
      }
    }
  }

  /** Every offered name ends up in the list (ignoring case) unless the list
      is full. */
  lemma {:induction false} AddAllComplete(channels: seq<string>, names: seq<string>)
    ensures forall k :: 0 <= k < |names| ==>
      ContainsIgnoringCase(AddAll(channels, names), names[k]) || |AddAll(channels, names)| >= MaxChannels
    decreases |names|
  {
    if names != [] {
      var init := names[..|names| - 1];
      var prev := AddAll(channels, init);
      var r := AddAll(channels, names);
      AddAllComplete(channels, init);
      forall k | 0 <= k < |names|
        ensures ContainsIgnoringCase(r, names[k]) || |r| >= MaxChannels
      {
        if k < |names| - 1 {
          assert names[k] == init[k];
          if ContainsIgnoringCase(prev, names[k]) {
            var i :| 0 <= i < |prev| && SameIgnoringCase(prev[i], names[k]);
            assert r[i] == prev[i];
          }
        } else if |r| < MaxChannels && !ContainsIgnoringCase(prev, names[k]) {
          assert r[|r| - 1] == names[k];
        }
      }
    }
  }

  /** Offering valid names to a valid list leaves a valid list: names stay
      distinct, since a name equal to a listed one is also equal to it
      ignoring case, and the old names are all kept. */
  lemma AddAllValid(channels: seq<string>, names: seq<string>)
    requires Distinct(channels) && |channels| <= MaxChannels
    requires forall x :: x in channels ==> IsChannelName(x)
    requires forall x :: x in names ==> IsChannelName(x)
    ensures var r := AddAll(channels, names);
            Distinct(r) && (forall x :: x in r ==> IsChannelName(x)) &&
            (forall x :: x in channels ==> x in r)
  {
    var r := AddAll(channels, names);
    AddAllFresh(channels, names);
    forall i, j | 0 <= i < j < |r| ensures r[i] != r[j] {
      if j >= |channels| {
        assert !SameIgnoringCase(r[i], r[j]);
      } else {
        assert r[..|channels|][i] == r[i] && r[..|channels|][j] == r[j];
      }
    }
    forall x | x in r ensures IsChannelName(x) {
      var k :| 0 <= k < |r| && r[k] == x;
      if k < |channels| {
        assert r[k] == channels[k];
      }
    }
    forall x | x in channels ensures x in r {
      var k :| 0 <= k < |channels| && channels[k] == x;
      assert r[k] == x;
    }
  }

  /** The `forEach` loop of `addChannel`: copies the list, pushes each new
      name and counts the additions. */
  method MergeNames(channels: seq<string>, names: seq<string>) returns (next: seq<string>, addedCount: nat)
    ensures next == AddAll(channels, names)
    ensures addedCount == |next| - |channels|
  {
    next := channels;
    addedCount := 0;
    var i := 0;
    while i < |names|
      invariant 0 <= i <= |names|
      invariant next == AddAll(channels, names[..i])
      invariant addedCount == |next| - |channels|
    {
      assert names[..i + 1][..i] == names[..i];
      var name := names[i];
      if |next| < MaxChannels && !ContainsIgnoringCase(next, name) {
        next := next + [name];
        addedCount := addedCount + 1;
      }
      i := i + 1;
    }
    assert names[..i] == names;
  }

  // ---------------------------------------------------------------------
  // Layout
  // ---------------------------------------------------------------------

  const CenteredLayout: string := "flex items-center justify-center"

  /** `getGridClass`: the grid layout for a number of streams. */
  function GridClassFor(count: nat): string {
    match count
    case 0 => CenteredLayout
    case 1 => "grid grid-cols-1"
    case 2 => "grid grid-cols-1 md:grid-cols-2"
    case 3 => "grid grid-cols-1 md:grid-cols-2 lg:grid-cols-3"
    case 4 => "grid grid-cols-2"
    case 5 => "grid grid-cols-2 lg:grid-cols-3"
    case 6 => "grid grid-cols-2 lg:grid-cols-3"
    case 7 => "grid grid-cols-2 md:grid-cols-3"
    case 8 => "grid grid-cols-2 md:grid-cols-3"
    case 9 => "grid grid-cols-2 md:grid-cols-3"
    case _ => CenteredLayout
  }

  /** The layout is centred exactly for no stream or more than nine; five
      and six streams share a layout, and so do seven, eight and nine. */
  lemma GridClassLayouts(count: nat)
    ensures GridClassFor(count) == CenteredLayout <==> count == 0 || count > MaxChannels
    ensures 5 <= count <= 6 ==> GridClassFor(count) == GridClassFor(5)
    ensures 7 <= count <= 9 ==> GridClassFor(count) == GridClassFor(7)
  {
  }

  // ---------------------------------------------------------------------
  // The component state
  // ---------------------------------------------------------------------

  class AppState {
    var channels: seq<string>
    var inputChannel: string
    var isStreamActive: bool
    var activeChat: string
    /** `window.location.pathname`; `updateUrl` never changes it. */
    var pathname: string
    /** The `channels` parameter of `window.location.search`. */
    var channelsParam: Option<string>

    /** The list holds at most nine distinct names, the open chat is one of
        them (or none), and the stream view is only on for a non-empty list. */
    ghost predicate Valid()
      reads this
    {
      |channels| <= MaxChannels && Distinct(channels) &&
      (forall x :: x in channels ==> IsChannelName(x)) &&
      (activeChat == "" || activeChat in channels) &&
      (isStreamActive ==> channels != [])
    }

    constructor (pathname: string, channelsParam: Option<string>)
      ensures Valid()
      ensures channels == [] && inputChannel == "" && !isStreamActive && activeChat == ""
      ensures this.pathname == pathname && this.channelsParam == channelsParam
    {
      channels := [];
      inputChannel := "";
      isStreamActive := false;
      activeChat := "";
      this.pathname := pathname;
      this.channelsParam := channelsParam;
    }

    /** The mount effect: a non-empty list from the URL replaces the list,
        opens the chat of its first channel and turns the stream view on;
        an empty one changes nothing. */
    method LoadFromUrl()
      requires Valid()
      modifies this
      ensures Valid()
      ensures var loaded := LoadedChannels(old(pathname), old(channelsParam));
              if loaded != [] then
                channels == loaded && activeChat == loaded[0] && isStreamActive
              else
                channels == old(channels) && activeChat == old(activeChat) && isStreamActive == old(isStreamActive)
      ensures inputChannel == old(inputChannel)
      ensures pathname == old(pathname) && channelsParam == old(channelsParam)
    {
      var loaded := LoadedChannels(pathname, channelsParam);
      if |loaded| > 0 {
        channels := loaded;
        activeChat := loaded[0];
        isStreamActive := true;
      }
    }

    /** The input box's `onChange`. */
    method SetInput(text: string)
      requires Valid()
      modifies this`inputChannel
      ensures Valid() && inputChannel == text
    {
      inputChannel := text;
    }

    /** `addChannel`: appends the typed names that are new (ignoring case)
        until nine are listed, clears the box and rewrites the URL; blank
        input, input without names, and a full list that gained nothing
        leave everything unchanged (the last raises the limit alert). */
    method AddChannel() returns (limitAlert: bool)
      requires Valid()
      modifies this
      ensures Valid()
      ensures var names := Tokens(old(inputChannel));
              var next := AddAll(old(channels), names);
              var ignored := Trim(old(inputChannel)) == [] || names == [];
              var full := !ignored && next == old(channels) && |next| >= MaxChannels;
              limitAlert == full &&
              if ignored || full then
                channels == old(channels) && inputChannel == old(inputChannel) &&
                channelsParam == old(channelsParam) && activeChat == old(activeChat)
              else
                channels == next && inputChannel == "" && channelsParam == ChannelsParam(next) &&
                activeChat == (if |next| == 1 || old(activeChat) == "" then next[0] else old(activeChat))
      ensures isStreamActive == old(isStreamActive) && pathname == old(pathname)
    {
      limitAlert := false;
      if Trim(inputChannel) == [] {
        return;
      }
      var names := Tokens(inputChannel);
      if |names| == 0 {
        return;
      }
      var next, addedCount := MergeNames(channels, names);
      if addedCount == 0 && |next| >= MaxChannels {
        limitAlert := true;
        return;
      }
      var previousChat := activeChat;
      AddAllValid(channels, names);
      channels := next;
      inputChannel := "";
      channelsParam := ChannelsParam(next);
      if |next| == 1 || (|next| > 0 && previousChat == "") {
        activeChat := next[0];
      }
    }

    /** `removeChannel`: drops every exact match, rewrites the URL and
        repairs the open chat and the stream view. */
    method RemoveChannel(name: string)
      requires Valid()
      modifies this
      ensures Valid()
      ensures channels == RemoveAll(old(channels), name)
      ensures channelsParam == ChannelsParam(channels)
      ensures if old(activeChat) == name && channels != [] then
                activeChat == channels[0] && isStreamActive == old(isStreamActive)
              else if channels == [] then
                activeChat == "" && !isStreamActive
              else
                activeChat == old(activeChat) && isStreamActive == old(isStreamActive)
      ensures inputChannel == old(inputChannel) && pathname == old(pathname)
    {
      var remaining := RemoveAll(channels, name);
      RemoveAllDistinct(channels, name);
      assert forall x :: x in remaining ==> IsChannelName(x);
      assert activeChat != name ==> activeChat == "" || activeChat in remaining;
      channels := remaining;
      channelsParam := ChannelsParam(remaining);
      if activeChat == name && |remaining| > 0 {
        activeChat := remaining[0];
      } else if |remaining| == 0 {
        activeChat := "";
        isStreamActive := false;
      }
    }

    /** `startStream`: turns the stream view on for a non-empty list and
        opens the first chat if none is open. */
    method StartStream()
      requires Valid()
      modifies this`isStreamActive, this`activeChat
      ensures Valid()
      ensures isStreamActive == (old(isStreamActive) || channels != [])
      ensures activeChat == (if channels != [] && old(activeChat) == "" then channels[0] else old(activeChat))
    {
      if |channels| > 0 {
        isStreamActive := true;
        if activeChat == "" {
          activeChat := channels[0];
        }
      }
    }
  }
}
