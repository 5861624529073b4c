/** The "Top Globales" editor of the admin page
    (src/components/AdminTopGlobales.jsx, `TopGlobalesEditor`): a text box
    holding a comma-separated channel list, the list last saved or fetched,
    and a status line. The text is parsed with
    `split(',').map(trim).filter(nonEmpty)` and a list is shown as
    `join(', ')`. Network replies are parameters. */
module AdminTopGlobales {
  import opened Wrappers
  import opened Strings

  // ---------------------------------------------------------------------
  // Parse and format
  // ---------------------------------------------------------------------

  /** `channels.split(',').map(c => c.trim()).filter(c => c)`. */
  function ParseList(text: string): (r: seq<string>)
    ensures forall x :: x in r ==> x != [] && IsTrimmed(x) && Avoids(x, {','})
  {
    CleanEntriesAvoid(Split(text, {','}), {','});
    CleanEntries(Split(text, {','}))
  }

  /** `list.join(', ')`. */
  function FormatList(xs: seq<string>): string {
    Join(xs, ", ")
  }

  /** Entries keep the order of their pieces: the text before a comma
      gives the first entries, the text after it the rest. */
  lemma ParseAppend(a: string, b: string)
    ensures ParseList(a + [','] + b) == ParseList(a) + ParseList(b)
  {
    SplitAppend(a, ',', b, {','});
    CleanEntriesAppend(Split(a, {','}), Split(b, {','}));
  }

  /** Text made only of commas and whitespace gives no entry. */
  lemma ParseBlank(text: string)
    requires forall i :: 0 <= i < |text| ==> IsSpace(text[i]) || text[i] == ','
    ensures ParseList(text) == []
  {
    SplitBlank(text, {','});
    CleanEntriesOfBlank(Split(text, {','}));
  }

  /** What the parse accepts as an entry. */
  predicate IsEntry(x: string) {
    x != [] && IsTrimmed(x) && Avoids(x, {','})
  }

  /** A single entry, possibly after one space, parses to itself. */
  lemma ParseOne(lead: string, x: string)
    requires lead == [] || lead == [' ']
    requires IsEntry(x)
    ensures ParseList(lead + x) == [x]
  {
    assert Avoids(lead + x, {','});
    SplitNoSeparator(lead + x, {','});
    if lead == [' '] {
      TrimSpaceBefore(' ', x);
    } else {
      assert lead + x == x;
    }
  }

  /** A list of two or more shown as its first entry, a comma, a space and
      the rest shown. */
  lemma FormatCons(xs: seq<string>)
    requires |xs| > 1
    ensures FormatList(xs) == xs[0] + [','] + ([' '] + FormatList(xs[1..]))
  {
    assert FormatList(xs) == xs[0] + ", " + FormatList(xs[1..]);
  }

  lemma Regroup(a: string, b: string, c: string, d: string)
    ensures a + (b + c + d) == (a + b) + c + d
  {
  }

  /** The formatted list, possibly after one space, parses back to it. */
  lemma {:induction false} ParseFormatLead(lead: string, xs: seq<string>)
    requires lead == [] || lead == [' ']
    requires xs != [] && forall x :: x in xs ==> IsEntry(x)
    ensures ParseList(lead + FormatList(xs)) == xs
    decreases |xs|
  {
    ParseOne(lead, xs[0]);
    if |xs| > 1 {
      var rest := xs[1..];
      var tail := [' '] + FormatList(rest);
      assert forall x :: x in rest ==> x in xs;
      FormatCons(xs);
      Regroup(lead, xs[0], [','], tail);
      ParseAppend(lead + xs[0], tail);
      ParseFormatLead([' '], rest);
    } else {
      assert FormatList(xs) == xs[0];
    }
  }

  /** Showing a list of valid entries and parsing the text back gives the
      same list. */
  lemma ParseFormat(xs: seq<string>)
    requires forall x :: x in xs ==> IsEntry(x)
    ensures ParseList(FormatList(xs)) == xs
  {
    if xs != [] {
      ParseFormatLead([], xs);
      assert [] + FormatList(xs) == FormatList(xs);
    } else {
      assert FormatList(xs) == [];
    }
  }

  /** Parsing is stable: a parsed list, shown and parsed again, is
      unchanged. */
  lemma ParseStable(text: string)
    ensures ParseList(FormatList(ParseList(text))) == ParseList(text)
  {
    ParseFormat(ParseList(text));
  }

  // ---------------------------------------------------------------------
  // The editor
  // ---------------------------------------------------------------------

  const SavedText := "Top Globales actualizado correctamente!"
  const UpdateFailedText := "Error al actualizar"
  const ConnectionErrorText := "Error de conexión"

  /** The status line: `{ type, message }`. */
  datatype Notice = Notice(kind: string, message: string)

  const NoNotice := Notice("", "")

  /** The `channels` member of the fetched JSON. */
  datatype ChannelsField = Missing | NotAnArray | ArrayOf(items: seq<string>)

  /** How the fetch of the current list ended: a failed request, a reply
      that is not `ok` or not JSON are all `Unavailable`. */
  datatype FetchReply = Unavailable | Fetched(channels: ChannelsField)

  /** How the save request ended: a reply read as JSON, with its status and
      its `error` member, or a request or JSON decoding that threw. */
  datatype SaveReply = Answered(ok: bool, error: Option<string>) | Threw

  /** The status after a reply that is not `ok`: `data.error`, when it is a
      non-empty string, else the fixed text. */
  function RejectedNotice(error: Option<string>): (n: Notice)
    ensures n.kind == "error" && n.message != []
    ensures error.Some? && error.value != [] ==> n.message == error.value
    ensures error.None? || error.value == [] ==> n.message == UpdateFailedText
  {
    if error.Some? && error.value != [] then Notice("error", error.value)
    else Notice("error", UpdateFailedText)
  }

  class TopGlobalesEditor {
    /** The text box. */
    var channels: string
    var status: Notice
    var loading: bool
    /** The list shown as current. */
    var currentChannels: seq<string>
    var loadingFetch: bool

    /** The first render, before the fetch effect has finished. */
    constructor ()
      ensures channels == [] && status == NoNotice && !loading
      ensures currentChannels == [] && loadingFetch
    {
      channels := [];
      status := NoNotice;
      loading := false;
      currentChannels := [];
      loadingFetch := true;
    }

    /** The text box's `onChange`. */
    method SetText(text: string)
      modifies this`channels
      ensures channels == text
    {
      channels := text;
    }

    /** `fetchCurrentChannels` starting. */
    method FetchStarted()
      modifies this`loadingFetch
      ensures loadingFetch
    {
      loadingFetch := true;
    }

    /** `fetchCurrentChannels` ending: only an array in `data.channels`
        replaces the current list, and the text box then shows it joined
        with `, `; anything else leaves both as they were. */
    method FetchFinished(reply: FetchReply)
      modifies this
      ensures !loadingFetch
      ensures reply.Fetched? && reply.channels.ArrayOf? ==>
                currentChannels == reply.channels.items &&
                channels == FormatList(reply.channels.items)
      ensures !(reply.Fetched? && reply.channels.ArrayOf?) ==>
                currentChannels == old(currentChannels) && channels == old(channels)
      ensures status == old(status) && loading == old(loading)
    {
      if reply.Fetched? && reply.channels.ArrayOf? {
        currentChannels := reply.channels.items;
        channels := FormatList(reply.channels.items);
      }
      loadingFetch := false;
    }

    /** `handleSubmit` up to the request: the status is cleared and the
        list parsed from the text box is what is sent. */
    method SubmitStarted() returns (sent: seq<string>)
      modifies this
      ensures sent == ParseList(channels)
      ensures loading && status == NoNotice
      ensures channels == old(channels) && currentChannels == old(currentChannels)
      ensures loadingFetch == old(loadingFetch)
    {
      loading := true;
      status := NoNotice;
      sent := ParseList(channels);
    }

    /** `handleSubmit` after the request: on success the sent list becomes
        the current one; on a rejection or a connection error the current
        list is unchanged and the status says why. */
    method SubmitFinished(sent: seq<string>, reply: SaveReply)
      modifies this
      ensures !loading
      ensures reply.Answered? && reply.ok ==>
                currentChannels == sent && status == Notice("success", SavedText)
      ensures reply.Answered? && !reply.ok ==>
                currentChannels == old(currentChannels) && status == RejectedNotice(reply.error)
      ensures reply.Threw? ==>
                currentChannels == old(currentChannels) && status == Notice("error", ConnectionErrorText)
      ensures channels == old(channels) && loadingFetch == old(loadingFetch)
    {
      match reply {
        case Answered(ok, error) =>
          if ok {
            status := Notice("success", SavedText);
            currentChannels := sent;
          } else {
            status := RejectedNotice(error);
          }
        case Threw =>
          status := Notice("error", ConnectionErrorText);
      }
      loading := false;
    }

    /** The three-second timer set after a save clears whatever status is
        showing by then. */
    method NoticeTimerFired()
      modifies this`status
      ensures status == NoNotice
    {
      status := NoNotice;
    }
  }

  /** Typing a list and saving it: after a successful save the current list
      is exactly the parsed text, and after a failed one it is unchanged. */
  method SaveScenario(e: TopGlobalesEditor, text: string, reply: SaveReply)
    modifies e
    ensures reply.Answered? && reply.ok ==> e.currentChannels == ParseList(text)
    ensures !(reply.Answered? && reply.ok) ==> e.currentChannels == old(e.currentChannels)
    ensures forall x :: reply.Answered? && reply.ok && x in e.currentChannels ==> IsEntry(x)
  {
    e.SetText(text);
    var sent := e.SubmitStarted();
    e.SubmitFinished(sent, reply);
  }
}
