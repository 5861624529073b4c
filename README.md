# MultiKick core, modelled in Dafny

MultiKick is a web page that shows up to nine Kick live streams side by side,
with one chat panel and a box to send chat messages. Most of it is view code.
This project models its four pieces of logic and proves what they promise:

- **Channel list** (`App.dfy`, from `src/App.jsx`). The list is read from the
  URL path (`/a/b/c`) and the `channels` query value on mount: entries are
  trimmed, empties and the `index.html` path segment are dropped, exact
  repeats are removed and the list is cut to nine. The add box splits its
  text at runs of `/`, `,` and space and appends names that are new ignoring
  case, up to nine. Removing a name repairs the open chat and the stream
  view. The URL is rewritten with the list joined by `,`, and the grid
  layout depends on the count. The component state is the class
  `App.AppState`; the add loop is the method `App.MergeNames`.
- **Chat panel** (`KickChat.dfy`, from `src/components/KickChat.jsx`).
  `renderContent` splits a message into text runs and emote images by
  repeatedly finding the leftmost `\[emote:(\d+):([\w]+)\]` match. The
  method `KickChat.CollectParts` keeps that loop and is proved against the
  specification function `KickChat.Scan`; `KickChat.RenderContent` adds the
  empty-content and fallback cases. The message log keeps the last
  hundred messages. The panel's status, chatroom id and log change on the
  channel lookup and on the chat transport's callbacks; this is the class
  `KickChat.ChatPanel`, modelled as written.
- **Top Globales editor** (`AdminTopGlobales.dfy`, from
  `src/components/AdminTopGlobales.jsx`). A comma-separated text is parsed
  by split, trim and drop-empties, and a list is shown joined by `, `. The
  current list is replaced by a fetched array or by a saved list.
- **Send box** (`ChatInput.dfy`, from `src/components/ChatInput.jsx`). A
  broadcaster-id lookup runs for each new `activeChat`. Results of a lookup
  whose effect was cleaned up are ignored; this is modelled by tagging each
  lookup with a generation number. Submitting is guarded and sends the
  trimmed message.

Shared pieces: `Wrappers.dfy` (`Option`), `Seqs.dfy` (deduplication in
JavaScript `Set` order, filtering, sequence facts), `Strings.dfy` (ASCII
`trim`, ASCII lower case, `split` at single characters and at runs, `join`,
and trim-and-drop-empties), and `KickApi.dfy` (the fields of the Kick
channel record that are read).

Network calls, timers, the chat transport and user input are not modelled as
code. Their results are parameters of the methods that receive them.

## Model

| member | source | states |
|---|---|---|
| Strings.Trim | src/App.jsx:23 | the result has no leading or trailing whitespace and is no longer than the input; a trimmed string is unchanged; the result is empty exactly when the input is all whitespace |
| Strings.TrimStripsRuns | src/App.jsx:23 | the trimmed string is the input with a leading and a trailing run of whitespace removed, and nothing else |
| Strings.TrimSpaceBefore | src/components/AdminTopGlobales.jsx:160 | a whitespace character before a trimmed string is removed by trimming |
| Strings.TrimAvoids | src/App.jsx:23 | trimming adds no character |
| Strings.ToLower | src/App.jsx:99 | lower-casing keeps the length, turns each upper-case ASCII letter into its lower-case letter and changes no other character |
| Strings.Split | src/App.jsx:19 | `split` gives at least one piece, and no piece holds a separator |
| Strings.JoinSplit | src/App.jsx:19 | joining the pieces of a split with the same separator gives the input back |
| Strings.SplitJoin | src/App.jsx:67 | splitting a list joined with `,` gives the list back when no element holds a comma and the list is not empty |
| Strings.Join | src/App.jsx:67 | `xs.join(sep)`: the reference definition, whose inverse is stated by `Strings.JoinSplit` and `Strings.SplitJoin` |
| Strings.SplitNoSeparator | src/App.jsx:19 | a string without separators is one piece |
| Strings.SplitAppend | src/components/AdminTopGlobales.jsx:160 | a separator between two texts splits each side separately |
| Strings.DropSeparators | src/App.jsx:88 | the leading separators are removed, and only those |
| Strings.SplitRuns | src/App.jsx:88 | a split at runs of separators gives at least one piece, and no piece holds a separator |
| Strings.SplitRunsFirstPiece | src/App.jsx:88 | the first piece is the same whether splitting at runs or at each separator |
| Strings.CleanSplitRuns | src/App.jsx:88-90 | after trimming and dropping empties, splitting at runs and splitting at each separator give the same entries |
| Strings.CleanSplitDropSeparators | src/App.jsx:88-90 | leading separators contribute no entry |
| Strings.CleanSplitLeadingSeparator | src/App.jsx:88-90 | one leading separator contributes no entry |
| Strings.CleanEntries | src/App.jsx:26-28 | every entry is non-empty and trimmed, and there are no more entries than pieces |
| Strings.CleanEntriesAppend | src/App.jsx:26-28 | trimming and dropping empties works piece by piece and keeps the order |
| Strings.CleanEntriesOfClean | src/App.jsx:26-28 | entries that are already non-empty and trimmed pass unchanged |
| Strings.CleanEntriesOfBlank | src/App.jsx:26-28 | blank pieces give no entry |
| Strings.CleanEntriesAvoid | src/App.jsx:26-28 | a character no piece holds is in no entry |
| Strings.SplitBlank | src/App.jsx:88-92 | text made of whitespace and separators splits into blank pieces only |
| Seqs.Dedup | src/App.jsx:30 | a `Set` holds exactly the input's values, each once |
| Seqs.DedupFirstOccurrenceOrder | src/App.jsx:30 | the `Set` lists values in the order of their first occurrence |
| Seqs.DedupPrefix | src/App.jsx:26-30 | the deduplicated first part of a concatenation comes first, unchanged |
| Seqs.DedupDistinct | src/App.jsx:30 | a list without repeats is its own deduplication |
| Seqs.FirstIndex | src/App.jsx:30 | the first position holding a value |
| Seqs.FirstIndexAppend | src/App.jsx:26-30 | appending does not move a value's first position |
| Seqs.RemoveAll | src/App.jsx:120 | `filter(c => c !== x)` keeps every other value with its multiplicity and removes every `x` |
| Seqs.RemoveAllAppend | src/App.jsx:120 | filtering a concatenation filters each part |
| Seqs.RemoveAllSubseq | src/App.jsx:120 | the filter keeps the survivors in order |
| Seqs.RemoveAllDistinct | src/App.jsx:120 | filtering a list without repeats leaves a list without repeats |
| App.PathSegments | src/App.jsx:21-24 | path entries are non-empty, trimmed and never `index.html` |
| App.PathSegmentsClean | src/App.jsx:21-24 | the path pieces give exactly their trimmed non-empty forms, in order, with every `index.html` removed |
| App.PathEntries | src/App.jsx:21-24 | the path split at `/`, cleaned as `App.PathSegments` and `App.PathSegmentsClean` state |
| App.QueryPieces | src/App.jsx:17-18 | the `channels` value split at `,`, or no piece when the parameter is absent |
| App.QueryEntries | src/App.jsx:17-28 | the query names are non-empty, trimmed and free of commas |
| App.LoadedChannels | src/App.jsx:17-30 | the loaded list has at most nine entries, no repeats, and only non-empty trimmed names |
| App.LoadedEntries | src/App.jsx:26-28 | the combined entries are the path entries followed by the query entries |
| App.FirstDistinct | src/App.jsx:30 | `[...new Set(entries)].slice(0, 9)` has at most nine entries |
| App.LoadedFirstDistinct | src/App.jsx:19-30 | the loaded list is the first nine distinct entries of the path entries followed by the query entries |
| App.FirstDistinctOrder | src/App.jsx:30 | only entries are kept, in first-occurrence order, and an entry is left out only when nine are kept |
| App.FirstDistinctPrefix | src/App.jsx:26-30 | the distinct path entries come first, or fill all nine places |
| App.LoadedOrder | src/App.jsx:19-30 | the loaded list holds only URL entries, in first-occurrence order with path before query; each entry is present unless the list is full; the distinct path entries come first |
| App.IndexPageOnlyFromQuery | src/App.jsx:22-28 | `index.html` can be loaded only from the query value, and a query `index.html` is loaded unless the list is full |
| App.ChannelsParam | src/App.jsx:66-70 | the parameter is deleted exactly for an empty list |
| App.UrlRoundTrip | src/App.jsx:62-81 | for at most nine distinct, trimmed, non-empty, comma-free names, reading back the written URL at path `/` gives the same list, the empty list included |
| App.ReadBack | src/App.jsx:17-30 | at a path naming no channel, the written list reads back unchanged |
| App.QueryReadBack | src/App.jsx:67 | the written query value reads back as the same names |
| App.RootPathEntries | src/App.jsx:22-24 | the path `/` names no channel |
| App.Tokens | src/App.jsx:88-90 | the names typed in the add box are non-empty, trimmed and hold no `/`, `,` or space |
| App.TokensOfBlank | src/App.jsx:85-92 | input made only of whitespace and separators gives no name |
| App.ContainsIgnoringCase | src/App.jsx:99 | some listed name equals the given one after ASCII lower-casing (`Strings.ToLower`) |
| App.AddOne | src/App.jsx:98-102 | one `forEach` step: a full list or a name already present ignoring case is skipped, otherwise the name is appended; its effect over many names is stated by the `App.AddAll` lemmas |
| App.AddAll | src/App.jsx:94-103 | offering names keeps the old list as a prefix, never grows past nine, and changes nothing when nine are already listed |
| App.AddAllFresh | src/App.jsx:97-103 | each appended name comes from the input and differs, ignoring case, from every name before it, old and new |
| App.AddAllInInputOrder | src/App.jsx:97-103 | the appended names are in input order |
| App.AddAllComplete | src/App.jsx:97-103 | every offered name is listed, ignoring case, unless the list is full |
| App.AddAllValid | src/App.jsx:94-103 | a list of distinct valid names stays one and keeps every old name |
| App.MergeNames | src/App.jsx:94-103 | the `forEach` loop computes `AddAll`, and `addedCount` is the number of names appended |
| App.GridClassFor | src/App.jsx:143-158 | the class for each count, as the `switch` lists them; `App.GridClassLayouts` states how counts share layouts |
| App.GridClassLayouts | src/App.jsx:143-158 | the centred layout is used exactly for no stream or more than nine; five and six streams share a layout, and so do seven, eight and nine |
| App.AppState.constructor | src/App.jsx:7-10 | the initial state: no channels, empty box, stream view off, no chat |
| App.AppState.LoadFromUrl | src/App.jsx:17-37 | a non-empty loaded list replaces the list, opens its first chat and turns the stream view on; an empty one changes nothing |
| App.AppState.SetInput | src/App.jsx:8 | the add box holds the typed text |
| App.AppState.AddChannel | src/App.jsx:83-117 | blank input, input without names, and a full list that gained nothing change nothing (the last raises the alert); otherwise the list becomes `AddAll`, the box is cleared, the URL is rewritten and the first chat opens when the list has one entry or no chat was open |
| App.AppState.RemoveChannel | src/App.jsx:119-130 | the list loses every exact match and the URL is rewritten; a removed open chat moves to the new first entry; an emptied list closes the chat and the stream view; otherwise the chat is unchanged |
| App.AppState.StartStream | src/App.jsx:132-137 | a non-empty list turns the stream view on and opens the first chat if none is open |
| KickApi.ChatroomIdOf | src/components/KickChat.jsx:26-27 | a chatroom id is taken exactly when `data.chatroom.id` is present and truthy, and it is that id |
| KickChat.DigitsEnd | src/components/KickChat.jsx:131 | `\d+` stops at the first non-digit |
| KickChat.DigitsEndRun | src/components/KickChat.jsx:131 | everything `\d+` skips is a digit |
| KickChat.WordEnd | src/components/KickChat.jsx:131 | `[\w]+` stops at the first non-word character |
| KickChat.WordEndRun | src/components/KickChat.jsx:131 | everything `[\w]+` skips is a word character |
| KickChat.MatchAt | src/components/KickChat.jsx:131 | a match found at a position starts there and ends within the content |
| KickChat.MatchAtGroups | src/components/KickChat.jsx:131 | a match captures a non-empty all-digit id and a non-empty `[A-Za-z0-9_]` name |
| KickChat.MatchAtSpan | src/components/KickChat.jsx:131 | a match covers exactly `[emote:<id>:<name>]` |
| KickChat.MatchAtComplete | src/components/KickChat.jsx:131 | every occurrence of `[emote:<digits>:<word>]` is found as a match at its first character |
| KickChat.NextMatch | src/components/KickChat.jsx:137 | `exec` finds a match at or after `lastIndex` that ends within the content |
| KickChat.NextMatchFound | src/components/KickChat.jsx:137 | what `exec` returns is a match at its start |
| KickChat.NextMatchFirst | src/components/KickChat.jsx:137 | no match starts between `lastIndex` and the returned match, nor anywhere after `lastIndex` when none is returned |
| KickChat.UnparseAppend | src/components/KickChat.jsx:137-162 | the text of concatenated parts is the concatenated text |
| KickChat.ScanStepSource | src/components/KickChat.jsx:139-156 | one loop step stands for the text before the match and the match itself |
| KickChat.ScanReconstructs | src/components/KickChat.jsx:137-162 | the parts, with each emote written as `[emote:<id>:<name>]`, give back the content exactly |
| KickChat.ScanShape | src/components/KickChat.jsx:137-162 | non-empty content gives parts; no text part is empty; no two text parts are adjacent; every emote has a valid id and name and the image URL of its id |
| KickChat.ScanTokenFree | src/components/KickChat.jsx:137-162 | no text part holds a whole `[emote:<digits>:<word>]` |
| KickChat.NoMatchNoToken | src/components/KickChat.jsx:139-141 | the text before the next match holds no whole match |
| KickChat.EmoteUrl | src/components/KickChat.jsx:149 | the image URL of an emote id; `KickChat.ScanShape` states every emote part carries the URL of its own id |
| KickChat.Scan | src/components/KickChat.jsx:137-162 | the reference definition of the parts: text before each leftmost match, the emote, then the remaining text; its properties are `KickChat.ScanReconstructs`, `KickChat.ScanShape` and `KickChat.ScanTokenFree` |
| KickChat.CollectParts | src/components/KickChat.jsx:133-162 | the matching loop, pushing the text before each match and the emote, yields exactly the parts of the scan |
| KickChat.RenderContent | src/components/KickChat.jsx:127-165 | missing or empty content renders nothing; other content renders the parts of the scan, never the fallback, and they are non-empty, rebuild the content, are well formed and hold no whole match in a text part |
| KickChat.Window | src/components/KickChat.jsx:105 | the log holds at most a hundred messages |
| KickChat.AppendCapped | src/components/KickChat.jsx:103-107 | the new message is last, and the log either grew by one or holds at most a hundred |
| KickChat.AppendCappedShape | src/components/KickChat.jsx:103-107 | appending to a log of at most a hundred gives `min(n + 1, 100)` entries, the new one last, after the newest survivors in order |
| KickChat.WindowAppend | src/components/KickChat.jsx:103-107 | the capped log is always the last hundred of everything received since it was cleared |
| KickChat.Ingest | src/components/KickChat.jsx:98-101 | an object payload is kept; a string payload is replaced by its decoding, or kept as the raw string when decoding fails |
| KickChat.StatusText | src/components/KickChat.jsx:12-90 | the text each status shows, as the `setConnectionStatus` calls set it; `KickChat.StatusTexts` states which texts occur |
| KickChat.StatusTexts | src/components/KickChat.jsx:179 | no status reads `Connected`, and only the subscribed status reads `Online & Listening` |
| KickChat.WaitingHintAsWritten | src/components/KickChat.jsx:179-183 | the "Waiting for messages..." hint as written never shows |
| KickChat.WaitingHint | src/components/KickChat.jsx:179-183 | the corrected hint shows exactly for an empty log while the status reads `Online & Listening` |
| KickChat.ChatPanel.constructor | src/components/KickChat.jsx:10-23 | the initial panel: empty log and no chatroom id; the first run of the lookup effect sets `Fetching Info...` for a non-empty channel, else the status stays `Disconnected` |
| KickChat.ChatPanel.ChannelChanged | src/components/KickChat.jsx:18-23 | the same channel does not re-run the effect and changes nothing; a new empty channel changes only the prop; a new non-empty one sets `Fetching Info...` and clears the log, keeping the chatroom id |
| KickChat.ChatPanel.InfoResult | src/components/KickChat.jsx:25-31 | a truthy `data.chatroom.id` is stored with `Connecting Socket...`; otherwise `Error: No Chatroom ID` is set and the old id kept |
| KickChat.ChatPanel.TransportStateChanged | src/components/KickChat.jsx:63-66 | the status becomes `State: <current>` |
| KickChat.ChatPanel.TransportError | src/components/KickChat.jsx:72-75 | the status becomes `Connection Error` |
| KickChat.ChatPanel.SubscriptionSucceeded | src/components/KickChat.jsx:84-87 | the status becomes `Online & Listening` |
| KickChat.ChatPanel.SubscriptionFailed | src/components/KickChat.jsx:89-92 | the status becomes `Auth/Sub Error` |
| KickChat.ChatPanel.MessageReceived | src/components/KickChat.jsx:95-108 | the message is appended to the capped log in every status, nothing else changes, and the log stays the last hundred received |
| KickChat.StaleLookupScenario | src/components/KickChat.jsx:18-39 | after switching from `first` to `second`, a late reply for `first` arriving after the reply for `second` overwrites the chatroom id: the panel shows `second` with the id of `first` |
| AdminTopGlobales.ParseList | src/components/AdminTopGlobales.jsx:160 | every parsed entry is non-empty, trimmed and free of commas |
| AdminTopGlobales.FormatList | src/components/AdminTopGlobales.jsx:141 | `join(', ')`; `AdminTopGlobales.ParseFormat` states that parsing inverts it on valid lists |
| AdminTopGlobales.ParseAppend | src/components/AdminTopGlobales.jsx:160 | entries keep the order of their comma-separated pieces |
| AdminTopGlobales.ParseBlank | src/components/AdminTopGlobales.jsx:160 | text made only of commas and whitespace parses to the empty list |
| AdminTopGlobales.ParseOne | src/components/AdminTopGlobales.jsx:160 | a single entry, after at most one space, parses to itself |
| AdminTopGlobales.ParseFormatLead | src/components/AdminTopGlobales.jsx:141 | a shown non-empty list, after at most one space, parses back to itself |
| AdminTopGlobales.ParseFormat | src/components/AdminTopGlobales.jsx:141 | a list of non-empty, trimmed, comma-free names shown with `, ` parses back to the same list |
| AdminTopGlobales.ParseStable | src/components/AdminTopGlobales.jsx:160 | a parsed list, shown and parsed again, is unchanged |
| AdminTopGlobales.RejectedNotice | src/components/AdminTopGlobales.jsx:182 | a rejected save shows `data.error` when it is a non-empty string, else `Error al actualizar` |
| AdminTopGlobales.TopGlobalesEditor.constructor | src/components/AdminTopGlobales.jsx:126-130 | the initial editor: empty text, no status, empty list, fetch pending |
| AdminTopGlobales.TopGlobalesEditor.SetText | src/components/AdminTopGlobales.jsx:235 | the text box holds the typed text |
| AdminTopGlobales.TopGlobalesEditor.FetchStarted | src/components/AdminTopGlobales.jsx:134 | the fetch is pending |
| AdminTopGlobales.TopGlobalesEditor.FetchFinished | src/components/AdminTopGlobales.jsx:133-149 | only an array in `data.channels` replaces the current list, and the text box then shows it joined with `, `; the fetch is no longer pending |
| AdminTopGlobales.TopGlobalesEditor.SubmitStarted | src/components/AdminTopGlobales.jsx:155-160 | the status is cleared, loading starts, and the list sent is the parsed text |
| AdminTopGlobales.TopGlobalesEditor.SubmitFinished | src/components/AdminTopGlobales.jsx:173-188 | a successful save makes the sent list current; a rejection or a connection error keeps the current list and sets the matching status; loading ends |
| AdminTopGlobales.TopGlobalesEditor.NoticeTimerFired | src/components/AdminTopGlobales.jsx:178-180 | the status is cleared |
| AdminTopGlobales.SaveScenario | src/components/AdminTopGlobales.jsx:160-183 | after a successful save the current list is exactly the parsed text, made of valid entries; after a failed one it is unchanged |
| ChatInput.BroadcasterIdOf | src/components/ChatInput.jsx:24-25 | the id is `user_id` when truthy, else `userId` when truthy, else none; a stored id is never zero |
| ChatInput.SubmitRequest | src/components/ChatInput.jsx:40-46 | a request is sent exactly when the message is not blank, a token is present and an id is known, and it carries the trimmed message |
| ChatInput.ChatInputState.constructor | src/components/ChatInput.jsx:5-19 | the initial state, with a lookup started when `activeChat` is not empty |
| ChatInput.ChatInputState.SetActiveChat | src/components/ChatInput.jsx:13-19 | a new `activeChat` makes earlier lookups stale; an empty one starts no lookup; another starts one with the id reset, the error cleared and loading on |
| ChatInput.ChatInputState.Unmount | src/components/ChatInput.jsx:35 | unmounting makes pending lookups stale |
| ChatInput.ChatInputState.LookupFinished | src/components/ChatInput.jsx:21-31 | a stale result changes nothing; a current one stores the id or sets `Error obteniendo ID del canal`, and loading ends |
| ChatInput.ChatInputState.SetMessage | src/components/ChatInput.jsx:79 | the input holds the typed text |
| ChatInput.ChatInputState.SetUserToken | src/components/ChatInput.jsx:5 | the token prop holds the new value |
| ChatInput.ChatInputState.Submit | src/components/ChatInput.jsx:38-46 | the request is `SubmitRequest` of the state; when it goes out the error is cleared and loading starts; otherwise nothing changes |
| ChatInput.ChatInputState.SendFinished | src/components/ChatInput.jsx:45-53 | success clears the message; failure keeps it and sets the failure text; loading ends |
| ChatInput.StaleLookupIgnored | src/components/ChatInput.jsx:13-36 | the result of a lookup for a channel the box has left is ignored, and the box keeps waiting for the new lookup |

## Left out

- The Pusher client itself (construction, subscribe, unsubscribe, disconnect): its callbacks are the event methods of `KickChat.ChatPanel`, which can only fire once a chatroom id is stored.
- `src/utils/kickApi.js`: its results are parameters. `getChannelInfo` returns `null` on every failure, so the panel's `Error Fetching Info` branch is never reached and is not modelled.
- `src/utils/kickAuth.js`, the OAuth callback, `alert`, `localStorage`, `history.pushState`, `triggerMuteAll` and auto-scroll: browser side effects outside the model. `AddChannel` returns whether the limit alert is raised instead of raising it.
- `server/server.js`, the admin login and statistics pages and all presentation code.
- The admin page's login form: `TopGlobalesEditor` is modelled on its own, with the token treated as given.
- Unicode: `trim` uses the ASCII whitespace characters, `toLowerCase` the ASCII letters, and URL percent-encoding is taken to round-trip through `URLSearchParams`.
- The React `key` of each emote image and the rendered markup: a part carries the id, name and URL only.
- The message fields read for display (`sender.username`, `identity.color` with its green default) are kept as optional values of `KickChat.Entry`, without a rendering function.
- JSON decoding: the outcome of `JSON.parse` is a parameter of `KickChat.ChatPanel.MessageReceived`, and `data.channels` items are taken to be strings.
- Integer widths: ids are unbounded integers, and only their truthiness (present and non-zero) is modelled.
- The panel has no guard against a stale lookup, no substitution of bare-word third-party emotes and no pausing of the log by scroll position; the model follows the code and has none either.

## Findings

| source | as written | input that shows it | evidently intended | confidence | as-written member | corrected member |
|---|---|---|---|---|---|---|
| src/components/KickChat.jsx:179 | the "Waiting for messages..." hint needs the status text to equal `Connected`, which no handler ever sets | an empty log after the subscription succeeded: the status is `Online & Listening` and the hint stays hidden | show the hint while the log is empty once the panel listens | medium, not executed | KickChat.WaitingHintAsWritten | KickChat.WaitingHint |
