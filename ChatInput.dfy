/** The send box under the chat (src/components/ChatInput.jsx): the
    broadcaster-id lookup run whenever `activeChat` changes, and the submit
    handler. Each lookup is tagged with the generation it was started in;
    the effect's cleanup (a new `activeChat`, or unmounting) starts a new
    generation, which is what the `isMounted` flag of each run amounts to.
    The lookup and the send are parameters: their results arrive as
    events. */
module ChatInput {
  import opened Wrappers
  import opened KickApi
  import opened Strings

  const IdErrorText := "Error obteniendo ID del canal"
  const SendErrorText := "Error al enviar. Verifica tu conexión o login."

  /** `info?.user_id || info?.userId`, kept only when truthy. */
  function BroadcasterIdOf(info: Option<ChannelInfo>): (r: Option<int>)
    ensures r.Some? ==> r.value != 0
    ensures info.Some? && Truthy(info.value.user_id) ==> r == info.value.user_id
    ensures info.Some? && !Truthy(info.value.user_id) ==>
              r == (if Truthy(info.value.userId) then info.value.userId else None)
    ensures info.None? ==> r.None?
  {
    if info.None? then None
    else if Truthy(info.value.user_id) then info.value.user_id
    else if Truthy(info.value.userId) then info.value.userId
    else None
  }

  /** JavaScript truthiness of an optional string: present and non-empty. */
  predicate Present(o: Option<string>) {
    o.Some? && o.value != []
  }

  /** What `sendChatMessage` is called with. */
  datatype SendRequest = SendRequest(token: string, broadcasterId: int, content: string)

  /** The guard of `handleSubmit` and the request it sends: nothing unless
      the trimmed message is non-empty, a token is present and a
      broadcaster id is known; the content sent is the trimmed message. */
  function SubmitRequest(message: string, userToken: Option<string>, broadcasterId: Option<int>): (r: Option<SendRequest>)
    ensures r.Some? <==> !AllSpace(message) && Present(userToken) && Truthy(broadcasterId)
    ensures r.Some? ==> r.value.content == Trim(message) && r.value.content != [] && IsTrimmed(r.value.content)
    ensures r.Some? ==> r.value.token == userToken.value && r.value.broadcasterId == broadcasterId.value
  {
    var content := Trim(message);
    if content == [] || !Present(userToken) || !Truthy(broadcasterId) then None
    else Some(SendRequest(userToken.value, broadcasterId.value, content))
  }

  class ChatInputState {
    /** The props. */
    var activeChat: string
    var userToken: Option<string>
    /** The state. */
    var message: string
    var isLoading: bool
    var broadcasterId: Option<int>
    var error: Option<string>
    var isIdLoading: bool
    /** The current run of the lookup effect; a lookup tagged with an older
        generation has had its `isMounted` cleared. */
    var generation: nat

    /** A stored broadcaster id is always truthy. */
    predicate Valid()
      reads this
    {
      broadcasterId.Some? ==> broadcasterId.value != 0
    }

    /** Mounting: the initial state, then the first run of the lookup
        effect, which starts a lookup (tagged `generation`) unless
        `activeChat` is empty. */
    constructor (activeChat: string, userToken: Option<string>)
      ensures Valid()
      ensures this.activeChat == activeChat && this.userToken == userToken
      ensures message == [] && !isLoading && broadcasterId.None? && error.None?
      ensures isIdLoading <==> activeChat != []
    {
      this.activeChat := activeChat;
      this.userToken := userToken;
      message := [];
      isLoading := false;
      broadcasterId := None;
      error := None;
      isIdLoading := activeChat != [];
      generation := 0;
    }

    /** A new `activeChat` prop: the previous run is cleaned up, so its
        lookup goes stale; an empty name starts no lookup and changes
        nothing else, while a name starts one, returned with its tag, after
        clearing the id and the error. The same name again does not re-run
        the effect. */
    method SetActiveChat(chat: string) returns (lookup: Option<nat>)
      requires Valid()
      modifies this
      ensures Valid() && activeChat == chat
      ensures chat == old(activeChat) ==> lookup.None? && generation == old(generation)
      ensures chat != old(activeChat) ==> generation == old(generation) + 1
      ensures lookup.Some? <==> chat != old(activeChat) && chat != []
      ensures lookup.Some? ==>
                lookup.value == generation && broadcasterId.None? && error.None? && isIdLoading
      ensures lookup.None? ==>
                broadcasterId == old(broadcasterId) && error == old(error) && isIdLoading == old(isIdLoading)
      ensures message == old(message) && isLoading == old(isLoading) && userToken == old(userToken)
    {
      lookup := None;
      if chat != activeChat {
        activeChat := chat;
        generation := generation + 1;
        if chat != [] {
          isIdLoading := true;
          error := None;
          broadcasterId := None;
          lookup := Some(generation);
        }
      }
    }

    /** Unmounting runs the cleanup: any pending lookup goes stale. */
    method Unmount()
      requires Valid()
      modifies this`generation
      ensures Valid() && generation == old(generation) + 1
    {
      generation := generation + 1;
    }

    /** A lookup started in generation `tag` ends with `info` (`null` when
        it failed). A stale one changes nothing; a current one stores the
        id or sets the error text, and the id is no longer loading. */
    method LookupFinished(tag: nat, info: Option<ChannelInfo>)
      requires Valid()
      modifies this
      ensures Valid()
      ensures tag != old(generation) ==>
                broadcasterId == old(broadcasterId) && error == old(error) && isIdLoading == old(isIdLoading)
      ensures tag == old(generation) ==> !isIdLoading
      ensures tag == old(generation) && BroadcasterIdOf(info).Some? ==>
                broadcasterId == BroadcasterIdOf(info) && error == old(error)
      ensures tag == old(generation) && BroadcasterIdOf(info).None? ==>
                broadcasterId == old(broadcasterId) && error == Some(IdErrorText)
      ensures activeChat == old(activeChat) && generation == old(generation)
      ensures message == old(message) && isLoading == old(isLoading) && userToken == old(userToken)
    {
      if tag == generation {
        var id := BroadcasterIdOf(info);
        if id.Some? {
          broadcasterId := id;
        } else {
          error := Some(IdErrorText);
        }
        isIdLoading := false;
      }
    }

    /** The input's `onChange`. */
    method SetMessage(text: string)
      modifies this`message
      ensures message == text
    {
      message := text;
    }

    /** A new `userToken` prop. */
    method SetUserToken(token: Option<string>)
      modifies this`userToken
      ensures userToken == token
    {
      userToken := token;
    }

    /** `handleSubmit` up to the send: when the guard lets it through, the
        request goes out with the error cleared and loading on; otherwise
        nothing changes. */
    method Submit() returns (request: Option<SendRequest>)
      requires Valid()
      modifies this
      ensures Valid()
      ensures request == SubmitRequest(message, userToken, broadcasterId)
      ensures request.Some? ==> isLoading && error.None?
      ensures request.None? ==> isLoading == old(isLoading) && error == old(error)
      ensures message == old(message) && broadcasterId == old(broadcasterId) && userToken == old(userToken)
      ensures activeChat == old(activeChat) && isIdLoading == old(isIdLoading) && generation == old(generation)
    {
      request := SubmitRequest(message, userToken, broadcasterId);
      if request.Some? {
        isLoading := true;
        error := None;
      }
    }

    /** `handleSubmit` after the send: success clears the message, failure
        keeps it and sets the error text; loading ends either way. */
    method SendFinished(ok: bool)
      requires Valid()
      modifies this
      ensures Valid() && !isLoading
      ensures ok ==> message == [] && error == old(error)
      ensures !ok ==> message == old(message) && error == Some(SendErrorText)
      ensures broadcasterId == old(broadcasterId) && userToken == old(userToken) && activeChat == old(activeChat)
      ensures isIdLoading == old(isIdLoading) && generation == old(generation)
    {
      if ok {
        message := [];
      } else {
        error := Some(SendErrorText);
      }
      isLoading := false;
    }
  }

  /** A lookup for a channel the box has since left is ignored: switching
      from `first` to `second` and then receiving the first lookup's result
      leaves the box waiting for the second. */
  method StaleLookupIgnored(first: string, second: string, info: Option<ChannelInfo>) returns (c: ChatInputState)
    requires first != [] && second != [] && first != second
    ensures c.activeChat == second && c.isIdLoading && c.broadcasterId.None? && c.error.None?
  {
    c := new ChatInputState(first, None);
    var firstTag := c.generation;
    var secondTag := c.SetActiveChat(second);
    c.LookupFinished(firstTag, info);
  }
}
