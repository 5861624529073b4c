/** The parts of the Kick channel record (the JSON `getChannelInfo` returns,
    src/utils/kickApi.js) that the chat panel and the send box read. A lookup
    that fails for any reason yields no record at all. */
module KickApi {
  import opened Wrappers

  /** `data.chatroom`: only its numeric `id` is read. */
  datatype Chatroom = Chatroom(id: Option<int>)

  /** `data`: the chatroom and the two spellings of the broadcaster's id. */
  datatype ChannelInfo = ChannelInfo(chatroom: Option<Chatroom>, user_id: Option<int>, userId: Option<int>)

  /** JavaScript truthiness of an optional number: present and non-zero. */
  predicate Truthy(o: Option<int>) {
    o.Some? && o.value != 0
  }

  /** `data && data.chatroom && data.chatroom.id`, when truthy. */
  function ChatroomIdOf(info: Option<ChannelInfo>): (r: Option<int>)
    ensures Truthy(r) <==> r.Some?
    ensures r.Some? <==> info.Some? && info.value.chatroom.Some? && Truthy(info.value.chatroom.value.id)
    ensures r.Some? ==> r == info.value.chatroom.value.id
  {
    if info.Some? && info.value.chatroom.Some? && Truthy(info.value.chatroom.value.id)
    then info.value.chatroom.value.id
    else None
  }
}
