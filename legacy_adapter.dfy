/** The older qqguild adapter (`nonebot/adapters/qqguild/adapter.py`),
    whose `_forward_ws` does the hello, the handshake and the receive loop
    inline. It differs from the stand-alone package in three ways: a hello
    interval of 0 is accepted, the bot is registered as connected as soon
    as the handshake is sent, and no reply is awaited, so nothing ever
    stores a session id and every connection identifies afresh. The frame
    decoding, the receive loop, the heartbeat and the shard plan are those
    of `GuildAdapter`. */
module LegacyAdapter {
  import opened Wrappers
  import opened Json
  import opened GuildConfig
  import opened GuildPayload
  import opened GuildBot
  import opened GuildAdapter

  /** One pass of the older `_forward_ws`. However it ends, the bot is
      disconnected; the session id is never set, so a bot that starts
      without one never becomes ready. */
  method Connect(adapter: Adapter, bot: Bot, ws: Socket, shard: (int, int), properties: Fields, sendOk: bool)
    returns (r: ConnectEnd)
    modifies adapter, bot, ws
    // any Hello frame will do, whatever its interval
    ensures r == NoHello <==> HelloOf(old(ws.inbox)).None?
    ensures r == NoHello ==> bot.sessionId == old(bot.sessionId) && bot.sequence == old(bot.sequence)
                             && ws.outbox == old(ws.outbox) && adapter.handled == old(adapter.handled)
    ensures r != NoHello ==>
      var h := Handshake(bot.info, old(bot.sessionId), old(bot.sequence), shard, properties);
      (h.Err? ==> r == AuthRaised(h.error) && ws.outbox == old(ws.outbox))
      && (h.Ok? ==> ws.outbox == old(ws.outbox) + (if sendOk then [h.value] else []))
      && (h.Ok? && !sendOk ==> r == NotAuthenticated)
      && (h.Ok? && sendOk ==>
            var o := LoopSpec(adapter.classes, adapter.validates, ReceiveSpec(old(ws.inbox)).1,
                              old(bot.sessionId), old(bot.sequence));
            r == LoopEnded(o.end) && ws.inbox == o.rest && bot.sessionId == o.sessionId
            && bot.sequence == o.sequence && adapter.handled == old(adapter.handled) + o.events)
    ensures r != LoopEnded(Invalidated) ==> bot.sessionId == old(bot.sessionId)
    ensures old(bot.sessionId).None? ==> !bot.Ready()
    ensures bot.selfInfo == old(bot.selfInfo)
    ensures bot.info.id !in adapter.bots
  {
    var interval := ReceiveHello(ws);
    if interval.None? {
      r := NoHello;
    } else {
      var h := Handshake(bot.info, bot.sessionId, bot.sequence, shard, properties);
      if h.Err? {
        r := AuthRaised(h.error);
      } else {
        ws.Send(h.value, sendOk);
        if !sendOk {
          r := NotAuthenticated;
        } else {
          adapter.bots := adapter.bots + {bot.info.id};
          ghost var inbox, sid, sequence := ws.inbox, bot.sessionId, bot.sequence;
          var end := Loop(adapter, bot, ws);
          LoopSession(adapter.classes, adapter.validates, inbox, sid, sequence);
          r := LoopEnded(end);
        }
      }
    }
    adapter.bots := adapter.bots - {bot.info.id};
  }
}
