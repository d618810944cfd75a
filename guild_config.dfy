/** Bot configuration of the stand-alone qqguild adapter: nine intent flags
    and the per-bot settings. */
module GuildConfig {
  import opened Wrappers

  datatype Intents = Intents(
    guilds: bool,
    guildMembers: bool,
    guildMessages: bool,
    guildMessageReactions: bool,
    directMessage: bool,
    messageAudit: bool,
    forumEvent: bool,
    audioAction: bool,
    atMessages: bool)

  function DefaultIntents(): Intents {
    Intents(true, true, false, true, false, true, false, false, true)
  }

  /** The bits `to_int` may set: 0, 1, 9, 10, 12, 27 .. 30. */
  const IntentBits: bv32 := 0x7800_1603

  function Bit(b: bool): bv32 {
    if b then 1 else 0
  }

  predicate HasBit(mask: bv32, k: bv32)
    requires k < 32
  {
    (mask >> k) & 1 == 1
  }

  /** `Intents.to_int`. */
  function ToMask(i: Intents): (r: bv32)
    ensures HasBit(r, 0) == i.guilds && HasBit(r, 1) == i.guildMembers
    ensures HasBit(r, 9) == i.guildMessages && HasBit(r, 10) == i.guildMessageReactions
    ensures HasBit(r, 12) == i.directMessage && HasBit(r, 27) == i.messageAudit
    ensures HasBit(r, 28) == i.forumEvent && HasBit(r, 29) == i.audioAction
    ensures HasBit(r, 30) == i.atMessages
    ensures r & !IntentBits == 0
  {
    (Bit(i.guilds) << 0)
    | (Bit(i.guildMembers) << 1)
    | (Bit(i.guildMessages) << 9)
    | (Bit(i.guildMessageReactions) << 10)
    | (Bit(i.directMessage) << 12)
    | (Bit(i.messageAudit) << 27)
    | (Bit(i.forumEvent) << 28)
    | (Bit(i.audioAction) << 29)
    | (Bit(i.atMessages) << 30)
  }

  function ToInt(i: Intents): (r: nat)
    ensures r < 0x8000_0000
  {
    ToMask(i) as nat
  }

  function FromMask(mask: bv32): Intents {
    Intents(HasBit(mask, 0), HasBit(mask, 1), HasBit(mask, 9), HasBit(mask, 10),
            HasBit(mask, 12), HasBit(mask, 27), HasBit(mask, 28), HasBit(mask, 29),
            HasBit(mask, 30))
  }

  /** The nine bits are pairwise distinct, so the mask gives the flags back. */
  lemma FromToMask(i: Intents)
    ensures FromMask(ToMask(i)) == i
  {
  }

  lemma ToMaskInjective(a: Intents, b: Intents)
    requires ToMask(a) == ToMask(b)
    ensures a == b
  {
    FromToMask(a);
    FromToMask(b);
  }

  /** The default flags give 1207960579, the same value as the qq adapter. */
  lemma DefaultToInt()
    ensures ToInt(DefaultIntents()) == 1207960579
  {
  }

  datatype BotInfo = BotInfo(
    id: string,
    token: string,
    secret: string,
    shard: Option<(int, int)>,
    intent: Intents)

  function NewBotInfo(id: string, token: string, secret: string): (b: BotInfo)
    ensures b.shard == None && b.intent == DefaultIntents()
    ensures b.id == id && b.token == token && b.secret == secret
  {
    BotInfo(id, token, secret, None, DefaultIntents())
  }
}
