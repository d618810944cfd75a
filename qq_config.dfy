/** Bot configuration of the qq adapter: the gateway intent flags and the
    per-bot settings. */
module QQConfig {
  import opened Wrappers

  /** The thirteen subscription flags, in declaration order. */
  datatype Intents = Intents(
    guilds: bool,
    guildMembers: bool,
    guildMessages: bool,
    guildMessageReactions: bool,
    directMessage: bool,
    openForumEvent: bool,
    audioLiveMember: bool,
    c2cGroupAtMessages: bool,
    interaction: bool,
    messageAudit: bool,
    forumEvent: bool,
    audioAction: bool,
    atMessages: bool)

  /** `Intents()` with every field at its default. */
  function DefaultIntents(): Intents {
    Intents(true, true, false, true, false, false, false, false, false, true, false, false, true)
  }

  /** The bits `to_int` may set: 0, 1, 9, 10, 12, 18, 19, 25 .. 30. */
  const IntentBits: bv32 := 0x7E0C_1603

  function Bit(b: bool): bv32 {
    if b then 1 else 0
  }

  predicate HasBit(mask: bv32, k: bv32)
    requires k < 32
  {
    (mask >> k) & 1 == 1
  }

  /** `Intents.to_int`: each flag shifted to its own bit and or-ed together. */
  function ToMask(i: Intents): (r: bv32)
    ensures HasBit(r, 0) == i.guilds && HasBit(r, 1) == i.guildMembers
    ensures HasBit(r, 9) == i.guildMessages && HasBit(r, 10) == i.guildMessageReactions
    ensures HasBit(r, 12) == i.directMessage && HasBit(r, 18) == i.openForumEvent
    ensures HasBit(r, 19) == i.audioLiveMember && HasBit(r, 25) == i.c2cGroupAtMessages
    ensures HasBit(r, 26) == i.interaction && HasBit(r, 27) == i.messageAudit
    ensures HasBit(r, 28) == i.forumEvent && HasBit(r, 29) == i.audioAction
    ensures HasBit(r, 30) == i.atMessages
    ensures r & !IntentBits == 0
    ensures r < 0x8000_0000
  {
    (Bit(i.guilds) << 0)
    | (Bit(i.guildMembers) << 1)
    | (Bit(i.guildMessages) << 9)
    | (Bit(i.guildMessageReactions) << 10)
    | (Bit(i.directMessage) << 12)
    | (Bit(i.openForumEvent) << 18)
    | (Bit(i.audioLiveMember) << 19)
    | (Bit(i.c2cGroupAtMessages) << 25)
    | (Bit(i.interaction) << 26)
    | (Bit(i.messageAudit) << 27)
    | (Bit(i.forumEvent) << 28)
    | (Bit(i.audioAction) << 29)
    | (Bit(i.atMessages) << 30)
  }

  /** The integer sent in Identify; it fits in 31 bits. */
  function ToInt(i: Intents): (r: nat)
    ensures r < 0x8000_0000
  {
    ToMask(i) as nat
  }

  /** Reads the flags back from a mask. */
  function FromMask(mask: bv32): Intents {
    Intents(HasBit(mask, 0), HasBit(mask, 1), HasBit(mask, 9), HasBit(mask, 10),
            HasBit(mask, 12), HasBit(mask, 18), HasBit(mask, 19), HasBit(mask, 25),
            HasBit(mask, 26), HasBit(mask, 27), HasBit(mask, 28), HasBit(mask, 29),
            HasBit(mask, 30))
  }

  /** Every flag owns its own bit, so the mask gives the flags back. */
  lemma FromToMask(i: Intents)
    ensures FromMask(ToMask(i)) == i
  {
  }

  /** Two different flag sets never produce the same integer. */
  lemma ToMaskInjective(a: Intents, b: Intents)
    requires ToMask(a) == ToMask(b)
    ensures a == b
  {
    FromToMask(a);
    FromToMask(b);
  }

  /** The default flags give 1207960579. */
  lemma DefaultToInt()
    ensures ToInt(DefaultIntents()) == 1207960579
  {
  }

  /** `Intents.is_group_enabled`: group and C2C messages are subscribed. */
  function IsGroupEnabled(i: Intents): (r: bool)
    ensures r <==> HasBit(ToMask(i), 25)
  {
    i.c2cGroupAtMessages
  }

  /** One configured bot. */
  datatype BotInfo = BotInfo(
    id: string,
    token: string,
    secret: string,
    shard: Option<(int, int)>,
    intent: Intents)

  /** A `BotInfo` built from only the required fields. */
  function NewBotInfo(id: string, token: string, secret: string): (b: BotInfo)
    ensures b.shard == None && b.intent == DefaultIntents()
    ensures b.id == id && b.token == token && b.secret == secret
  {
    BotInfo(id, token, secret, None, DefaultIntents())
  }

  /** `BotInfo.is_group_bot`: delegates to the intents. */
  function IsGroupBot(b: BotInfo): (r: bool)
    ensures r <==> IsGroupEnabled(b.intent)
  {
    b.intent.c2cGroupAtMessages
  }

  /** A bot with default settings is not a group bot. */
  lemma DefaultNotGroupBot(id: string, token: string, secret: string)
    ensures !IsGroupBot(NewBotInfo(id, token, secret))
  {
  }
}
