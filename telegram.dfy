/**
 * The Telegram bot service: the lifecycle of its one `Telegraf` instance and
 * the `/link` command, which creates a room and replies with its link.
 * `process.env` readings are parameters; the Telegram API is reduced to the
 * launch and stop calls and the replies the handler attempts.
 */
module TelegramBot {
  import opened Wrappers
  import Hex
  import Rooms
  import Controller

  const DefaultBaseUrl: string := "https://example.com"

  /** The reason passed to `bot.stop` on shutdown. */
  const StopReason: string := "Nest shutdown"

  /** `LINK_BASE_URL || 'https://example.com'`: an unset or empty variable falls back. */
  function BaseUrl(env: Option<string>): string {
    if env.Some? && env.value != "" then env.value else DefaultBaseUrl
  }

  predicate EndsWithSlash(s: string) {
    |s| > 0 && s[|s| - 1] == '/'
  }

  /** One trailing '/' is dropped; only one. */
  function NormalizeBase(base: string): string {
    if EndsWithSlash(base) then base[..|base| - 1] else base
  }

  function RoomLink(base: string, id: string): string {
    NormalizeBase(base) + "/room/" + id
  }

  /** What follows the last '/' of a URL: the `:id` the room route reads. */
  function LastSegment(url: string): (seg: string)
    ensures '/' !in seg
    ensures |seg| <= |url|
    decreases |url|
  {
    if url == [] then []
    else if url[|url| - 1] == '/' then []
    else LastSegment(url[..|url| - 1]) + [url[|url| - 1]]
  }

  lemma {:induction false} LastSegmentOfJoin(prefix: string, id: string)
    requires '/' !in id
    ensures LastSegment(prefix + "/" + id) == id
    decreases |id|
  {
    if id == [] {
      assert prefix + "/" + id == prefix + "/";
    } else {
      var init := id[..|id| - 1];
      assert prefix + "/" + id == (prefix + "/" + init) + [id[|id| - 1]];
      assert (prefix + "/" + id)[..|prefix + "/" + id| - 1] == prefix + "/" + init;
      LastSegmentOfJoin(prefix, init);
      assert init + [id[|id| - 1]] == id;
    }
  }

  /**
   * The link joins the base and `room/` with exactly one '/': a base that
   * ends with '/' keeps that one, any other base gets one added.
   */
  lemma LinkJoinsWithOneSlash(base: string, id: string)
    ensures EndsWithSlash(base) ==> RoomLink(base, id) == base + "room/" + id
    ensures !EndsWithSlash(base) ==> RoomLink(base, id) == base + "/room/" + id
  {
    if EndsWithSlash(base) {
      assert base == base[..|base| - 1] + "/";
    }
  }

  /** The link names the room: its last segment is the room id. */
  lemma LinkNamesRoom(base: string, id: string)
    requires '/' !in id
    ensures LastSegment(RoomLink(base, id)) == id
  {
    assert RoomLink(base, id) == (NormalizeBase(base) + "/room") + "/" + id;
    LastSegmentOfJoin(NormalizeBase(base) + "/room", id);
  }

  /**
   * End to end: the link `/link` replies with, once its room is registered,
   * leads `GET /room/:id` to the page of that very room. Routing is taken as
   * the link's last path segment, which is how the route matches when the
   * base URL is the server's bare origin.
   */
  lemma LinkOpensRoomPage(rooms: map<string, Rooms.Room>, bytes: seq<Hex.Byte>, now: int, env: Option<string>)
    ensures var id := Hex.Encode(bytes);
      var served := Controller.PageFor(rooms[id := Rooms.Room(id, now)], LastSegment(RoomLink(BaseUrl(env), id)));
      served == Controller.Response(Controller.Ok, Controller.RoomPage(id))
  {
    var id := Hex.Encode(bytes);
    Hex.HexHasNoSlash(id);
    LinkNamesRoom(BaseUrl(env), id);
  }

  /** Telegram calls the service makes on its bot. */
  datatype BotAction = Launch(token: string) | Stop(reason: string)

  /** The `bot` field (the token of the live instance, if any) and the calls made so far. */
  datatype Lifecycle = Lifecycle(bot: Option<string>, actions: seq<BotAction>)

  /** `onModuleInit`: without a token nothing happens; otherwise a bot is created and launched. */
  function Init(l: Lifecycle, token: Option<string>): Lifecycle {
    if token.None? || token.value == "" then l
    else Lifecycle(Some(token.value), l.actions + [Launch(token.value)])
  }

  /** The rejection of `launch()`: the bot is dropped. */
  function LaunchFailed(l: Lifecycle): Lifecycle {
    l.(bot := None)
  }

  /** `onModuleDestroy`: a no-op without a bot; otherwise it is stopped and dropped. */
  function Destroy(l: Lifecycle): Lifecycle {
    if l.bot.None? then l else Lifecycle(None, l.actions + [Stop(StopReason)])
  }

  datatype LifecycleEvent = InitEvent(token: Option<string>) | LaunchFailure | DestroyEvent

  function Apply(l: Lifecycle, e: LifecycleEvent): Lifecycle {
    match e
    case InitEvent(token) => Init(l, token)
    case LaunchFailure => LaunchFailed(l)
    case DestroyEvent => Destroy(l)
  }

  function RunLifecycle(l: Lifecycle, trace: seq<LifecycleEvent>): Lifecycle
    decreases |trace|
  {
    if trace == [] then l else RunLifecycle(Apply(l, trace[0]), trace[1..])
  }

  function Launches(actions: seq<BotAction>): nat
    decreases |actions|
  {
    if actions == [] then 0
    else Launches(actions[..|actions| - 1]) + (if actions[|actions| - 1].Launch? then 1 else 0)
  }

  function Stops(actions: seq<BotAction>): nat
    decreases |actions|
  {
    if actions == [] then 0
    else Stops(actions[..|actions| - 1]) + (if actions[|actions| - 1].Stop? then 1 else 0)
  }

  lemma CountAppend(actions: seq<BotAction>, a: BotAction)
    ensures Launches(actions + [a]) == Launches(actions) + (if a.Launch? then 1 else 0)
    ensures Stops(actions + [a]) == Stops(actions) + (if a.Stop? then 1 else 0)
  {
    assert (actions + [a])[..|actions + [a]| - 1] == actions;
  }

  /** Shutting down twice stops the bot once; after shutdown there is no bot. */
  lemma DestroyIdempotent(l: Lifecycle)
    ensures Destroy(Destroy(l)) == Destroy(l)
    ensures Destroy(l).bot.None?
    ensures l.bot.None? ==> Destroy(l) == l
  {
  }

  /** Without a token (unset or empty) the service never creates or launches a bot. */
  lemma NoTokenNoBot(l: Lifecycle, token: Option<string>)
    requires token.None? || token.value == ""
    ensures Init(l, token) == l
  {
  }

  /** A stop is made only on a launched bot: stops, plus one for a live bot, never outnumber launches. */
  predicate StopsBacked(l: Lifecycle) {
    Stops(l.actions) + (if l.bot.Some? then 1 else 0) <= Launches(l.actions)
  }

  lemma ApplyKeepsStopsBacked(l: Lifecycle, e: LifecycleEvent)
    requires StopsBacked(l)
    ensures StopsBacked(Apply(l, e))
  {
    match e
    case InitEvent(token) =>
      if !(token.None? || token.value == "") {
        CountAppend(l.actions, Launch(token.value));
      }
    case LaunchFailure =>
    case DestroyEvent =>
      if l.bot.Some? {
        CountAppend(l.actions, Stop(StopReason));
      }
  }

  lemma {:induction false} StopsFollowLaunches(l: Lifecycle, trace: seq<LifecycleEvent>)
    requires StopsBacked(l)
    ensures StopsBacked(RunLifecycle(l, trace))
    ensures Stops(RunLifecycle(l, trace).actions) <= Launches(RunLifecycle(l, trace).actions)
    decreases |trace|
  {
    if trace != [] {
      ApplyKeepsStopsBacked(l, trace[0]);
      StopsFollowLaunches(Apply(l, trace[0]), trace[1..]);
    }
  }

  /** A reply the `/link` handler sends: the link text, or the failure text from its `catch`. */
  datatype Reply = LinkReply(url: string) | FailureReply

  class TelegramBotService {
    const roomService: Rooms.RoomService
    var bot: Option<string>
    var actions: seq<BotAction>

    function State(): Lifecycle
      reads this
    {
      Lifecycle(bot, actions)
    }

    constructor (roomService: Rooms.RoomService)
      ensures this.roomService == roomService
      ensures State() == Lifecycle(None, [])
    {
      this.roomService := roomService;
      bot := None;
      actions := [];
    }

    /** `token` is `process.env.TG_BOT_TOKEN`. */
    method OnModuleInit(token: Option<string>)
      modifies this
      ensures State() == Init(old(State()), token)
    {
      if token.None? || token.value == "" {
        return;
      }
      bot := Some(token.value);
      actions := actions + [Launch(token.value)];
    }

    /** The `catch` of `launch()`. */
    method OnLaunchFailed()
      modifies this
      ensures State() == LaunchFailed(old(State()))
    {
      bot := None;
    }

    method OnModuleDestroy()
      modifies this
      ensures State() == Destroy(old(State()))
    {
      if bot.None? {
        return;
      }
      actions := actions + [Stop(StopReason)];
      bot := None;
    }

    /**
     * The `/link` command. `entropy` is what `randomBytes(8)` yields, `None`
     * when it throws; `env` is `LINK_BASE_URL`; `delivered` is whether the
     * first `ctx.reply` resolves. A failing reply falls into the `catch`,
     * which sends the failure text; the room stays registered.
     */
    method OnLinkCommand(entropy: Option<seq<Hex.Byte>>, now: int, env: Option<string>, delivered: bool)
      returns (replies: seq<Reply>)
      requires entropy.Some? ==> |entropy.value| == 8
      requires roomService.Valid()
      modifies roomService
      ensures roomService.Valid()
      ensures entropy.None? ==> replies == [FailureReply] && roomService.rooms == old(roomService.rooms)
      ensures entropy.Some? ==>
        var id := Hex.Encode(entropy.value);
        var url := RoomLink(BaseUrl(env), id);
        && roomService.rooms == old(roomService.rooms)[id := Rooms.Room(id, now)]
        && replies == (if delivered then [LinkReply(url)] else [LinkReply(url), FailureReply])
    {
      if entropy.None? {
        return [FailureReply];
      }
      var room := roomService.CreateRoom(entropy.value, now);
      var baseUrl := BaseUrl(env);
      var normalized := if EndsWithSlash(baseUrl) then baseUrl[..|baseUrl| - 1] else baseUrl;
      var url := normalized + "/room/" + room.id;
      replies := [LinkReply(url)];
      if !delivered {
        replies := replies + [FailureReply];
      }
    }
  }
}
