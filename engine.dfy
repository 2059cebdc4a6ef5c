/**
 * The windowing engine every component talks to (`VirtualChatManager`). Its
 * source is not part of this model, so it is an abstract collaborator: each
 * call that changes it is appended to `trace`, and every answer it gives (the
 * booleans returned by `addNewNode` and the window moves, the statistics) is a
 * fixed function of the calls received so far. Nothing about its cache or
 * window is assumed. Its container lookups (`getContainer`,
 * `getConversationContainer`) read the page, which finds the container on its
 * own schedule, so their results are parameters of the members that make them.
 */
module ChatEngine {
  import opened Browser
  import Stats = Statistics

  /** A call that the components make on the engine. */
  datatype Call =
    | AddNewNode(node: ElemId)
    | ScrollWindowUp
    | ScrollWindowDown
    | ScrollWindowToBottom
    | RebuildMessageCache
    | UpdateWindowIndices
    | ResyncDOM(container: Container?)  // `resyncDOM()` without an argument passes null

  class VirtualChatManager {
    /** The calls received so far, oldest first. */
    var trace: seq<Call>
    /** The boolean a call returns, given the trace that ends with that call. */
    const reply: seq<Call> -> bool
    const statsAt: seq<Call> -> map<string, Stats.Value>
    const loadedStatsAt: seq<Call> -> map<string, Stats.Value>

    constructor (reply: seq<Call> -> bool,
                 statsAt: seq<Call> -> map<string, Stats.Value>,
                 loadedStatsAt: seq<Call> -> map<string, Stats.Value>)
      ensures trace == []
      ensures this.reply == reply && this.statsAt == statsAt
      ensures this.loadedStatsAt == loadedStatsAt
    {
      trace := [];
      this.reply := reply;
      this.statsAt := statsAt;
      this.loadedStatsAt := loadedStatsAt;
    }

    /** Offers a message element; the result says whether the cache grew. */
    method AddNewNode(node: ElemId) returns (grew: bool)
      modifies this
      ensures trace == old(trace) + [Call.AddNewNode(node)]
      ensures grew == reply(trace)
    {
      trace := trace + [Call.AddNewNode(node)];
      grew := reply(trace);
    }

    method ScrollWindowUp() returns (changed: bool)
      modifies this
      ensures trace == old(trace) + [Call.ScrollWindowUp]
      ensures changed == reply(trace)
    {
      trace := trace + [Call.ScrollWindowUp];
      changed := reply(trace);
    }

    method ScrollWindowDown() returns (changed: bool)
      modifies this
      ensures trace == old(trace) + [Call.ScrollWindowDown]
      ensures changed == reply(trace)
    {
      trace := trace + [Call.ScrollWindowDown];
      changed := reply(trace);
    }

    method ScrollWindowToBottom() returns (changed: bool)
      modifies this
      ensures trace == old(trace) + [Call.ScrollWindowToBottom]
      ensures changed == reply(trace)
    {
      trace := trace + [Call.ScrollWindowToBottom];
      changed := reply(trace);
    }

    method RebuildMessageCache()
      modifies this
      ensures trace == old(trace) + [Call.RebuildMessageCache]
    {
      trace := trace + [Call.RebuildMessageCache];
    }

    method UpdateWindowIndices()
      modifies this
      ensures trace == old(trace) + [Call.UpdateWindowIndices]
    {
      trace := trace + [Call.UpdateWindowIndices];
    }

    method ResyncDOM(container: Container?)
      modifies this
      ensures trace == old(trace) + [Call.ResyncDOM(container)]
    {
      trace := trace + [Call.ResyncDOM(container)];
    }

    function GetStats(): map<string, Stats.Value>
      reads this
    {
      statsAt(trace)
    }

    function GetLoadedStats(): map<string, Stats.Value>
      reads this
    {
      loadedStatsAt(trace)
    }
  }
}
