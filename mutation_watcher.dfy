/**
 * The mutation watcher (src/content/MutationWatcher.ts): every batch of DOM
 * mutations is scanned, in document order, for conversation turns, each turn
 * is offered to the engine until one of them grows its cache, and then the
 * engine rebuilds its cache and window and the overlay shows the new counts.
 */
module Ingest {
  import opened Wrappers
  import opened Browser
  import opened ChatEngine
  import Overlay
  import Stats = Statistics

  /**
   * A node added to the page: a node that is not an element, or an element
   * with its identity, whether it matches the conversation-turn selector,
   * and its children.
   */
  datatype DomNode =
    | NonElement
    | ElementNode(id: ElemId, isTurn: bool, children: seq<DomNode>)

  /** The turns in a subtree, the root included, in document order. */
  function TurnsInSubtree(n: DomNode): seq<ElemId>
    decreases n
  {
    match n
    case NonElement => []
    case ElementNode(id, isTurn, children) => (if isTurn then [id] else []) + TurnsIn(children)
  }

  /** `querySelectorAll` on an element with these children: every turn below it, in document order. */
  function TurnsIn(ns: seq<DomNode>): seq<ElemId>
    decreases ns
  {
    if ns == [] then [] else TurnsInSubtree(ns[0]) + TurnsIn(ns[1..])
  }

  /** A turn with identity `id` occurs in the subtree. */
  predicate HasTurn(n: DomNode, id: ElemId)
    decreases n
  {
    match n
    case NonElement => false
    case ElementNode(i, isTurn, children) => (isTurn && i == id) || HasTurnIn(children, id)
  }

  /** A turn with identity `id` occurs below one of the nodes. */
  predicate HasTurnIn(ns: seq<DomNode>, id: ElemId)
    decreases ns
  {
    exists k :: 0 <= k < |ns| && HasTurn(ns[k], id)
  }

  /** The subtree query finds exactly the turns that occur in the subtree. */
  lemma {:induction false} TurnsInSubtreeComplete(n: DomNode, id: ElemId)
    decreases n
    ensures id in TurnsInSubtree(n) <==> HasTurn(n, id)
  {
    match n
    case NonElement =>
    case ElementNode(i, isTurn, children) =>
      TurnsInComplete(children, id);
  }

  /** The query below a list of nodes finds exactly the turns that occur below them. */
  lemma {:induction false} TurnsInComplete(ns: seq<DomNode>, id: ElemId)
    decreases ns
    ensures id in TurnsIn(ns) <==> HasTurnIn(ns, id)
  {
    if ns != [] {
      TurnsInSubtreeComplete(ns[0], id);
      TurnsInComplete(ns[1..], id);
      if HasTurnIn(ns, id) {
        var k :| 0 <= k < |ns| && HasTurn(ns[k], id);
        if k > 0 {
          assert ns[1..][k - 1] == ns[k];
        }
      }
      if HasTurnIn(ns[1..], id) {
        var k :| 0 <= k < |ns[1..]| && HasTurn(ns[1..][k], id);
        assert ns[k + 1] == ns[1..][k];
      }
    }
  }

  /** The turns one added node contributes: itself if it is a turn, otherwise the turns below it. */
  function NodeCandidates(n: DomNode): seq<ElemId> {
    match n
    case NonElement => []
    case ElementNode(id, isTurn, children) => if isTurn then [id] else TurnsIn(children)
  }

  /**
   * A node contributes exactly its own identity when it is a turn, and
   * otherwise exactly the turns that occur below it.
   */
  lemma NodeCandidatesExact(n: DomNode, id: ElemId)
    ensures n.ElementNode? && n.isTurn ==> NodeCandidates(n) == [n.id]
    ensures n.ElementNode? && !n.isTurn ==> (id in NodeCandidates(n) <==> HasTurnIn(n.children, id))
    ensures n.NonElement? ==> NodeCandidates(n) == []
  {
    if n.ElementNode? && !n.isTurn {
      TurnsInComplete(n.children, id);
    }
  }

  /** The turns of one mutation record's added nodes, in order. */
  function RecordCandidates(added: seq<DomNode>): seq<ElemId> {
    if added == [] then [] else RecordCandidates(added[..|added| - 1]) + NodeCandidates(added[|added| - 1])
  }

  /** The turns of a batch of mutation records, in order. */
  function BatchCandidates(mutations: seq<seq<DomNode>>): seq<ElemId> {
    if mutations == [] then []
    else BatchCandidates(mutations[..|mutations| - 1]) + RecordCandidates(mutations[|mutations| - 1])
  }

  /** The engine's trace while a batch is offered, and whether some offer grew the cache. */
  datatype Ingest = Ingest(trace: seq<Call>, found: bool)

  /** `newMessagesFound ||= addNewNode(node)`: once something was found, nothing more is offered. */
  function Offer(reply: seq<Call> -> bool, st: Ingest, node: ElemId): Ingest {
    if st.found then st
    else
      var t := st.trace + [AddNewNode(node)];
      Ingest(t, reply(t))
  }

  /** Offers the nodes in order. */
  function OfferAll(reply: seq<Call> -> bool, st: Ingest, nodes: seq<ElemId>): Ingest {
    if nodes == [] then st else Offer(reply, OfferAll(reply, st, nodes[..|nodes| - 1]), nodes[|nodes| - 1])
  }

  /** Offering a concatenation is offering its two parts one after the other. */
  lemma {:induction false} OfferAllAppend(reply: seq<Call> -> bool, st: Ingest, a: seq<ElemId>, b: seq<ElemId>)
    decreases |b|
    ensures OfferAll(reply, st, a + b) == OfferAll(reply, OfferAll(reply, st, a), b)
  {
    if b == [] {
      assert a + b == a;
    } else {
      var b' := b[..|b| - 1];
      assert (a + b)[..|a + b| - 1] == a + b';
      assert (a + b)[|a + b| - 1] == b[|b| - 1];
      OfferAllAppend(reply, st, a, b');
    }
  }

  /** Once a node grew the cache, the remaining nodes are not offered. */
  lemma {:induction false} OfferAllAfterFound(reply: seq<Call> -> bool, st: Ingest, nodes: seq<ElemId>)
    requires st.found
    decreases |nodes|
    ensures OfferAll(reply, st, nodes) == st
  {
    if nodes != [] {
      OfferAllAfterFound(reply, st, nodes[..|nodes| - 1]);
    }
  }

  /**
   * The shape of a batch's calls: the engine receives `addNewNode` for a
   * prefix of the nodes, in order; every reply but the last is false; the
   * batch found something exactly when the last reply is true; and when
   * nothing was found every node was offered.
   */
  lemma {:induction false} OfferAllShape(reply: seq<Call> -> bool, t0: seq<Call>, nodes: seq<ElemId>)
    decreases |nodes|
    ensures var r := OfferAll(reply, Ingest(t0, false), nodes);
      && |t0| <= |r.trace| <= |t0| + |nodes|
      && r.trace[..|t0|] == t0
      && (forall i :: |t0| <= i < |r.trace| ==> r.trace[i] == AddNewNode(nodes[i - |t0|]))
      && (forall i :: |t0| < i < |r.trace| ==> !reply(r.trace[..i]))
      && (r.found <==> |r.trace| > |t0| && reply(r.trace))
      && (!r.found ==> |r.trace| == |t0| + |nodes|)
  {
    if nodes != [] {
      var prev := nodes[..|nodes| - 1];
      OfferAllShape(reply, t0, prev);
      var p := OfferAll(reply, Ingest(t0, false), prev);
      if !p.found {
        var t := p.trace + [AddNewNode(nodes[|nodes| - 1])];
        assert t[..|t0|] == p.trace[..|t0|];
        forall i | |t0| <= i < |t|
          ensures t[i] == AddNewNode(nodes[i - |t0|])
        {
          if i < |p.trace| {
            assert t[i] == p.trace[i];
          }
        }
        forall i | |t0| < i < |t|
          ensures !reply(t[..i])
        {
          if i < |p.trace| {
            assert t[..i] == p.trace[..i];
          } else {
            assert t[..i] == p.trace;
          }
        }
      }
    }
  }

  /** The result of offering a whole batch, starting from the engine's trace `t0`. */
  function Ingested(reply: seq<Call> -> bool, t0: seq<Call>, mutations: seq<seq<DomNode>>): Ingest {
    OfferAll(reply, Ingest(t0, false), BatchCandidates(mutations))
  }

  /** The calls `#rebuildCacheAndDOM` makes. */
  const RebuildCalls: seq<Call> := [RebuildMessageCache, UpdateWindowIndices, ResyncDOM(null)]

  class MutationWatcher {
    const chatManager: VirtualChatManager?
    const overlay: Overlay.OverlayUI?
    /** The serial of the observer created by the last `start`. */
    var observer: Option<nat>
    /** The observers that are observing the body. */
    var connected: set<nat>
    var observersCreated: nat

    constructor (chatManager: VirtualChatManager?, overlay: Overlay.OverlayUI?)
      ensures this.chatManager == chatManager && this.overlay == overlay
      ensures observer == None && connected == {} && observersCreated == 0
    {
      this.chatManager := chatManager;
      this.overlay := overlay;
      observer := None;
      connected := {};
      observersCreated := 0;
    }

    /**
     * Creates a new observer and starts it on the body; fails without an
     * engine. An observer from an earlier `start` stays connected.
     */
    method Start() returns (r: Outcome<string>)
      modifies this`observer, this`connected, this`observersCreated
      ensures chatManager == null ==> r == Fail("MutationWatcher: chatManager is required.") && unchanged(this)
      ensures chatManager != null ==>
                && r == Pass
                && observer == Some(old(observersCreated))
                && connected == old(connected) + {old(observersCreated)}
                && observersCreated == old(observersCreated) + 1
    {
      if chatManager == null {
        return Fail("MutationWatcher: chatManager is required.");
      }
      observer := Some(observersCreated);
      connected := connected + {observersCreated};
      observersCreated := observersCreated + 1;
      r := Pass;
    }

    /** Disconnects the last observer created, if any. */
    method Stop()
      modifies this`connected
      ensures connected == old(connected) - (if observer.Some? then {observer.value} else {})
    {
      if observer.Some? {
        connected := connected - {observer.value};
      }
    }

    /** Offers the nodes one after the other (the `forEach` over a query's result). */
    method OfferEach(nodes: seq<ElemId>, found0: bool) returns (found: bool)
      requires chatManager != null
      modifies chatManager
      ensures Ingest(chatManager.trace, found)
              == OfferAll(chatManager.reply, Ingest(old(chatManager.trace), found0), nodes)
    {
      found := found0;
      for k := 0 to |nodes|
        invariant Ingest(chatManager.trace, found)
                  == OfferAll(chatManager.reply, Ingest(old(chatManager.trace), found0), nodes[..k])
      {
        assert nodes[..k + 1][..k] == nodes[..k];
        if !found {
          found := chatManager.AddNewNode(nodes[k]);
        }
      }
      assert nodes[..|nodes|] == nodes;
    }

    /** Scans the added nodes of one mutation record. */
    method OfferRecord(added: seq<DomNode>, found0: bool) returns (found: bool)
      requires chatManager != null
      modifies chatManager
      ensures Ingest(chatManager.trace, found)
              == OfferAll(chatManager.reply, Ingest(old(chatManager.trace), found0), RecordCandidates(added))
    {
      found := found0;
      ghost var start := Ingest(chatManager.trace, found0);
      for j := 0 to |added|
        invariant Ingest(chatManager.trace, found) == OfferAll(chatManager.reply, start, RecordCandidates(added[..j]))
      {
        var node := added[j];
        ghost var sofar := OfferAll(chatManager.reply, start, RecordCandidates(added[..j]));
        if node.ElementNode? {
          var articles := if node.isTurn then [node.id] else TurnsIn(node.children);
          assert articles == NodeCandidates(node);
          found := OfferEach(articles, found);
        }
        assert Ingest(chatManager.trace, found) == OfferAll(chatManager.reply, sofar, NodeCandidates(node));
        assert added[..j + 1][..j] == added[..j];
        assert RecordCandidates(added[..j + 1]) == RecordCandidates(added[..j]) + NodeCandidates(node);
        OfferAllAppend(chatManager.reply, start, RecordCandidates(added[..j]), NodeCandidates(node));
      }
      assert added[..|added|] == added;
    }

    /** Scans a batch of mutation records, record by record. */
    method OfferBatch(mutations: seq<seq<DomNode>>) returns (found: bool)
      requires chatManager != null
      modifies chatManager
      ensures Ingest(chatManager.trace, found) == Ingested(chatManager.reply, old(chatManager.trace), mutations)
    {
      found := false;
      ghost var start := Ingest(chatManager.trace, false);
      for i := 0 to |mutations|
        invariant Ingest(chatManager.trace, found) == OfferAll(chatManager.reply, start, BatchCandidates(mutations[..i]))
      {
        found := OfferRecord(mutations[i], found);
        assert mutations[..i + 1][..i] == mutations[..i];
        OfferAllAppend(chatManager.reply, start, BatchCandidates(mutations[..i]), RecordCandidates(mutations[i]));
      }
      assert mutations[..|mutations|] == mutations;
    }

    /**
     * The observer callback: offers the batch's turns to the engine; if one
     * grew the cache, rebuilds the engine's cache, window and DOM and merges
     * the engine's loaded-message statistics into the overlay.
     */
    method HandleMutations(mutations: seq<seq<DomNode>>, page: Page)
      requires chatManager != null
      modifies chatManager
      modifies if overlay == null then {} else {overlay, overlay.stats}
      ensures var r := Ingested(chatManager.reply, old(chatManager.trace), mutations);
              chatManager.trace == r.trace + (if r.found then RebuildCalls else [])
      ensures overlay != null && Ingested(chatManager.reply, old(chatManager.trace), mutations).found ==>
                && overlay.stats.Fields() == Stats.Merge(old(overlay.stats.Fields()), chatManager.GetLoadedStats())
                && overlay.element
                   == old(overlay.element).(text := Overlay.StatsText(overlay.stats.Fields()),
                                            display := Overlay.VisibilityDisplay(page.localStorage, overlay.cacheKey))
      ensures overlay != null && !Ingested(chatManager.reply, old(chatManager.trace), mutations).found ==>
                unchanged(overlay, overlay.stats)
    {
      var found := OfferBatch(mutations);
      if found {
        chatManager.RebuildMessageCache();
        chatManager.UpdateWindowIndices();
        chatManager.ResyncDOM(null);
        if overlay != null {
          overlay.UpdateStats(chatManager.GetLoadedStats(), page);
        }
      }
    }
  }
}
