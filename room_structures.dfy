/**
 * Room-level structure bookkeeping: building the room's link network from
 * its operational links, keeping a cached reference to a room's single
 * structure of a type, and the evacuation and terminal-clearing flags kept
 * in the room's memory.
 */
module RoomStructures {
  import opened Common
  import opened Links
  import opened Cache
  import opened Hivemind

  /**
   * The role of a link: the controller link is drained, a source link is
   * filled, one that is both is an in/out link and any other is neutral.
   */
  function RoleOf(id: string, controllerLinkId: Option<string>, sourceLinkIds: seq<string>): (r: Role)
    ensures r == InOut <==> controllerLinkId == Some(id) && id in sourceLinkIds
    ensures r == Out <==> controllerLinkId == Some(id) && id !in sourceLinkIds
    ensures r == In <==> controllerLinkId != Some(id) && id in sourceLinkIds
    ensures r == Neutral <==> controllerLinkId != Some(id) && id !in sourceLinkIds
  {
    if controllerLinkId == Some(id) then
      if id in sourceLinkIds then InOut else Out
    else if id in sourceLinkIds then In
    else Neutral
  }

  /** The ids of the links next to the room's sources, in source order, skipping sources without one. */
  function SourceLinkIds(nearby: seq<Option<string>>): (r: seq<string>)
    ensures forall id :: id in r <==> Some(id) in nearby
    ensures |r| <= |nearby|
  {
    if nearby == [] then []
    else
      var front := SourceLinkIds(nearby[..|nearby| - 1]);
      var last := nearby[|nearby| - 1];
      assert nearby == nearby[..|nearby| - 1] + [last];
      if last.Some? then front + [last.value] else front
  }

  /** The network `generateLinkNetwork` builds: every link added in order, with the level its role gives. */
  function Built(links: seq<Link>, controllerLinkId: Option<string>, sourceLinkIds: seq<string>): NetState
  {
    if links == [] then EmptyNet
    else
      var last := links[|links| - 1];
      Add(Built(links[..|links| - 1], controllerLinkId, sourceLinkIds), last,
          Level(RoleOf(last.id, controllerLinkId, sourceLinkIds), last))
  }

  /** Each link found is in the network exactly once, in the order found. */
  lemma {:induction false} BuiltLinks(links: seq<Link>, controllerLinkId: Option<string>, sourceLinkIds: seq<string>)
    ensures Built(links, controllerLinkId, sourceLinkIds).links == links
  {
    if links != [] {
      BuiltLinks(links[..|links| - 1], controllerLinkId, sourceLinkIds);
      FrontLast(links);
    }
  }

  /** A network built from well-formed links keeps its totals, ordered bounds and positive deviations. */
  lemma {:induction false} BuiltConsistent(links: seq<Link>, controllerLinkId: Option<string>, sourceLinkIds: seq<string>)
    requires forall i :: 0 <= i < |links| ==> WellFormed(links[i])
    ensures Consistent(Built(links, controllerLinkId, sourceLinkIds))
  {
    if links != [] {
      var front := links[..|links| - 1];
      var last := links[|links| - 1];
      assert forall i :: 0 <= i < |front| ==> front[i] == links[i];
      BuiltConsistent(front, controllerLinkId, sourceLinkIds);
      AddConsistent(Built(front, controllerLinkId, sourceLinkIds), last,
                    Level(RoleOf(last.id, controllerLinkId, sourceLinkIds), last));
    }
  }

  /** Collects the ids of the links next to the sources. */
  method CollectSourceLinks(nearby: seq<Option<string>>) returns (ids: seq<string>)
    ensures ids == SourceLinkIds(nearby)
  {
    ids := [];
    var i := 0;
    while i < |nearby|
      invariant 0 <= i <= |nearby|
      invariant ids == SourceLinkIds(nearby[..i])
    {
      PrefixGrow(nearby, i);
      var link := nearby[i];
      if link.Some? {
        ids := ids + [link.value];
      }
      i := i + 1;
    }
    PrefixWhole(nearby);
  }

  /** Adds each link to the network by its role. */
  method AddAll(network: LinkNetwork, links: seq<Link>, controllerLinkId: Option<string>, sourceLinkIds: seq<string>)
    requires network.State() == EmptyNet
    modifies network
    ensures network.State() == Built(links, controllerLinkId, sourceLinkIds)
  {
    var i := 0;
    while i < |links|
      invariant 0 <= i <= |links|
      invariant network.State() == Built(links[..i], controllerLinkId, sourceLinkIds)
    {
      var link := links[i];
      PrefixGrow(links, i);
      var role := RoleOf(link.id, controllerLinkId, sourceLinkIds);
      match role {
        case InOut => network.AddInOutLink(link);
        case Out => network.AddOutLink(link);
        case In => network.AddInLink(link);
        case Neutral => network.AddNeutralLink(link);
      }
      i := i + 1;
    }
    PrefixWhole(links);
  }

  /** A room's own record of the flags kept in `room.memory`; a flag never set reads as nothing. */
  class RoomMemory {
    var controllerLink: Option<string>
    var isEvacuating: Option<bool>
    var isClearingTerminal: Option<bool>

    constructor(controllerLink: Option<string>)
      ensures this.controllerLink == controllerLink && isEvacuating.None? && isClearingTerminal.None?
    {
      this.controllerLink := controllerLink;
      isEvacuating := None;
      isClearingTerminal := None;
    }
  }

  /** A room: its memory, its link network once generated, and the structure references made for it. */
  class Room {
    const name: string
    const memory: RoomMemory
    var linkNetwork: LinkNetwork?
    /** `room[structureType]`: the object found for the cached id, or nothing when the id did not resolve. */
    var references: map<string, Option<string>>

    constructor(name: string, memory: RoomMemory)
      ensures this.name == name && this.memory == memory && linkNetwork == null && references == map[]
    {
      this.name := name;
      this.memory := memory;
      linkNetwork := null;
      references := map[];
    }

    /**
     * `generateLinkNetwork`: without operational links nothing happens;
     * otherwise a new network holds every link, each filed by whether it is
     * the controller link recorded in memory and whether some source has it
     * as its nearby link. `nearby` holds each source's nearby link, if any.
     */
    method GenerateLinkNetwork(links: seq<Link>, nearby: seq<Option<string>>)
      modifies this
      ensures links == [] ==> linkNetwork == old(linkNetwork)
      ensures links != [] ==>
                linkNetwork != null && fresh(linkNetwork) &&
                linkNetwork.State() == Built(links, memory.controllerLink, SourceLinkIds(nearby))
      ensures references == old(references)
    {
      if |links| <= 0 {
        return;
      }
      var network := new LinkNetwork();
      linkNetwork := network;
      var controllerLinkId := memory.controllerLink;
      var sourceLinkIds := CollectSourceLinks(nearby);
      AddAll(network, links, controllerLinkId, sourceLinkIds);
    }

    /** `setEvacuating`. */
    method SetEvacuating(evacuate: bool)
      modifies memory
      ensures IsEvacuating() == Some(evacuate)
      ensures memory.isClearingTerminal == old(memory.isClearingTerminal)
      ensures memory.controllerLink == old(memory.controllerLink)
    {
      memory.isEvacuating := Some(evacuate);
    }

    /** `isEvacuating`: the flag as last set. */
    function IsEvacuating(): Option<bool>
      reads this, memory
    {
      memory.isEvacuating
    }

    /** `setClearingTerminal`. */
    method SetClearingTerminal(clear: bool)
      modifies memory
      ensures IsClearingTerminal() == Some(clear)
      ensures memory.isEvacuating == old(memory.isEvacuating)
      ensures memory.controllerLink == old(memory.controllerLink)
    {
      memory.isClearingTerminal := Some(clear);
    }

    /** `isClearingTerminal`: the flag as last set. */
    function IsClearingTerminal(): Option<bool>
      reads this, memory
    {
      memory.isClearingTerminal
    }

    /**
     * `addStructureReference`: without a controller nothing happens.
     * Otherwise the structure id cached on the heap under
     * `<room>:<type>:id` for 250 ticks is used; a stale or missing entry is
     * regenerated as nothing when the controller level allows no structure
     * of the type (`allowed` is the `CONTROLLER_STRUCTURES` table) and as
     * the first structure of that type found otherwise. A falsy id ends
     * there; an id that `resolves` no longer accepts is removed from the
     * cache and leaves an empty reference.
     */
    method AddStructureReference(structureType: string, controllerLevel: Option<int>, allowed: (string, int) -> int,
                                 firstOfType: Option<string>, resolves: string -> bool,
                                 heap: Holder<Option<string>>, load: Load, clock: Clock)
      modifies this, heap
      ensures controllerLevel.None? ==> heap.cache == old(heap.cache) && references == old(references)
      ensures controllerLevel.Some? ==>
                var key := name + ":" + structureType + ":id";
                var gen := Generator(structureType, controllerLevel.value, allowed, firstOfType);
                var refreshed := Refreshed(old(heap.cache), key, 250.0, gen, load, clock);
                var id := refreshed[key].data;
                (!Named(id) ==> heap.cache == Some(refreshed) && references == old(references)) &&
                (Named(id) && resolves(id.value) ==>
                   heap.cache == Some(refreshed) && references == old(references)[structureType := id]) &&
                (Named(id) && !resolves(id.value) ==>
                   heap.cache == Some(refreshed - {key}) && references == old(references)[structureType := None])
      ensures linkNetwork == old(linkNetwork)
    {
      if controllerLevel.None? {
        return;
      }
      var key := name + ":" + structureType + ":id";
      var gen := Generator(structureType, controllerLevel.value, allowed, firstOfType);
      var id := InObject(heap, key, 250.0, gen, load, clock);
      if !Named(id) {
        return;
      }
      if resolves(id.value) {
        references := references[structureType := id];
      } else {
        references := references[structureType := None];
        RemoveEntry(null, heap, key);
      }
    }
  }

  /** The generator `addStructureReference` hands the cache. */
  function Generator(structureType: string, level: int, allowed: (string, int) -> int,
                     firstOfType: Option<string>): (gen: Option<CacheEntry<Option<string>>> -> Option<string>)
    ensures forall previous :: gen(previous) == (if allowed(structureType, level) == 0 then None else firstOfType)
  {
    previous => if allowed(structureType, level) == 0 then None else firstOfType
  }
}
