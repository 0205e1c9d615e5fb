/**
 * The channel repository (Entity/Repository/ChannelRepository.php): two
 * query filters over the channel table, a per-id memo of loaded channels and
 * the guarded append of a status record. The table is the sequence of
 * channels the database holds, and merging a channel into the unit of work
 * yields the table's instance with the same id (the channel itself when the
 * table has none).
 */
module Repository {

  import opened Wrappers
  import opened Entity

  /** The `where` clauses of getConfiguredChannelsForSync. */
  predicate ConfiguredForSync(c: Channel, channelType: Option<string>)
    reads c
  {
    c.transport != null && c.enabled && (channelType.Some? ==> c.channelType == Some(channelType.value))
  }

  /**
   * Channels with a transport that are enabled, and of the given type when
   * one is given; table order is kept.
   */
  function ConfiguredChannelsForSync(table: seq<Channel>, channelType: Option<string>): (r: seq<Channel>)
    reads table
    ensures |r| <= |table|
    ensures forall c :: c in r ==> c in table && ConfiguredForSync(c, channelType)
    ensures forall c :: c in table && ConfiguredForSync(c, channelType) ==> c in r
  {
    if table == [] then []
    else
      (if ConfiguredForSync(table[0], channelType) then [table[0]] else [])
        + ConfiguredChannelsForSync(table[1..], channelType)
  }

  /** The channels whose type equals `channelType`, in table order. */
  function ChannelsByType(table: seq<Channel>, channelType: string): (r: seq<Channel>)
    reads table
    ensures |r| <= |table|
    ensures forall c :: c in r ==> c in table && c.channelType == Some(channelType)
    ensures forall c :: c in table && c.channelType == Some(channelType) ==> c in r
  {
    if table == [] then []
    else
      (if table[0].channelType == Some(channelType) then [table[0]] else [])
        + ChannelsByType(table[1..], channelType)
  }

  /** `findOneBy(['id' => id])`: the first channel of the table with that id, or null. */
  function FindById(table: seq<Channel>, id: int): (r: Channel?)
    ensures r != null ==> r in table && r.id == Some(id)
    ensures r == null <==> forall c :: c in table ==> c.id != Some(id)
  {
    if table == [] then null
    else if table[0].id == Some(id) then table[0]
    else FindById(table[1..], id)
  }

  /** What the entity manager is asked to do. */
  datatype EmEvent = MergeOf(channel: Channel) | Persist(status: Status) | Flush

  class ChannelRepository {
    /** The channel table. */
    const table: seq<Channel>
    /** Whether the entity manager is open. */
    var emOpen: bool
    /** The memo of getOrLoadById; a null entry counts as not loaded. */
    var loadedInstances: map<int, Channel?>
    /** The ids looked up in the table, in order. */
    var queries: seq<int>
    /** What the entity manager was asked to do, in order. */
    var emEvents: seq<EmEvent>

    constructor (rows: seq<Channel>, open: bool)
      ensures table == rows && emOpen == open
      ensures loadedInstances == map[] && queries == [] && emEvents == []
    {
      table, emOpen := rows, open;
      loadedInstances, queries, emEvents := map[], [], [];
    }

    /** UnitOfWork::merge / EntityManager::merge: the managed instance of a channel. */
    function Merge(c: Channel): (m: Channel)
      ensures m == c || (m in table && m.id == c.id)
    {
      if c.id.Some? && FindById(table, c.id.value) != null then FindById(table, c.id.value) else c
    }

    /** `isset($this->loadedInstances[$id])`. */
    predicate IsLoaded(id: int)
      reads this
    {
      id in loadedInstances && loadedInstances[id] != null
    }

    /**
     * Loads a channel once and memoises it. A memoised instance is merged
     * back into the unit of work instead of being queried again; a missing
     * or null entry is queried. Only the entry for `id` changes.
     */
    method GetOrLoadById(id: int) returns (r: Channel?)
      modifies this`loadedInstances, this`queries, this`emEvents
      ensures old(IsLoaded(id)) ==>
        && r == Merge(old(loadedInstances[id]))
        && queries == old(queries)
        && emEvents == old(emEvents) + [MergeOf(old(loadedInstances[id]))]
      ensures !old(IsLoaded(id)) ==>
        && r == FindById(table, id)
        && queries == old(queries) + [id]
        && emEvents == old(emEvents)
      ensures loadedInstances == old(loadedInstances)[id := r]
      ensures forall k :: k != id && k in old(loadedInstances) ==> k in loadedInstances && loadedInstances[k] == old(loadedInstances[k])
    {
      if !IsLoaded(id) {
        loadedInstances := loadedInstances[id := FindById(table, id)];
        queries := queries + [id];
      } else {
        var cached := loadedInstances[id];
        emEvents := emEvents + [MergeOf(cached)];
        loadedInstances := loadedInstances[id := Merge(cached)];
      }
      r := loadedInstances[id];
    }

    /**
     * With the entity manager open: merge the channel, persist the status,
     * append it to the merged channel's history and flush. With it closed,
     * nothing happens.
     */
    method AddStatus(channel: Channel, status: Status)
      modifies this`emEvents, Merge(channel)
      ensures !emOpen ==> emEvents == old(emEvents) && Merge(channel).statuses == old(Merge(channel).statuses)
      ensures emOpen ==>
        && emEvents == old(emEvents) + [MergeOf(channel), Persist(status), Flush]
        && Merge(channel).statuses == old(Merge(channel).statuses) + [status]
      ensures Merge(channel).name == old(Merge(channel).name) && Merge(channel).transport == old(Merge(channel).transport)
      ensures Merge(channel).enabled == old(Merge(channel).enabled) && Merge(channel).connectors == old(Merge(channel).connectors)
      ensures Merge(channel).channelType == old(Merge(channel).channelType)
    {
      if emOpen {
        var managed := Merge(channel);
        emEvents := emEvents + [MergeOf(channel)];
        emEvents := emEvents + [Persist(status)];
        managed.AddStatus(status);
        emEvents := emEvents + [Flush];
      }
    }
  }
}
