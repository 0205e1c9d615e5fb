/**
 * The integration channel entity (Entity/Channel.php) and the transport
 * entity it is linked to. Channel.php declares no `enabled` flag and no
 * status history, yet the repository and the message handler use both; they
 * are modelled here as the extra fields `enabled` and `statuses`.
 * Transport.php is not part of this model: its `channel` back-link, its
 * `lastSyncDate` and their setters are given the plain meaning their names
 * imply.
 */
module Entity {

  import opened Wrappers

  /** An opaque point in time (the source uses `DateTime` in UTC). */
  type Timestamp = int

  /** A status record: appended to a channel's history, never changed. */
  datatype Status = Status(connector: string, code: string, date: Timestamp)

  class Transport {
    var channel: Channel?
    var lastSyncDate: Option<Timestamp>

    constructor ()
      ensures channel == null && lastSyncDate == None
    {
      channel := null;
      lastSyncDate := None;
    }

    method SetChannel(c: Channel)
      modifies this
      ensures channel == c && lastSyncDate == old(lastSyncDate)
    {
      channel := c;
    }

    method ClearChannel()
      modifies this
      ensures channel == null && lastSyncDate == old(lastSyncDate)
    {
      channel := null;
    }

    method SetLastSyncDate(date: Timestamp)
      modifies this
      ensures lastSyncDate == Some(date) && channel == old(channel)
    {
      lastSyncDate := Some(date);
    }
  }

  class Channel {
    /** Assigned by the ORM when the row is loaded; there is no setter. */
    const id: Option<int>
    var name: Option<string>
    var channelType: Option<string>
    var transport: Transport?
    /** The configured connector names, in order. */
    var connectors: seq<string>
    var enabled: bool
    var statuses: seq<Status>

    /** `new Channel()`: no id and every field unset. */
    constructor ()
      ensures id == None && name == None && channelType == None && transport == null
      ensures connectors == [] && !enabled && statuses == []
    {
      id := None;
      name, channelType, transport := None, None, null;
      connectors, enabled, statuses := [], false, [];
    }

    /** A channel as the ORM hydrates it from a row with the given id. */
    constructor Load(rowId: int, rowName: string, rowType: string, rowConnectors: seq<string>, rowEnabled: bool)
      ensures id == Some(rowId) && name == Some(rowName) && channelType == Some(rowType)
      ensures connectors == rowConnectors && enabled == rowEnabled
      ensures transport == null && statuses == []
    {
      id := Some(rowId);
      name, channelType, transport := Some(rowName), Some(rowType), null;
      connectors, enabled, statuses := rowConnectors, rowEnabled, [];
    }

    /** The transport, when present, points back at this channel. */
    ghost predicate Linked()
      reads this, transport
    {
      transport != null ==> transport.channel == this
    }

    function GetId(): Option<int> { id }
    function GetName(): Option<string> reads this { name }
    function GetType(): Option<string> reads this { channelType }
    function GetTransport(): Transport? reads this { transport }
    function GetConnectors(): seq<string> reads this { connectors }

    method SetName(newName: string) returns (r: Channel)
      modifies this
      ensures r == this && GetName() == Some(newName)
      ensures channelType == old(channelType) && transport == old(transport) && connectors == old(connectors)
      ensures enabled == old(enabled) && statuses == old(statuses)
    {
      name := Some(newName);
      r := this;
    }

    method SetType(newType: string) returns (r: Channel)
      modifies this
      ensures r == this && GetType() == Some(newType)
      ensures name == old(name) && transport == old(transport) && connectors == old(connectors)
      ensures enabled == old(enabled) && statuses == old(statuses)
    {
      channelType := Some(newType);
      r := this;
    }

    /** Stores the connector list as given: same names, same order. */
    method SetConnectors(newConnectors: seq<string>) returns (r: Channel)
      modifies this
      ensures r == this && GetConnectors() == newConnectors
      ensures name == old(name) && channelType == old(channelType) && transport == old(transport)
      ensures enabled == old(enabled) && statuses == old(statuses)
    {
      connectors := newConnectors;
      r := this;
    }

    /**
     * Links both ways: the channel now holds `t` and `t` points back at this
     * channel. A transport previously held keeps its old back-link.
     */
    method SetTransport(t: Transport) returns (r: Channel)
      modifies this, t
      ensures r == this && transport == t && t.channel == this && Linked()
      ensures t.lastSyncDate == old(t.lastSyncDate)
      ensures name == old(name) && channelType == old(channelType) && connectors == old(connectors)
      ensures enabled == old(enabled) && statuses == old(statuses)
    {
      transport := t;
      t.SetChannel(this);
      r := this;
    }

    /** Unlinks both ways; the source dereferences the transport unchecked. */
    method ClearTransport() returns (r: Channel)
      requires transport != null
      modifies this, transport
      ensures r == this && transport == null && old(transport).channel == null && Linked()
      ensures old(transport).lastSyncDate == old(transport.lastSyncDate)
      ensures name == old(name) && channelType == old(channelType) && connectors == old(connectors)
      ensures enabled == old(enabled) && statuses == old(statuses)
    {
      transport.ClearChannel();
      transport := null;
      r := this;
    }

    /** Appends to the status history (called by the repository). */
    method AddStatus(status: Status)
      modifies this
      ensures statuses == old(statuses) + [status]
      ensures name == old(name) && channelType == old(channelType) && transport == old(transport)
      ensures connectors == old(connectors) && enabled == old(enabled)
    {
      statuses := statuses + [status];
    }
  }
}
