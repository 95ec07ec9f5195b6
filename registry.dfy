/**
 * The runtime's connection registry (`ConnectionHandler`), reduced to the
 * map-like contract the connector relies on: connections are stored and
 * looked up under a connector name and a connection name.
 */
module Registry {

  import opened Connection

  datatype ConnectionKey = ConnectionKey(connector: string, name: string)

  class ConnectionRegistry {
    var connections: map<ConnectionKey, AzureStorageConnectionHandler>

    constructor ()
      ensures connections == map[]
    {
      connections := map[];
    }

    /** No handler object is registered under two keys. */
    predicate Valid()
      reads this
    {
      forall k1, k2 :: k1 in connections && k2 in connections && k1 != k2 ==> connections[k1] != connections[k2]
    }

    /** `checkIfConnectionExists`. */
    predicate CheckIfConnectionExists(connector: string, name: string)
      reads this
    {
      ConnectionKey(connector, name) in connections
    }

    /** `createConnection`: registers a handler under the key, replacing any earlier one. */
    method CreateConnection(connector: string, name: string, handler: AzureStorageConnectionHandler)
      modifies this`connections
      ensures connections == old(connections)[ConnectionKey(connector, name) := handler]
    {
      connections := connections[ConnectionKey(connector, name) := handler];
    }

    /** `shutdownConnections`: drops every connection of one connector and keeps all others. */
    method ShutdownConnections(connector: string)
      requires Valid()
      modifies this`connections
      ensures Valid()
      ensures forall k :: k in connections ==> k.connector != connector
      ensures forall k :: k in old(connections) && k.connector != connector ==>
                k in connections && connections[k] == old(connections)[k]
      ensures connections.Keys <= old(connections).Keys
    {
      connections := map k | k in connections && k.connector != connector :: connections[k];
    }
  }
}
