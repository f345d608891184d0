/**
 * The frames of the WorldTree relay protocol as a client sees them, and the
 * small rules both scripts share about them.  A frame is a JSON text on the
 * socket; here each is a datatype value, and a text that `JSON.parse` rejects
 * (or that parses to something without a `type`) is the constructor
 * `Malformed`.
 */
module Protocol {

  datatype Option<T> = None | Some(value: T)

  /** The value of a frame's `data` field when JavaScript treats it as true.
      `Record` is an object, its entries in the order `Object.entries` lists
      them (keys distinct, values as their string rendering); `Scalar` is a
      true non-object value such as a non-empty string or a non-zero number.
      An absent, null, false, zero or empty `data` is no payload at all. */
  datatype Payload = Record(entries: seq<(string, string)>) | Scalar(text: string)

  /** A frame received from the relay. */
  datatype Inbound =
    | Welcome(id: Option<string>)
    | Ping
    | Data(from: Option<string>, data: Option<Payload>)
    | Unrecognised   // any other `type`, including relayed `chat`
    | Malformed      // the text did not parse

  /** A frame handed to `socket.send`. */
  datatype OutFrame =
    | Reconnect(secret: Option<string>)
    | UpdateListeningTo(newListeningTo: seq<string>)
    | Chat(text: string, timestamp: int)

  /** `getStoredSecret()`: both scripts return null, so every handshake asks
      the relay for a fresh identity. */
  function StoredSecret(): (r: Option<string>) {
    None
  }

  /** `payload[key]`: the value stored under `key`, absent for a key the
      record does not have and for any key of a scalar.  `LookupFinds`
      states what it finds. */
  function Lookup(p: Payload, key: string): (r: Option<string>) {
    match p
    case Scalar(_) => None
    case Record(entries) => LookupEntries(entries, key)
  }

  function LookupEntries(entries: seq<(string, string)>, key: string): (r: Option<string>) {
    if entries == [] then None
    else if entries[0].0 == key then Some(entries[0].1)
    else LookupEntries(entries[1..], key)
  }

  /** A lookup finds a value exactly when the record has an entry under the
      key, and what it finds is the value of such an entry. */
  lemma LookupFinds(p: Payload, key: string)
    ensures Lookup(p, key).Some? <==> p.Record? && exists i :: 0 <= i < |p.entries| && p.entries[i].0 == key
    ensures Lookup(p, key).Some? ==> exists i :: 0 <= i < |p.entries| && p.entries[i] == (key, Lookup(p, key).value)
  {
    if p.Record? {
      LookupEntriesFinds(p.entries, key);
    }
  }

  lemma {:induction false} LookupEntriesFinds(entries: seq<(string, string)>, key: string)
    ensures LookupEntries(entries, key).Some? <==> exists i :: 0 <= i < |entries| && entries[i].0 == key
    ensures LookupEntries(entries, key).Some? ==>
      exists i :: 0 <= i < |entries| && entries[i] == (key, LookupEntries(entries, key).value)
  {
    if entries != [] && entries[0].0 != key {
      LookupEntriesFinds(entries[1..], key);
      assert forall i :: 1 <= i < |entries| ==> entries[i] == entries[1..][i - 1];
    }
  }

  /** Entries are distinct by key in a JavaScript object, so the value found
      is the one stored under the key. */
  lemma LookupDistinctKeys(entries: seq<(string, string)>, key: string, i: int)
    requires forall a, b :: 0 <= a < b < |entries| ==> entries[a].0 != entries[b].0
    requires 0 <= i < |entries| && entries[i].0 == key
    ensures Lookup(Record(entries), key) == Some(entries[i].1)
  {
    LookupEntriesFinds(entries, key);
    var j :| 0 <= j < |entries| && entries[j] == (key, LookupEntries(entries, key).value);
  }

  /** `id || 'N/A'`: the identity when it is a non-empty string, and the
      placeholder otherwise. */
  function Display(id: Option<string>): (r: string)
    ensures r != ""
    ensures id.Some? && id.value != "" ==> r == id.value
    ensures r != "N/A" ==> id == Some(r)
  {
    if id.Some? && id.value != "" then id.value else "N/A"
  }

  /** The frames `updateListeningTo` sends: none for an empty target, and
      otherwise one `updatelisteningto` frame naming that target alone. */
  function ListeningFrames(target: string): (r: seq<OutFrame>)
    ensures |r| <= 1
    ensures r == [] <==> target == ""
    ensures forall f :: f in r ==> f == UpdateListeningTo([target])
  {
    if target == "" then [] else [UpdateListeningTo([target])]
  }
}
