/**
 * The stats payload the module returns from its `stats` endpoint:
 * its own elapsed-time stamp `ElapsedMS` and named counter groups
 * (`Total`, `Store`, `Urgent`, ...), each with byte counters per direction.
 */
module Payload {
  datatype Direction = Incoming | Outgoing

  /** One counter group, e.g. `Total`: cumulative bytes per direction. */
  datatype Group = Group(incomingBytes: int, outgoingBytes: int)

  datatype Stats = Stats(elapsedMS: int, groups: map<string, Group>)

  /** An accessor such as `d => d.Total.Incoming.Bytes`. */
  datatype CounterPath = CounterPath(group: string, direction: Direction)

  /** The counter `path` names in `d`; the group must be present. */
  function Read(path: CounterPath, d: Stats): int
    requires path.group in d.groups
  {
    var g := d.groups[path.group];
    match path.direction
    case Incoming => g.incomingBytes
    case Outgoing => g.outgoingBytes
  }
}
