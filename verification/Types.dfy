/** The data every other module reads: the snapshot types of internal/store/types.go.
    Instants are nanoseconds on one clock, with 0 standing for Go's zero time.Time. */
module Types {

  datatype Option<+T> = None | Some(value: T)

  type Time = nat

  const SECOND: nat := 1_000_000_000
  /** The dead-man's-switch window: what the router sleeps and what the poller counts down. */
  const REVERT_WINDOW: nat := 60 * SECOND

  /** Keep-marker path. The empty string is "no marker", as in the source. */
  type Marker = string

  datatype NodeType = ExitNode | Router | Generic

  datatype NodeView = NodeView(
    stableID: string,
    name: string,
    hostname: string,
    ips: seq<string>,
    online: bool,
    exitNodeOption: bool,
    tags: seq<string>,
    kind: NodeType,
    isSelf: bool)

  datatype ExitNodeRef = ExitNodeRef(stableID: string, name: string, ip: string)

  datatype RouterState = OK | Pending | Unconfirmed | Unreachable | AwaitingKeep | Unprobed

  datatype Stats = Stats(rxBytes: int, txBytes: int, lastHandshake: Time)

  const NO_STATS := Stats(0, 0, 0)

  /** What `tailscale status --json` on a router says. */
  datatype Runtime = Runtime(current: Option<ExitNodeRef>, options: seq<ExitNodeRef>, stats: Stats, online: bool)

  const NO_RUNTIME := Runtime(None, [], NO_STATS, false)

  datatype RouterView = RouterView(
    node: NodeView,
    current: Option<ExitNodeRef>,
    desired: Option<ExitNodeRef>,
    state: RouterState,
    stats: Stats,
    reachable: bool,
    lastError: string,
    lastConfirmedAt: Time,
    desiredSince: Time,
    revertAt: Time)

  datatype Group = Group(id: string, name: string, consumers: seq<string>, allowedExitNodes: seq<string>)

  datatype GroupMember = GroupMember(stableID: string, name: string, ip: string, online: bool, present: bool)

  datatype GroupView = GroupView(id: string, name: string, consumers: seq<GroupMember>, allowedExitNodes: seq<GroupMember>)

  datatype Snapshot = Snapshot(
    nodes: seq<NodeView>,
    routers: seq<RouterView>,
    groups: seq<GroupView>,
    netmapAt: Time,
    netmapErr: string,
    builtAt: Time)
}
