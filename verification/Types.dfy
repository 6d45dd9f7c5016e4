/** Values shared by every layer: node names, log entries and the log's index helpers. */
module Types {

  type NodeId = string

  /** "" is the source's "nobody": no vote cast, no leader known. */
  const NOBODY: NodeId := ""

  datatype Option<+T> = None | Some(value: T)

  datatype Role = Follower | Candidate | Leader

  /** What `entry.Data` decodes to. `Undecodable` also stands for the nil payload of a boundary entry. */
  datatype Command =
    | Put(key: string, value: string)
    | Delete(key: string)
    | ConfigChange(isAdd: bool, node: NodeId)
    | UnknownOp
    | Undecodable

  datatype Entry = Entry(index: nat, term: nat, data: Command)

  /** The dummy entry every log starts from on first boot. */
  const ROOT := Entry(0, 0, Undecodable)

  function Max(a: int, b: int): int { if a < b then b else a }

  function Min(a: int, b: int): int { if a < b then a else b }

  function LastIndex(log: seq<Entry>, base: nat): nat {
    if |log| == 0 then base else log[|log| - 1].index
  }

  function LastTerm(log: seq<Entry>): nat {
    if |log| == 0 then 0 else log[|log| - 1].term
  }

  function EntryAt(log: seq<Entry>, base: nat, idx: nat): Option<Entry> {
    if idx < base || idx - base >= |log| then None else Some(log[idx - base])
  }

  /** The vote rule of section 5.4.1 of the Raft paper. */
  predicate UpToDate(candTerm: nat, candIndex: nat, myTerm: nat, myIndex: nat) {
    candTerm > myTerm || (candTerm == myTerm && candIndex >= myIndex)
  }

  /** Position k holds absolute index base + k. */
  ghost predicate Shape(log: seq<Entry>, base: nat) {
    |log| > 0 && forall k :: 0 <= k < |log| ==> log[k].index == base + k
  }
}
