/** Queries, scheduled items and their dependency payloads. */
module SchedulerTypes {

  datatype Option<+T> = None | Some(value: T)

  datatype QueryType =
    | Load | Dump | Drop | Truncate | CopyTable | List | Quit | PrintTable
    | Insert | Update | Select | Delete | Duplicate | Count | Sum | Min | Max
    | Add | Sub | Swap | Listen | Nop

  /** Quit, List and Listen are held back in the barrier queue. */
  predicate IsBarrier(kind: QueryType) {
    kind == Quit || kind == List || kind == Listen
  }

  /** What a worker queues under a table name: everything but LOADs and barriers. */
  predicate IsTableKind(kind: QueryType) {
    kind != Load && !IsBarrier(kind)
  }

  const CONTROL_TABLE := "__control__"

  /** A parsed query as handed to registerTask. */
  datatype Query = Query(seqno: nat, priority: nat, tableName: string, kind: QueryType,
                         filePath: string, newTable: string)

  datatype Deps =
    | NoDeps
    | LoadDeps(fileDependsOn: nat, tableDependsOn: nat, filePath: string, pendingTable: seq<string>)
    | DumpDeps(fileDependsOn: nat, filePath: string, tableDependsOn: nat)
    | DropDeps(tableDependsOn: nat)
    | CopyTableDeps(srcTableDependsOn: nat, dstTableDependsOn: nat, newTable: string)

  datatype RawItem = RawItem(seqno: nat, priority: nat, tableId: string, kind: QueryType,
                             depends: Deps, droppedFlag: bool)

  /** The dependency payload always carries the alternative of the query type. */
  predicate Shaped(x: RawItem) {
    && (x.kind == Load <==> x.depends.LoadDeps?)
    && (x.kind == Dump <==> x.depends.DumpDeps?)
    && (x.kind == Drop <==> x.depends.DropDeps?)
    && (x.kind == CopyTable <==> x.depends.CopyTableDeps?)
  }

  type Item = x: RawItem | Shaped(x) witness RawItem(0, 0, "", Nop, NoDeps, false)

  type LoadItem = x: Item | x.kind == Load
    witness RawItem(0, 0, "", Load, LoadDeps(0, 0, "", []), false)

  predicate UsesFile(x: Item, f: string) {
    (x.kind == Load || x.kind == Dump) && x.depends.filePath == f
  }

  /** x recorded d as the sequence number it waits for on table key k. */
  predicate HasTableDep(x: Item, k: string, d: nat) {
    match x.depends
    case NoDeps => false
    case LoadDeps(_, td, _, _) => x.tableId == k && d == td
    case DumpDeps(_, _, td) => x.tableId == k && d == td
    case DropDeps(td) => x.tableId == k && d == td
    case CopyTableDeps(sd, dd, newTable) => (x.tableId == k && d == sd) || (newTable == k && d == dd)
  }

  /** The table keys that the completion of x notifies, in order. */
  function NotifiedTables(x: Item): seq<string> {
    match x.depends
    case LoadDeps(_, _, _, pending) => if pending != [] then pending else [x.tableId]
    case CopyTableDeps(_, _, newTable) => [x.tableId, newTable]
    case DumpDeps(_, _, _) => [x.tableId]
    case DropDeps(_) => [x.tableId]
    case NoDeps => if x.tableId != "" then [x.tableId] else []
  }

  /** Whether x creates table t: a LOAD of t, or a COPYTABLE into t. */
  predicate Targets(x: Item, t: string) {
    (x.kind == Load && x.tableId == t) || (x.kind == CopyTable && x.depends.newTable == t)
  }
}
