/**
  Dependency bookkeeping.  Per file and per table: the last scheduled operation,
  the last completed one, and a heap of parked items ordered by sequence number.
  A heap is given here by the sorted sequence in which it yields its items.
*/
module DependencySpec {
  import opened SchedulerTypes

  datatype DepType = File | Table

  datatype Mark = Mark(tag: QueryType, seqno: nat)

  /** The value-initialised map entry: the first query type, sequence number zero. */
  const NO_MARK := Mark(Load, 0)

  datatype DepState = DepState(
    lastScheduledFile: map<string, Mark>,
    lastScheduledTable: map<string, Mark>,
    lastCompletedFile: map<string, nat>,
    lastCompletedTable: map<string, nat>,
    waitingFile: map<string, seq<Item>>,
    waitingTable: map<string, seq<Item>>)

  const EMPTY := DepState(map[], map[], map[], map[], map[], map[])

  function LastMark(m: map<string, Mark>, k: string): Mark {
    if k in m then m[k] else NO_MARK
  }

  function LastCompletedFor(dm: DepState, ty: DepType, k: string): nat {
    var m := if ty == File then dm.lastCompletedFile else dm.lastCompletedTable;
    if k in m then m[k] else 0
  }

  function Waiting(dm: DepState, ty: DepType): map<string, seq<Item>> {
    if ty == File then dm.waitingFile else dm.waitingTable
  }

  function WithWaiting(dm: DepState, ty: DepType, m: map<string, seq<Item>>): DepState {
    if ty == File then dm.(waitingFile := m) else dm.(waitingTable := m)
  }

  function WithCompleted(dm: DepState, ty: DepType, k: string, seqno: nat): DepState {
    if ty == File then dm.(lastCompletedFile := dm.lastCompletedFile[k := seqno])
    else dm.(lastCompletedTable := dm.lastCompletedTable[k := seqno])
  }

  // ----- scheduling marks -----

  function Marked(m: map<string, Mark>, k: string, seqno: nat, tag: QueryType): map<string, Mark> {
    m[k := if seqno > LastMark(m, k).seqno then Mark(tag, seqno) else LastMark(m, k)]
  }

  /** The tables whose last scheduled operation is a DROP. */
  function DroppedTables(m: map<string, Mark>): set<string> {
    set k | k in m && m[k].tag == Drop
  }

  /** `order` lists the dropped tables once each, in the order the hash map yields them. */
  predicate Enumerates(order: seq<string>, s: set<string>) {
    && (forall i :: 0 <= i < |order| ==> order[i] in s)
    && (forall k :: k in s ==> k in order)
    && (forall i, j :: 0 <= i < j < |order| ==> order[i] != order[j])
  }

  /** A LOAD whose file was last touched by a DUMP that has not completed yet. */
  predicate IsPending(dm: DepState, q: Query) {
    var prev := LastMark(dm.lastScheduledFile, q.filePath);
    prev.tag == Dump && LastCompletedFor(dm, File, q.filePath) < prev.seqno
  }

  function Renamed(m: map<string, Mark>, names: seq<string>, seqno: nat): map<string, Mark> {
    map k | k in m :: if k in names then Mark(Nop, seqno) else m[k]
  }

  /**
    markScheduled: records the operation and gives the item the sequence numbers
    it has to wait for.  `order` is used by pending LOADs only.
  */
  function MarkScheduled(dm: DepState, q: Query, order: seq<string>): (r: (DepState, Item))
    ensures r.0 == dm.(lastScheduledFile := r.0.lastScheduledFile, lastScheduledTable := r.0.lastScheduledTable)
    ensures r.1.seqno == q.seqno && r.1.kind == q.kind && r.1.tableId == q.tableName
  {
    var plain := RawItem(q.seqno, q.priority, q.tableName, q.kind, NoDeps, false);
    match q.kind
    case Load =>
      var prevFile := LastMark(dm.lastScheduledFile, q.filePath);
      var files := Marked(dm.lastScheduledFile, q.filePath, q.seqno, Load);
      var dropped := prevFile.seqno > 0 && prevFile.tag == Load
                     && LastMark(dm.lastScheduledTable, q.tableName).tag != Drop;
      if IsPending(dm, q) then
        (dm.(lastScheduledFile := files, lastScheduledTable := Renamed(dm.lastScheduledTable, order, q.seqno)),
         plain.(depends := LoadDeps(prevFile.seqno, 0, q.filePath, order), droppedFlag := dropped))
      else
        (dm.(lastScheduledFile := files,
             lastScheduledTable := Marked(dm.lastScheduledTable, q.tableName, q.seqno, Load)),
         plain.(depends := LoadDeps(prevFile.seqno, LastMark(dm.lastScheduledTable, q.tableName).seqno, q.filePath, []),
                droppedFlag := dropped))
    case Dump =>
      (dm.(lastScheduledFile := Marked(dm.lastScheduledFile, q.filePath, q.seqno, Dump),
           lastScheduledTable := Marked(dm.lastScheduledTable, q.tableName, q.seqno, Dump)),
       plain.(depends := DumpDeps(LastMark(dm.lastScheduledFile, q.filePath).seqno, q.filePath,
                                  LastMark(dm.lastScheduledTable, q.tableName).seqno)))
    case Drop =>
      (dm.(lastScheduledTable := Marked(dm.lastScheduledTable, q.tableName, q.seqno, Drop)),
       plain.(depends := DropDeps(LastMark(dm.lastScheduledTable, q.tableName).seqno)))
    case CopyTable =>
      var afterSrc := Marked(dm.lastScheduledTable, q.tableName, q.seqno, CopyTable);
      (dm.(lastScheduledTable := Marked(afterSrc, q.newTable, q.seqno, CopyTable)),
       plain.(depends := CopyTableDeps(LastMark(dm.lastScheduledTable, q.tableName).seqno,
                                       LastMark(afterSrc, q.newTable).seqno, q.newTable)))
    case _ => (dm, plain)
  }

  // ----- waiting -----

  function InsertBySeq(heap: seq<Item>, x: Item): (r: seq<Item>)
    ensures |r| == |heap| + 1
  {
    if heap == [] || x.seqno < heap[0].seqno then [x] + heap
    else [heap[0]] + InsertBySeq(heap[1..], x)
  }

  function HeapAt(m: map<string, seq<Item>>, k: string): seq<Item> {
    if k in m then m[k] else []
  }

  function AddWait(dm: DepState, ty: DepType, k: string, x: Item): DepState {
    var m := Waiting(dm, ty);
    WithWaiting(dm, ty, m[k := InsertBySeq(HeapAt(m, k), x)])
  }

  /** The break test of the notification loop: the top of the heap has to keep waiting. */
  predicate StillBlocked(ty: DepType, completedSeq: nat, x: Item) {
    match x.kind
    case Load =>
      if ty == File then x.depends.fileDependsOn > completedSeq else x.depends.tableDependsOn > completedSeq
    case Dump => ty == File && x.depends.fileDependsOn > completedSeq
    case Drop => ty == Table && x.depends.tableDependsOn > completedSeq
    case CopyTable =>
      ty == Table && x.depends.srcTableDependsOn > completedSeq && x.depends.dstTableDependsOn > completedSeq
    case _ => false
  }

  /** How many items come off the heap before the first one that is still blocked. */
  function ReadyCount(ty: DepType, completedSeq: nat, heap: seq<Item>): (n: nat)
    ensures n <= |heap|
  {
    if heap == [] || StillBlocked(ty, completedSeq, heap[0]) then 0
    else 1 + ReadyCount(ty, completedSeq, heap[1..])
  }

  /** The heap entry of k afterwards; an empty heap is erased. */
  function Shrunk(m: map<string, seq<Item>>, k: string, rest: seq<Item>): map<string, seq<Item>> {
    if rest == [] then m - {k} else m[k := rest]
  }

  function NotifyCompleted(dm: DepState, ty: DepType, k: string, seqno: nat): (DepState, seq<Item>) {
    if seqno < LastCompletedFor(dm, ty, k) then (dm, [])
    else
      var noted := WithCompleted(dm, ty, k, seqno);
      var m := Waiting(dm, ty);
      if k !in m then (noted, [])
      else
        var n := ReadyCount(ty, seqno, m[k]);
        (WithWaiting(noted, ty, Shrunk(m, k, m[k][n..])), m[k][..n])
  }

  function NotifyTables(dm: DepState, keys: seq<string>, seqno: nat): (DepState, seq<Item>)
    decreases |keys|
  {
    if keys == [] then (dm, [])
    else
      var (dm1, first) := NotifyCompleted(dm, Table, keys[0], seqno);
      var (dm2, others) := NotifyTables(dm1, keys[1..], seqno);
      (dm2, first + others)
  }
}

module DependencyManagerObject {
  import opened SchedulerTypes
  import opened DependencySpec

  class DependencyManager {
    var lastScheduledFile: map<string, Mark>
    var lastScheduledTable: map<string, Mark>
    var lastCompletedFile: map<string, nat>
    var lastCompletedTable: map<string, nat>
    var waitingFile: map<string, seq<Item>>
    var waitingTable: map<string, seq<Item>>

    function State(): DepState
      reads this
    {
      DepState(lastScheduledFile, lastScheduledTable, lastCompletedFile, lastCompletedTable, waitingFile, waitingTable)
    }

    constructor ()
      ensures State() == EMPTY
    {
      lastScheduledFile := map[];
      lastScheduledTable := map[];
      lastCompletedFile := map[];
      lastCompletedTable := map[];
      waitingFile := map[];
      waitingTable := map[];
    }

    method MarkScheduledFile(filePath: string, seqno: nat, tag: QueryType) returns (prev: Mark)
      modifies this`lastScheduledFile
      ensures prev == LastMark(old(lastScheduledFile), filePath)
      ensures lastScheduledFile == Marked(old(lastScheduledFile), filePath, seqno, tag)
    {
      prev := LastMark(lastScheduledFile, filePath);
      if seqno > prev.seqno {
        lastScheduledFile := lastScheduledFile[filePath := Mark(tag, seqno)];
      } else {
        lastScheduledFile := lastScheduledFile[filePath := prev];
      }
    }

    method MarkScheduledTable(tableId: string, seqno: nat, tag: QueryType) returns (prev: Mark)
      modifies this`lastScheduledTable
      ensures prev == LastMark(old(lastScheduledTable), tableId)
      ensures lastScheduledTable == Marked(old(lastScheduledTable), tableId, seqno, tag)
    {
      prev := LastMark(lastScheduledTable, tableId);
      if seqno > prev.seqno {
        lastScheduledTable := lastScheduledTable[tableId := Mark(tag, seqno)];
      } else {
        lastScheduledTable := lastScheduledTable[tableId := prev];
      }
    }

    /** The loop over lastScheduledTable that takes over every dropped table. */
    method TakeDroppedTables(seqno: nat) returns (order: seq<string>)
      modifies this`lastScheduledTable
      ensures Enumerates(order, DroppedTables(old(lastScheduledTable)))
      ensures lastScheduledTable == Renamed(old(lastScheduledTable), order, seqno)
    {
      order := [];
      var todo := lastScheduledTable.Keys;
      while todo != {}
        invariant todo <= old(lastScheduledTable).Keys
        invariant forall i :: 0 <= i < |order| ==>
                    order[i] in DroppedTables(old(lastScheduledTable)) && order[i] !in todo
        invariant forall k :: k in DroppedTables(old(lastScheduledTable)) ==> k in order || k in todo
        invariant forall i, j :: 0 <= i < j < |order| ==> order[i] != order[j]
        invariant lastScheduledTable == Renamed(old(lastScheduledTable), order, seqno)
      {
        var k :| k in todo;
        if lastScheduledTable[k].tag == Drop {
          lastScheduledTable := lastScheduledTable[k := Mark(Nop, seqno)];
          order := order + [k];
        }
        todo := todo - {k};
      }
    }

    method MarkScheduled(q: Query) returns (item: Item, ghost order: seq<string>)
      modifies this
      ensures (State(), item) == DependencySpec.MarkScheduled(old(State()), q, order)
      ensures q.kind == Load && IsPending(old(State()), q) ==> Enumerates(order, DroppedTables(old(lastScheduledTable)))
    {
      order := [];
      item := RawItem(q.seqno, q.priority, q.tableName, q.kind, NoDepsFor(q), false);
      match q.kind {
        case Load =>
          var fileCompleted := LastCompletedFor(State(), File, q.filePath);
          var prevFile := MarkScheduledFile(q.filePath, q.seqno, Load);
          var dropped := prevFile.seqno > 0 && prevFile.tag == Load
                         && LastMark(lastScheduledTable, q.tableName).tag != Drop;
          if prevFile.tag == Dump && fileCompleted < prevFile.seqno {
            var pendingTables := TakeDroppedTables(q.seqno);
            order := pendingTables;
            item := RawItem(q.seqno, q.priority, q.tableName, Load,
                            LoadDeps(prevFile.seqno, 0, q.filePath, pendingTables), dropped);
            return;
          }
          var prevTable := MarkScheduledTable(q.tableName, q.seqno, Load);
          item := RawItem(q.seqno, q.priority, q.tableName, Load,
                          LoadDeps(prevFile.seqno, prevTable.seqno, q.filePath, []), dropped);
        case Dump =>
          var prevFile := MarkScheduledFile(q.filePath, q.seqno, Dump);
          var prevTable := MarkScheduledTable(q.tableName, q.seqno, Dump);
          item := item.(depends := DumpDeps(prevFile.seqno, q.filePath, prevTable.seqno));
        case Drop =>
          var prevTable := MarkScheduledTable(q.tableName, q.seqno, Drop);
          item := item.(depends := DropDeps(prevTable.seqno));
        case CopyTable =>
          var src := MarkScheduledTable(q.tableName, q.seqno, CopyTable);
          var dst := MarkScheduledTable(q.newTable, q.seqno, CopyTable);
          item := item.(depends := CopyTableDeps(src.seqno, dst.seqno, q.newTable));
        case _ =>
      }
    }

    method AddWait(ty: DepType, key: string, item: Item)
      modifies this`waitingFile, this`waitingTable
      ensures State() == DependencySpec.AddWait(old(State()), ty, key, item)
    {
      if ty == File {
        waitingFile := waitingFile[key := InsertBySeq(HeapAt(waitingFile, key), item)];
      } else {
        waitingTable := waitingTable[key := InsertBySeq(HeapAt(waitingTable, key), item)];
      }
    }

    /** Pops the items before the first one that is still blocked. */
    method TakeReady(ty: DepType, seqno: nat, all: seq<Item>) returns (ready: seq<Item>, heap: seq<Item>)
      ensures var n := ReadyCount(ty, seqno, all); ready == all[..n] && heap == all[n..]
    {
      ready := [];
      heap := all;
      while heap != [] && !StillBlocked(ty, seqno, heap[0])
        invariant |ready| <= |all| && ready == all[..|ready|] && heap == all[|ready|..]
        invariant ReadyCount(ty, seqno, all) == |ready| + ReadyCount(ty, seqno, heap)
        decreases |heap|
      {
        ready := ready + [heap[0]];
        heap := heap[1..];
      }
    }

    method NotifyCompleted(ty: DepType, key: string, seqno: nat) returns (ready: seq<Item>)
      modifies this
      ensures (State(), ready) == DependencySpec.NotifyCompleted(old(State()), ty, key, seqno)
    {
      ready := [];
      if seqno < LastCompletedFor(State(), ty, key) {
        return;
      }
      if ty == File {
        lastCompletedFile := lastCompletedFile[key := seqno];
      } else {
        lastCompletedTable := lastCompletedTable[key := seqno];
      }
      var waitingMap := if ty == File then waitingFile else waitingTable;
      if key !in waitingMap {
        return;
      }
      var heap;
      ready, heap := TakeReady(ty, seqno, waitingMap[key]);
      if heap == [] {
        waitingMap := waitingMap - {key};
      } else {
        waitingMap := waitingMap[key := heap];
      }
      if ty == File {
        waitingFile := waitingMap;
      } else {
        waitingTable := waitingMap;
      }
    }
  }

  /** A payload of the right alternative, filled in by MarkScheduled. */
  function NoDepsFor(q: Query): Deps {
    match q.kind
    case Load => LoadDeps(0, 0, q.filePath, [])
    case Dump => DumpDeps(0, q.filePath, 0)
    case Drop => DropDeps(0)
    case CopyTable => CopyTableDeps(0, 0, q.newTable)
    case _ => NoDeps
  }
}
