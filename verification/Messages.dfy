/** The values that flow through the pipeline: decoded messages, change events, transactions. */
module Messages {
  import opened Wrappers
  import opened Bytes

  datatype Column = Column(name: Text, typeOid: nat, typeModifier: int, isKey: bool)

  const DOT: byte := 46

  datatype Relation = Relation(id: nat, namespace: Text, name: Text, replicaIdentity: byte, columns: seq<Column>)
  {
    function QualifiedName(): Text {
      namespace + [DOT] + name
    }
  }

  /** Column name to text value; a value of `None` is SQL NULL. */
  type Row = map<Text, Option<Text>>

  datatype Message =
    | Describe(relation: Relation)
    | Begin(finalLsn: nat, commitTime: nat, xid: nat)
    | Insert(relationId: nat, table: Text, newRow: Row, subxid: Option<nat>)
    | Update(relationId: nat, table: Text, oldRow: Option<Row>, newRow: Row, subxid: Option<nat>)
    | Delete(relationId: nat, table: Text, deleted: Row, subxid: Option<nat>)
    | Truncate(tables: seq<Text>, cascade: bool, restartIdentity: bool, subxid: Option<nat>)
    | Commit(flags: byte, commitLsn: nat, endLsn: nat, commitTime: nat)
    | TypeName(typeOid: nat, namespace: Text, name: Text)
    | Origin(originLsn: nat, name: Text)
    | Emitted(transactional: bool, lsn: nat, prefix: Text, content: Text)
    | StreamStart(xid: nat, firstSegment: bool)
    | StreamStop
    | StreamCommit(xid: nat, commitLsn: nat, endLsn: nat, commitTime: nat)
    | StreamAbort(xid: nat, abortedXid: nat)
  {
    /** The kinds that client.py drops before they reach the assembler. */
    predicate Ignored() {
      TypeName? || Origin? || Emitted?
    }

    predicate RowChange() {
      Insert? || Update? || Delete? || Truncate?
    }
  }

  datatype ChangeKind = INSERT | UPDATE | DELETE | TRUNCATE

  datatype ChangeEvent = ChangeEvent(kind: ChangeKind, table: Text, newRow: Option<Row>, oldRow: Option<Row>)

  /** The subtransaction id that a row change carries. */
  function Tag(m: Message): Option<nat>
    requires m.RowChange()
  {
    match m
    case Insert(_, _, _, t) => t
    case Update(_, _, _, _, t) => t
    case Delete(_, _, _, t) => t
    case Truncate(_, _, _, t) => t
  }

  /** The change events that a row change stands for, one per table for a Truncate. */
  function Events(m: Message): seq<ChangeEvent>
    requires m.RowChange()
  {
    match m
    case Insert(_, table, n, _) => [ChangeEvent(INSERT, table, Some(n), None)]
    case Update(_, table, o, n, _) => [ChangeEvent(UPDATE, table, Some(n), o)]
    case Delete(_, table, o, _) => [ChangeEvent(DELETE, table, None, Some(o))]
    case Truncate(tables, _, _, _) =>
      seq(|tables|, i requires 0 <= i < |tables| => ChangeEvent(TRUNCATE, tables[i], None, None))
  }

  datatype Transaction = Transaction(xid: nat, commitLsn: int, commitTime: nat, changes: seq<ChangeEvent>)
}
