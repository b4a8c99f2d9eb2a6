/**
 * Schema hints handed to the model for one worst query
 * (`get_query_schema_info` in main-app/src/main.py).
 *
 * The warehouse call `client.get_table(name)` is the parameter `lookup`:
 * `Some(meta)` when the table could be read and described, `None` when the
 * call (or reading its answer) raised.
 */
module Schema {
  import opened Wrappers
  import opened Text

  /** One entry of a job's `referenced_tables`; any of its parts may be missing. */
  datatype TableRef = TableRef(projectId: Option<string>, datasetId: Option<string>, tableId: Option<string>)

  datatype Partitioning = Partitioning(field: Option<string>, kind: string)
  datatype Column = Column(name: string, fieldType: string)

  /** What the warehouse reports about one table. */
  datatype TableMeta = TableMeta(partitioning: Option<Partitioning>, clustering: seq<string>, columns: seq<Column>)

  type Lookup = string -> Option<TableMeta>

  const NoTables := "参照しているテーブル情報が取得できませんでした。"
  const TableLabel := "■ テーブル: "
  const LookupFailed := " (権限不足等によりスキーマ取得失敗)"
  const DefaultPartitionField := "_PARTITIONTIME"

  /** A reference the loop does not skip: project, dataset and table are all given. */
  predicate Complete(t: TableRef) {
    Given(t.projectId) && Given(t.datasetId) && Given(t.tableId)
  }

  function QualifiedName(t: TableRef): string
    requires Complete(t)
  {
    t.projectId.value + "." + t.datasetId.value + "." + t.tableId.value
  }

  /** `time_partitioning.field or "_PARTITIONTIME"`. */
  function PartitionField(p: Partitioning): string {
    if Given(p.field) then p.field.value else DefaultPartitionField
  }

  function PartitionLine(meta: TableMeta): string {
    match meta.partitioning
    case Some(p) => "  - パーティション列: " + PartitionField(p) + " (分割タイプ: " + p.kind + ")"
    case None => "  - パーティション: 未設定 (フルスキャンのリスクあり)"
  }

  function ColumnText(c: Column): string {
    c.name + " (" + c.fieldType + ")"
  }

  /** The lines of the block describing one table that could be read. */
  function InfoLines(name: string, meta: TableMeta): seq<string> {
    [TableLabel + name, PartitionLine(meta)]
    + (if |meta.clustering| > 0 then ["  - クラスタリング列: " + Join(", ", meta.clustering)] else [])
    + ["  - カラム一覧: " + Join(", ", seq(|meta.columns|, i requires 0 <= i < |meta.columns| => ColumnText(meta.columns[i])))]
  }

  function TableBlock(name: string, meta: TableMeta): string {
    Join("\n", InfoLines(name, meta))
  }

  /** The degraded block written when the lookup of a table fails. */
  function FailureBlock(tableId: string): string {
    TableLabel + tableId + LookupFailed
  }

  /** The block a complete reference contributes. */
  function BlockFor(t: TableRef, lookup: Lookup): (r: string)
    requires Complete(t)
    ensures StartsWith(r, TableLabel)
    ensures lookup(QualifiedName(t)).None? ==> r == FailureBlock(t.tableId.value)
  {
    match lookup(QualifiedName(t))
    case Some(meta) =>
      JoinStartsWith("\n", InfoLines(QualifiedName(t), meta));
      TableBlock(QualifiedName(t), meta)
    case None => FailureBlock(t.tableId.value)
  }

  /** The blocks the loop collects, in reference order. */
  function Blocks(tables: seq<TableRef>, lookup: Lookup): seq<string> {
    if tables == [] then []
    else
      var last := tables[|tables| - 1];
      Blocks(tables[..|tables| - 1], lookup) + (if Complete(last) then [BlockFor(last, lookup)] else [])
  }

  /** The references that are not skipped, in order. */
  function Completes(tables: seq<TableRef>): seq<TableRef> {
    if tables == [] then []
    else
      var last := tables[|tables| - 1];
      Completes(tables[..|tables| - 1]) + (if Complete(last) then [last] else [])
  }

  /** The text `get_query_schema_info` returns. */
  function SchemaText(tables: seq<TableRef>, lookup: Lookup): string {
    var blocks := Blocks(tables, lookup);
    if |blocks| > 0 then Join("\n\n", blocks) else NoTables
  }

  /** The loop of `get_query_schema_info`, appending one block per complete reference. */
  method SchemaInfo(tables: seq<TableRef>, lookup: Lookup) returns (text: string)
    ensures text == SchemaText(tables, lookup)
  {
    if |tables| == 0 {
      return NoTables;
    }
    var details: seq<string> := [];
    for k := 0 to |tables|
      invariant details == Blocks(tables[..k], lookup)
    {
      assert tables[..k + 1][..k] == tables[..k];
      var t := tables[k];
      if !Given(t.projectId) || !Given(t.datasetId) || !Given(t.tableId) {
        continue;
      }
      var name := t.projectId.value + "." + t.datasetId.value + "." + t.tableId.value;
      match lookup(name) {
        case Some(meta) =>
          details := details + [TableBlock(name, meta)];
        case None =>
          details := details + [FailureBlock(t.tableId.value)];
      }
    }
    assert tables[..|tables|] == tables;
    text := if |details| > 0 then Join("\n\n", details) else NoTables;
  }

  /** One block per complete reference, in the order of the references: the others are skipped. */
  lemma {:induction false} BlocksFollowReferences(tables: seq<TableRef>, lookup: Lookup)
    ensures |Blocks(tables, lookup)| == |Completes(tables)|
    ensures forall i :: 0 <= i < |Completes(tables)| ==>
      Complete(Completes(tables)[i]) && Blocks(tables, lookup)[i] == BlockFor(Completes(tables)[i], lookup)
  {
    if tables != [] {
      BlocksFollowReferences(tables[..|tables| - 1], lookup);
    }
  }

  lemma {:induction false} CompletesEmpty(tables: seq<TableRef>)
    ensures Completes(tables) == [] <==> forall t :: t in tables ==> !Complete(t)
  {
    if tables != [] {
      var init := tables[..|tables| - 1];
      CompletesEmpty(init);
      assert tables == init + [tables[|tables| - 1]];
    }
  }

  /**
   * The sentinel comes back exactly when no reference names a project,
   * a dataset and a table (in particular for an empty list); otherwise the
   * text starts with the first table's block label.
   */
  lemma SentinelIffNothingUsable(tables: seq<TableRef>, lookup: Lookup)
    ensures SchemaText(tables, lookup) == NoTables <==> forall t :: t in tables ==> !Complete(t)
    ensures (exists t :: t in tables && Complete(t)) ==> StartsWith(SchemaText(tables, lookup), TableLabel)
  {
    BlocksFollowReferences(tables, lookup);
    CompletesEmpty(tables);
    var blocks := Blocks(tables, lookup);
    if |blocks| > 0 {
      JoinStartsWith("\n\n", blocks);
      assert StartsWith(blocks[0], TableLabel);
      var text := SchemaText(tables, lookup);
      assert text[0] == TableLabel[0];
      assert text[0] != NoTables[0];
    }
  }

  /** A time-partitioned table without a partition field is described with `_PARTITIONTIME`. */
  lemma PartitionDefaultShown(name: string, meta: TableMeta)
    requires meta.partitioning.Some? && !Given(meta.partitioning.value.field)
    ensures Contains(TableBlock(name, meta), DefaultPartitionField)
  {
    var line := PartitionLine(meta);
    var pre := "  - パーティション列: ";
    var post := " (分割タイプ: " + meta.partitioning.value.kind + ")";
    assert line == pre + DefaultPartitionField + post;
    assert OccursAt(DefaultPartitionField, DefaultPartitionField, 0);
    OccursShift(pre, DefaultPartitionField, post, DefaultPartitionField, 0);
    assert Contains(line, DefaultPartitionField);
    JoinContains("\n", InfoLines(name, meta), 1, DefaultPartitionField);
  }
}
