/**
 * The catalog content migrations (`CONTENT_MIGRATIONS`): for every stored
 * item, decode its definition, parse its `CREATE` statement, normalize the
 * parts the migration cares about, print and re-encode it and stage the
 * update; commit only once every item has gone through.
 */
module Migrate {

  import opened Wrappers
  import opened SqlAst
  import opened Normalize
  import opened CatalogStorage

  /** The evaluation environment stored with an item; the migrations only carry it over. */
  datatype EvalEnv = EvalEnv(repr: seq<int>)

  /** The JSON document stored as an item's definition (`SerializedCatalogItem::V1`). */
  datatype SerializedCatalogItem = V1(createSql: string, evalEnv: EvalEnv)

  /**
   * The foreign conversions the migrations use: JSON decoding and encoding
   * of the stored document, and SQL parsing and stable printing.
   */
  datatype Codec = Codec(
    decode: Bytes -> Option<SerializedCatalogItem>,  // serde_json::from_slice
    encode: SerializedCatalogItem -> Bytes,          // serde_json::to_vec
    parse: string -> Option<seq<Statement>>,         // sql::parse::parse
    render: Statement -> string)                     // to_ast_string_stable

  /** Decoding undoes encoding, and parsing a printed statement gives back that one statement. */
  ghost predicate RoundTrips(c: Codec)
  {
    && (forall x :: c.decode(c.encode(x)) == Some(x))
    && (forall s :: c.parse(c.render(s)) == Some([s]))
  }

  /** The two content migrations, in the order they are listed. */
  datatype Migration =
    | QualifyTypeNames                        // migration 1, introduced for v0.6.1
    | QualifyFunctionNames(builtins: Builtins) // migration 2

  function NormalizerOf(m: Migration): Normalizer
  {
    match m
    case QualifyTypeNames => TypeNormalizer
    case QualifyFunctionNames(b) => FuncNormalizer(b)
  }

  /** What a migration does with one statement: rewrite it, skip the item, or fail. */
  datatype Action = Rewrite(stmt: Statement) | Skip | Reject

  /** The optional key parts of an index, visited one by one when present. */
  function VisitKeyParts(v: Normalizer, keys: Option<seq<Node>>): Option<seq<Node>>
  {
    match keys
    case None => None
    case Some(ks) => Some(VisitNodes(v, ks))
  }

  /** The statement `match` of each migration. */
  function Dispatch(m: Migration, stmt: Statement): Action
  {
    var v := NormalizerOf(m);
    match m
    case QualifyTypeNames =>
      (match stmt
       case CreateTable(columns, u) => Rewrite(CreateTable(VisitNodes(v, columns), u))
       case CreateView(query, u) => Rewrite(CreateView(VisitNode(v, query), u))
       case CreateIndex(keys, opts, u) => Rewrite(CreateIndex(VisitKeyParts(v, keys), VisitNodes(v, opts), u))
       case CreateType(opts, u) => Rewrite(CreateType(VisitNodes(v, opts), u))
       case CreateSource(_) => Skip
       case CreateSink(_) => Skip
       case OtherStatement(_, _) => Reject)
    case QualifyFunctionNames(_) =>
      (match stmt
       case CreateView(query, u) => Rewrite(CreateView(VisitNode(v, query), u))
       case CreateIndex(keys, opts, u) => Rewrite(CreateIndex(VisitKeyParts(v, keys), opts, u))
       case CreateTable(_, _) => Skip
       case CreateSink(_) => Skip
       case CreateSource(_) => Skip
       case CreateType(_, _) => Skip
       case OtherStatement(_, _) => Reject)
  }

  /**
   * Which kinds each migration skips and which it rejects: migration 1
   * skips sources and sinks, migration 2 skips tables, sinks, sources and
   * types; both reject every kind they do not name, and rewrite the rest.
   */
  lemma DispatchByKind(m: Migration, stmt: Statement)
    ensures Dispatch(m, stmt).Reject? <==> stmt.OtherStatement?
    ensures m.QualifyTypeNames? ==>
              (Dispatch(m, stmt).Skip? <==> stmt.CreateSource? || stmt.CreateSink?)
    ensures m.QualifyFunctionNames? ==>
              (Dispatch(m, stmt).Skip? <==>
                 stmt.CreateTable? || stmt.CreateSink? || stmt.CreateSource? || stmt.CreateType?)
    ensures m.QualifyTypeNames? ==>
              (Dispatch(m, stmt).Rewrite? <==>
                 stmt.CreateTable? || stmt.CreateView? || stmt.CreateIndex? || stmt.CreateType?)
    ensures m.QualifyFunctionNames? ==>
              (Dispatch(m, stmt).Rewrite? <==> stmt.CreateView? || stmt.CreateIndex?)
  {
  }

  // ---------------------------------------------------------------------
  // A second description of a rewrite: which parts are normalized, which kept

  function KeyList(keys: Option<seq<Node>>): seq<Node>
  {
    match keys
    case None => []
    case Some(ks) => ks
  }

  /** The parts of a statement that a migration hands to its normalizer. */
  function VisitedParts(m: Migration, stmt: Statement): seq<Node>
  {
    var types := m.QualifyTypeNames?;
    match stmt
    case CreateTable(columns, _) => if types then columns else []
    case CreateView(query, _) => [query]
    case CreateIndex(keys, opts, _) => KeyList(keys) + (if types then opts else [])
    case CreateType(opts, _) => if types then opts else []
    case CreateSource(_) => []
    case CreateSink(_) => []
    case OtherStatement(_, _) => []
  }

  /** The parts of a statement that a migration does not hand to its normalizer. */
  function KeptParts(m: Migration, stmt: Statement): seq<Node>
  {
    var types := m.QualifyTypeNames?;
    match stmt
    case CreateTable(columns, u) => (if types then [] else columns) + [u]
    case CreateView(_, u) => [u]
    case CreateIndex(_, opts, u) => (if types then [] else opts) + [u]
    case CreateType(opts, u) => (if types then [] else opts) + [u]
    case CreateSource(body) => [body]
    case CreateSink(body) => [body]
    case OtherStatement(_, body) => [body]
  }

  /** Two statements of the same kind (and, for indexes, both with or both without key parts). */
  predicate SameShape(a: Statement, b: Statement)
  {
    match a
    case CreateTable(_, _) => b.CreateTable?
    case CreateView(_, _) => b.CreateView?
    case CreateIndex(keys, _, _) => b.CreateIndex? && keys.Some? == b.keyParts.Some?
    case CreateType(_, _) => b.CreateType?
    case CreateSource(_) => b.CreateSource?
    case CreateSink(_) => b.CreateSink?
    case OtherStatement(kind, _) => b.OtherStatement? && b.kind == kind
  }

  /**
   * A rewrite keeps the statement's kind and every part the migration does
   * not visit (for migration 2 this includes an index's with-options), and
   * replaces the visited parts by their normalized form.
   */
  lemma RewriteNormalizesVisitedParts(m: Migration, stmt: Statement)
    requires Dispatch(m, stmt).Rewrite?
    ensures SameShape(stmt, Dispatch(m, stmt).stmt)
    ensures KeptParts(m, Dispatch(m, stmt).stmt) == KeptParts(m, stmt)
    ensures VisitedParts(m, Dispatch(m, stmt).stmt) == VisitNodes(NormalizerOf(m), VisitedParts(m, stmt))
    ensures stmt.CreateIndex? ==>
              && |KeyList(Dispatch(m, stmt).stmt.keyParts)| == |KeyList(stmt.keyParts)|
              && |Dispatch(m, stmt).stmt.withOptions| == |stmt.withOptions|
    ensures m.QualifyFunctionNames? && stmt.CreateIndex? ==>
              Dispatch(m, stmt).stmt.withOptions == stmt.withOptions
  {
  }

  /** A normalized statement is normalized already: running the same migration on it rewrites it to itself. */
  lemma DispatchIdempotent(m: Migration, stmt: Statement)
    requires Dispatch(m, stmt).Rewrite?
    ensures Dispatch(m, Dispatch(m, stmt).stmt) == Dispatch(m, stmt)
  {
    var v := NormalizerOf(m);
    match stmt
    case CreateTable(columns, _) =>
      VisitNodesIdempotent(v, columns);
    case CreateView(query, _) =>
      VisitNodesIdempotent(v, [query]);
      assert VisitNode(v, VisitNode(v, query)) == VisitNodes(v, VisitNodes(v, [query]))[0];
    case CreateIndex(keys, opts, _) =>
      VisitNodesIdempotent(v, KeyList(keys));
      VisitNodesIdempotent(v, opts);
    case CreateType(opts, _) =>
      VisitNodesIdempotent(v, opts);
  }

  // ---------------------------------------------------------------------
  // One item

  /** Why a migration stops. */
  datatype MigrationError =
    | DecodeFailed                             // serde_json::from_slice failed
    | ParseFailed                              // sql::parse::parse failed
    | NotOneStatement(count: nat)              // into_element panics
    | InappropriateStatement(stmt: Statement)  // bail! on a kind the migration does not expect

  /** Decode an item's definition and parse its SQL into its one statement. */
  function Load(c: Codec, def: Bytes): Result<(Statement, EvalEnv), MigrationError>
  {
    match c.decode(def)
    case None => Err(DecodeFailed)
    case Some(V1(createSql, evalEnv)) =>
      match c.parse(createSql)
      case None => Err(ParseFailed)
      case Some(stmts) =>
        if |stmts| != 1 then Err(NotOneStatement(|stmts|)) else Ok((stmts[0], evalEnv))
  }

  /** Print a statement and encode it with its evaluation environment. */
  function Store(c: Codec, stmt: Statement, evalEnv: EvalEnv): Bytes
  {
    c.encode(V1(c.render(stmt), evalEnv))
  }

  /** What was stored can be loaded back unchanged. */
  lemma LoadStoreRoundTrip(c: Codec, stmt: Statement, evalEnv: EvalEnv)
    requires RoundTrips(c)
    ensures Load(c, Store(c, stmt, evalEnv)) == Ok((stmt, evalEnv))
  {
  }

  /** One loop iteration: the item's new definition, `None` when it is skipped, or the error that stops the migration. */
  function MigrateItem(m: Migration, c: Codec, def: Bytes): Result<Option<Bytes>, MigrationError>
  {
    match Load(c, def)
    case Err(e) => Err(e)
    case Ok((stmt, evalEnv)) =>
      match Dispatch(m, stmt)
      case Skip => Ok(None)
      case Reject => Err(InappropriateStatement(stmt))
      case Rewrite(normalized) => Ok(Some(Store(c, normalized, evalEnv)))
  }

  /**
   * A rewritten definition holds the normalized statement and the same
   * evaluation environment as before; nothing else of the old document
   * survives, and nothing else is added.
   */
  lemma RewriteKeepsEvalEnv(m: Migration, c: Codec, def: Bytes)
    requires RoundTrips(c)
    requires MigrateItem(m, c, def).Ok? && MigrateItem(m, c, def).value.Some?
    ensures Load(c, def).Ok? && Dispatch(m, Load(c, def).value.0).Rewrite?
    ensures Load(c, MigrateItem(m, c, def).value.value)
            == Ok((Dispatch(m, Load(c, def).value.0).stmt, Load(c, def).value.1))
  {
  }

  // ---------------------------------------------------------------------
  // The whole catalog

  /** Every stored item goes through the migration without an error. */
  ghost predicate AllSucceed(m: Migration, c: Codec, items: map<ItemId, Item>)
  {
    forall id :: id in items ==> MigrateItem(m, c, items[id].def).Ok?
  }

  /** The catalog after a successful migration: rewritten items get their new definition, skipped ones stay. */
  function Migrated(m: Migration, c: Codec, items: map<ItemId, Item>): (r: map<ItemId, Item>)
    ensures r.Keys == items.Keys
    ensures forall id :: id in items ==> r[id].name == items[id].name
    ensures forall id :: id in items && MigrateItem(m, c, items[id].def) == Ok(None) ==> r[id] == items[id]
    ensures forall id, d :: id in items && MigrateItem(m, c, items[id].def) == Ok(Some(d)) ==> r[id].def == d
  {
    map id | id in items ::
      match MigrateItem(m, c, items[id].def)
      case Ok(Some(def)) => items[id].(def := def)
      case _ => items[id]
  }

  /**
   * Running a migration a second time over its own result succeeds and
   * changes nothing: every rewritten item is stored in normalized form, and
   * every skipped item is skipped again.
   */
  lemma MigrationIdempotent(m: Migration, c: Codec, items: map<ItemId, Item>)
    requires RoundTrips(c)
    requires AllSucceed(m, c, items)
    ensures AllSucceed(m, c, Migrated(m, c, items))
    ensures Migrated(m, c, Migrated(m, c, items)) == Migrated(m, c, items)
  {
    var once := Migrated(m, c, items);
    forall id | id in items
      ensures MigrateItem(m, c, once[id].def) == Ok(None) || MigrateItem(m, c, once[id].def) == Ok(Some(once[id].def))
    {
      var step := MigrateItem(m, c, items[id].def);
      if step.value.Some? {
        RewriteKeepsEvalEnv(m, c, items[id].def);
        var (stmt, evalEnv) := Load(c, items[id].def).value;
        DispatchIdempotent(m, stmt);
      }
    }
  }

  /**
   * Once every loaded item has gone through, the staged writes turn the
   * store into the migrated catalog: every item was loaded, so every item
   * succeeded, and exactly the rewritten ones have a write.
   */
  lemma StagedWritesGiveMigrated(m: Migration, c: Codec, items: map<ItemId, Item>,
                                 loaded: seq<(ItemId, Item)>, writes: map<ItemId, Write>)
    requires forall k :: 0 <= k < |loaded| ==> loaded[k].0 in items && loaded[k].1 == items[loaded[k].0]
    requires forall id :: id in items ==> exists k :: 0 <= k < |loaded| && loaded[k].0 == id
    requires forall j :: 0 <= j < |loaded| ==> MigrateItem(m, c, loaded[j].1.def).Ok?
    requires forall j :: 0 <= j < |loaded| && MigrateItem(m, c, loaded[j].1.def).value.Some? ==> loaded[j].0 in writes
    requires forall id :: id in writes ==>
               id in items && writes[id].itemName == items[id].name.item
               && MigrateItem(m, c, items[id].def) == Ok(Some(writes[id].def))
    ensures AllSucceed(m, c, items)
    ensures Applied(items, writes) == Migrated(m, c, items)
  {
  }

  /**
   * The body of the loop for one item: decode the stored document, parse its
   * SQL into exactly one statement, dispatch on the statement's kind and,
   * for a rewrite, print the normalized statement and encode it with the
   * item's evaluation environment.
   */
  method MigrateOne(m: Migration, c: Codec, def: Bytes) returns (r: Result<Option<Bytes>, MigrationError>)
    ensures c.decode(def).None? ==> r == Err(DecodeFailed)
    ensures c.decode(def).Some? && c.parse(c.decode(def).value.createSql).None? ==> r == Err(ParseFailed)
    ensures c.decode(def).Some? && c.parse(c.decode(def).value.createSql).Some?
            && |c.parse(c.decode(def).value.createSql).value| != 1 ==>
              r == Err(NotOneStatement(|c.parse(c.decode(def).value.createSql).value|))
    ensures c.decode(def).Some? && c.parse(c.decode(def).value.createSql).Some?
            && |c.parse(c.decode(def).value.createSql).value| == 1 ==>
              var stmt := c.parse(c.decode(def).value.createSql).value[0];
              && (r == Ok(None) <==> Dispatch(m, stmt).Skip?)
              && (Dispatch(m, stmt).Reject? ==> r == Err(InappropriateStatement(stmt)))
              && (Dispatch(m, stmt).Rewrite? ==>
                    r == Ok(Some(c.encode(V1(c.render(Dispatch(m, stmt).stmt), c.decode(def).value.evalEnv)))))
    ensures r == MigrateItem(m, c, def)
  {
    var decoded := c.decode(def);
    if decoded.None? {
      return Err(DecodeFailed);
    }
    var V1(createSql, evalEnv) := decoded.value;
    var parsed := c.parse(createSql);
    if parsed.None? {
      return Err(ParseFailed);
    }
    if |parsed.value| != 1 {
      return Err(NotOneStatement(|parsed.value|));
    }
    var stmt := parsed.value[0];
    match Dispatch(m, stmt) {
      case Skip =>
        return Ok(None);
      case Reject =>
        return Err(InappropriateStatement(stmt));
      case Rewrite(normalized) =>
        var serialized := c.encode(V1(c.render(normalized), evalEnv));
        return Ok(Some(serialized));
    }
  }

  /**
   * One content migration over the catalog. Items are loaded, each one is
   * decoded, parsed, dispatched on its kind and, when rewritten, staged with
   * `update_item`; the transaction is committed after the last item. Any
   * failure returns before the commit, so the store is left as it was.
   */
  method RunMigration(m: Migration, c: Codec, storage: Storage) returns (res: Result<(), MigrationError>)
    modifies storage
    ensures res.Ok? <==> AllSucceed(m, c, old(storage.items))
    ensures res.Ok? ==> storage.items == Migrated(m, c, old(storage.items))
    ensures res.Err? ==> storage.items == old(storage.items)
    ensures res.Err? ==>
              exists id :: id in old(storage.items) && MigrateItem(m, c, old(storage.items)[id].def) == Err(res.error)
  {
    var loaded := storage.LoadItems();
    var tx := new Transaction(storage);
    ghost var items := storage.items;

    var i := 0;
    while i < |loaded|
      invariant 0 <= i <= |loaded|
      invariant tx.storage == storage && storage.items == items
      invariant forall j :: 0 <= j < i ==> MigrateItem(m, c, loaded[j].1.def).Ok?
      invariant forall j :: 0 <= j < i && MigrateItem(m, c, loaded[j].1.def).value.Some? ==> loaded[j].0 in tx.writes
      invariant forall id :: id in tx.writes ==>
                  id in items && tx.writes[id].itemName == items[id].name.item
                  && MigrateItem(m, c, items[id].def) == Ok(Some(tx.writes[id].def))
    {
      var (id, item) := loaded[i];
      var step := MigrateOne(m, c, item.def);
      match step {
        case Err(e) =>
          return Err(e);
        case Ok(None) =>
        case Ok(Some(def)) =>
          tx.UpdateItem(id, item.name.item, def);
      }
      i := i + 1;
    }

    StagedWritesGiveMigrated(m, c, items, loaded, tx.writes);
    tx.Commit();
    return Ok(());
  }
}
