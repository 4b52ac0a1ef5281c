# Catalog content migrations — a Dafny model

This project models the catalog content migrations of the coordinator
(`src/coord/src/catalog/migrate.rs`). Each migration rewrites the stored
`CREATE` statements of the catalog items:

- **Migration 1** qualifies type names. A `DataType::Other` whose name has
  exactly one part becomes `pg_catalog.<name>`.
- **Migration 2** qualifies function names. A one-part function name, or a
  table-function name in FROM, gets the first schema, in the order
  `pg_catalog`, `mz_catalog`, `mz_internal`, whose builtin table contains
  it.

For each item, a migration does four things:

1. decodes the stored JSON document;
2. parses its SQL into exactly one statement;
3. looks at the statement's kind and either normalizes the parts it cares
   about, skips the item, or fails;
4. for a rewrite, prints the statement again, re-encodes it with the same
   evaluation environment and stages an `update_item` in one storage
   transaction.

The transaction is committed only after the last item. Any failure returns
before the commit.

Files:

- `sql_ast.dfy`
  - `Wrappers`: `Option` and `Result`.
  - `SqlAst`: the syntax tree as the migrations see it. A statement lists the
    parts a migration may visit. Each part is a list of slots: data types,
    function names, table-function names and other names.
- `normalize.dfy`, module `Normalize`: the two normalizers.
  - Pure functions give the rules.
  - The `for` loop with `break` of `normalize_function_name` is a method,
    proved equal to those rules.
  - The visitors map a normalizer over the slots.
- `catalog_storage.dfy`, module `CatalogStorage`: the item store.
  - `Storage` is a class holding a map from id to item.
  - `Transaction` is a class that stages writes until `Commit`.
- `migrate.dfy`, module `Migrate`: the two migrations.
  - Per-statement dispatch.
  - Per-item step.
  - The load, update and commit loop (`RunMigration`).
  - The catalog-level results: all or nothing, and idempotence.

In the source, a normalizer rewrites a name through an exclusive borrow
(`&mut`). So "rewrite in place" is modelled as "take the old name, return the
new one". Nothing else can see the name while it is being rewritten.

## Model

| member | source | states |
|---|---|---|
| `Normalize.TypeQualification` | src/coord/src/catalog/migrate.rs:38-46 | A data type changes exactly when it is an `Other` with a one-part name. It then becomes `[pg_catalog, that ident]` with the same type modifiers. The variant never changes, and the original identifier stays the last part. |
| `Normalize.NormalizeDataTypeIdempotent` | src/coord/src/catalog/migrate.rs:40-44 | A normalized type name has two parts, so normalizing it again changes nothing. |
| `Normalize.SearchOrder` | src/coord/src/catalog/migrate.rs:135-139 | The search order has exactly three entries: `pg_catalog` with its builtin table, then `mz_catalog` with its table, then `mz_internal` with its table. |
| `Normalize.FirstMatch` | src/coord/src/catalog/migrate.rs:135-144 | The index of the first table in search order that contains the key, with no earlier table containing it. The result is `None` exactly when no table contains the key. |
| `Normalize.NormalizeFunctionName` | src/coord/src/catalog/migrate.rs:132-146 | The loop over the schemas that stops at the first table containing the rendered name returns exactly the qualified name defined by the rules. |
| `Normalize.FunctionQualification` | src/coord/src/catalog/migrate.rs:133-144 | A one-part name becomes `[pg_catalog, id]` if the pg_catalog table has it. Otherwise it becomes `[mz_catalog, id]` if that table has it, otherwise `[mz_internal, id]` if that table has it. Otherwise it is unchanged. A name that does not have exactly one part is never changed. |
| `Normalize.FunctionQualificationKeepsIdent` | src/coord/src/catalog/migrate.rs:133-141 | A function name changes exactly when it has one part that some builtin table contains. The original identifier always stays the last part. |
| `Normalize.QualifyFunctionNameIdempotent` | src/coord/src/catalog/migrate.rs:133-141 | A qualified function name has two parts, so qualifying it again changes nothing. |
| `Normalize.VisitSlotTouchesOnlyItsNames` | src/coord/src/catalog/migrate.rs:148-159 | The function normalizer changes only one-part names of function calls and table functions. The type normalizer (lines 35-48) changes only one-part `Other` data types. Every slot keeps its kind. |
| `Normalize.VisitSlotIdempotent` | src/coord/src/catalog/migrate.rs:150-158 | Visiting a slot twice with the same normalizer gives the same result as visiting it once. |
| `Normalize.VisitNodesIdempotent` | src/coord/src/catalog/migrate.rs:70-72 | Visiting a list of nodes (`for c in columns`) twice gives the same result as visiting it once. |
| `Migrate.DispatchByKind` | src/coord/src/catalog/migrate.rs:61-205 | Migration 1 rewrites tables, views, indexes and types, and skips sources and sinks. Migration 2 rewrites views and indexes, and skips tables, sinks, sources and types. Both reject every other statement kind, and only those. |
| `Migrate.RewriteNormalizesVisitedParts` | src/coord/src/catalog/migrate.rs:61-205 | A rewrite keeps the statement's kind, whether an index has key parts, and every part the migration does not visit. An index keeps its number of key parts and of with-options, so each list is replaced by its own normalized form. Migration 2 does not touch an index's with-options. The visited parts (migration 1: columns, the query, key parts and with-options, type options; migration 2: the query, key parts) are replaced by their normalized form. |
| `Migrate.DispatchIdempotent` | src/coord/src/catalog/migrate.rs:61-205 | For either migration, running it on a statement it has just rewritten rewrites that statement to itself. |
| `Migrate.LoadStoreRoundTrip` | src/coord/src/catalog/migrate.rs:119-125 | Suppose JSON decoding undoes encoding and parsing undoes printing. Then loading a stored statement and environment gives back that same statement and environment. |
| `Migrate.RewriteKeepsEvalEnv` | src/coord/src/catalog/migrate.rs:207-214 | A rewritten definition holds the normalized statement and the original `eval_env`. Nothing else of the old document is kept. |
| `Migrate.MigrateOne` | src/coord/src/catalog/migrate.rs:165-214 | One loop iteration, stated outcome by outcome. A definition that does not decode gives `DecodeFailed`. SQL that does not parse gives `ParseFailed`. SQL that holds other than one statement gives `NotOneStatement` with the count. Otherwise the item is skipped (`None`) exactly when the kind is skipped. A rejected kind gives `InappropriateStatement` with the statement. A rewrite gives the encoding of the printed normalized statement together with the decoded `eval_env`. |
| `Migrate.Migrated` | src/coord/src/catalog/migrate.rs:54-127 | After a migration, the catalog has exactly the same item ids as before, and every item keeps its name. A skipped item is unchanged. A rewritten item has exactly its new definition. |
| `Migrate.StagedWritesGiveMigrated` | src/coord/src/catalog/migrate.rs:119-128 | Once every loaded item has gone through, every item has succeeded. Applying the staged writes then gives the migrated catalog: each item keeps its id and name, and rewritten items get their new definition. |
| `Migrate.MigrationIdempotent` | src/coord/src/catalog/migrate.rs:54-128 | Suppose both round trips hold. Then running a migration again over its own result succeeds and changes nothing. |
| `Migrate.RunMigration` | src/coord/src/catalog/migrate.rs:50-129 | The migration succeeds exactly when every stored item migrates without an error, and then the store holds the migrated catalog. On an error, the store is left as it was, because the commit is never reached. The error returned is the error of one of the stored items. |
| `CatalogStorage.Storage.LoadItems` | src/coord/src/catalog/migrate.rs:51 | Every stored item is returned exactly once, together with its id and its stored value. |
| `CatalogStorage.Transaction.UpdateItem` | src/coord/src/catalog/migrate.rs:126 | An update is only staged, and the store is not touched. |
| `CatalogStorage.Transaction.Commit` | src/coord/src/catalog/migrate.rs:128 | A commit applies every staged write at once. |
| `CatalogStorage.Applied` | src/coord/src/catalog/migrate.rs:126-128 | Applying writes keeps the set of item ids. Items without a write are unchanged. An item with a write takes the written definition and last name part. |

## Left out

- The SQL parser (`sql::parse::parse`), the stable printer (`to_ast_string_stable`) and JSON encoding and decoding (`serde_json`) belong to other crates. They are the four function-valued fields of `Codec`. Their round trips are assumed only where a lemma says so (`RoundTrips`).
- The visitor's traversal (`VisitMut`) belongs to the sql crate. A statement part is modelled by the slots the visitor reaches in it. The model does not decide which nested positions are reached. That includes whether an overridden `visit_function_mut`, `visit_table_factor_mut` or `visit_data_type_mut` goes on into function arguments, subqueries in FROM or element types.
- The contents of `PG_CATALOG_BUILTINS`, `MZ_CATALOG_BUILTINS` and `MZ_INTERNAL_BUILTINS` are not modelled: they are parameter sets of keys. How `name.to_string()` quotes an identifier is not modelled either: it is the `render` parameter.
- `DataType` variants other than `Other` are one opaque case (`NonOther`), because migration 1 never changes them.
- Storage failures are not modelled. The `?` on `load_items`, `transaction`, `update_item` and `commit` can only fail inside the backend. In the model, storage operations always succeed, and an update is taken to overwrite the item with that id.
- `into_element` panics when the SQL holds no statement or more than one. That is modelled as the error `NotOneStatement`. Like every error, it ends the migration before the commit.
- The text of the `bail!` message is not modelled: `InappropriateStatement` carries the statement itself.
- `eval_env` is not modelled in detail: it is an opaque value that the migrations copy.
- The code that decides which content migrations run (catalog version bookkeeping) is not in `migrate.rs` and is not part of this model. Each migration is modelled on its own.
- Migrate.RunMigration: the order of `load_items` is chosen by the backend. When several items fail, the source returns the error of the first failing item in load order. The model states only that the error belongs to some stored item whose migration fails.
