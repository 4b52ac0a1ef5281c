/**
 * The two name normalizers of the catalog content migrations: the type
 * normalizer of migration 1 (qualify one-part type names with `pg_catalog`)
 * and the function normalizer of migration 2 (qualify one-part function
 * names with the first builtin schema that defines them).
 */
module Normalize {

  import opened Wrappers
  import opened SqlAst

  const PgCatalogSchema: Ident := "pg_catalog"
  const MzCatalogSchema: Ident := "mz_catalog"
  const MzInternalSchema: Ident := "mz_internal"

  /**
   * The builtin function tables of the three system schemas, as the sets of
   * their keys, and `render`, the text a one-part name is looked up by (the
   * name printed as SQL, quoted where SQL requires it).
   */
  datatype Builtins = Builtins(
    pgCatalog: set<string>,
    mzCatalog: set<string>,
    mzInternal: set<string>,
    render: Ident -> string)

  /** The schemas searched for a function, in the order they are tried. */
  function SearchOrder(b: Builtins): (order: seq<(Ident, set<string>)>)
    ensures |order| == 3
    ensures order[0] == (PgCatalogSchema, b.pgCatalog)
    ensures order[1] == (MzCatalogSchema, b.mzCatalog)
    ensures order[2] == (MzInternalSchema, b.mzInternal)
  {
    [(PgCatalogSchema, b.pgCatalog), (MzCatalogSchema, b.mzCatalog), (MzInternalSchema, b.mzInternal)]
  }

  /** The last identifier of a non-empty name: the object's own name. */
  function Last(name: ObjectName): Ident
    requires |name| > 0
  {
    name[|name| - 1]
  }

  // ---------------------------------------------------------------------
  // Migration 1: type names

  /** `TypeNormalizer::visit_data_type_mut`: qualify a one-part `Other` type name. */
  function NormalizeDataType(dt: DataType): DataType
  {
    match dt
    case Other(name, typMod) =>
      if |name| == 1 then Other([PgCatalogSchema, name[0]], typMod) else dt
    case NonOther(_) => dt
  }

  /**
   * A data type changes exactly when it is an `Other` with a one-part name,
   * and then it becomes `pg_catalog.<that identifier>` with the same type
   * modifiers; the variant never changes and the identifier is kept last.
   */
  lemma TypeQualification(dt: DataType)
    ensures NormalizeDataType(dt) != dt <==> dt.Other? && |dt.name| == 1
    ensures dt.Other? && |dt.name| == 1 ==>
              NormalizeDataType(dt) == Other([PgCatalogSchema, dt.name[0]], dt.typMod)
    ensures NormalizeDataType(dt).Other? <==> dt.Other?
    ensures dt.Other? ==> NormalizeDataType(dt).typMod == dt.typMod
    ensures dt.Other? && |dt.name| > 0 ==> Last(NormalizeDataType(dt).name) == Last(dt.name)
  {
  }

  /** A type name that has been normalized has two parts, so a second pass leaves it alone. */
  lemma NormalizeDataTypeIdempotent(dt: DataType)
    ensures NormalizeDataType(NormalizeDataType(dt)) == NormalizeDataType(dt)
  {
  }

  // ---------------------------------------------------------------------
  // Migration 2: function names

  /** The index of the first table in `order` whose keys contain `key`, if any. */
  function FirstMatch(key: string, order: seq<(Ident, set<string>)>): (r: Option<nat>)
    ensures r.None? <==> forall i :: 0 <= i < |order| ==> key !in order[i].1
    ensures r.Some? ==> r.value < |order| && key in order[r.value].1
    ensures r.Some? ==> forall j :: 0 <= j < r.value ==> key !in order[j].1
  {
    if order == [] then None
    else if key in order[0].1 then Some(0)
    else
      match FirstMatch(key, order[1..])
      case None => None
      case Some(k) => Some(k + 1)
  }

  /** `normalize_function_name`, as a function of the name before the rewrite. */
  function QualifyFunctionName(name: ObjectName, b: Builtins): ObjectName
  {
    if |name| == 1 then
      match FirstMatch(b.render(name[0]), SearchOrder(b))
      case Some(k) => [SearchOrder(b)[k].0, name[0]]
      case None => name
    else name
  }

  /**
   * `normalize_function_name`: the name is rewritten in place (an exclusive
   * borrow, so taking the old name and returning the new one is the same
   * thing) by trying the schemas in order and stopping at the first table
   * that contains the rendered name.
   */
  method NormalizeFunctionName(name: ObjectName, b: Builtins) returns (r: ObjectName)
    ensures r == QualifyFunctionName(name, b)
  {
    r := name;
    if |name| == 1 {
      var funcName := b.render(name[0]);
      var order := SearchOrder(b);
      var i := 0;
      while i < |order|
        invariant 0 <= i <= |order|
        invariant forall j :: 0 <= j < i ==> funcName !in order[j].1
        invariant r == name
      {
        if funcName in order[i].1 {
          r := [order[i].0, name[0]];
          break;
        }
        i := i + 1;
      }
    }
  }

  /**
   * A one-part name is qualified with `pg_catalog` if that table has it,
   * otherwise with `mz_catalog` if that table has it, otherwise with
   * `mz_internal` if that table has it; otherwise, and for every name that
   * does not have exactly one part, it is left as it is.
   */
  lemma FunctionQualification(name: ObjectName, b: Builtins)
    ensures |name| != 1 ==> QualifyFunctionName(name, b) == name
    ensures |name| == 1 && b.render(name[0]) in b.pgCatalog ==>
              QualifyFunctionName(name, b) == [PgCatalogSchema, name[0]]
    ensures |name| == 1 && b.render(name[0]) !in b.pgCatalog && b.render(name[0]) in b.mzCatalog ==>
              QualifyFunctionName(name, b) == [MzCatalogSchema, name[0]]
    ensures |name| == 1 && b.render(name[0]) !in b.pgCatalog && b.render(name[0]) !in b.mzCatalog
              && b.render(name[0]) in b.mzInternal ==>
              QualifyFunctionName(name, b) == [MzInternalSchema, name[0]]
    ensures |name| == 1 && b.render(name[0]) !in b.pgCatalog && b.render(name[0]) !in b.mzCatalog
              && b.render(name[0]) !in b.mzInternal ==>
              QualifyFunctionName(name, b) == name
  {
  }

  /**
   * The rewritten name differs from the original exactly when the original
   * had one part found in some table; the original identifier always stays
   * the last part.
   */
  lemma FunctionQualificationKeepsIdent(name: ObjectName, b: Builtins)
    ensures QualifyFunctionName(name, b) != name <==>
              |name| == 1 && exists i :: 0 <= i < 3 && b.render(name[0]) in SearchOrder(b)[i].1
    ensures |name| > 0 ==> |QualifyFunctionName(name, b)| > 0
                           && Last(QualifyFunctionName(name, b)) == Last(name)
  {
  }

  /** A qualified function name has two parts, so a second pass leaves it alone. */
  lemma QualifyFunctionNameIdempotent(name: ObjectName, b: Builtins)
    ensures QualifyFunctionName(QualifyFunctionName(name, b), b) == QualifyFunctionName(name, b)
  {
  }

  // ---------------------------------------------------------------------
  // The visitors

  /** The two visitors: `TypeNormalizer` and `FuncNormalizer`. */
  datatype Normalizer = TypeNormalizer | FuncNormalizer(builtins: Builtins)

  /**
   * What a visitor does at one slot: the type normalizer rewrites data types
   * (`visit_data_type_mut`); the function normalizer rewrites the names of
   * function calls (`visit_function_mut`) and of table functions in FROM
   * (`visit_table_factor_mut`); nothing else is touched.
   */
  function VisitSlot(v: Normalizer, s: Slot): Slot
  {
    match v
    case TypeNormalizer =>
      (match s
       case TypeRef(dt) => TypeRef(NormalizeDataType(dt))
       case _ => s)
    case FuncNormalizer(b) =>
      (match s
       case FunctionCall(name) => FunctionCall(QualifyFunctionName(name, b))
       case TableFunction(name) => TableFunction(QualifyFunctionName(name, b))
       case _ => s)
  }

  /** A visitor applied to every slot of one node. */
  function VisitNode(v: Normalizer, n: Node): (r: Node)
    ensures |r.slots| == |n.slots|
  {
    Node(seq(|n.slots|, i requires 0 <= i < |n.slots| => VisitSlot(v, n.slots[i])))
  }

  /** A visitor applied to each node of a list in turn (`for c in columns { ... }`). */
  function VisitNodes(v: Normalizer, ns: seq<Node>): (r: seq<Node>)
    ensures |r| == |ns|
  {
    seq(|ns|, i requires 0 <= i < |ns| => VisitNode(v, ns[i]))
  }

  /**
   * A slot keeps its kind; the type normalizer changes only data types and
   * the function normalizer only function and table-function names.
   */
  lemma VisitSlotTouchesOnlyItsNames(v: Normalizer, s: Slot)
    ensures VisitSlot(v, s).TypeRef? == s.TypeRef?
    ensures VisitSlot(v, s).FunctionCall? == s.FunctionCall?
    ensures VisitSlot(v, s).TableFunction? == s.TableFunction?
    ensures VisitSlot(v, s) != s ==>
              if v.TypeNormalizer? then s.TypeRef? && s.dataType.Other? && |s.dataType.name| == 1
              else (s.FunctionCall? || s.TableFunction?) && |s.name| == 1
  {
  }

  /** Visiting a slot twice is the same as visiting it once. */
  lemma VisitSlotIdempotent(v: Normalizer, s: Slot)
    ensures VisitSlot(v, VisitSlot(v, s)) == VisitSlot(v, s)
  {
  }

  /** Visiting a list of nodes twice is the same as visiting it once. */
  lemma VisitNodesIdempotent(v: Normalizer, ns: seq<Node>)
    ensures VisitNodes(v, VisitNodes(v, ns)) == VisitNodes(v, ns)
  {
    forall i | 0 <= i < |ns|
      ensures VisitNode(v, VisitNode(v, ns[i])) == VisitNode(v, ns[i])
    {
      forall k | 0 <= k < |ns[i].slots|
        ensures VisitSlot(v, VisitSlot(v, ns[i].slots[k])) == VisitSlot(v, ns[i].slots[k])
      {
        VisitSlotIdempotent(v, ns[i].slots[k]);
      }
    }
  }
}
