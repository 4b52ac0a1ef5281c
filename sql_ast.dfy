/** Option and Result, the failure-carrying wrappers used throughout. */
module Wrappers {

  datatype Option<T> = None | Some(value: T)

  datatype Result<T, E> = Ok(value: T) | Err(error: E)
}

/**
 * The part of the sql crate's syntax tree that the catalog content
 * migrations look at. The parser, the printer and the visitor's traversal
 * belong to that crate and are not part of this model: a statement is
 * described only by the parts a migration hands to a normalizer, and each
 * part only by the name-carrying positions ("slots") the visitor reaches
 * inside it.
 */
module SqlAst {

  import opened Wrappers

  /** An SQL identifier, as written (`Ident`). */
  type Ident = string

  /** A possibly qualified name, one identifier per part (`UnresolvedObjectName`). */
  type ObjectName = seq<Ident>

  /**
   * A data type reference. `Other` is a type named by an object name, with
   * its type modifiers; every other variant of the sql crate's `DataType` is
   * `NonOther`, whose contents the migrations never look at.
   */
  datatype DataType =
    | Other(name: ObjectName, typMod: seq<nat>)
    | NonOther(variant: string)

  /** A position inside a syntax node that a visitor reaches. */
  datatype Slot =
    | TypeRef(dataType: DataType)     // a `DataType` (column type, cast target, ...)
    | FunctionCall(name: ObjectName)  // the name of a `Function`
    | TableFunction(name: ObjectName) // the name of a `TableFactor::Function` in FROM
    | ObjectRef(name: ObjectName)     // any other object name (table, index, ...)
    | Literal(text: string)           // anything else, which carries no name

  /** A syntax node (a column definition, a query, an expression, an option). */
  datatype Node = Node(slots: seq<Slot>)

  /**
   * The statement kinds a catalog item can hold. For each kind, the parts
   * that some migration visits are fields of their own; everything else in
   * the statement (its name, the parts no migration visits) is `unvisited`.
   * `OtherStatement` stands for every remaining kind of `Statement`.
   */
  datatype Statement =
    | CreateTable(columns: seq<Node>, unvisited: Node)
    | CreateView(query: Node, unvisited: Node)
    | CreateIndex(keyParts: Option<seq<Node>>, withOptions: seq<Node>, unvisited: Node)
    | CreateType(withOptions: seq<Node>, unvisited: Node)
    | CreateSource(body: Node)
    | CreateSink(body: Node)
    | OtherStatement(kind: string, body: Node)
}
