/**
 * The board client: the board and group it targets, the guards its
 * mutations apply, the argument arrays it assembles and the plain string
 * rewriting it applies to the documents the query builder produces.
 *
 * The query builder itself (`Query::create`, `Query::buildArguments`, the
 * object types' `getArguments` and `getFields`) is not part of this model:
 * a `Call` records exactly what is passed to it, and the board is given the
 * builder as a function from calls to document text.
 */
module MondayBoard {
  import opened PhpArrays
  import opened PhpStrings
  import opened MondayApi

  /** The object types whose argument and field builders the board uses. */
  datatype ObjectType = BoardObject | GroupObject | ItemObject | SubItemObject | ColumnObject

  /** The named argument presets passed to `getArguments`. */
  datatype Preset =
    | CreateItemArguments
    | ArchiveArguments
    | ArchiveDeleteArguments
    | ChangeMultipleColumnValuesArguments

  /** The operation name: a literal, or an object type's `$scope`. */
  datatype Operation = Named(name: string) | ScopeOf(object: ObjectType)

  /** The second argument of `Query::create`. */
  datatype ArgumentsFragment =
      /** `$Object->getArguments(values[, preset[, raw]])` */
    | ObjectArguments(object: ObjectType, values: Entries, preset: Option<Preset>, raw: Option<string>)
      /** `Query::buildArguments(values, raw)` */
    | BuiltArguments(values: Entries, rawText: string)
      /** `''` */
    | NoArguments

  /** The third argument of `Query::create`. */
  datatype FieldsFragment =
      /** `$Object->getFields(requested)` */
    | ObjectFields(object: ObjectType, requested: Entries)
      /** a literal list of field texts */
    | Fields(texts: seq<string>)

  /** One call of `Query::create(operation, arguments, fields)`. */
  datatype Call = Call(operation: Operation, arguments: ArgumentsFragment, fields: FieldsFragment)

  /** `['id']`, the field list of every create, archive and delete. */
  const IdField: Entries := [(IntKey(0), Str("id"))]

  // ---------------------------------------------------------------------
  // The selected board and group
  // ---------------------------------------------------------------------

  /** `$this->board_id`: `false` until `on` is called. */
  function BoardIdValue(boardId: Option<int>): Value
  {
    match boardId
    case None => Bool(false)
    case Some(id) => Int(id)
  }

  /** `$this->group_id`: `false` until `group` is called. */
  function GroupIdValue(groupId: Option<string>): Value
  {
    match groupId
    case None => Bool(false)
    case Some(id) => Str(id)
  }

  /**
   * `!empty($this->board_id)`, the test `createGroup`, `createColumn`,
   * `addItem` and `changeMultipleColumnValues` apply: board 0 counts as no
   * board.
   */
  function BoardChosen(boardId: Option<int>): (r: bool)
    ensures r <==> boardId.Some? && boardId.value != 0
  {
    Truthy(BoardIdValue(boardId))
  }

  /** `(bool) $this->group_id`: the groups "" and "0" count as no group. */
  function GroupChosen(groupId: Option<string>): (r: bool)
    ensures r <==> groupId.Some? && groupId.value != "" && groupId.value != "0"
  {
    Truthy(GroupIdValue(groupId))
  }

  // ---------------------------------------------------------------------
  // Argument arrays
  // ---------------------------------------------------------------------

  /**
   * The arguments `getBoards` passes on: `ids` is set to the selected board
   * when a board is selected (`!== false`, so board 0 too) and the caller's
   * `ids` is not set; otherwise the caller's array is passed as it is.
   */
  function BoardsArguments(arguments: Entries, boardId: Option<int>): (r: Entries)
    ensures boardId.None? || IsSet(arguments, StrKey("ids")) ==> r == arguments
    ensures boardId.Some? && !IsSet(arguments, StrKey("ids")) ==>
              && Lookup(r, StrKey("ids")) == Some(Int(boardId.value))
              && (forall k :: k != StrKey("ids") ==> Lookup(r, k) == Lookup(arguments, k))
              && |r| >= |arguments|
              && (forall i :: 0 <= i < |arguments| ==> r[i].0 == arguments[i].0)
    ensures UniqueKeys(arguments) ==> UniqueKeys(r)
  {
    if boardId.Some? && !IsSet(arguments, StrKey("ids")) then
      Assign(arguments, StrKey("ids"), Int(boardId.value))
    else arguments
  }

  /**
   * Board 0 is selected as far as `getBoards` is concerned (`ids` is set to
   * it), but counts as no board for the mutations' guards.
   */
  lemma BoardZeroSelectedButNotChosen(arguments: Entries)
    requires !IsSet(arguments, StrKey("ids"))
    ensures Lookup(BoardsArguments(arguments, Some(0)), StrKey("ids")) == Some(Int(0))
    ensures !BoardChosen(Some(0))
  {
  }

  /** `array_merge(['board_name' => $board_name], $optionals)`. */
  function CreateArguments(boardName: string, optionals: Entries): Entries
  {
    ArrayMerge([(StrKey("board_name"), Str(boardName))], optionals)
  }

  /**
   * `board_name` comes first; an optional `board_name` (even a null one)
   * replaces the positional name; every other string key carries the
   * optional's value.
   */
  lemma CreateArgumentsLayout(boardName: string, optionals: Entries)
    requires UniqueKeys(optionals)
    ensures var r := CreateArguments(boardName, optionals);
            && r != [] && r[0].0 == StrKey("board_name")
            && Lookup(r, StrKey("board_name")) ==
                 (if StrKey("board_name") in Keys(optionals) then Lookup(optionals, StrKey("board_name"))
                  else Some(Str(boardName)))
            && forall s :: s != "board_name" ==> Lookup(r, StrKey(s)) == Lookup(optionals, StrKey(s))
  {
    var first := [(StrKey("board_name"), Str(boardName))];
    assert UniqueKeys(first);
    ArrayMergeStringKeys(first, optionals, "board_name");
    forall s | s != "board_name"
      ensures Lookup(CreateArguments(boardName, optionals), StrKey(s)) == Lookup(optionals, StrKey(s))
    {
      ArrayMergeStringKeys(first, optionals, s);
    }
  }

  /**
   * The order of `create`'s arguments for string-keyed optionals:
   * `board_name` first, then the optionals in their own order. An optional
   * `board_name` takes the first place's value and is not repeated.
   */
  lemma CreateArgumentsOrder(boardName: string, optionals: Entries)
    requires StringKeyed(optionals) && UniqueKeys(optionals)
    ensures StrKey("board_name") !in Keys(optionals) ==>
              CreateArguments(boardName, optionals) == [(StrKey("board_name"), Str(boardName))] + optionals
    ensures StrKey("board_name") in Keys(optionals) ==>
              CreateArguments(boardName, optionals) ==
                [(StrKey("board_name"), Lookup(optionals, StrKey("board_name")).value)] + Drop(optionals, StrKey("board_name"))
  {
    CreateArgumentsShape(boardName, optionals);
  }

  /** `create`'s arguments are the optionals merged after the positional name. */
  lemma CreateArgumentsShape(boardName: string, optionals: Entries)
    requires StringKeyed(optionals) && UniqueKeys(optionals)
    ensures CreateArguments(boardName, optionals) ==
            [(StrKey("board_name"),
              if StrKey("board_name") in Keys(optionals) then Lookup(optionals, StrKey("board_name")).value
              else Str(boardName))]
            + Drop(optionals, StrKey("board_name"))
  {
    var first := [(StrKey("board_name"), Str(boardName))];
    assert MergeEntries([], 0, first) == (first, 0);
    MergeAfterSingle(StrKey("board_name"), Str(boardName), 0, optionals);
  }

  /** The raw argument text for the board kind, spliced in unquoted. */
  function BoardKindArgument(boardKind: string): string
  {
    " board_kind:" + boardKind + ", "
  }

  /** `Group::$createItemArguments`: argument names with their wire types. */
  const GroupCreateArguments: seq<(string, string)> := [("board_id", "!Int"), ("group_name", "!String")]

  /** The arguments of `createGroup`. */
  function CreateGroupArguments(groupName: string, boardId: int): Entries
  {
    [(StrKey("group_name"), Str(groupName)), (StrKey("board_id"), Int(boardId))]
  }

  predicate FitsWireType(v: Value, wireType: string)
  {
    (wireType == "!Int" ==> v.Int?) && (wireType == "!String" ==> v.Str?)
  }

  /** `values` gives every argument of `preset`, with its wire type, and nothing else. */
  ghost predicate SuppliesPreset(values: Entries, preset: seq<(string, string)>)
  {
    && UniqueKeys(values)
    && Keys(values) == (set i | 0 <= i < |preset| :: StrKey(preset[i].0))
    && forall i :: 0 <= i < |preset| ==>
         Lookup(values, StrKey(preset[i].0)).Some? && FitsWireType(Lookup(values, StrKey(preset[i].0)).value, preset[i].1)
  }

  /** `createGroup` supplies exactly the arguments of the group's create preset. */
  lemma CreateGroupArgumentsFitPreset(groupName: string, boardId: int)
    ensures SuppliesPreset(CreateGroupArguments(groupName, boardId), GroupCreateArguments)
  {
    var values := CreateGroupArguments(groupName, boardId);
    assert values[1..] == [(StrKey("board_id"), Int(boardId))];
    assert values[1..][1..] == [];
    assert Keys(values[1..]) == {StrKey("board_id")};
    assert Keys(values) == {StrKey("group_name"), StrKey("board_id")};
    assert UniqueKeys(values);
    assert Lookup(values, StrKey("board_id")) == Some(Int(boardId));
    assert (set i | 0 <= i < |GroupCreateArguments| :: StrKey(GroupCreateArguments[i].0))
        == {StrKey("board_id"), StrKey("group_name")} by {
      assert GroupCreateArguments[0].0 == "board_id";
      assert GroupCreateArguments[1].0 == "group_name";
    }
  }

  /** The arguments of `createColumn`. */
  function CreateColumnArguments(title: string, description: string, boardId: int): Entries
  {
    [(StrKey("title"), Str(title)), (StrKey("description"), Str(description)), (StrKey("board_id"), Int(boardId))]
  }

  /** The arguments of `addItem`: the item name goes through `addslashes`. */
  function AddItemArguments(boardId: int, groupId: string, itemName: string, columnValues: Value): Entries
  {
    [ (StrKey("board_id"), Int(boardId)), (StrKey("group_id"), Str(groupId)),
      (StrKey("item_name"), Str(AddSlashes(itemName))), (StrKey("column_values"), columnValues) ]
  }

  /** The name `addItem` sends is escaped, and unescaping it gives the caller's name back. */
  lemma AddItemNameRoundTrip(boardId: int, groupId: string, itemName: string, columnValues: Value)
    ensures var sent := Lookup(AddItemArguments(boardId, groupId, itemName, columnValues), StrKey("item_name"));
            sent.Some? && sent.value.Str? && StripSlashes(sent.value.s) == itemName
  {
    var values := AddItemArguments(boardId, groupId, itemName, columnValues);
    var item := StrKey("item_name");
    assert values[1..][1..] == [values[2], values[3]];
    assert Lookup(values[1..][1..], item) == Some(Str(AddSlashes(itemName)));
    assert Lookup(values[1..], item) == Some(Str(AddSlashes(itemName)));
    assert Lookup(values, item) == Some(Str(AddSlashes(itemName)));
    StripSlashesUndoesAddSlashes(itemName);
  }

  /** The arguments of `addSubItem`: the item name is passed unescaped. */
  function AddSubItemArguments(parentItemId: int, itemName: string, columnValues: Value): Entries
  {
    [ (StrKey("parent_item_id"), Int(parentItemId)), (StrKey("item_name"), Str(itemName)),
      (StrKey("column_values"), columnValues) ]
  }

  /** The arguments of `changeMultipleColumnValues`. */
  function ChangeColumnValuesArguments(boardId: int, itemId: int, columnValues: Value): Entries
  {
    [(StrKey("board_id"), Int(boardId)), (StrKey("item_id"), Int(itemId)), (StrKey("column_values"), columnValues)]
  }

  /**
   * `changeMultipleColumnValues` demands a selected group but sends no
   * `group_id`; `addItem` sends both identifiers.
   */
  lemma ColumnValuesChangeOmitsGroup(boardId: int, groupId: string, itemId: int, itemName: string, columnValues: Value)
    ensures StrKey("group_id") !in Keys(ChangeColumnValuesArguments(boardId, itemId, columnValues))
    ensures Lookup(AddItemArguments(boardId, groupId, itemName, columnValues), StrKey("group_id")) == Some(Str(groupId))
    ensures Lookup(ChangeColumnValuesArguments(boardId, itemId, columnValues), StrKey("board_id")) == Some(Int(boardId))
  {
    var change := ChangeColumnValuesArguments(boardId, itemId, columnValues);
    assert change[1..][1..][1..] == [];
    assert Keys(change[1..][1..]) == {StrKey("column_values")};
    assert Keys(change[1..]) == {StrKey("item_id"), StrKey("column_values")};
    var add := AddItemArguments(boardId, groupId, itemName, columnValues);
    assert add[1..][0] == (StrKey("group_id"), Str(groupId));
  }

  // ---------------------------------------------------------------------
  // The calls handed to the query builder
  // ---------------------------------------------------------------------

  function CreateBoardCall(boardName: string, boardKind: string, optionals: Entries): Call
  {
    Call(Named("create_board"),
         ObjectArguments(BoardObject, CreateArguments(boardName, optionals), Some(CreateItemArguments),
                         Some(BoardKindArgument(boardKind))),
         ObjectFields(BoardObject, IdField))
  }

  function ArchiveBoardCall(boardId: Option<int>, fields: Entries): Call
  {
    Call(Named("archive_board"),
         ObjectArguments(BoardObject, [(StrKey("board_id"), BoardIdValue(boardId))], Some(ArchiveArguments), None),
         ObjectFields(BoardObject, fields))
  }

  function BoardsCall(arguments: Entries, fields: Entries): Call
  {
    Call(ScopeOf(BoardObject), ObjectArguments(BoardObject, arguments, None, None), ObjectFields(BoardObject, fields))
  }

  function ColumnsCall(fields: Entries): Call
  {
    Call(ScopeOf(ColumnObject), NoArguments, ObjectFields(ColumnObject, fields))
  }

  /** The boards query with the built columns document as its only field. */
  function BoardColumnsCall(boardId: Option<int>, columns: string): Call
  {
    Call(ScopeOf(BoardObject),
         ObjectArguments(BoardObject, [(StrKey("ids"), BoardIdValue(boardId))], None, None),
         Fields([columns]))
  }

  function CreateGroupCall(groupName: string, boardId: int): Call
  {
    Call(Named("create_group"),
         ObjectArguments(GroupObject, CreateGroupArguments(groupName, boardId), Some(CreateItemArguments), None),
         ObjectFields(GroupObject, IdField))
  }

  function CreateColumnCall(title: string, columnType: string, description: string, boardId: int): Call
  {
    Call(Named("create_column"),
         BuiltArguments(CreateColumnArguments(title, description, boardId), " column_type:" + columnType + ", "),
         Fields(["id"]))
  }

  function ItemsCall(arguments: Entries, fields: Entries): Call
  {
    Call(ScopeOf(ItemObject), ObjectArguments(ItemObject, arguments, None, None), ObjectFields(ItemObject, fields))
  }

  function AddItemCall(boardId: int, groupId: string, itemName: string, columnValues: Value): Call
  {
    Call(Named("create_item"),
         ObjectArguments(ItemObject, AddItemArguments(boardId, groupId, itemName, columnValues),
                         Some(CreateItemArguments), None),
         ObjectFields(ItemObject, IdField))
  }

  function AddSubItemCall(parentItemId: int, itemName: string, columnValues: Value): Call
  {
    Call(Named("create_subitem"),
         ObjectArguments(SubItemObject, AddSubItemArguments(parentItemId, itemName, columnValues),
                         Some(CreateItemArguments), None),
         ObjectFields(SubItemObject, IdField))
  }

  function ItemByIdCall(operation: string, itemId: int): Call
  {
    Call(Named(operation),
         ObjectArguments(ItemObject, [(StrKey("item_id"), Int(itemId))], Some(ArchiveDeleteArguments), None),
         ObjectFields(ItemObject, IdField))
  }

  function ChangeColumnValuesCall(boardId: int, itemId: int, columnValues: Value): Call
  {
    Call(Named("change_multiple_column_values"),
         ObjectArguments(ItemObject, ChangeColumnValuesArguments(boardId, itemId, columnValues),
                         Some(ChangeMultipleColumnValuesArguments), None),
         ObjectFields(ItemObject, IdField))
  }

  // ---------------------------------------------------------------------
  // Rewriting the built document
  // ---------------------------------------------------------------------

  /** Where the column values argument closes and the field list opens. */
  const LabelSearch: string := "}\"){"
  /** The same place with the label flag added as one more argument. */
  const LabelReplacement: string := "}\", create_labels_if_missing:true){"

  /**
   * The label flag patch of `addItem` and `addSubItem`. Without the flag the
   * document is kept. With it, the document is cut at every occurrence of
   * `}"){` (no piece holds one) and glued back with the flagged text.
   */
  function LabelPatch(doc: string, createLabels: bool): (r: string)
    ensures !createLabels ==> r == doc
    ensures !Occurs(doc, LabelSearch) ==> r == doc
    ensures createLabels ==>
              var pieces := Explode(LabelSearch, doc);
              && doc == Implode(LabelSearch, pieces)
              && r == Implode(LabelReplacement, pieces)
              && forall p :: p in pieces ==> !Occurs(p, LabelSearch)
  {
    StrReplaceIsImplodeOfExplode(LabelSearch, LabelReplacement, doc);
    ImplodeExplode(LabelSearch, doc);
    ExplodePiecesAvoidSeparator(LabelSearch, doc);
    StrReplaceAbsent(LabelSearch, LabelReplacement, doc);
    if createLabels then StrReplace(LabelSearch, LabelReplacement, doc) else doc
  }

  /** `implode(' ', $value)` over the values of an array. */
  function Texts(values: Entries): (r: seq<string>)
    ensures |r| == |values|
    ensures forall i :: 0 <= i < |values| ==> r[i] == ToStr(values[i].1)
  {
    if values == [] then [] else [ToStr(values[0].1)] + Texts(values[1..])
  }

  /** `name {sub1 sub2 ...}` */
  function SubfieldBlock(name: string, subfields: Entries): string
  {
    name + " {" + Implode(" ", Texts(subfields)) + "}"
  }

  /**
   * One step of the `getItems` loop: an entry whose value is an array
   * replaces every occurrence of its key in the document found from left to
   * right, skipping any that overlaps one already replaced, by the key
   * followed by its sub-fields; any other entry leaves the document alone.
   */
  function ExpandEntry(doc: string, field: (Key, Value)): (r: string)
    ensures !field.1.Arr? ==> r == doc
    ensures field.1.Arr? && KeyText(field.0) == "" ==> r == doc
    ensures field.1.Arr? && KeyText(field.0) != "" ==>
              r == Implode(SubfieldBlock(KeyText(field.0), field.1.entries), Explode(KeyText(field.0), doc))
  {
    if field.1.Arr? then
      var name := KeyText(field.0);
      if name != "" then
        StrReplaceIsImplodeOfExplode(name, SubfieldBlock(name, field.1.entries), doc);
        StrReplace(name, SubfieldBlock(name, field.1.entries), doc)
      else StrReplace(name, SubfieldBlock(name, field.1.entries), doc)
    else doc
  }

  /** The document after the `getItems` loop has processed `fields` in order. */
  function ExpandedDocument(doc: string, fields: Entries): string
    decreases |fields|
  {
    if fields == [] then doc
    else ExpandEntry(ExpandedDocument(doc, fields[..|fields| - 1]), fields[|fields| - 1])
  }

  /** The entries of `fields` whose value is an array, in order. */
  function ListEntries(fields: Entries): (r: Entries)
    ensures forall i :: 0 <= i < |r| ==> r[i].1.Arr?
    ensures forall e :: e in fields && e.1.Arr? ==> e in r
    ensures forall e :: e in r ==> e in fields
    ensures |r| <= |fields|
    decreases |fields|
  {
    assert fields != [] ==> fields == fields[..|fields| - 1] + [fields[|fields| - 1]];
    if fields == [] then []
    else ListEntries(fields[..|fields| - 1]) + (if fields[|fields| - 1].1.Arr? then [fields[|fields| - 1]] else [])
  }

  /** Only the entries whose value is an array change the document. */
  lemma {:induction false} ExpansionOnlyUsesLists(doc: string, fields: Entries)
    ensures ExpandedDocument(doc, fields) == ExpandedDocument(doc, ListEntries(fields))
    decreases |fields|
  {
    if fields != [] {
      var init, last := fields[..|fields| - 1], fields[|fields| - 1];
      ExpansionOnlyUsesLists(doc, init);
      if last.1.Arr? {
        var lists := ListEntries(init) + [last];
        assert ListEntries(fields) == lists;
        assert lists[..|lists| - 1] == ListEntries(init);
        assert lists[|lists| - 1] == last;
      } else {
        assert ListEntries(fields) == ListEntries(init) + [];
        assert ListEntries(init) + [] == ListEntries(init);
      }
    }
  }

  /** Fields without sub-field lists leave the document unchanged. */
  lemma ExpansionWithoutLists(doc: string, fields: Entries)
    requires forall i :: 0 <= i < |fields| ==> !fields[i].1.Arr?
    ensures ExpandedDocument(doc, fields) == doc
  {
    ExpansionOnlyUsesLists(doc, fields);
    if ListEntries(fields) != [] {
      NoListEntries(fields);
    }
  }

  lemma {:induction false} NoListEntries(fields: Entries)
    requires forall i :: 0 <= i < |fields| ==> !fields[i].1.Arr?
    ensures ListEntries(fields) == []
    decreases |fields|
  {
    if fields != [] {
      NoListEntries(fields[..|fields| - 1]);
    }
  }

  /** The `getItems` loop over `$fields`, rewriting the document at each step. */
  method ExpandSubfieldLists(doc: string, fields: Entries) returns (r: string)
    ensures r == ExpandedDocument(doc, fields)
  {
    r := doc;
    for i := 0 to |fields|
      invariant r == ExpandedDocument(doc, fields[..i])
    {
      var (field, value) := fields[i];
      assert fields[..i + 1][..i] == fields[..i];
      if !value.Arr? {
        continue;
      }
      r := StrReplace(KeyText(field), SubfieldBlock(KeyText(field), value.entries), r);
    }
    assert fields[..|fields|] == fields;
  }

  // ---------------------------------------------------------------------
  // The board client
  // ---------------------------------------------------------------------

  /**
   * `MondayBoard`: the selected board and group, the client it sends
   * through, the query builder and the column value encoder.
   */
  class Board {
    var boardId: Option<int>
    var groupId: Option<string>
    const api: Client
    /** `Query::create` with the object types' argument and field builders */
    const build: Call -> string
    /** `Column::newColumnValues` */
    const columnValues: Entries -> Value

    constructor (debug: bool, build: Call -> string, columnValues: Entries -> Value)
      ensures boardId == None && groupId == None
      ensures fresh(api) && api.debug == debug && api.posted == []
      ensures this.build == build && this.columnValues == columnValues
    {
      boardId := None;
      groupId := None;
      api := new Client(debug);
      this.build := build;
      this.columnValues := columnValues;
    }

    /** `on($board_id)`: selects the board and returns the same object. */
    method On(id: int) returns (self: Board)
      modifies this`boardId
      ensures boardId == Some(id) && groupId == old(groupId)
      ensures self == this
    {
      boardId := Some(id);
      self := this;
    }

    /** `group($group_id)`: selects the group and returns the same object. */
    method Group(id: string) returns (self: Board)
      modifies this`groupId
      ensures groupId == Some(id) && boardId == old(boardId)
      ensures self == this
    {
      groupId := Some(id);
      self := this;
    }

    /** `create(...)`: creates a board and returns its id, or `false`. */
    method Create(boardName: string, boardKind: string, optionals: Entries, reply: Fetch) returns (id: Value)
      modifies api
      ensures api.posted == old(api.posted) + [PostedBody(Mutation, build(CreateBoardCall(boardName, boardKind, optionals)))]
      ensures id == Dig(Response(reply), ["create_board", "id"], Bool(false))
    {
      var create := build(CreateBoardCall(boardName, boardKind, optionals));
      var response := api.Request(Mutation, create, reply);
      id := Dig(response, ["create_board", "id"], Bool(false));
    }

    /** `archiveBoard($fields)`: archives the selected board (sent even when none is selected). */
    method ArchiveBoard(fields: Entries, reply: Fetch) returns (r: Value)
      modifies api
      ensures api.posted == old(api.posted) + [PostedBody(Mutation, build(ArchiveBoardCall(boardId, fields)))]
      ensures r == Response(reply)
    {
      r := api.Request(Mutation, build(ArchiveBoardCall(boardId, fields)), reply);
    }

    /** `getBoards($arguments, $fields)`: queries boards, defaulting `ids` to the selected board. */
    method GetBoards(arguments: Entries, fields: Entries, reply: Fetch) returns (boards: Value)
      modifies api
      ensures api.posted == old(api.posted) + [PostedBody(Query, build(BoardsCall(BoardsArguments(arguments, boardId), fields)))]
      ensures boards == Dig(Response(reply), ["boards"], Arr([]))
    {
      var response := api.Request(Query, build(BoardsCall(BoardsArguments(arguments, boardId), fields)), reply);
      boards := Dig(response, ["boards"], Arr([]));
    }

    /** `getColumns($fields)`: one boards query with the columns query nested as its field. */
    method GetColumns(fields: Entries, reply: Fetch) returns (r: Value)
      modifies api
      ensures api.posted == old(api.posted) +
                [PostedBody(Query, build(BoardColumnsCall(boardId, build(ColumnsCall(fields)))))]
      ensures r == Response(reply)
    {
      var columns := build(ColumnsCall(fields));
      var boards := build(BoardColumnsCall(boardId, columns));
      r := api.Request(Query, boards, reply);
    }

    /** `createGroup($name)`: `false` without a board, else the new group's id or `false`. */
    method CreateGroup(groupName: string, reply: Fetch) returns (id: Value)
      modifies api
      ensures !BoardChosen(boardId) ==> id == Bool(false) && api.posted == old(api.posted)
      ensures BoardChosen(boardId) ==>
                && api.posted == old(api.posted) + [PostedBody(Mutation, build(CreateGroupCall(groupName, boardId.value)))]
                && id == Dig(Response(reply), ["create_group", "id"], Bool(false))
    {
      if !Truthy(BoardIdValue(boardId)) {
        return Bool(false);
      }
      var response := api.Request(Mutation, build(CreateGroupCall(groupName, boardId.value)), reply);
      id := Dig(response, ["create_group", "id"], Bool(false));
    }

    /** `createColumn($name, $type, $description)`: `false` without a board. */
    method CreateColumn(title: string, columnType: string, description: string, reply: Fetch) returns (id: Value)
      modifies api
      ensures !BoardChosen(boardId) ==> id == Bool(false) && api.posted == old(api.posted)
      ensures BoardChosen(boardId) ==>
                && api.posted == old(api.posted) +
                     [PostedBody(Mutation, build(CreateColumnCall(title, columnType, description, boardId.value)))]
                && id == Dig(Response(reply), ["create_column", "id"], Bool(false))
    {
      if !Truthy(BoardIdValue(boardId)) {
        return Bool(false);
      }
      var response := api.Request(Mutation, build(CreateColumnCall(title, columnType, description, boardId.value)), reply);
      id := Dig(response, ["create_column", "id"], Bool(false));
    }

    /** `getItems($arguments, $fields)`: queries items, expanding sub-field lists in the document. */
    method GetItems(arguments: Entries, fields: Entries, reply: Fetch) returns (items: Value)
      modifies api
      ensures api.posted == old(api.posted) +
                [PostedBody(Query, ExpandedDocument(build(ItemsCall(arguments, fields)), fields))]
      ensures items == Dig(Response(reply), ["items"], Arr([]))
    {
      var doc := build(ItemsCall(arguments, fields));
      doc := ExpandSubfieldLists(doc, fields);
      var response := api.Request(Query, doc, reply);
      items := Dig(response, ["items"], Arr([]));
    }

    /** `addItem(...)`: `-1` without a board and a group, else the new item's id or `false`. */
    method AddItem(itemName: string, columns: Entries, createLabels: Value, reply: Fetch) returns (id: Value)
      modifies api
      ensures !(BoardChosen(boardId) && GroupChosen(groupId)) ==> id == Int(-1) && api.posted == old(api.posted)
      ensures BoardChosen(boardId) && GroupChosen(groupId) ==>
                && api.posted == old(api.posted) +
                     [PostedBody(Mutation, LabelPatch(build(AddItemCall(boardId.value, groupId.value, itemName, columnValues(columns))),
                                                      Truthy(createLabels)))]
                && id == Dig(Response(reply), ["create_item", "id"], Bool(false))
    {
      if !Truthy(BoardIdValue(boardId)) || !Truthy(GroupIdValue(groupId)) {
        return Int(-1);
      }
      var create := build(AddItemCall(boardId.value, groupId.value, itemName, columnValues(columns)));
      if Truthy(createLabels) {
        create := StrReplace(LabelSearch, LabelReplacement, create);
      }
      var response := api.Request(Mutation, create, reply);
      id := Dig(response, ["create_item", "id"], Bool(false));
    }

    /** `addSubItem(...)`: no guard; returns the whole classified reply. */
    method AddSubItem(parentItemId: int, itemName: string, columns: Entries, createLabels: Value, reply: Fetch)
      returns (r: Value)
      modifies api
      ensures api.posted == old(api.posted) +
                [PostedBody(Mutation, LabelPatch(build(AddSubItemCall(parentItemId, itemName, columnValues(columns))),
                                                 Truthy(createLabels)))]
      ensures r == Response(reply)
    {
      var create := build(AddSubItemCall(parentItemId, itemName, columnValues(columns)));
      if Truthy(createLabels) {
        create := StrReplace(LabelSearch, LabelReplacement, create);
      }
      r := api.Request(Mutation, create, reply);
    }

    /** `archiveItem($item_id)` */
    method ArchiveItem(itemId: int, reply: Fetch) returns (r: Value)
      modifies api
      ensures api.posted == old(api.posted) + [PostedBody(Mutation, build(ItemByIdCall("archive_item", itemId)))]
      ensures r == Response(reply)
    {
      r := api.Request(Mutation, build(ItemByIdCall("archive_item", itemId)), reply);
    }

    /** `deleteItem($item_id)` */
    method DeleteItem(itemId: int, reply: Fetch) returns (r: Value)
      modifies api
      ensures api.posted == old(api.posted) + [PostedBody(Mutation, build(ItemByIdCall("delete_item", itemId)))]
      ensures r == Response(reply)
    {
      r := api.Request(Mutation, build(ItemByIdCall("delete_item", itemId)), reply);
    }

    /**
     * `changeMultipleColumnValues(...)`: `-1` without a board and a group,
     * although only the board is sent.
     */
    method ChangeMultipleColumnValues(itemId: int, values: Entries, reply: Fetch) returns (id: Value)
      modifies api
      ensures !(BoardChosen(boardId) && GroupChosen(groupId)) ==> id == Int(-1) && api.posted == old(api.posted)
      ensures BoardChosen(boardId) && GroupChosen(groupId) ==>
                && api.posted == old(api.posted) +
                     [PostedBody(Mutation, build(ChangeColumnValuesCall(boardId.value, itemId, columnValues(values))))]
                && id == Dig(Response(reply), ["change_multiple_column_values", "id"], Bool(false))
    {
      if !Truthy(BoardIdValue(boardId)) || !Truthy(GroupIdValue(groupId)) {
        return Int(-1);
      }
      var create := build(ChangeColumnValuesCall(boardId.value, itemId, columnValues(values)));
      var response := api.Request(Mutation, create, reply);
      id := Dig(response, ["change_multiple_column_values", "id"], Bool(false));
    }
  }
}
