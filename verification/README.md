# monday-api board client, modelled in Dafny

This project models the PHP client for the monday.com GraphQL API,
`TBlack\MondayAPI`. It covers the two classes that hold the client's own logic.

- **`MondayAPI`** (module `MondayApi`, class `Client`) prepares each request
  before sending it. It removes every carriage return and line feed from the
  document and wraps it as `<keyword> { <document> } `, where the keyword is
  `query` or `mutation`. It hands that text to `json_encode` under the key
  `query`. It then sorts the decoded reply three ways: the `data` member, else
  an `errors` array, else `false`.
- **`MondayBoard`** (module `MondayBoard`, class `Board`) holds the selected
  board and group. Both start as `false` and are set by the fluent `on` and
  `group`. Before building a mutation, it checks them:
  - `createGroup` and `createColumn` return `false` without a board.
  - `addItem` and `changeMultipleColumnValues` return `-1` unless both a board
    and a group are selected.
- It assembles the argument arrays and calls the query builder. It then
  rewrites the built document with plain `str_replace`:
  - `getItems` expands sub-field lists.
  - `addItem` and `addSubItem` inject `create_labels_if_missing:true`.
- Finally it digs the created id out of the reply with `??`.

The query builder is not part of this model. This means `Query::create`,
`Query::buildArguments`, the object types' `getArguments` and `getFields`, and
`Column::newColumnValues`. A `Call` value records exactly what the board passes
to the builder. The `Board` is constructed with two opaque functions:
- `build: Call -> string` stands in for the builder.
- `columnValues: Entries -> Value` stands in for the column value encoder.

Nothing about their output format is assumed.

The model also needs the PHP semantics this code relies on. Modules
`PhpArrays` and `PhpStrings` provide them:
- ordered arrays with integer or string keys;
- `isset`, `$a[$k] = $v`, `array_merge` and `??` chains;
- truthiness and string conversion;
- `str_replace`, `implode`, `addslashes` and `stripslashes`.

`str_replace` is proved equal to `implode($replace,
explode($search, $subject))`. `explode` is defined on its own. It is proved to cut
at every occurrence found from left to right, skipping any that overlaps one
already cut, as PHP does:
- gluing the pieces back gives the subject;
- no piece contains the search string;
- no occurrence starts inside a piece and runs into the separator after it.

The network is a parameter. Each sending method takes the `Fetch` the server
answers with: either a failed fetch, or a body together with what `json_decode`
makes of it. The client keeps `posted`, the list of bodies it has handed to the
transport. This lets every method state what it sent, or that it sent nothing.

On these points the model follows the code:
- A missing board or group gives the sentinel `false` or `-1`, not an error.
- The query text ends in `" } "`, with a trailing space.
- The board kind is spliced into the arguments as raw, unquoted text.

## Model

| member | source | states |
|---|---|---|
| `PhpArrays.Assign` | src/MondayAPI/MondayBoard.php:74 | `$a[$k] = $v` stores `v` under `k` and leaves every other key's lookup unchanged. An existing key keeps its position; a new key is appended. Key uniqueness is preserved. |
| `PhpArrays.ArrayMergeDisjointStringKeys` | src/MondayAPI/MondayBoard.php:41 | `array_merge` of two string-keyed arrays with no key in common is the first array's entries followed by the second's, each in its own order. |
| `PhpArrays.MergeAfterHead` | src/MondayAPI/MondayBoard.php:41 | Merging string-keyed entries after a one-entry head: an entry under the head's key replaces the head's value in place, and the other entries follow in their own order. |
| `PhpArrays.ArrayMergeStringKeys` | src/MondayAPI/MondayBoard.php:41 | For string keys, `array_merge($a, $b)` takes the value from `b` where `b` has the key, else from `a`. A leading string key of `a` stays first. |
| `PhpArrays.Dig` | src/MondayAPI/MondayBoard.php:49 | `$v[p0][p1]... ?? $default` is the value `PathValue` reaches when every step is an array holding the key with a non-null value, and `default` otherwise. `PathValue` follows the path one key at a time from the last step back, independently of `Dig`. |
| `PhpArrays.PathValueFirstStep` | src/MondayAPI/MondayBoard.php:49 | Following a path is taking the first key and following the rest from there. |
| `PhpArrays.DigTwoSteps` | src/MondayAPI/MondayBoard.php:49 | `$v['a']['b'] ?? $default` is the value under `b` in the array under `a` when both are set and non-null, and `default` in every other case, a missing or non-array `a` included. |
| `PhpStrings.StrReplaceIsImplodeOfExplode` | src/MondayAPI/MondayBoard.php:165 | `str_replace` equals imploding with the replacement over the pieces that `explode` cuts. The cuts fall at every occurrence of the search string found from left to right, skipping any that overlaps one already cut. |
| `PhpStrings.ImplodeExplode` | src/MondayAPI/MondayBoard.php:192 | Imploding the pieces with the search string gives back the original document. |
| `PhpStrings.ExplodePiecesAvoidSeparator` | src/MondayAPI/MondayBoard.php:192 | No piece contains the search string. |
| `PhpStrings.ExplodeCutsLeftmost` | src/MondayAPI/MondayBoard.php:165 | No occurrence of the search string starts inside a piece and runs into the following separator, so each cut is at the leftmost occurrence still available. With glue-back and separator-free pieces, this fixes the pieces exactly. An occurrence overlapping one already cut (`aa` at index 1 of `aaa`) is skipped, as PHP's `str_replace` skips it. |
| `PhpStrings.StrReplaceAbsent` | src/MondayAPI/MondayBoard.php:191-193 | A document without the search string comes back unchanged. |
| `PhpStrings.AddSlashes` | src/MondayAPI/MondayBoard.php:179 | `addslashes` adds exactly one character per `'`, `"`, `\` or NUL. No NUL is left, and every `'` and `"` in the result has a backslash before it. A name without any of these characters is unchanged. |
| `PhpStrings.StripSlashesUndoesAddSlashes` | src/MondayAPI/MondayBoard.php:179 | `stripslashes(addslashes($s)) == $s`: the escaped item name decodes back to the caller's name. |
| `MondayApi.StripLineBreaks` | src/MondayAPI/MondayAPI.php:55 | Removing `\r` and then `\n` with `str_replace` leaves neither character. It keeps every other character in order and with its count, and a document without line breaks is unchanged. |
| `MondayApi.StripLineBreaksIdempotent` | src/MondayAPI/MondayAPI.php:55 | Stripping twice equals stripping once. |
| `MondayApi.QueryTextRoundTrip` | src/MondayAPI/MondayAPI.php:34-40 | From the text `<keyword> { <request> } ` both the keyword (`query` or `mutation`) and the request can be read back. |
| `MondayApi.PostedBodyIsSingleLine` | src/MondayAPI/MondayAPI.php:55 | The posted body is `{query: text}`. The text has no line break and yields the keyword and the stripped document. It does not depend on the debug flag. |
| `MondayApi.Member` | src/MondayAPI/MondayAPI.php:69-72 | `isset($json[key])` holds exactly when the decoded reply is an array and the key is present with a non-null value. The member's value is then `$json[key]`. |
| `MondayApi.Response` | src/MondayAPI/MondayAPI.php:62-76 | A failed fetch or a falsy body (`""` or `"0"`) gives `false`. A non-null `data` is returned even when `errors` is present. Otherwise an `errors` that is an array is returned, and in every other case (a non-array `errors` included) `false`. The result is never null. |
| `MondayApi.Client.constructor` | src/MondayAPI/MondayAPI.php:16-19 | Stores the debug flag; nothing has been posted yet. |
| `MondayApi.Client.Request` | src/MondayAPI/MondayAPI.php:42-60 | Posts exactly one body, the stripped document wrapped by `content`, and returns the classified reply. |
| `MondayBoard.BoardChosen` | src/MondayAPI/MondayBoard.php:114 | `!empty($this->board_id)` holds exactly when a board is selected and it is not 0. |
| `MondayBoard.GroupChosen` | src/MondayAPI/MondayBoard.php:173 | A truthy `$this->group_id` means a group is selected and it is neither `""` nor `"0"`. |
| `MondayBoard.BoardsArguments` | src/MondayAPI/MondayBoard.php:73-75 | `ids` becomes the selected board only when a board is selected and the caller's `ids` is not set; the other keys are untouched. With no board, or with a caller-set `ids`, the array is passed unchanged. |
| `MondayBoard.BoardZeroSelectedButNotChosen` | src/MondayAPI/MondayBoard.php:73-75 | Board 0 still sets `ids` for `getBoards` (`!== false`), yet the `empty` guards treat it as no board. |
| `MondayBoard.CreateArgumentsLayout` | src/MondayAPI/MondayBoard.php:41 | `board_name` is the first argument. An optional `board_name` overrides the positional one, even a null one. Every other string key carries the optional's value. |
| `MondayBoard.CreateArgumentsOrder` | src/MondayAPI/MondayBoard.php:41 | For string-keyed optionals, the arguments are `board_name` followed by the optionals in their own order. An optional `board_name` gives the first entry its value and is not repeated further on. |
| `MondayBoard.CreateGroupArgumentsFitPreset` | src/MondayAPI/ObjectTypes/Group.php:13-16 | `createGroup`'s arguments are exactly `board_id` (an int) and `group_name` (a string), the group create preset. |
| `MondayBoard.AddItemNameRoundTrip` | src/MondayAPI/MondayBoard.php:176-181 | `addItem` sends `item_name` escaped by `addslashes`, and unescaping it gives the caller's name back. |
| `MondayBoard.ColumnValuesChangeOmitsGroup` | src/MondayAPI/MondayBoard.php:251-255 | `changeMultipleColumnValues` sends `board_id` but no `group_id`, while `addItem` sends the group. |
| `MondayBoard.LabelPatch` | src/MondayAPI/MondayBoard.php:191-193 | Without the flag the document is unchanged. With it, the document is cut at every `}"){` (no piece keeps one) and glued back with `}", create_labels_if_missing:true){`. A document without `}"){` is unchanged either way. |
| `MondayBoard.ExpandEntry` | src/MondayAPI/MondayBoard.php:160-166 | An entry whose value is not an array leaves the document unchanged. A list entry replaces its key by `key {s1 s2 ...}` at every occurrence found from left to right, skipping any that overlaps one already replaced (`ExplodeCutsLeftmost`), as PHP's `str_replace` does. An empty key replaces nothing. |
| `MondayBoard.ExpansionOnlyUsesLists` | src/MondayAPI/MondayBoard.php:160-166 | Expanding with all fields equals expanding with only the list-valued fields, in their order. `ListEntries` keeps every list-valued entry and nothing else. |
| `MondayBoard.ExpansionWithoutLists` | src/MondayAPI/MondayBoard.php:161-163 | Fields without sub-field lists leave the document unchanged. |
| `MondayBoard.ExpandSubfieldLists` | src/MondayAPI/MondayBoard.php:160-166 | The loop over `$fields` produces the document that the entries, applied one after another, define. |
| `MondayBoard.Board.constructor` | src/MondayAPI/MondayBoard.php:15-16 | Board and group both start as `false`, and nothing has been posted. |
| `MondayBoard.Board.On` | src/MondayAPI/MondayBoard.php:18-22 | Selects the board, leaves the group unchanged and returns the same object. |
| `MondayBoard.Board.Group` | src/MondayAPI/MondayBoard.php:24-28 | Selects the group, leaves the board unchanged and returns the same object. |
| `MondayBoard.Board.Create` | src/MondayAPI/MondayBoard.php:37-50 | Posts one `create_board` mutation with the merged arguments and the raw ` board_kind:<kind>, ` text, then returns `create_board.id` or `false`. |
| `MondayBoard.Board.ArchiveBoard` | src/MondayAPI/MondayBoard.php:52-67 | Posts `archive_board` for the selected board (`false` if none) and returns the reply. |
| `MondayBoard.Board.GetBoards` | src/MondayAPI/MondayBoard.php:69-84 | Posts the boards query with `ids` defaulted as described and returns `boards`, or `[]`. |
| `MondayBoard.Board.GetColumns` | src/MondayAPI/MondayBoard.php:86-104 | Posts one boards query whose only field is the built columns query, and returns the reply. |
| `MondayBoard.Board.CreateGroup` | src/MondayAPI/MondayBoard.php:111-127 | Without a board it returns `false` and posts nothing. Otherwise it posts `create_group` and returns `create_group.id` or `false`. |
| `MondayBoard.Board.CreateColumn` | src/MondayAPI/MondayBoard.php:129-147 | Without a board it returns `false` and posts nothing. Otherwise it posts `create_column` with the raw ` column_type:<type>, ` text and returns the id or `false`. |
| `MondayBoard.Board.GetItems` | src/MondayAPI/MondayBoard.php:150-169 | Posts the items query after sub-field expansion and returns `items`, or `[]`. |
| `MondayBoard.Board.AddItem` | src/MondayAPI/MondayBoard.php:171-196 | Without both a board and a group it returns `-1` and posts nothing. Otherwise it posts `create_item` (label-patched when the flag is truthy) and returns the id or `false`. |
| `MondayBoard.Board.AddSubItem` | src/MondayAPI/MondayBoard.php:198-218 | Has no guard. Posts `create_subitem` with the raw item name, label-patched when the flag is truthy, and returns the reply. |
| `MondayBoard.Board.ArchiveItem` | src/MondayAPI/MondayBoard.php:220-231 | Posts `archive_item` for the item id and returns the reply. |
| `MondayBoard.Board.DeleteItem` | src/MondayAPI/MondayBoard.php:233-244 | Posts `delete_item` for the item id and returns the reply. |
| `MondayBoard.Board.ChangeMultipleColumnValues` | src/MondayAPI/MondayBoard.php:246-266 | Without both a board and a group it returns `-1` and posts nothing, even though the group is never sent. Otherwise it posts the change and returns the id or `false`. |

## Left out

- `Query::create`, `Query::buildArguments`, `getArguments`, `getFields`, the object types' `$scope` values and argument presets other than the group's, and `Column::newColumnValues` are not part of this model. They appear only as the opaque `build` and `columnValues` functions and the `Call` record.
- `BoardKind::PRV`, the default board kind, is not part of this model, so `Create` always takes the kind explicitly.
- The HTTP transport is outside the model: `file_get_contents`, `stream_context_create`, the header list, the API URL and the API version. The server's answer is a parameter of each sending method.
- `json_encode` and `json_decode` are outside the model. `Content` gives the value that would be encoded, and the decoded reply arrives with the `Fetch`. The model has no JSON floats, and assumes keys are already normalised (numeric strings turned into integer keys).
- `printDebug` echoes HTML and is left out. The debug flag is stored, and the posted body does not depend on it.
- `setToken` and `Token` are authentication plumbing and are left out.
- `customQuery` and `customMutation` only pass their argument to `request` and are left out.
- `MondayApi.Client.Request`: the document is a string. The default `null` document of `request` is not modelled.
- `MondayBoard.Board.On` takes an `int`. PHP's coercion of other argument types under non-strict typing is not modelled.
- `MondayBoard.Board.Create`: returns the extracted id as decoded. The file does not declare `strict_types`, so PHP coerces the id to the declared `int|bool` return type. A numeric-string id becomes an int, a non-numeric string becomes `true`, and only an array id raises `TypeError`. None of this is modelled.
- `MondayBoard.Board.CreateGroup`: returns the extracted id as decoded. The coercion to the declared `string|bool` return type is not modelled.
- `MondayBoard.Board.CreateColumn`: returns the extracted id as decoded. The coercion to the declared `string|bool` return type is not modelled.
- `MondayBoard.Board.AddItem`: returns the extracted id as decoded. The coercion to the declared `int|false` return type is not modelled.
- `MondayBoard.Board.ChangeMultipleColumnValues`: returns the extracted id as decoded. The coercion to the declared `int|false` return type is not modelled.
- `MondayBoard.Board.GetBoards`: returns the `boards` member as decoded. The declared `array` return type raises `TypeError` for a non-array `boards`; this is not modelled.
- `MondayBoard.Board.GetItems`: returns the `items` member as decoded. The declared `array` return type raises `TypeError` for a non-array `items`; this is not modelled.
- `MondayBoard.Board.CreateColumn`: takes the column type and description explicitly. The defaults `'text'` and `''` are not modelled.
- `MondayBoard extends MondayAPI` is modelled by composition, because Dafny classes do not inherit. A `Board` owns a `Client` and sends through it.
- `PhpArrays.ArrayMergeStringKeys`, `MondayBoard.CreateArgumentsLayout` and `MondayBoard.CreateArgumentsOrder` assume the arrays have unique keys. That is always true of a PHP array, but not of every sequence of pairs.
- `MondayBoard.CreateArgumentsOrder` states the order only for string-keyed optionals. The renumbering and appending of integer keys by `array_merge` is defined in `MergeEntries`, but has no lemma.
