# ZMK keymap importer, keymap store and layout helpers of keyboard-3d, in Dafny

keyboard-3d shows a 42-key split keyboard in 3D. It imports ZMK firmware
keymaps (`.keymap` text in devicetree-source style) and keeps the edited keymap
in a small state store. This project models four parts of it and proves
properties of each model.

- **The ZMK importer** (`lib/zmk-parser.js`):
  - It strips comments and collapses white space.
  - It cuts out the `keymap { … }` body and scans the `name { … bindings = < … >` layers.
  - It splits each layer's bindings into `&…` tokens.
  - It classifies each token into a `Binding` record, labelling key codes from its table ZMK_KEY_LABELS.
  - It lays the 42 bindings of each layer onto key ids `L{layer}_R{row}C{col}`. The six thumb keys sit in columns 0-2 and 9-11.
  - It wraps failures in one message.
  - It separately collects advisory validation errors.

  Each regular expression becomes a scanner with the same semantics:
  - `/i` folds ASCII letters only.
  - `\s` is the ECMAScript white-space set.
  - Greedy and leftmost matching behave as the regular expression does. So the keymap body ends at the first `}`, and the last `bindings = <…>` of a layer wins.

  Module `Text` holds the string primitives, `ZmkBinding` the token classifier, `ZmkExtract` the layer extraction and `ZmkParser` the layout, parse and validate steps. The extraction loop, the layout loops and the validation loops are methods. Each is proved equal to a specification function, and the properties are proved about those functions.
- **The keymap store** (`lib/zmk-store.ts`): six state cells and the actions that update them. Module `ZmkStore` models them as the class `KeymapStore`. Its fields are the cells and its methods are the actions. Each method states its whole new state and keeps `keymap.layers` equal to `layers`. The new layer lists are pure functions with their own lemmas.
- **The layout helpers** (`lib/keyboard-utils.ts`), in module `KeyboardUtils`:
  - the key-id formatter and the prefix rule for binding types;
  - the find and filter lookups;
  - the row-by-row layout order, the layout checker and the default keymap.

  The helpers read a layout data file that is not part of this model, so the key list and the layout metadata are parameters.
- **The 3D view's names** (`lib/keyboard-config.ts`), in module `KeyboardConfig`: the two lookup tables and `extractKeyName`, which reads a key name off a keycap node name.

Shared records and the layout constants (`lib/keyboard-types.ts`, and `lib/keyboard-constants.js`, which the importer loads and which holds the same values as `lib/keyboard-constants.ts`) are in module `KeyboardTypes`. A thrown `Error` is modelled as the `Err` case of a `Result`, and `null`/`undefined` as `None`.
The optional fields of a layout key (`KeyData`: id, binding, label, position, rotation, mesh name) are `Option`s, so an absent field differs from the empty string. As JavaScript does, a template literal shows an absent id as "undefined" (`KeyboardUtils.Shown`), `join` writes it as "" (`KeyboardUtils.JoinedText`), and `!field` holds for an absent field and for "" (`KeyboardUtils.Falsy`).

Some behaviour of the code is easy to misread, and the model follows the code:
- When a file has no `keymap { … }` body, the validator reports the extraction error "No keymap block found in file". "No layers found" appears only when a keymap body holds no layer.
- The keymap body ends at the first `}`. Layer blocks are `{ … }` groups inside the keymap, so in a file that nests them only the text up to the first layer's closing brace is scanned.
- Within one layer block, the last `bindings = < … >` is the one used.
- The empty-binding check (`Layer i has empty binding at position j`) cannot fire on extracted tokens: every token starts with `&` and is already trimmed (ZmkParser.NoEmptyBindingErrors).

## Model

| member | source | states |
|---|---|---|
| KeyboardTypes.RowCountsMatchTotal | lib/keyboard-constants.js:5-24 | the four rows of 12, 12, 12 and 6 keys hold exactly the 42 keys, and no row is wider than the 12 columns |
| ZmkBinding.ZmkKeyLabels | lib/zmk-parser.js:26-80 | the 53 entries of ZMK_KEY_LABELS and none for any other code; no label is empty, so the importer's fallback from the label to the code itself applies exactly to a code the table lacks |
| ZmkBinding.ParseBinding | lib/zmk-parser.js:84-183 | computes the classification; its contract is split over ParseRendered (every rendering parses to its meaning) and PassThroughIff (a token falls back exactly when it is no rendering) |
| ZmkBinding.ParseRendered | lib/zmk-parser.js:84-177 | every well-formed binding (&kp, &mo, &mt, &lt, &tog, &sk, &combo_, &trans, &none) parses to its meaning: upper-cased code, label from the ZMK label table or the code itself, and the type of its kind. The behaviour name may be in any mix of letter case, and the white-space run after the name and the one between two arguments are chosen independently |
| ZmkBinding.ParseRenderedKp | lib/zmk-parser.js:102-111 | `&kp K`, the name in any letter case and any white-space run before K, gives code upper(K), label ZMK_KEY_LABELS[code] or the code, type keycode |
| ZmkBinding.ParseRenderedMo | lib/zmk-parser.js:112-121 | `&mo N`, the name in any letter case and any white-space run before N, gives "MO(N)", label "LN", type layer, with the digits kept verbatim |
| ZmkBinding.ParseRenderedMt | lib/zmk-parser.js:122-134 | `&mt M K`, the name in any letter case and two independent white-space runs before M and before K, gives "MT(M, K)" upper-cased, label "modLabel/keyLabel", type modifier |
| ZmkBinding.ParseRenderedLt | lib/zmk-parser.js:135-146 | `&lt N K`, the name in any letter case and two independent white-space runs before N and before K, gives "LT(N, K)", label "LN/keyLabel", type layer |
| ZmkBinding.ParseRenderedTog | lib/zmk-parser.js:147-156 | `&tog N`, the name in any letter case and any white-space run before N, gives "TG(N)", label "TGN", type layer |
| ZmkBinding.ParseRenderedSk | lib/zmk-parser.js:157-167 | `&sk M`, the name in any letter case and any white-space run before M, gives "SK(M)", label "SK(modLabel)", type modifier |
| ZmkBinding.ParseRenderedCombo | lib/zmk-parser.js:168-177 | `&combo_x`, with `&combo_` in any letter case, gives "COMBO_" + upper(x), label x as written, type combo |
| ZmkBinding.ParseBindingIgnoresPadding | lib/zmk-parser.js:84-85 | the classifier works on the trimmed token: surrounding white space never changes the result |
| ZmkBinding.UnknownPassesThrough | lib/zmk-parser.js:178-183 | any token whose trimmed text is no rendering of a binding (an unknown behaviour, a missing or malformed argument) comes back with code and label equal to the trimmed token and type keycode |
| ZmkBinding.ClassifiedIsRendering | lib/zmk-parser.js:84-183 | every token either falls back to itself or its trimmed text is a rendering of some well-formed binding |
| ZmkBinding.MeaningIsNotPassThrough | lib/zmk-parser.js:86-177 | the meaning of a rendered binding never equals the fallback of its own text |
| ZmkBinding.PassThroughIff | lib/zmk-parser.js:84-183 | for every token, the fallback result comes back exactly when the trimmed token is not the rendering of any well-formed binding (both directions) |
| ZmkBinding.ExampleKeypressTab | lib/zmk-parser.js:102-111 | "&kp TAB" gives {TAB, "⇥", keycode} |
| ZmkBinding.ExampleUpperCaseKeypress | lib/zmk-parser.js:102-111 | "&KP tab" gives {TAB, "⇥", keycode}: the name is matched ignoring case and the key is upper-cased |
| ZmkBinding.ExampleMomentary | lib/zmk-parser.js:112-121 | "&mo 1" gives {"MO(1)", "L1", layer} |
| ZmkBinding.ExampleModTap | lib/zmk-parser.js:122-134 | "&mt LSHIFT\tA" (a tab between the arguments) gives {"MT(LSHIFT, A)", "⇧/A", modifier} |
| ZmkBinding.ExampleTransparent | lib/zmk-parser.js:86-93 | "&trans" and "&TRANS" give {TRANS, "▽", keycode}, checked before every other pattern |
| ZmkBinding.ExampleNone | lib/zmk-parser.js:94-101 | "&none" gives {NONE, "", keycode} |
| ZmkBinding.ExampleNoneUpperCase | lib/zmk-parser.js:94-101 | "&NONE" gives {NONE, "", keycode} |
| ZmkBinding.ExampleUnknown | lib/zmk-parser.js:178-183 | "&foo BAR" matches none of the seven patterns and passes through as {"&foo BAR", "&foo BAR", keycode} |
| ZmkBinding.ExampleMissingArgument | lib/zmk-parser.js:178-183 | "&kp" without a key passes through as {"&kp", "&kp", keycode} |
| ZmkExtract.Clean | lib/zmk-parser.js:191-195 | computes the cleaned text; its contract is CleanCharacters and CleanSpacing |
| ZmkExtract.StripBlockComments | lib/zmk-parser.js:192 | removing block comments never lengthens the text or adds a character |
| ZmkExtract.StripLineComments | lib/zmk-parser.js:193 | removing line comments never lengthens the text or adds a character |
| ZmkExtract.NoSlashPairLeft | lib/zmk-parser.js:193 | after line comments are removed no `/` is followed by another `/`, and a leading `/` of the result is a lone `/` of the input |
| ZmkExtract.LineCommentsGone | lib/zmk-parser.js:193 | removing line comments leaves no `//` in the text |
| ZmkExtract.CollapseSpaces | lib/zmk-parser.js:194 | every white-space run becomes one space: no other white space remains and no two spaces are adjacent |
| ZmkExtract.CleanCharacters | lib/zmk-parser.js:191-195 | the cleaned text holds only characters of the input, plus spaces |
| ZmkExtract.CleanSpacing | lib/zmk-parser.js:191-195 | the cleaned text has single spaces only and neither starts nor ends with one |
| ZmkExtract.KeymapBody | lib/zmk-parser.js:197-201 | the keymap body is non-empty and never contains `}` |
| ZmkExtract.FindKeymap | lib/zmk-parser.js:197 | the keymap pattern is taken at its leftmost match, and none exists when the search fails |
| ZmkExtract.LastBindings | lib/zmk-parser.js:203 | the greedy `[^}]*bindings` picks the last `bindings = <…>` before the layer's closing brace |
| ZmkExtract.LastBindingsWin | lib/zmk-parser.js:203 | any `bindings = <…>` that is followed, before the brace, by no `}` is the one the layer match uses |
| ZmkExtract.CollectLayers | lib/zmk-parser.js:205-215 | the `exec` loop collects exactly the layers of the successive matches |
| ZmkExtract.ExtractLayers | lib/zmk-parser.js:188-217 | extraction equals its specification: clean, find the body, collect the layers, or fail with "No keymap block found in file" |
| ZmkExtract.ExtractFailsIffNoKeymap | lib/zmk-parser.js:197-200 | extraction fails exactly when the keymap pattern matches nowhere in the cleaned text, and then with that message |
| ZmkExtract.MatchesOrdered | lib/zmk-parser.js:205 | the layers come out in source order and do not overlap |
| ZmkExtract.MatchesSkipNothing | lib/zmk-parser.js:205 | no layer match is skipped between the matches found or after the last one |
| ZmkExtract.TokensWellFormed | lib/zmk-parser.js:209-210 | every token is at least two characters long, starts with `&` and ends in a non-space |
| ZmkExtract.LayerTokensWellFormed | lib/zmk-parser.js:205-214 | every binding of every collected layer starts with `&` and is its own trim |
| ZmkExtract.NoKeymapWithoutK | lib/zmk-parser.js:197-200 | a text without the letter k has no keymap block |
| ZmkParser.SlotRoundTrip | lib/zmk-parser.js:231-257 | the k-th binding goes to a valid grid slot, and that slot's index is k |
| ZmkParser.SlotRoundTripBack | lib/zmk-parser.js:231-257 | every valid slot (rows 0-2 by columns 0-11, plus row 3 columns 0-2 and 9-11) is the slot of exactly one binding index |
| ZmkParser.KeyIdInjective | lib/zmk-parser.js:244-250 | `L{layer}_R{row}C{col}` ids of different positions differ |
| ZmkParser.StoredContents | lib/zmk-parser.js:225-256 | filling the key map from distinct ids stores each value under its id and nothing else |
| ZmkParser.RowSlot | lib/zmk-parser.js:233-256 | the running binding index of the nested row and column loops lands on the slot at that row, with the thumb row's right half moved by six columns |
| ZmkParser.LayerKeys | lib/zmk-parser.js:231-257 | the nested loops build exactly the layer's key map |
| ZmkParser.FirstBadLayer | lib/zmk-parser.js:224-229 | the first layer without 42 bindings is found, and all layers before it have 42 |
| ZmkParser.NormalizeLayout | lib/zmk-parser.js:222-264 | the loop over layers equals its specification: the first layer without 42 bindings raises its count error, otherwise every layer is normalized |
| ZmkParser.NormalizeOkIff | lib/zmk-parser.js:222-264 | normalizing succeeds exactly when every layer has 42 bindings and keeps the layer count; otherwise the error is `Layer "name" has n bindings, expected 42` for the first bad layer |
| ZmkParser.NormalizedPrefixAt | lib/zmk-parser.js:258-262 | the i-th normalized layer is built from the i-th raw layer |
| ZmkParser.LayerKeyMapShape | lib/zmk-parser.js:231-257 | each layer gets exactly 42 keys, an id is present exactly for a valid slot, and the binding at a slot is the parsed binding of its row-major index |
| ZmkParser.NormalizedLayerAt | lib/zmk-parser.js:222-264 | on success layer i has id = decimal i, the raw layer's name, and its key map |
| ZmkParser.ParseExtracted | lib/zmk-parser.js:268-295 | computes parsing from an extraction result; its contract is ParseExtractedOkIff |
| ZmkParser.ParseKeymapFile | lib/zmk-parser.js:268-295 | parsing equals its specification: extraction, the no-layers check, normalization and the constant metadata, with every failure prefixed |
| ZmkParser.ParseExtractedOkIff | lib/zmk-parser.js:268-295 | parsing succeeds exactly when extraction does, yields a layer and every layer has 42 bindings; then the metadata is {"Parsed ZMK Keymap", "1.0.0", "ZMK", 42} and the layer count is kept; every error starts with "Failed to parse keymap file: " |
| ZmkParser.ParseWithoutK | lib/zmk-parser.js:268-295 | a text without k fails with "Failed to parse keymap file: No keymap block found in file" |
| ZmkParser.CheckBindings | lib/zmk-parser.js:320-324 | the per-binding loop appends the empty-binding errors in binding order |
| ZmkParser.CheckLayers | lib/zmk-parser.js:315-325 | the per-layer loop appends each layer's count error, then its empty-binding errors, in layer order |
| ZmkParser.ReportExtraction | lib/zmk-parser.js:310-336 | a failed extraction appends its message in place of the layer checks, and an empty one appends "No layers found" |
| ZmkParser.ValidateSpec | lib/zmk-parser.js:299-339 | computes the validation result; its contracts are ValidateKeymapFile and ValidIffParses |
| ZmkParser.ValidateKeymapFile | lib/zmk-parser.js:299-339 | validation equals its specification: the two substring checks, then the extraction errors, with valid exactly when there is no error |
| ZmkParser.NoEmptyBindingErrors | lib/zmk-parser.js:320-324 | bindings that start with `&` and are their own trim never raise the empty-binding error |
| ZmkParser.LayersErrorsEmptyIff | lib/zmk-parser.js:315-325 | for extracted layers, the layer checks report nothing exactly when every layer has 42 bindings |
| ZmkParser.ValidExtractedIffParses | lib/zmk-parser.js:299-339 | for any extraction result with well-formed tokens, the checks report nothing exactly when the text has "keymap" and "bindings" and parsing that extraction succeeds |
| ZmkParser.ValidIffParses | lib/zmk-parser.js:299-339 | a file is valid exactly when it contains "keymap" and "bindings" and parses |
| ZmkParser.ValidateWithoutK | lib/zmk-parser.js:299-339 | a text without k (e.g. "hello world") gets "Missing keymap block", "Missing bindings definition" when "bindings" is absent, then "No keymap block found in file", and is invalid |
| ZmkParser.ValidateHelloWorld | lib/zmk-parser.js:299-339 | "hello world" yields exactly ["Missing keymap block", "Missing bindings definition", "No keymap block found in file"] and is invalid |
| ZmkStore.FindLayer | lib/zmk-store.ts:15-19 | the first layer with the id, or none exactly when no layer has it |
| ZmkStore.WithBinding | lib/zmk-store.ts:45-57 | only layers with the id change, and in them only keys[keyId]; order, ids, names and other layers are kept |
| ZmkStore.WithoutLayer | lib/zmk-store.ts:113 | exactly the layers whose id differs are kept |
| ZmkStore.SyncKeymap | lib/zmk-store.ts:61-68 | a present keymap gets the new layers and keeps its metadata; an absent one stays absent |
| ZmkStore.CurrentLayerOf | lib/zmk-store.ts:22-31 | with no selection (null or "") the first layer, otherwise the first layer with the selected id |
| ZmkStore.KeyBindingOf | lib/zmk-store.ts:34-39 | a binding comes back exactly when the first layer with the id exists and has the key, and it is that layer's binding for the key |
| ZmkStore.FindAfterBinding | lib/zmk-store.ts:42-57 | looking a layer up after setBinding finds the same layer, updated when its id is the edited one |
| ZmkStore.SetBindingReadBack | lib/zmk-store.ts:42-57 | after setBinding the edited key reads back the new binding and every other key reads as before |
| ZmkStore.FindAfterRemove | lib/zmk-store.ts:113 | after removal the removed id is not found and every other lookup is unchanged |
| ZmkStore.RemoveUnknownKeepsLayers | lib/zmk-store.ts:113 | removing an unknown id leaves the layers unchanged |
| ZmkStore.WithoutLayerConcat | lib/zmk-store.ts:113 | the filter keeps order: removing from a concatenation concatenates the two filtered parts |
| ZmkStore.RemoveDistinctRemovesOne | lib/zmk-store.ts:113 | with distinct ids, removing a present id removes exactly one layer |
| ZmkStore.RemoveKeepsOneWhenDistinct | lib/zmk-store.ts:105-113 | with distinct ids the guard keeps at least one layer |
| ZmkStore.RemoveSharedIdEmpties | lib/zmk-store.ts:105-113 | the guard counts layers, not ids: two layers sharing an id (two addLayer calls in the same millisecond) are both removed, leaving none |
| ZmkStore.FindAfterAppend | lib/zmk-store.ts:86 | after an append, lookups find the old layer if any, else the new one |
| ZmkStore.KeymapStore.GetLayer | lib/zmk-store.ts:15-19 | the first stored layer with the id, or none exactly when no layer has it |
| ZmkStore.KeymapStore.CurrentLayer | lib/zmk-store.ts:22-31 | with no selection (null or "") the first layer, or none exactly when there is none; with a selection the first layer carrying the selected id, or none exactly when no layer has it |
| ZmkStore.KeymapStore.GetKeyBinding | lib/zmk-store.ts:34-39 | a binding exactly when the first layer with the id holds the key, and then that layer's binding for it; none when no layer has the id |
| ZmkStore.KeymapStore.constructor | lib/zmk-store.ts:7-12 | the six cells start as [], null, null, null, false, null |
| ZmkStore.KeymapStore.SetBinding | lib/zmk-store.ts:42-72 | layers become the edited list, a present keymap follows them, error becomes null, nothing else changes |
| ZmkStore.KeymapStore.AddLayer | lib/zmk-store.ts:74-100 | appends {id "layer_" + now, name, no keys}, syncs the keymap, clears error, nothing else changes |
| ZmkStore.KeymapStore.RemoveLayer | lib/zmk-store.ts:102-133 | with at most one layer only error changes, to "Cannot remove the last layer"; otherwise the filtered list, the keymap synced, the selection cleared if it was the removed id, error cleared |
| ZmkStore.KeymapStore.LoadKeymap | lib/zmk-store.ts:135-143 | keymap and layers come from the config, loading false, error null, selections untouched |
| ZmkStore.KeymapStore.ResetState | lib/zmk-store.ts:145-155 | all six cells return to their initial values |
| ZmkStore.KeymapStore.SelectKey | lib/zmk-store.ts:158-164 | sets the selected key and clears error only |
| ZmkStore.KeymapStore.SelectLayer | lib/zmk-store.ts:166-172 | sets the selected layer and clears error only |
| ZmkStore.KeymapStore.SetLoading | lib/zmk-store.ts:174-179 | changes only the loading flag |
| ZmkStore.KeymapStore.SetError | lib/zmk-store.ts:181-187 | sets error and forces loading off, nothing else |
| KeyboardUtils.GetKeyId | lib/keyboard-utils.ts:166-168 | computes the id; its contracts are GetKeyIdMatchesImporter and GetKeyIdInjective |
| KeyboardUtils.GetKeyIdMatchesImporter | lib/keyboard-utils.ts:166-168 | the helper's `L${layer}_R${row}C${col}` is the importer's key id for a numeric layer |
| KeyboardUtils.GetKeyIdInjective | lib/keyboard-utils.ts:166-168 | within one layer, different positions get different ids |
| KeyboardUtils.GetBindingType | lib/keyboard-utils.ts:223-228 | computes the type; its contracts are BindingTypeByPrefix, PrefixType and BindingTypeVersusImporter |
| KeyboardUtils.PrefixType | lib/keyboard-utils.ts:223-228 | on a string of four or more characters the type depends only on its first four: keycode, layer, modifier or combo |
| KeyboardUtils.BindingTypeByPrefix | lib/keyboard-utils.ts:223-228 | "&kp " gives keycode, "&mo " or "&lt " gives layer, "&mt " gives modifier, and anything else (including "&trans", "&tog 1", "&sk X") gives combo |
| KeyboardUtils.BindingTypeVersusImporter | lib/keyboard-utils.ts:223-228 | when the behaviour name is written in its canonical lower case and followed by a space, the rule agrees with the importer on &kp, &mo, &mt, &lt and &combo_, and disagrees on &tog, &sk, &trans and &none; any other writing (an upper-case letter in the name, or white space after it that starts with a tab or a newline) it calls combo |
| KeyboardUtils.FirstMatch | lib/keyboard-utils.ts:17-61 | the index of the first key satisfying the test, or the length when none does |
| KeyboardUtils.GetKeyById | lib/keyboard-utils.ts:17-19 | the first key with the id, or none exactly when no key has it |
| KeyboardUtils.GetKeyByPosition | lib/keyboard-utils.ts:52-54 | the first key at that row and column, or none exactly when no key is there |
| KeyboardUtils.GetKeyByMeshName | lib/keyboard-utils.ts:59-61 | the first key with that mesh name, or none; a key without a mesh name never matches |
| KeyboardUtils.Filter | lib/keyboard-utils.ts:24-47 | keeps exactly the keys passing the test |
| KeyboardUtils.FilterConcat | lib/keyboard-utils.ts:24-47 | filtering keeps the original order: the filter of a concatenation is the concatenation of the filters |
| KeyboardUtils.KeysWith | lib/keyboard-utils.ts:24-47 | exactly the keys whose field equals the value; getKeysByRow, getKeysByColumn, getKeysBySide and getKeysByLayer are this filter on row, col, side and layer |
| KeyboardUtils.GetKeyPosition | lib/keyboard-utils.ts:173-186 | the placement fields of the first key at the position, or none exactly when no key is there |
| KeyboardUtils.LayoutOrder | lib/keyboard-utils.ts:77-94 | one row per metadata row (none when rows is not positive) |
| KeyboardUtils.RowScanSorted | lib/keyboard-utils.ts:80-91 | each row lists keys of that row inside the scanned columns (0-5 on row 3, otherwise 0 to columns-1), by strictly ascending column |
| KeyboardUtils.RowScanContents | lib/keyboard-utils.ts:84-89 | a row holds exactly the first key found at each scanned column, skipping empty positions |
| KeyboardUtils.ScanRow | lib/keyboard-utils.ts:81-89 | the inner loop builds the row of its specification |
| KeyboardUtils.GetKeysInLayoutOrder | lib/keyboard-utils.ts:77-94 | the nested loops build exactly the layout order |
| KeyboardUtils.IndexOf | lib/keyboard-utils.ts:124 | the first index holding the value, or -1 when it is absent |
| KeyboardUtils.DuplicatesEmptyIff | lib/keyboard-utils.ts:124 | the `indexOf` filter reports nothing exactly when all values differ |
| KeyboardUtils.PositionStringInjective | lib/keyboard-utils.ts:130 | "row,col" strings are equal exactly when row and column are |
| KeyboardUtils.DuplicateIdReported | lib/keyboard-utils.ts:122-127 | "Duplicate key IDs found" is reported exactly when two keys share an id, two absent ids counting as equal; the message lists an absent id as "", as `join` writes it |
| KeyboardUtils.ShownCollision | lib/keyboard-utils.ts:199-207 | two ids show alike in a template literal or property key exactly when they are equal or one is absent and the other is the string "undefined" |
| KeyboardUtils.DuplicatePositionReported | lib/keyboard-utils.ts:129-134 | "Duplicate key positions found" is reported exactly when two keys share row and column |
| KeyboardUtils.BoundErrorsEmptyIff | lib/keyboard-utils.ts:137-146 | the bounds loop reports nothing exactly when every row is in [0, rows) and every column in [0, 6) on row 3 or [0, columns) elsewhere |
| KeyboardUtils.FieldErrorsEmptyIff | lib/keyboard-utils.ts:149-153 | the fields loop reports nothing exactly when no key lacks an id, a binding, a position or a rotation (an empty string counts as missing) |
| KeyboardUtils.BoundErrorsAtMostTwoPerKey | lib/keyboard-utils.ts:137-146 | the bounds loop adds at most two errors per key, one for its row and one for its column |
| KeyboardUtils.FieldErrorsAtMostOnePerKey | lib/keyboard-utils.ts:149-153 | the fields loop adds at most one error per key |
| KeyboardUtils.LayoutValidIff | lib/keyboard-utils.ts:118-159 | a layout is valid exactly when ids and positions are unique, every key is inside the grid and none lacks a field |
| KeyboardUtils.CheckKeyBounds | lib/keyboard-utils.ts:137-146 | one key's bounds check appends "Key id has invalid row: r", then "Key id has invalid column: c", each only when out of range, with an absent id shown as "undefined" |
| KeyboardUtils.CheckBounds | lib/keyboard-utils.ts:137-146 | the bounds loop appends every key's bounds errors in key order, an absent id shown as "undefined" |
| KeyboardUtils.CheckFields | lib/keyboard-utils.ts:149-153 | the fields loop appends "Key id is missing required fields" ("unknown" for an absent or empty id) in key order |
| KeyboardUtils.ValidateKeyboardLayout | lib/keyboard-utils.ts:118-159 | the checker equals its specification: duplicate ids, duplicate positions, bounds, fields, and valid exactly when there is no error; messages show an absent id as the JavaScript code does ("" in a join, "undefined" in a template, "unknown" for a missing field) |
| KeyboardUtils.BaseKeysContents | lib/keyboard-utils.ts:199-207 | the base layer holds exactly the property keys String(id) of the keys on layer "0" ("undefined" for an absent id), each bound as the last such key with that property key says |
| KeyboardUtils.DefaultKeymapContents | lib/keyboard-utils.ts:191-218 | building the default keymap throws exactly when some layer-"0" key has no binding (getBindingType reads `startsWith` of undefined); otherwise, with distinct property keys, every layer-"0" key is bound to {binding, label, getBindingType(binding)} |
| KeyboardUtils.GetDefaultKeymap | lib/keyboard-utils.ts:191-218 | the loop equals its specification: the TypeError when a layer-"0" key has no binding, otherwise one layer {id "0", name "Base"} with the base keys, and the name, version, layout and key count copied from the layout metadata |
| KeyboardConfig.KeySymbol | lib/keyboard-config.ts:9-46 | the 35 entries of KEY_SYMBOL_MAP and none for any other name; no symbol is empty |
| KeyboardConfig.KeyboardKey | lib/keyboard-config.ts:49-77 | the 42 entries of KEYBOARD_KEY_MAP and none for any other key; no model key name is empty |
| KeyboardConfig.DisplaySymbol | components/keyboard/keyboard-components.tsx:26 | the view's symbol-or-name expression (also components/keyboard/keyboard-model.tsx:631): a key name shows as its symbol from KEY_SYMBOL_MAP, or as itself when the table lacks it |
| KeyboardConfig.DisplaySymbolIdempotent | lib/keyboard-config.ts:9-46 | displaying a displayed name changes nothing, because no symbol is a key of the table |
| KeyboardConfig.SymbolIsNotAName | lib/keyboard-config.ts:9-46 | no symbol of KEY_SYMBOL_MAP is itself a key of the table |
| KeyboardConfig.SymbolsAgreeWithZmkLabels | lib/keyboard-config.ts:9-46 | KEY_SYMBOL_MAP and the importer's ZMK label table agree on every code they share |
| KeyboardConfig.LetterKeysUpper | lib/keyboard-config.ts:51-54 | KEYBOARD_KEY_MAP sends each letter a-z to its upper-case letter |
| KeyboardConfig.SpecialKeysHaveSymbols | lib/keyboard-config.ts:56-76 | the special keys and the two layer keys map to model key names that KEY_SYMBOL_MAP shows as symbols |
| KeyboardConfig.GroupEndAt | lib/keyboard-config.ts:127 | a match of `Keycap\(([^)]+)\)` at a position has the literal, at least one non-`)` character and the first `)` after it |
| KeyboardConfig.MatchStart | lib/keyboard-config.ts:127 | the pattern is taken at its leftmost match, and none exists when the search fails |
| KeyboardConfig.ExtractKeyName | lib/keyboard-config.ts:123-137 | computes the key name; its contracts are ExtractKeycapName, ExtractLeftmostGroup, ExtractPrefixRule, ExtractWithoutKeycap and the examples below |
| KeyboardConfig.ExtractBareKeycaps | lib/keyboard-config.ts:124-125 | "Keycap()" reads "." and "Keycap()_1" reads "/", names the pattern does not match |
| KeyboardConfig.ExtractKeycapName | lib/keyboard-config.ts:127-130 | `Keycap(<name>)<anything>` with a non-empty name free of `)` reads back as that name |
| KeyboardConfig.ExtractLeftmostGroup | lib/keyboard-config.ts:127-130 | when the pattern matches, the result is the non-empty, `)`-free group of the leftmost match |
| KeyboardConfig.ExtractPrefixRule | lib/keyboard-config.ts:132-134 | with no match, a name starting with "Keycap" reads as the rest after that prefix |
| KeyboardConfig.ExtractEmptyGroupExample | lib/keyboard-config.ts:127-134 | "Keycap()_2" reads "()_2": the group may not be empty, so the prefix rule applies |
| KeyboardConfig.ExtractWithoutKeycap | lib/keyboard-config.ts:136 | a name without "Keycap" reads as "" |

## Left out

- The React/Next pages and components, three.js materials, the GLB mapping script and the jotai hook wrappers are rendering and I/O around the modelled core.
- getWorldPosition and getKeyboardStats (lib/keyboard-utils.ts:66-113): floating-point scaling, and counts over the layout data file.
- getKeyboardLayoutData (lib/keyboard-utils.ts:10-12) and the layout JSON it returns: the file is not part of this model, so every helper takes the keys and metadata as parameters.
- getSupportedBindings (lib/zmk-parser.js:343-354): a constant list with no behaviour.
- The configuration constants and mesh-property interfaces of lib/keyboard-config.ts:4-6 and 80-120: floating-point values and three.js types.
- `Date.now()` in addLayer is the parameter `now`, a natural number written in decimal.
- The 'Unknown error' and 'Unknown validation error' branches (lib/zmk-parser.js:290-293, 331-333): every error the modelled code raises is an `Error`, so they cannot be reached.
- ZmkExtract.CollectLayers: the `exec` loop runs over the match attempts at each position, computed up front, rather than calling a general regular-expression engine. Only the patterns the importer uses are modelled.
- ZmkBinding.ParseBinding: `toUpperCase` is modelled on ASCII letters. The token pattern admits only ASCII word characters, so non-ASCII case mapping never arises for a token from extraction.
- Numbers are integers. A fractional row, column, rows or columns value in the layout data, and its template-literal formatting, are not modelled.
- KeyBindingOf: `layer?.keys[keyId]` (lib/zmk-store.ts:38) reads inherited properties too, so a key id such as "toString" or "constructor" absent from the layer returns an Object.prototype function there; the model returns none. The same holds for GetKeyBinding and for the lookups in the two keyboard-config tables (DisplaySymbol). Keys are modelled as a map without a prototype.
- GetDefaultKeymap: an id of "__proto__" would hit the prototype setter of the base-layer object, which is not modelled; the model stores it as an ordinary key. The TypeError message is V8's wording.
- The store's jotai atoms become one class whose fields are the atoms. Derived atoms become functions of the fields, and subscriptions and re-rendering are not modelled.
