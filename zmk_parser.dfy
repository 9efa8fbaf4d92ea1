/** The ZMK keymap importer (lib/zmk-parser.js:222-339): lay the 42 bindings of
    each extracted layer out on the 4 x 12 grid of the split keyboard, wrap the
    result in a keymap configuration, and check a file without throwing. */
module ZmkParser {
  import opened Text
  import opened KeyboardTypes
  import opened ZmkBinding
  import opened ZmkExtract

  // ---------------------------------------------------------------------------
  // Where each binding goes (lib/zmk-parser.js:231-257)

  /** The row and column of the `k`-th binding of a layer: three full rows of
      twelve, then the six thumb keys, whose right half moves to columns 9-11. */
  function SlotPosition(k: nat): (p: (nat, nat))
    requires k < TOTAL_KEYS
  {
    if k < 12 then (0, k)
    else if k < 24 then (1, k - 12)
    else if k < 36 then (2, k - 24)
    else if k < 39 then (3, k - 36)
    else (3, k - 30)
  }

  /** The positions of the grid that hold a key: columns 3-8 of the bottom row are
      empty. */
  predicate ValidSlot(row: nat, col: nat) {
    (row < 3 && col < COLS) || (row == 3 && (col < 3 || 9 <= col < COLS))
  }

  /** Which binding of a layer a grid position takes. */
  function SlotIndex(row: nat, col: nat): nat
    requires ValidSlot(row, col)
  {
    if row < 3 then 12 * row + col else if col < 3 then 36 + col else col + 30
  }

  /** Every binding lands on a key of the grid, and the grid position gives the
      binding back. */
  lemma SlotRoundTrip(k: nat)
    requires k < TOTAL_KEYS
    ensures ValidSlot(SlotPosition(k).0, SlotPosition(k).1)
    ensures SlotIndex(SlotPosition(k).0, SlotPosition(k).1) == k
  {
  }

  /** Every key of the grid receives a binding, and it is the binding the key's
      position names. */
  lemma SlotRoundTripBack(row: nat, col: nat)
    requires ValidSlot(row, col)
    ensures SlotIndex(row, col) < TOTAL_KEYS
    ensures SlotPosition(SlotIndex(row, col)) == (row, col)
  {
  }

  /** The key id `L<layer>_R<row>C<col>`. */
  function KeyId(layerIndex: nat, row: nat, col: nat): string {
    "L" + NatToString(layerIndex) + "_R" + NatToString(row) + "C" + NatToString(col)
  }

  lemma DigitsLack(s: string, c: char)
    requires AllDigits(s)
    requires !IsDigit(c)
    ensures c !in s
  {
  }

  predicate AllDigits(s: string) {
    forall m :: 0 <= m < |s| ==> IsDigit(s[m])
  }

  /** A lead character, digits, a separator that is no digit and a tail split
      back into the digits and the tail. */
  lemma SplitDigitsAt(lead: char, a: string, sep: char, tail: string, a2: string, tail2: string)
    requires AllDigits(a) && AllDigits(a2) && !IsDigit(sep)
    requires [lead] + a + [sep] + tail == [lead] + a2 + [sep] + tail2
    ensures a == a2 && tail == tail2
  {
    DigitsLack(a, sep);
    DigitsLack(a2, sep);
    assert a + [sep] + tail == ([lead] + a + [sep] + tail)[1..];
    assert a2 + [sep] + tail2 == ([lead] + a2 + [sep] + tail2)[1..];
    SplitAtSeparator(a, tail, a2, tail2, sep);
  }

  /** Different keys get different ids: the id can be read back. */
  lemma KeyIdInjective(l: nat, r: nat, c: nat, l2: nat, r2: nat, c2: nat)
    requires KeyId(l, r, c) == KeyId(l2, r2, c2)
    ensures l == l2 && r == r2 && c == c2
  {
    var a, b, d := NatToString(l), NatToString(r), NatToString(c);
    var a2, b2, d2 := NatToString(l2), NatToString(r2), NatToString(c2);
    assert KeyId(l, r, c) == "L" + a + "_" + ("R" + b + "C" + d);
    assert KeyId(l2, r2, c2) == "L" + a2 + "_" + ("R" + b2 + "C" + d2);
    SplitDigitsAt('L', a, '_', "R" + b + "C" + d, a2, "R" + b2 + "C" + d2);
    SplitDigitsAt('R', b, 'C', d, b2, d2);
    NatToStringInjective(l, l2);
    NatToStringInjective(r, r2);
    NatToStringInjective(c, c2);
  }

  /** The key id of the `k`-th binding of layer `layerIndex`. */
  function SlotKeyId(layerIndex: nat, k: nat): string
    requires k < TOTAL_KEYS
  {
    KeyId(layerIndex, SlotPosition(k).0, SlotPosition(k).1)
  }

  /** The ids of the 42 keys of layer `layerIndex`, in binding order. */
  function SlotIds(layerIndex: nat): (ids: seq<string>)
    ensures |ids| == TOTAL_KEYS
  {
    seq(TOTAL_KEYS, k requires 0 <= k < TOTAL_KEYS => SlotKeyId(layerIndex, k))
  }

  predicate Distinct(ids: seq<string>) {
    forall k, k2 :: 0 <= k < |ids| && 0 <= k2 < |ids| && k != k2 ==> ids[k] != ids[k2]
  }

  /** No two bindings of a layer share a key id. */
  lemma SlotIdsDistinct(layerIndex: nat)
    ensures Distinct(SlotIds(layerIndex))
  {
    var ids := SlotIds(layerIndex);
    forall k, k2 | 0 <= k < |ids| && 0 <= k2 < |ids| && ids[k] == ids[k2]
      ensures k == k2
    {
      var p, p2 := SlotPosition(k), SlotPosition(k2);
      KeyIdInjective(layerIndex, p.0, p.1, layerIndex, p2.0, p2.1);
      SlotRoundTrip(k);
      SlotRoundTrip(k2);
    }
  }

  /** Each binding text of a layer parsed. */
  function ParsedBindings(bindings: seq<string>): (values: seq<Binding>)
    ensures |values| == |bindings|
  {
    seq(|bindings|, k requires 0 <= k < |bindings| => ParseBinding(bindings[k]))
  }

  /** The object after `values[k]` has been stored under `ids[k]` for every
      `k < n`, one after the other. */
  function Stored(ids: seq<string>, values: seq<Binding>, n: nat): map<string, Binding>
    requires n <= |ids| && n <= |values|
  {
    if n == 0 then map[] else Stored(ids, values, n - 1)[ids[n - 1] := values[n - 1]]
  }

  /** With distinct ids, storing loses nothing: after `n` steps the object holds
      exactly the first `n` ids, each with its own value. */
  lemma {:induction false} StoredContents(ids: seq<string>, values: seq<Binding>, n: nat)
    requires n <= |ids| && n <= |values| && Distinct(ids)
    ensures |Stored(ids, values, n)| == n
    ensures forall k :: 0 <= k < n ==> ids[k] in Stored(ids, values, n) && Stored(ids, values, n)[ids[k]] == values[k]
    ensures forall k :: n <= k < |ids| ==> ids[k] !in Stored(ids, values, n)
    ensures forall id :: id in Stored(ids, values, n) ==> exists k :: 0 <= k < n && id == ids[k]
  {
    if n > 0 {
      StoredContents(ids, values, n - 1);
    }
  }

  /** The keys object of layer `layerIndex` once all its bindings are stored. */
  function LayerKeyMap(layerIndex: nat, bindings: seq<string>): map<string, Binding>
    requires |bindings| == TOTAL_KEYS
  {
    Stored(SlotIds(layerIndex), ParsedBindings(bindings), |bindings|)
  }

  /** Where the bindings of grid row `row` start. */
  function RowStart(row: nat): nat {
    if row < ROWS then COLS * row else TOTAL_KEYS
  }

  /** The binding the loops reach at column `col` of row `row` lands on that row,
      in that column, or six columns further right for the right thumb keys. */
  lemma RowSlot(row: nat, col: nat)
    requires row < ROWS && col < ROW_KEY_COUNTS[row]
    ensures RowStart(row) + col < TOTAL_KEYS
    ensures SlotPosition(RowStart(row) + col) == (row, if row == 3 && col >= 3 then col + 6 else col)
  {
  }

  /** The nested loops of normalizeLayout for one layer: row by row, column by
      column, storing each parsed binding under its key id. */
  method LayerKeys(layerIndex: nat, bindings: seq<string>) returns (keys: map<string, Binding>)
    requires |bindings| == TOTAL_KEYS
    ensures keys == LayerKeyMap(layerIndex, bindings)
  {
    ghost var ids := SlotIds(layerIndex);
    ghost var values := ParsedBindings(bindings);
    keys := map[];
    var bindingIndex := 0;
    var row := 0;
    while row < ROWS
      invariant row <= ROWS
      invariant bindingIndex == RowStart(row)
      invariant keys == Stored(ids, values, bindingIndex)
    {
      var keysInRow := ROW_KEY_COUNTS[row];
      var col := 0;
      while col < keysInRow
        invariant col <= keysInRow
        invariant bindingIndex == RowStart(row) + col
        invariant keys == Stored(ids, values, bindingIndex)
        decreases keysInRow - col
      {
        RowSlot(row, col);
        var keyId;
        if row == 3 {
          var actualCol := col;
          if col >= 3 {
            actualCol := col + 6;
          }
          keyId := KeyId(layerIndex, row, actualCol);
        } else {
          keyId := KeyId(layerIndex, row, col);
        }
        assert ids[bindingIndex] == SlotKeyId(layerIndex, bindingIndex);
        var binding := ParseBinding(bindings[bindingIndex]);
        keys := keys[keyId := binding];
        bindingIndex := bindingIndex + 1;
        col := col + 1;
      }
      row := row + 1;
    }
  }

  // ---------------------------------------------------------------------------
  // normalizeLayout (lib/zmk-parser.js:222-264)

  /** The message of the error thrown for a layer without 42 bindings. */
  function BindingCountMessage(layer: RawLayer): string {
    "Layer \"" + layer.name + "\" has " + NatToString(|layer.bindings|) + " bindings, expected "
    + NatToString(TOTAL_KEYS)
  }

  /** The first layer at or after `i` that does not have 42 bindings. */
  function FirstBadLayer(raws: seq<RawLayer>, i: nat): (r: Option<nat>)
    requires i <= |raws|
    ensures r.Some? ==> i <= r.value < |raws| && |raws[r.value].bindings| != TOTAL_KEYS
    ensures r.Some? ==> forall j :: i <= j < r.value ==> |raws[j].bindings| == TOTAL_KEYS
    ensures r.None? ==> forall j :: i <= j < |raws| ==> |raws[j].bindings| == TOTAL_KEYS
    decreases |raws| - i
  {
    if i == |raws| then None
    else if |raws[i].bindings| != TOTAL_KEYS then Some(i)
    else FirstBadLayer(raws, i + 1)
  }

  /** The normalized layer `i`: its index as id, its name, and its 42 keys. */
  function NormalizedLayer(i: nat, layer: RawLayer): Layer
    requires |layer.bindings| == TOTAL_KEYS
  {
    Layer(NatToString(i), layer.name, LayerKeyMap(i, layer.bindings))
  }

  /** The first `n` layers normalized. */
  function NormalizedPrefix(raws: seq<RawLayer>, n: nat): (r: seq<Layer>)
    requires n <= |raws|
    requires forall j :: 0 <= j < n ==> |raws[j].bindings| == TOTAL_KEYS
    ensures |r| == n
  {
    if n == 0 then [] else NormalizedPrefix(raws, n - 1) + [NormalizedLayer(n - 1, raws[n - 1])]
  }

  /** What normalizeLayout returns or throws. */
  function NormalizeSpec(raws: seq<RawLayer>): Result<seq<Layer>> {
    var bad := FirstBadLayer(raws, 0);
    if bad.Some? then Err(BindingCountMessage(raws[bad.value]))
    else Ok(NormalizedPrefix(raws, |raws|))
  }

  /** normalizeLayout: one normalized layer per raw layer, in order; the first
      layer without 42 bindings aborts the whole call. */
  method NormalizeLayout(raws: seq<RawLayer>) returns (r: Result<seq<Layer>>)
    ensures r == NormalizeSpec(raws)
  {
    var normalized: seq<Layer> := [];
    var layerIndex := 0;
    while layerIndex < |raws|
      invariant layerIndex <= |raws|
      invariant forall j :: 0 <= j < layerIndex ==> |raws[j].bindings| == TOTAL_KEYS
      invariant normalized == NormalizedPrefix(raws, layerIndex)
      invariant FirstBadLayer(raws, 0) == FirstBadLayer(raws, layerIndex)
    {
      var layer := raws[layerIndex];
      if |layer.bindings| != TOTAL_KEYS {
        return Err(BindingCountMessage(layer));
      }
      var keys := LayerKeys(layerIndex, layer.bindings);
      ghost var next := NormalizedLayer(layerIndex, layer);
      assert next == Layer(NatToString(layerIndex), layer.name, keys);
      normalized := normalized + [Layer(NatToString(layerIndex), layer.name, keys)];
      layerIndex := layerIndex + 1;
    }
    return Ok(normalized);
  }

  /** Normalization succeeds exactly when every layer has 42 bindings, and then
      gives one layer per raw layer, in order; otherwise the message names the
      first layer without 42 bindings. */
  lemma NormalizeOkIff(raws: seq<RawLayer>)
    ensures NormalizeSpec(raws).Ok? <==> forall j :: 0 <= j < |raws| ==> |raws[j].bindings| == TOTAL_KEYS
    ensures NormalizeSpec(raws).Ok? ==> |NormalizeSpec(raws).value| == |raws|
    ensures NormalizeSpec(raws).Err? ==>
      exists j :: 0 <= j < |raws| && |raws[j].bindings| != TOTAL_KEYS
        && NormalizeSpec(raws).message == BindingCountMessage(raws[j])
        && (forall i :: 0 <= i < j ==> |raws[i].bindings| == TOTAL_KEYS)
  {
  }

  lemma {:induction false} NormalizedPrefixAt(raws: seq<RawLayer>, n: nat, i: nat)
    requires n <= |raws| && i < n
    requires forall j :: 0 <= j < n ==> |raws[j].bindings| == TOTAL_KEYS
    ensures NormalizedPrefix(raws, n)[i] == NormalizedLayer(i, raws[i])
    decreases n
  {
    if i < n - 1 {
      NormalizedPrefixAt(raws, n - 1, i);
    }
  }

  /** The keys of a normalized layer are exactly the 42 positions of the grid,
      each holding the binding its position takes. */
  lemma LayerKeyMapShape(layerIndex: nat, bindings: seq<string>, row: nat, col: nat)
    requires |bindings| == TOTAL_KEYS
    ensures |LayerKeyMap(layerIndex, bindings)| == TOTAL_KEYS
    ensures KeyId(layerIndex, row, col) in LayerKeyMap(layerIndex, bindings) <==> ValidSlot(row, col)
    ensures ValidSlot(row, col) ==>
      LayerKeyMap(layerIndex, bindings)[KeyId(layerIndex, row, col)] == ParseBinding(bindings[SlotIndex(row, col)])
  {
    var ids := SlotIds(layerIndex);
    SlotIdsDistinct(layerIndex);
    StoredContents(ids, ParsedBindings(bindings), |bindings|);
    var keys := LayerKeyMap(layerIndex, bindings);
    if ValidSlot(row, col) {
      SlotRoundTripBack(row, col);
      assert KeyId(layerIndex, row, col) == ids[SlotIndex(row, col)];
    } else if KeyId(layerIndex, row, col) in keys {
      var k :| 0 <= k < TOTAL_KEYS && KeyId(layerIndex, row, col) == ids[k];
      KeyIdInjective(layerIndex, row, col, layerIndex, SlotPosition(k).0, SlotPosition(k).1);
      SlotRoundTrip(k);
    }
  }

  /** Layer `i` of a successful normalization: id `i`, the raw name, and the keys
      laid out from the raw bindings. */
  lemma NormalizedLayerAt(raws: seq<RawLayer>, i: nat)
    requires NormalizeSpec(raws).Ok? && i < |raws|
    ensures |raws[i].bindings| == TOTAL_KEYS
    ensures NormalizeSpec(raws).value[i]
      == Layer(NatToString(i), raws[i].name, LayerKeyMap(i, raws[i].bindings))
  {
    NormalizeOkIff(raws);
    NormalizedPrefixAt(raws, |raws|, i);
  }

  // ---------------------------------------------------------------------------
  // parseKeymapFile (lib/zmk-parser.js:268-295)

  const PARSE_ERROR_PREFIX := "Failed to parse keymap file: "
  const NO_LAYERS_IN_FILE := "No layers found in keymap file"
  const PARSED_METADATA := KeymapMetadata("Parsed ZMK Keymap", "1.0.0", "ZMK", TOTAL_KEYS)

  /** What parseKeymapFile makes of the outcome of extractLayers: every error of
      the steps comes back under the same prefix. */
  function ParseExtracted(extracted: Result<seq<RawLayer>>): Result<KeymapConfig> {
    if extracted.Err? then Err(PARSE_ERROR_PREFIX + extracted.message)
    else if extracted.value == [] then Err(PARSE_ERROR_PREFIX + NO_LAYERS_IN_FILE)
    else
      var normalized := NormalizeSpec(extracted.value);
      if normalized.Err? then Err(PARSE_ERROR_PREFIX + normalized.message)
      else Ok(KeymapConfig(normalized.value, PARSED_METADATA))
  }

  /** What parseKeymapFile returns or throws. */
  function ParseKeymapSpec(content: string): Result<KeymapConfig> {
    ParseExtracted(ExtractLayersSpec(content))
  }

  method ParseKeymapFile(content: string) returns (r: Result<KeymapConfig>)
    ensures r == ParseKeymapSpec(content)
  {
    var rawLayers := ExtractLayers(content);
    if rawLayers.Err? {
      return Err(PARSE_ERROR_PREFIX + rawLayers.message);
    }
    if rawLayers.value == [] {
      return Err(PARSE_ERROR_PREFIX + NO_LAYERS_IN_FILE);
    }
    var layers := NormalizeLayout(rawLayers.value);
    if layers.Err? {
      return Err(PARSE_ERROR_PREFIX + layers.message);
    }
    return Ok(KeymapConfig(layers.value, PARSED_METADATA));
  }

  /** Parsing succeeds exactly when extraction succeeds with at least one layer
      and every layer has 42 bindings; then the configuration has one layer per
      extracted layer and the fixed metadata; otherwise the message carries the
      prefix. */
  lemma ParseExtractedOkIff(extracted: Result<seq<RawLayer>>)
    ensures ParseExtracted(extracted).Ok? <==>
      extracted.Ok? && extracted.value != []
      && forall j :: 0 <= j < |extracted.value| ==> |extracted.value[j].bindings| == TOTAL_KEYS
    ensures ParseExtracted(extracted).Ok? ==>
      ParseExtracted(extracted).value.metadata == PARSED_METADATA
      && |ParseExtracted(extracted).value.layers| == |extracted.value|
    ensures ParseExtracted(extracted).Err? ==> PARSE_ERROR_PREFIX <= ParseExtracted(extracted).message
  {
    if extracted.Ok? && extracted.value != [] {
      NormalizeOkIff(extracted.value);
    }
    var r := ParseExtracted(extracted);
    if r.Err? {
      assert r.message[..|PARSE_ERROR_PREFIX|] == PARSE_ERROR_PREFIX;
    }
  }

  /** A file without a keymap block fails with the prefixed extraction message. */
  lemma ParseWithoutK(content: string)
    requires 'k' !in content
    ensures ParseKeymapSpec(content) == Err(PARSE_ERROR_PREFIX + NO_KEYMAP_BLOCK)
  {
    NoKeymapWithoutK(content);
  }

  // ---------------------------------------------------------------------------
  // validateKeymapFile (lib/zmk-parser.js:299-339)

  datatype ValidationResult = ValidationResult(valid: bool, errors: seq<string>)

  const MISSING_KEYMAP := "Missing keymap block"
  const MISSING_BINDINGS := "Missing bindings definition"
  const NO_LAYERS_FOUND := "No layers found"

  function CountErrorMessage(index: nat, layer: RawLayer): string {
    "Layer " + NatToString(index) + " (\"" + layer.name + "\") has " + NatToString(|layer.bindings|)
    + " bindings, expected " + NatToString(TOTAL_KEYS)
  }

  function EmptyBindingMessage(index: nat, position: nat): string {
    "Layer " + NatToString(index) + " has empty binding at position " + NatToString(position)
  }

  /** The empty-binding errors of the first `n` bindings of layer `index`. */
  function EmptyBindingErrors(index: nat, bindings: seq<string>, n: nat): seq<string>
    requires n <= |bindings|
  {
    if n == 0 then []
    else
      EmptyBindingErrors(index, bindings, n - 1)
      + (if Trim(bindings[n - 1]) == [] then [EmptyBindingMessage(index, n - 1)] else [])
  }

  /** The errors the checks of layer `index` add. */
  function LayerErrors(index: nat, layer: RawLayer): seq<string> {
    (if |layer.bindings| != TOTAL_KEYS then [CountErrorMessage(index, layer)] else [])
    + EmptyBindingErrors(index, layer.bindings, |layer.bindings|)
  }

  /** The errors of the first `n` layers, in order. */
  function LayersErrors(layers: seq<RawLayer>, n: nat): seq<string>
    requires n <= |layers|
  {
    if n == 0 then [] else LayersErrors(layers, n - 1) + LayerErrors(n - 1, layers[n - 1])
  }

  /** The two substring checks on the raw text. */
  function StructureErrors(content: string): seq<string> {
    (if !Contains(content, "keymap") then [MISSING_KEYMAP] else [])
    + (if !Contains(content, "bindings") then [MISSING_BINDINGS] else [])
  }

  /** The errors validateKeymapFile reports after its substring checks: the
      extraction error, or a missing-layers error and the layer errors. */
  function ExtractionErrors(extracted: Result<seq<RawLayer>>): seq<string> {
    if extracted.Err? then [extracted.message]
    else (if extracted.value == [] then [NO_LAYERS_FOUND] else []) + LayersErrors(extracted.value, |extracted.value|)
  }

  /** What validateKeymapFile reports given the outcome of extractLayers: the
      structure errors, then the extraction errors; valid when there are none. */
  function ValidateExtracted(content: string, extracted: Result<seq<RawLayer>>): ValidationResult {
    var errors := StructureErrors(content) + ExtractionErrors(extracted);
    ValidationResult(errors == [], errors)
  }

  /** What validateKeymapFile returns. */
  function ValidateSpec(content: string): ValidationResult {
    ValidateExtracted(content, ExtractLayersSpec(content))
  }

  /** The inner loop of validateKeymapFile: one error per blank binding of layer
      `index`, appended to the errors found so far. */
  method CheckBindings(index: nat, bindings: seq<string>, errorsBefore: seq<string>) returns (errors: seq<string>)
    ensures errors == errorsBefore + EmptyBindingErrors(index, bindings, |bindings|)
  {
    errors := errorsBefore;
    var bindingIndex := 0;
    while bindingIndex < |bindings|
      invariant bindingIndex <= |bindings|
      invariant errors == errorsBefore + EmptyBindingErrors(index, bindings, bindingIndex)
    {
      ghost var found := EmptyBindingErrors(index, bindings, bindingIndex);
      if Trim(bindings[bindingIndex]) == [] {
        var message := EmptyBindingMessage(index, bindingIndex);
        errors := errors + [message];
        assert errors == errorsBefore + (found + [message]);
      } else {
        assert found + [] == found;
      }
      bindingIndex := bindingIndex + 1;
    }
  }

  /** The outer loop of validateKeymapFile: the binding count of each layer, then
      each of its bindings, appended to the errors found so far. */
  method CheckLayers(layers: seq<RawLayer>, errorsBefore: seq<string>) returns (errors: seq<string>)
    ensures errors == errorsBefore + LayersErrors(layers, |layers|)
  {
    errors := errorsBefore;
    var index := 0;
    while index < |layers|
      invariant index <= |layers|
      invariant errors == errorsBefore + LayersErrors(layers, index)
    {
      var layer := layers[index];
      ghost var found := LayersErrors(layers, index);
      ghost var countErrors: seq<string> := [];
      if |layer.bindings| != TOTAL_KEYS {
        var message := CountErrorMessage(index, layer);
        countErrors := [message];
        errors := errors + [message];
      }
      assert errors == errorsBefore + found + countErrors;
      errors := CheckBindings(index, layer.bindings, errors);
      assert LayerErrors(index, layer) == countErrors + EmptyBindingErrors(index, layer.bindings, |layer.bindings|);
      assert errors == errorsBefore + (found + LayerErrors(index, layer));
      index := index + 1;
    }
  }

  /** The part of validateKeymapFile after extractLayers has returned or thrown. */
  method ReportExtraction(extracted: Result<seq<RawLayer>>, errorsBefore: seq<string>) returns (errors: seq<string>)
    ensures errors == errorsBefore + ExtractionErrors(extracted)
  {
    if extracted.Err? {
      errors := errorsBefore + [extracted.message];
    } else {
      errors := errorsBefore;
      ghost var noLayers: seq<string> := [];
      if |extracted.value| == 0 {
        noLayers := [NO_LAYERS_FOUND];
        errors := errors + [NO_LAYERS_FOUND];
      }
      errors := CheckLayers(extracted.value, errors);
      ghost var layerErrors := LayersErrors(extracted.value, |extracted.value|);
      assert errors == (errorsBefore + noLayers) + layerErrors;
    }
  }

  method ValidateKeymapFile(content: string) returns (result: ValidationResult)
    ensures result == ValidateSpec(content)
  {
    var errors: seq<string> := [];
    if !Contains(content, "keymap") {
      errors := errors + [MISSING_KEYMAP];
    }
    if !Contains(content, "bindings") {
      errors := errors + [MISSING_BINDINGS];
    }
    ghost var structure := errors;
    assert structure == StructureErrors(content);
    var extracted := ExtractLayers(content);
    errors := ReportExtraction(extracted, errors);
    result := ValidationResult(|errors| == 0, errors);
    assert errors == StructureErrors(content) + ExtractionErrors(extracted);
    assert result == ValidateExtracted(content, extracted);
  }

  /** No extracted binding is blank, so the empty-binding check never reports. */
  lemma {:induction false} NoEmptyBindingErrors(index: nat, bindings: seq<string>, n: nat)
    requires n <= |bindings|
    requires forall k :: 0 <= k < |bindings| ==> Trim(bindings[k]) == bindings[k] && |bindings[k]| >= 2
    ensures EmptyBindingErrors(index, bindings, n) == []
  {
    if n > 0 {
      NoEmptyBindingErrors(index, bindings, n - 1);
      assert Trim(bindings[n - 1]) != [];
    }
  }

  /** With blank bindings ruled out, the layer checks report nothing exactly when
      every layer has 42 bindings. */
  lemma {:induction false} LayersErrorsEmptyIff(layers: seq<RawLayer>, n: nat)
    requires n <= |layers|
    requires BindingsWellFormed(layers)
    ensures LayersErrors(layers, n) == [] <==> forall j :: 0 <= j < n ==> |layers[j].bindings| == TOTAL_KEYS
  {
    if n > 0 {
      LayersErrorsEmptyIff(layers, n - 1);
      var layer := layers[n - 1];
      NoEmptyBindingErrors(n - 1, layer.bindings, |layer.bindings|);
    }
  }

  /** Given well-formed extracted bindings, a file validates exactly when its raw
      text mentions both `keymap` and `bindings` and parsing accepts it. */
  lemma ValidExtractedIffParses(content: string, extracted: Result<seq<RawLayer>>)
    requires extracted.Ok? ==> BindingsWellFormed(extracted.value)
    ensures ValidateExtracted(content, extracted).valid <==>
      Contains(content, "keymap") && Contains(content, "bindings") && ParseExtracted(extracted).Ok?
  {
    ParseExtractedOkIff(extracted);
    if extracted.Ok? {
      LayersErrorsEmptyIff(extracted.value, |extracted.value|);
    }
  }

  /** A file validates exactly when its raw text mentions both `keymap` and
      `bindings` and parseKeymapFile accepts it. */
  lemma ValidIffParses(content: string)
    ensures ValidateSpec(content).valid <==>
      Contains(content, "keymap") && Contains(content, "bindings") && ParseKeymapSpec(content).Ok?
  {
    ExtractedBindingsWellFormed(content);
    ValidExtractedIffParses(content, ExtractLayersSpec(content));
  }

  /** A file with no `k` in it reports the missing keymap block first and the
      extraction failure last. */
  lemma ValidateWithoutK(content: string)
    requires 'k' !in content
    ensures ValidateSpec(content).errors ==
      [MISSING_KEYMAP] + (if Contains(content, "bindings") then [] else [MISSING_BINDINGS]) + [NO_KEYMAP_BLOCK]
    ensures !ValidateSpec(content).valid
  {
    NotContainsMissingChar(content, "keymap", 'k');
    NoKeymapWithoutK(content);
  }

  /** "hello world" reports exactly the two missing parts and the extraction
      failure, in that order. */
  lemma ValidateHelloWorld(content: string)
    requires content == "hello world"
    ensures ValidateSpec(content) ==
      ValidationResult(false, [MISSING_KEYMAP, MISSING_BINDINGS, NO_KEYMAP_BLOCK])
  {
    assert 'b' in "bindings" && 'b' !in content;
    NotContainsMissingChar(content, "bindings", 'b');
    ValidateWithoutK(content);
  }
}
