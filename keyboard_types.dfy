/** The records the importer, the store and the layout helpers share
    (lib/keyboard-types.ts), and the layout constants of the 42-key split
    keyboard (lib/keyboard-constants.js, which the importer loads;
    lib/keyboard-constants.ts holds the same values). */
module KeyboardTypes {
  import opened Text

  /** Binding['type']. */
  datatype BindingType = Keycode | LayerKind | Modifier | ComboKind

  /** What one key does on one layer. `label` is optional in the record type. */
  datatype Binding = Binding(code: string, displayLabel: Option<string>, kind: BindingType)

  /** A layer: its id, its name and the bindings keyed by key-id. */
  datatype Layer = Layer(id: string, name: string, keys: map<string, Binding>)

  datatype KeymapMetadata = KeymapMetadata(name: string, version: string, layout: string, totalKeys: int)

  datatype KeymapConfig = KeymapConfig(layers: seq<Layer>, metadata: KeymapMetadata)

  datatype Side = Left | Right

  /** One physical key of the layout data. The data is read without a schema, so
      the id, the binding, the position and the rotation may be absent (`None`),
      which the layout checks and the default keymap treat differently from an
      empty string. */
  datatype KeyData = KeyData(
    id: Option<string>,
    layer: string,
    row: int,
    col: int,
    binding: Option<string>,
    displayLabel: Option<string>,
    position: Option<seq<real>>,
    rotation: Option<seq<real>>,
    meshName: Option<string>,
    side: Side)

  datatype LayoutMetadata = LayoutMetadata(
    name: string,
    description: string,
    version: string,
    created: string,
    layout: string,
    rows: int,
    columns: int,
    totalKeys: int)

  datatype KeyboardLayoutData = KeyboardLayoutData(metadata: LayoutMetadata, keys: seq<KeyData>)

  const ROWS: nat := 4
  const COLS: nat := 12
  const TOTAL_KEYS: nat := 42

  /** Keys per row: the bottom row holds the six thumb keys. */
  const ROW_KEY_COUNTS: seq<nat> := [12, 12, 12, 6]

  function SumCounts(counts: seq<nat>): nat
  {
    if counts == [] then 0 else counts[0] + SumCounts(counts[1..])
  }

  /** The rows hold exactly the layout's keys, and no row is wider than the grid. */
  lemma RowCountsMatchTotal()
    ensures |ROW_KEY_COUNTS| == ROWS
    ensures SumCounts(ROW_KEY_COUNTS) == TOTAL_KEYS
    ensures forall r :: 0 <= r < ROWS ==> ROW_KEY_COUNTS[r] <= COLS
  {
    assert ROW_KEY_COUNTS[1..] == [12, 12, 6];
    assert ROW_KEY_COUNTS[1..][1..] == [12, 6];
    assert ROW_KEY_COUNTS[1..][1..][1..] == [6];
  }
}
