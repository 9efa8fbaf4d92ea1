/** The layout helpers (lib/keyboard-utils.ts): key ids, the prefix rule that
    classifies a binding, lookups over the physical keys, the row-by-row layout
    order, the layout checker and the default keymap. The layout data file the
    helpers read is not part of this model: every helper takes the key list
    (and, where it needs them, the layout metadata) as parameters. */
module KeyboardUtils {
  import opened Text
  import opened KeyboardTypes
  import ZmkBinding
  import ZmkParser

  // ---------------------------------------------------------------------------
  // Key ids (lib/keyboard-utils.ts:166-168)

  /** `L${layer}_R${row}C${col}`. */
  function GetKeyId(layer: string, row: int, col: int): string {
    "L" + layer + "_R" + IntToString(row) + "C" + IntToString(col)
  }

  /** The helper uses the same id scheme as the keymap importer. */
  lemma GetKeyIdMatchesImporter(layerIndex: nat, row: nat, col: nat)
    ensures GetKeyId(NatToString(layerIndex), row, col) == ZmkParser.KeyId(layerIndex, row, col)
  {
  }

  /** Within one layer, distinct grid positions get distinct ids. */
  lemma GetKeyIdInjective(layer: string, row: int, col: int, row2: int, col2: int)
    requires GetKeyId(layer, row, col) == GetKeyId(layer, row2, col2)
    ensures row == row2 && col == col2
  {
    var head := "L" + layer + "_R";
    var a, b := IntToString(row), IntToString(col);
    var a2, b2 := IntToString(row2), IntToString(col2);
    assert GetKeyId(layer, row, col) == head + (a + ['C'] + b);
    assert GetKeyId(layer, row2, col2) == head + (a2 + ['C'] + b2);
    assert a + ['C'] + b == GetKeyId(layer, row, col)[|head|..];
    assert a2 + ['C'] + b2 == GetKeyId(layer, row2, col2)[|head|..];
    SplitAtSeparator(a, b, a2, b2, 'C');
    IntToStringInjective(row, row2);
    IntToStringInjective(col, col2);
  }

  // ---------------------------------------------------------------------------
  // The binding-type rule (lib/keyboard-utils.ts:223-228)

  /** The type of a binding, read from its first four characters only. */
  function GetBindingType(binding: string): BindingType {
    if StartsAt(binding, 0, "&kp ") then Keycode
    else if StartsAt(binding, 0, "&mo ") || StartsAt(binding, 0, "&lt ") then LayerKind
    else if StartsAt(binding, 0, "&mt ") then Modifier
    else ComboKind
  }

  /** Each rule is decided by its prefix alone: the four prefixes exclude each other,
      and everything else (`&trans`, `&tog 1`, `&sk X`, a tab after the behaviour)
      is a combo. */
  lemma BindingTypeByPrefix(binding: string)
    ensures GetBindingType(binding) == Keycode <==> StartsAt(binding, 0, "&kp ")
    ensures GetBindingType(binding) == LayerKind
      <==> StartsAt(binding, 0, "&mo ") || StartsAt(binding, 0, "&lt ")
    ensures GetBindingType(binding) == Modifier <==> StartsAt(binding, 0, "&mt ")
    ensures GetBindingType(binding) == ComboKind
      <==> !(StartsAt(binding, 0, "&kp ") || StartsAt(binding, 0, "&mo ")
             || StartsAt(binding, 0, "&lt ") || StartsAt(binding, 0, "&mt "))
  {
    if StartsAt(binding, 0, "&kp ") {
      assert binding[1] == 'k';
    } else if StartsAt(binding, 0, "&mo ") {
      assert binding[1] == 'm' && binding[2] == 'o';
    } else if StartsAt(binding, 0, "&lt ") {
      assert binding[1] == 'l';
    }
  }

  /** Compared with the importer's classification of a well-formed binding: written
      with the lower-case behaviour name and a plain space after it, the two agree
      exactly on key presses, layer switches, mod-taps, layer-taps and combos, and
      disagree on toggles (layer vs combo), sticky keys (modifier vs combo), `&trans`
      and `&none` (keycode vs combo); with any other spelling of the name, or other
      white space after it, this rule says combo. */
  lemma BindingTypeVersusImporter(a: ZmkBinding.ZmkAction, w: ZmkBinding.Writing)
    requires ZmkBinding.WellFormed(a) && ZmkBinding.WritesAs(a, w)
    ensures w.behaviour == ZmkBinding.Keyword(a) && w.sep1[0] == ' ' ==>
      (GetBindingType(ZmkBinding.Render(a, w)) == ZmkBinding.Meaning(a).kind
       <==> a.Kp? || a.Mo? || a.Mt? || a.Lt? || a.ComboRef?)
    ensures w.behaviour != ZmkBinding.Keyword(a) || w.sep1[0] != ' ' ==>
      GetBindingType(ZmkBinding.Render(a, w)) == ComboKind
  {
    var s := ZmkBinding.Render(a, w);
    ZmkBinding.SpelledPrefix(s, w.behaviour, ZmkBinding.Keyword(a));
    if a.Kp? || a.Mo? || a.Mt? || a.Lt? {
      ThreeLetterType(a, w);
    } else {
      assert UpperChar(s[1]) in {'T', 'S', 'C', 'N'};
    }
  }

  /** The four prefixes the rule knows are the lower-case three-letter behaviours
      followed by a space. */
  lemma ThreeLetterType(a: ZmkBinding.ZmkAction, w: ZmkBinding.Writing)
    requires a.Kp? || a.Mo? || a.Mt? || a.Lt?
    requires ZmkBinding.WellFormed(a) && ZmkBinding.WritesAs(a, w)
    ensures GetBindingType(ZmkBinding.Render(a, w)) ==
      if w.behaviour == ZmkBinding.Keyword(a) && w.sep1[0] == ' ' then ZmkBinding.Meaning(a).kind
      else ComboKind
  {
    var s := ZmkBinding.Render(a, w);
    var kw := ZmkBinding.Keyword(a);
    assert s[..4] == w.behaviour + [w.sep1[0]];
    PrefixType(s);
    FourCharPrefix(w.behaviour, w.sep1[0], kw);
    if w.behaviour == kw && w.sep1[0] == ' ' {
      var p := s[..4];
      assert p == kw + " ";
      if a.Mo? {
        assert p[1] != "&kp "[1];
      } else if a.Lt? {
        assert p[1] != "&kp "[1] && p[1] != "&mo "[1];
      } else if a.Mt? {
        assert p[1] != "&kp "[1] && p[2] != "&mo "[2] && p[1] != "&lt "[1];
      }
    }
  }

  /** A three-letter behaviour name and the character after it form one of the
      rule's four prefixes only when the name is the lower-case keyword and the
      character a space; then it is the keyword's own prefix. */
  lemma FourCharPrefix(name: string, c: char, kw: string)
    requires kw == "&kp" || kw == "&mo" || kw == "&mt" || kw == "&lt"
    requires ZmkBinding.MatchesKeyword(name, kw)
    ensures var p := name + [c];
      (p == "&kp " || p == "&mo " || p == "&mt " || p == "&lt ") <==> (name == kw && c == ' ')
    ensures name == kw && c == ' ' ==> name + [c] == kw + " "
  {
    var p := name + [c];
    assert p[..3] == name && p[3] == c;
    assert UpperChar(name[1]) == UpperChar(kw[1]) && UpperChar(name[2]) == UpperChar(kw[2]);
  }

  /** The rule reads the first four characters only. */
  lemma PrefixType(s: string)
    requires |s| >= 4
    ensures GetBindingType(s) ==
      if s[..4] == "&kp " then Keycode
      else if s[..4] == "&mo " || s[..4] == "&lt " then LayerKind
      else if s[..4] == "&mt " then Modifier
      else ComboKind
  {
  }

  // ---------------------------------------------------------------------------
  // Absent fields

  /** A field as a template literal or a property key shows it: an absent one
      reads "undefined". */
  function Shown(v: Option<string>): string {
    if v.Some? then v.value else "undefined"
  }

  /** What `!field` tests: the field is absent or the empty string. */
  predicate Falsy(v: Option<string>) {
    v.None? || v == Some("")
  }

  /** An array element as Array.prototype.join writes it: an absent one is empty. */
  function JoinedText(v: Option<string>): string {
    if v.Some? then v.value else ""
  }

  /** Two fields show alike exactly when they are equal, or when one is absent
      and the other is the string "undefined". */
  lemma ShownCollision(v: Option<string>, v2: Option<string>)
    ensures Shown(v) == Shown(v2) <==>
      v == v2 || (v.None? && v2 == Some("undefined")) || (v2.None? && v == Some("undefined"))
  {
  }

  // ---------------------------------------------------------------------------
  // Lookups (lib/keyboard-utils.ts:17-61, 173-186)

  /** Index of the first key satisfying `p`, or `|keys|` when there is none
      (Array.prototype.find). */
  function FirstMatch(keys: seq<KeyData>, p: KeyData -> bool): (i: nat)
    ensures i <= |keys|
    ensures forall j :: 0 <= j < i ==> !p(keys[j])
    ensures i < |keys| ==> p(keys[i])
    decreases |keys|
  {
    if keys == [] then 0
    else if p(keys[0]) then 0
    else 1 + FirstMatch(keys[1..], p)
  }

  function Find(keys: seq<KeyData>, p: KeyData -> bool): Option<KeyData> {
    var i := FirstMatch(keys, p);
    if i < |keys| then Some(keys[i]) else None
  }

  /** The keys satisfying `p`, in their original order (Array.prototype.filter). */
  function Filter(keys: seq<KeyData>, p: KeyData -> bool): (r: seq<KeyData>)
    ensures |r| <= |keys|
    ensures forall k :: k in r <==> k in keys && p(k)
    decreases |keys|
  {
    if keys == [] then []
    else (if p(keys[0]) then [keys[0]] else []) + Filter(keys[1..], p)
  }

  /** Filtering keeps the original order: filtering a concatenation concatenates
      the filtered parts. */
  lemma {:induction false} FilterConcat(a: seq<KeyData>, b: seq<KeyData>, p: KeyData -> bool)
    ensures Filter(a + b, p) == Filter(a, p) + Filter(b, p)
    decreases |a|
  {
    if a != [] {
      assert (a + b)[1..] == a[1..] + b;
      FilterConcat(a[1..], b, p);
    } else {
      assert a + b == b;
    }
  }

  /** A key without an id never matches. */
  function GetKeyById(keys: seq<KeyData>, id: string): (r: Option<KeyData>)
    ensures r.None? <==> forall j :: 0 <= j < |keys| ==> keys[j].id != Some(id)
    ensures r.Some? ==>
      (exists i :: 0 <= i < |keys| && keys[i] == r.value && keys[i].id == Some(id)
         && (forall j :: 0 <= j < i ==> keys[j].id != Some(id)))
  {
    var p := (k: KeyData) => k.id == Some(id);
    var i := FirstMatch(keys, p);
    assert forall j :: 0 <= j < i ==> !p(keys[j]);
    Find(keys, p)
  }

  function GetKeyByPosition(keys: seq<KeyData>, row: int, col: int): (r: Option<KeyData>)
    ensures r.None? <==> forall j :: 0 <= j < |keys| ==> !(keys[j].row == row && keys[j].col == col)
    ensures r.Some? ==>
      (exists i :: 0 <= i < |keys| && keys[i] == r.value && keys[i].row == row && keys[i].col == col
         && (forall j :: 0 <= j < i ==> !(keys[j].row == row && keys[j].col == col)))
  {
    var p := (k: KeyData) => k.row == row && k.col == col;
    var i := FirstMatch(keys, p);
    assert forall j :: 0 <= j < i ==> !p(keys[j]);
    Find(keys, p)
  }

  /** A key without a mesh name never matches. */
  function GetKeyByMeshName(keys: seq<KeyData>, meshName: string): (r: Option<KeyData>)
    ensures r.None? <==> forall j :: 0 <= j < |keys| ==> keys[j].meshName != Some(meshName)
    ensures r.Some? ==>
      (exists i :: 0 <= i < |keys| && keys[i] == r.value && keys[i].meshName == Some(meshName)
         && (forall j :: 0 <= j < i ==> keys[j].meshName != Some(meshName)))
  {
    var p := (k: KeyData) => k.meshName == Some(meshName);
    var i := FirstMatch(keys, p);
    assert forall j :: 0 <= j < i ==> !p(keys[j]);
    Find(keys, p)
  }

  /** The keys whose `field` equals `value`, in their original order: the shape
      of getKeysByRow, getKeysByColumn, getKeysBySide and getKeysByLayer. */
  function KeysWith<T(==)>(keys: seq<KeyData>, field: KeyData -> T, value: T): (r: seq<KeyData>)
    ensures forall k :: k in r <==> k in keys && field(k) == value
  {
    Filter(keys, (k: KeyData) => field(k) == value)
  }

  function GetKeysByRow(keys: seq<KeyData>, row: int): seq<KeyData> {
    KeysWith(keys, (k: KeyData) => k.row, row)
  }

  function GetKeysByColumn(keys: seq<KeyData>, col: int): seq<KeyData> {
    KeysWith(keys, (k: KeyData) => k.col, col)
  }

  function GetKeysBySide(keys: seq<KeyData>, side: Side): seq<KeyData> {
    KeysWith(keys, (k: KeyData) => k.side, side)
  }

  function GetKeysByLayer(keys: seq<KeyData>, layer: string): seq<KeyData> {
    KeysWith(keys, (k: KeyData) => k.layer, layer)
  }

  /** The placement fields of a key (the `Key` record). */
  datatype Key = Key(
    id: Option<string>,
    row: int,
    col: int,
    position: Option<seq<real>>,
    rotation: Option<seq<real>>,
    side: Side,
    meshName: Option<string>)

  /** The placement of the first key at a grid position, or nothing. */
  function GetKeyPosition(keys: seq<KeyData>, row: int, col: int): (r: Option<Key>)
    ensures r.None? <==> forall j :: 0 <= j < |keys| ==> !(keys[j].row == row && keys[j].col == col)
    ensures r.Some? ==> r.value.row == row && r.value.col == col
    ensures r.Some? ==>
      var k := GetKeyByPosition(keys, row, col).value;
      r.value.id == k.id && r.value.position == k.position && r.value.rotation == k.rotation
      && r.value.side == k.side && r.value.meshName == k.meshName
  {
    var found := GetKeyByPosition(keys, row, col);
    if found.None? then None
    else
      var k := found.value;
      Some(Key(k.id, k.row, k.col, k.position, k.rotation, k.side, k.meshName))
  }

  // ---------------------------------------------------------------------------
  // Layout order (lib/keyboard-utils.ts:77-94)

  /** Columns scanned on a row: the thumb row has six keys, the others the grid width. */
  function MaxCols(row: int, columns: int): int {
    if row == 3 then 6 else columns
  }

  function NonNeg(n: int): nat {
    if n > 0 then n else 0
  }

  /** The keys found at columns `0 .. n-1` of `row`, skipping empty positions. */
  function RowScan(keys: seq<KeyData>, row: int, n: nat): seq<KeyData> {
    if n == 0 then []
    else
      var found := GetKeyByPosition(keys, row, n - 1);
      RowScan(keys, row, n - 1) + (if found.Some? then [found.value] else [])
  }

  /** The layout, row by row. */
  function LayoutOrder(keys: seq<KeyData>, metadata: LayoutMetadata): (layout: seq<seq<KeyData>>)
    ensures |layout| == NonNeg(metadata.rows)
  {
    seq(NonNeg(metadata.rows), row => RowScan(keys, row, NonNeg(MaxCols(row, metadata.columns))))
  }

  /** Every entry of a scanned row lies on that row, inside the scanned columns, and
      the entries come by strictly ascending column. */
  predicate RowSorted(s: seq<KeyData>, row: int, n: nat) {
    (forall i :: 0 <= i < |s| ==> s[i].row == row && 0 <= s[i].col < n)
    && (forall i, j :: 0 <= i < j < |s| ==> s[i].col < s[j].col)
  }

  lemma {:induction false} RowScanSorted(keys: seq<KeyData>, row: int, n: nat)
    ensures RowSorted(RowScan(keys, row, n), row, n)
  {
    if n > 0 {
      RowScanSorted(keys, row, n - 1);
    }
  }

  /** Each entry of `s` is the first key found at its own column of `row`. */
  predicate FirstAtOwnColumn(keys: seq<KeyData>, row: int, s: seq<KeyData>) {
    forall i :: 0 <= i < |s| ==> GetKeyByPosition(keys, row, s[i].col) == Some(s[i])
  }

  /** Every key found at a column `0 .. n-1` of `row` is in `s`. */
  predicate HoldsFound(keys: seq<KeyData>, row: int, n: nat, s: seq<KeyData>) {
    forall c :: 0 <= c < n && GetKeyByPosition(keys, row, c).Some? ==> GetKeyByPosition(keys, row, c).value in s
  }

  /** A scanned row holds exactly the first key found at each scanned column. */
  lemma {:induction false} RowScanContents(keys: seq<KeyData>, row: int, n: nat)
    ensures FirstAtOwnColumn(keys, row, RowScan(keys, row, n))
    ensures HoldsFound(keys, row, n, RowScan(keys, row, n))
  {
    if n > 0 {
      RowScanContents(keys, row, n - 1);
      var prev := RowScan(keys, row, n - 1);
      var found := GetKeyByPosition(keys, row, n - 1);
      var extra := if found.Some? then [found.value] else [];
      var s := prev + extra;
      assert s == RowScan(keys, row, n);
      forall i | 0 <= i < |s|
        ensures GetKeyByPosition(keys, row, s[i].col) == Some(s[i])
      {
        if i < |prev| {
          assert s[i] == prev[i];
        } else {
          assert s[i] == found.value && found.value.col == n - 1;
        }
      }
      forall c | 0 <= c < n && GetKeyByPosition(keys, row, c).Some?
        ensures GetKeyByPosition(keys, row, c).value in s
      {
        if c < n - 1 {
          assert GetKeyByPosition(keys, row, c).value in prev;
        } else {
          assert s[|prev|] == found.value;
        }
      }
    }
  }

  /** getKeysInLayoutOrder. */
  method GetKeysInLayoutOrder(layoutData: KeyboardLayoutData) returns (layout: seq<seq<KeyData>>)
    ensures layout == LayoutOrder(layoutData.keys, layoutData.metadata)
  {
    var keys, metadata := layoutData.keys, layoutData.metadata;
    layout := [];
    var row := 0;
    while row < metadata.rows
      invariant 0 <= row && (row <= metadata.rows || row == 0)
      invariant |layout| == row
      invariant forall r :: 0 <= r < row ==>
        layout[r] == RowScan(keys, r, NonNeg(MaxCols(r, metadata.columns)))
    {
      var maxCols := if row == 3 then 6 else metadata.columns;
      var rowKeys := ScanRow(keys, row, maxCols);
      layout := layout + [rowKeys];
      row := row + 1;
    }
  }

  /** The inner loop of getKeysInLayoutOrder: one row, columns `0 .. maxCols-1`. */
  method ScanRow(keys: seq<KeyData>, row: int, maxCols: int) returns (rowKeys: seq<KeyData>)
    ensures rowKeys == RowScan(keys, row, NonNeg(maxCols))
  {
    rowKeys := [];
    var col := 0;
    while col < maxCols
      invariant 0 <= col && (col <= maxCols || col == 0)
      invariant rowKeys == RowScan(keys, row, col)
    {
      var key := GetKeyByPosition(keys, row, col);
      if key.Some? {
        rowKeys := rowKeys + [key.value];
      }
      col := col + 1;
    }
  }

  // ---------------------------------------------------------------------------
  // Layout checks (lib/keyboard-utils.ts:118-159)

  /** Array.prototype.indexOf: the first index holding `x`, or -1. */
  function IndexOf<T(==)>(xs: seq<T>, x: T): (i: int)
    ensures -1 <= i < |xs|
    ensures i >= 0 ==> xs[i] == x && forall j :: 0 <= j < i ==> xs[j] != x
    ensures i == -1 ==> x !in xs
    decreases |xs|
  {
    if xs == [] then -1
    else if xs[0] == x then 0
    else var i := IndexOf(xs[1..], x); if i == -1 then -1 else i + 1
  }

  /** The entries of `xs[..n]` that occur earlier in `xs`, in order
      (`xs.filter((x, i) => xs.indexOf(x) !== i)`). */
  function Duplicates<T(==)>(xs: seq<T>, n: nat): seq<T>
    requires n <= |xs|
  {
    if n == 0 then []
    else Duplicates(xs, n - 1) + (if IndexOf(xs, xs[n - 1]) != n - 1 then [xs[n - 1]] else [])
  }

  predicate AllDistinct<T(==)>(xs: seq<T>) {
    forall i, j :: 0 <= i < j < |xs| ==> xs[i] != xs[j]
  }

  /** A value not among the earlier ones keeps a distinct list distinct. */
  lemma AllDistinctSnoc<T>(p: seq<T>, x: T)
    requires x !in p
    ensures AllDistinct(p + [x]) <==> AllDistinct(p)
  {
    var q := p + [x];
    assert forall i :: 0 <= i < |p| ==> q[i] == p[i];
  }

  /** Some entry is reported exactly when some value repeats. */
  lemma {:induction false} DuplicatesEmptyIff<T>(xs: seq<T>, n: nat)
    requires n <= |xs|
    ensures Duplicates(xs, n) == [] <==> AllDistinct(xs[..n])
  {
    if n > 0 {
      DuplicatesEmptyIff(xs, n - 1);
      var prefix, x := xs[..n - 1], xs[n - 1];
      var i := IndexOf(xs, x);
      assert xs[..n] == prefix + [x];
      assert i <= n - 1;
      if i != n - 1 {
        assert xs[..n][i] == xs[..n][n - 1];
        assert !AllDistinct(xs[..n]);
      } else {
        assert forall j :: 0 <= j < n - 1 ==> prefix[j] != x;
        AllDistinctSnoc(prefix, x);
      }
    }
  }

  function Ids(keys: seq<KeyData>): (ids: seq<Option<string>>)
    ensures |ids| == |keys| && forall i :: 0 <= i < |keys| ==> ids[i] == keys[i].id
  {
    seq(|keys|, i requires 0 <= i < |keys| => keys[i].id)
  }

  /** `${row},${col}`. */
  function PositionString(k: KeyData): string {
    IntToString(k.row) + "," + IntToString(k.col)
  }

  /** Two keys get the same position string exactly when they share row and column. */
  lemma PositionStringInjective(k: KeyData, k2: KeyData)
    ensures PositionString(k) == PositionString(k2) <==> k.row == k2.row && k.col == k2.col
  {
    if PositionString(k) == PositionString(k2) {
      SplitAtSeparator(IntToString(k.row), IntToString(k.col), IntToString(k2.row), IntToString(k2.col), ',');
      IntToStringInjective(k.row, k2.row);
      IntToStringInjective(k.col, k2.col);
    }
  }

  function Positions(keys: seq<KeyData>): (ps: seq<string>)
    ensures |ps| == |keys| && forall i :: 0 <= i < |keys| ==> ps[i] == PositionString(keys[i])
  {
    seq(|keys|, i requires 0 <= i < |keys| => PositionString(keys[i]))
  }

  const DUPLICATE_IDS := "Duplicate key IDs found: "
  const DUPLICATE_POSITIONS := "Duplicate key positions found: "

  function JoinedTexts(vs: seq<Option<string>>): (ts: seq<string>)
    ensures |ts| == |vs| && forall i :: 0 <= i < |vs| ==> ts[i] == JoinedText(vs[i])
  {
    seq(|vs|, i requires 0 <= i < |vs| => JoinedText(vs[i]))
  }

  function DuplicateIdErrors(keys: seq<KeyData>): seq<string> {
    var ids := Ids(keys);
    var dup := Duplicates(ids, |ids|);
    if |dup| > 0 then [DUPLICATE_IDS + Join(JoinedTexts(dup), ", ")] else []
  }

  function DuplicatePositionErrors(keys: seq<KeyData>): seq<string> {
    var ps := Positions(keys);
    var dup := Duplicates(ps, |ps|);
    if |dup| > 0 then [DUPLICATE_POSITIONS + Join(dup, ", ")] else []
  }

  predicate DistinctIds(keys: seq<KeyData>) {
    forall i, j :: 0 <= i < j < |keys| ==> keys[i].id != keys[j].id
  }

  predicate DistinctPositions(keys: seq<KeyData>) {
    forall i, j :: 0 <= i < j < |keys| ==> !(keys[i].row == keys[j].row && keys[i].col == keys[j].col)
  }

  /** The duplicate-id error is reported exactly when two keys share an id. */
  lemma DuplicateIdReported(keys: seq<KeyData>)
    ensures DuplicateIdErrors(keys) == [] <==> DistinctIds(keys)
  {
    var ids := Ids(keys);
    DuplicatesEmptyIff(ids, |ids|);
    assert ids[..|ids|] == ids;
  }

  /** The duplicate-position error is reported exactly when two keys share a row
      and a column. */
  lemma DuplicatePositionReported(keys: seq<KeyData>)
    ensures DuplicatePositionErrors(keys) == [] <==> DistinctPositions(keys)
  {
    var ps := Positions(keys);
    DuplicatesEmptyIff(ps, |ps|);
    assert ps[..|ps|] == ps;
    forall i, j | 0 <= i < j < |keys|
      ensures ps[i] == ps[j] <==> keys[i].row == keys[j].row && keys[i].col == keys[j].col
    {
      PositionStringInjective(keys[i], keys[j]);
    }
  }

  predicate RowInBounds(k: KeyData, rows: int) {
    0 <= k.row < rows
  }

  predicate ColInBounds(k: KeyData, columns: int) {
    0 <= k.col < MaxCols(k.row, columns)
  }

  function RowError(k: KeyData): string {
    "Key " + Shown(k.id) + " has invalid row: " + IntToString(k.row)
  }

  function ColumnError(k: KeyData): string {
    "Key " + Shown(k.id) + " has invalid column: " + IntToString(k.col)
  }

  /** The bounds errors of one key: one for its row, one for its column. */
  function KeyBoundErrors(k: KeyData, metadata: LayoutMetadata): seq<string> {
    (if !RowInBounds(k, metadata.rows) then [RowError(k)] else [])
    + (if !ColInBounds(k, metadata.columns) then [ColumnError(k)] else [])
  }

  function BoundErrors(keys: seq<KeyData>, metadata: LayoutMetadata, n: nat): seq<string>
    requires n <= |keys|
  {
    if n == 0 then [] else BoundErrors(keys, metadata, n - 1) + KeyBoundErrors(keys[n - 1], metadata)
  }

  /** A falsy id or binding (absent or empty) or an absent position or rotation. */
  predicate MissingFields(k: KeyData) {
    Falsy(k.id) || Falsy(k.binding) || k.position.None? || k.rotation.None?
  }

  /** A falsy id is reported as "unknown". */
  function FieldError(k: KeyData): string {
    "Key " + (if Falsy(k.id) then "unknown" else k.id.value) + " is missing required fields"
  }

  function FieldErrors(keys: seq<KeyData>, n: nat): seq<string>
    requires n <= |keys|
  {
    if n == 0 then []
    else
      var k := keys[n - 1];
      FieldErrors(keys, n - 1) + (if MissingFields(k) then [FieldError(k)] else [])
  }

  datatype LayoutCheck = LayoutCheck(isValid: bool, errors: seq<string>)

  function ValidateLayoutSpec(layoutData: KeyboardLayoutData): LayoutCheck {
    var keys := layoutData.keys;
    var errors := DuplicateIdErrors(keys) + DuplicatePositionErrors(keys)
      + BoundErrors(keys, layoutData.metadata, |keys|) + FieldErrors(keys, |keys|);
    LayoutCheck(|errors| == 0, errors)
  }

  lemma {:induction false} BoundErrorsEmptyIff(keys: seq<KeyData>, metadata: LayoutMetadata, n: nat)
    requires n <= |keys|
    ensures BoundErrors(keys, metadata, n) == [] <==>
      forall i :: 0 <= i < n ==> RowInBounds(keys[i], metadata.rows) && ColInBounds(keys[i], metadata.columns)
  {
    if n > 0 {
      BoundErrorsEmptyIff(keys, metadata, n - 1);
    }
  }

  lemma {:induction false} FieldErrorsEmptyIff(keys: seq<KeyData>, n: nat)
    requires n <= |keys|
    ensures FieldErrors(keys, n) == [] <==> forall i :: 0 <= i < n ==> !MissingFields(keys[i])
  {
    if n > 0 {
      FieldErrorsEmptyIff(keys, n - 1);
    }
  }

  /** The bounds loop adds at most two errors per key: one for the row, one for
      the column. */
  lemma {:induction false} BoundErrorsAtMostTwoPerKey(keys: seq<KeyData>, metadata: LayoutMetadata, n: nat)
    requires n <= |keys|
    ensures |BoundErrors(keys, metadata, n)| <= 2 * n
  {
    if n > 0 {
      BoundErrorsAtMostTwoPerKey(keys, metadata, n - 1);
      var k := keys[n - 1];
      assert |KeyBoundErrors(k, metadata)| <= 2;
    }
  }

  /** The fields loop adds at most one error per key. */
  lemma {:induction false} FieldErrorsAtMostOnePerKey(keys: seq<KeyData>, n: nat)
    requires n <= |keys|
    ensures |FieldErrors(keys, n)| <= n
  {
    if n > 0 {
      FieldErrorsAtMostOnePerKey(keys, n - 1);
    }
  }

  /** A layout is valid exactly when ids and positions are unique, every key lies
      inside the grid (six columns on the thumb row) and no key lacks a field. */
  lemma LayoutValidIff(layoutData: KeyboardLayoutData)
    ensures ValidateLayoutSpec(layoutData).isValid <==>
      DistinctIds(layoutData.keys) && DistinctPositions(layoutData.keys)
      && (forall k :: k in layoutData.keys ==>
            RowInBounds(k, layoutData.metadata.rows) && ColInBounds(k, layoutData.metadata.columns)
            && !MissingFields(k))
  {
    var keys, metadata := layoutData.keys, layoutData.metadata;
    DuplicateIdReported(keys);
    DuplicatePositionReported(keys);
    BoundErrorsEmptyIff(keys, metadata, |keys|);
    FieldErrorsEmptyIff(keys, |keys|);
  }

  /** The callback of the bounds loop of validateKeyboardLayout, for one key. */
  method CheckKeyBounds(key: KeyData, metadata: LayoutMetadata, errorsBefore: seq<string>)
    returns (errors: seq<string>)
    ensures errors == errorsBefore + KeyBoundErrors(key, metadata)
  {
    errors := errorsBefore;
    if key.row < 0 || key.row >= metadata.rows {
      errors := errors + ["Key " + Shown(key.id) + " has invalid row: " + IntToString(key.row)];
    }
    var maxCols := if key.row == 3 then 6 else metadata.columns;
    if key.col < 0 || key.col >= maxCols {
      errors := errors + ["Key " + Shown(key.id) + " has invalid column: " + IntToString(key.col)];
    }
  }

  /** The bounds loop of validateKeyboardLayout. */
  method CheckBounds(keys: seq<KeyData>, metadata: LayoutMetadata, errorsBefore: seq<string>)
    returns (errors: seq<string>)
    ensures errors == errorsBefore + BoundErrors(keys, metadata, |keys|)
  {
    errors := errorsBefore;
    var n := 0;
    while n < |keys|
      invariant n <= |keys|
      invariant errors == errorsBefore + BoundErrors(keys, metadata, n)
    {
      ghost var found := BoundErrors(keys, metadata, n);
      errors := CheckKeyBounds(keys[n], metadata, errors);
      assert errors == errorsBefore + (found + KeyBoundErrors(keys[n], metadata));
      n := n + 1;
    }
  }

  /** The required-fields loop of validateKeyboardLayout. */
  method CheckFields(keys: seq<KeyData>, errorsBefore: seq<string>) returns (errors: seq<string>)
    ensures errors == errorsBefore + FieldErrors(keys, |keys|)
  {
    errors := errorsBefore;
    var n := 0;
    while n < |keys|
      invariant n <= |keys|
      invariant errors == errorsBefore + FieldErrors(keys, n)
    {
      var key := keys[n];
      if !(key.id.Some? && key.id.value != "") || !(key.binding.Some? && key.binding.value != "")
        || key.position.None? || key.rotation.None? {
        var name := if key.id.Some? && key.id.value != "" then key.id.value else "unknown";
        errors := errors + ["Key " + name + " is missing required fields"];
      }
      n := n + 1;
    }
  }

  /** validateKeyboardLayout. */
  method ValidateKeyboardLayout(layoutData: KeyboardLayoutData) returns (result: LayoutCheck)
    ensures result == ValidateLayoutSpec(layoutData)
  {
    var keys := layoutData.keys;
    var errors: seq<string> := [];
    var ids := Ids(keys);
    var duplicateIds := Duplicates(ids, |ids|);
    if |duplicateIds| > 0 {
      errors := errors + [DUPLICATE_IDS + Join(JoinedTexts(duplicateIds), ", ")];
    }
    var positions := Positions(keys);
    var duplicatePositions := Duplicates(positions, |positions|);
    if |duplicatePositions| > 0 {
      errors := errors + [DUPLICATE_POSITIONS + Join(duplicatePositions, ", ")];
    }
    assert errors == DuplicateIdErrors(keys) + DuplicatePositionErrors(keys);
    errors := CheckBounds(keys, layoutData.metadata, errors);
    errors := CheckFields(keys, errors);
    result := LayoutCheck(|errors| == 0, errors);
  }

  // ---------------------------------------------------------------------------
  // The default keymap (lib/keyboard-utils.ts:191-218)

  /** What `getBindingType(undefined)` throws: reading `startsWith` of undefined. */
  const UNDEFINED_BINDING := "Cannot read properties of undefined (reading 'startsWith')"

  /** The binding a layout key starts with. */
  function DefaultBinding(k: KeyData): Binding
    requires k.binding.Some?
  {
    Binding(k.binding.value, k.displayLabel, GetBindingType(k.binding.value))
  }

  /** Every one of the first `n` keys on layer "0" has a binding. */
  predicate BaseBound(keys: seq<KeyData>, n: nat)
    requires n <= |keys|
  {
    forall i :: 0 <= i < n && keys[i].layer == "0" ==> keys[i].binding.Some?
  }

  /** The base-layer bindings after the first `n` keys, under the property key
      each id becomes: a later key with the same property key overwrites an
      earlier one. */
  function BaseKeys(keys: seq<KeyData>, n: nat): map<string, Binding>
    requires n <= |keys| && BaseBound(keys, n)
  {
    if n == 0 then map[]
    else
      var k := keys[n - 1];
      var m := BaseKeys(keys, n - 1);
      if k.layer == "0" then m[Shown(k.id) := DefaultBinding(k)] else m
  }

  const BASE_LAYER_ID := "0"
  const BASE_LAYER_NAME := "Base"

  /** The default keymap, or the TypeError a base-layer key without a binding raises. */
  function DefaultKeymapSpec(layoutData: KeyboardLayoutData): Result<KeymapConfig> {
    var keys, metadata := layoutData.keys, layoutData.metadata;
    if !BaseBound(keys, |keys|) then Err(UNDEFINED_BINDING)
    else
      Ok(KeymapConfig(
        [Layer(BASE_LAYER_ID, BASE_LAYER_NAME, BaseKeys(keys, |keys|))],
        KeymapMetadata(metadata.name, metadata.version, metadata.layout, metadata.totalKeys)))
  }

  /** The last of the first `n` keys on the base layer with this property key. */
  predicate LastBaseKey(keys: seq<KeyData>, n: nat, i: nat)
    requires i < n <= |keys|
  {
    keys[i].layer == "0"
    && forall j :: i < j < n ==> !(keys[j].layer == "0" && Shown(keys[j].id) == Shown(keys[i].id))
  }

  /** The base layer holds exactly the property keys of the layout keys on layer
      "0" (an absent id becomes "undefined"), each bound as the last such key
      says. */
  lemma {:induction false} BaseKeysContents(keys: seq<KeyData>, n: nat)
    requires n <= |keys| && BaseBound(keys, n)
    ensures forall i :: 0 <= i < n && keys[i].layer == "0" ==> Shown(keys[i].id) in BaseKeys(keys, n)
    ensures forall id :: id in BaseKeys(keys, n) ==>
      exists i :: 0 <= i < n && keys[i].layer == "0" && Shown(keys[i].id) == id
    ensures forall i :: 0 <= i < n && LastBaseKey(keys, n, i) ==>
      BaseKeys(keys, n)[Shown(keys[i].id)] == DefaultBinding(keys[i])
  {
    if n > 0 {
      assert BaseBound(keys, n - 1);
      BaseKeysContents(keys, n - 1);
      forall i | 0 <= i < n && LastBaseKey(keys, n, i)
        ensures BaseKeys(keys, n)[Shown(keys[i].id)] == DefaultBinding(keys[i])
      {
        if i < n - 1 {
          assert LastBaseKey(keys, n - 1, i);
        }
      }
    }
  }

  /** No two keys share a property key: their ids differ, and no absent id meets
      the id "undefined". */
  predicate DistinctPropertyKeys(keys: seq<KeyData>) {
    forall i, j :: 0 <= i < j < |keys| ==> Shown(keys[i].id) != Shown(keys[j].id)
  }

  /** When every base-layer key has a binding the default keymap is built, and with
      distinct property keys every base-layer key is bound as its own layout entry
      says; a base-layer key without a binding makes it throw. */
  lemma DefaultKeymapContents(layoutData: KeyboardLayoutData)
    ensures DefaultKeymapSpec(layoutData).Err? <==>
      exists i :: 0 <= i < |layoutData.keys| && layoutData.keys[i].layer == "0" && layoutData.keys[i].binding.None?
    ensures DefaultKeymapSpec(layoutData).Ok? && DistinctPropertyKeys(layoutData.keys) ==>
      var keys := layoutData.keys;
      var base := DefaultKeymapSpec(layoutData).value.layers[0].keys;
      forall i :: 0 <= i < |keys| && keys[i].layer == "0" ==>
        Shown(keys[i].id) in base && base[Shown(keys[i].id)] == DefaultBinding(keys[i])
  {
    var keys := layoutData.keys;
    if BaseBound(keys, |keys|) {
      BaseKeysContents(keys, |keys|);
      if DistinctPropertyKeys(keys) {
        forall i | 0 <= i < |keys| && keys[i].layer == "0"
          ensures LastBaseKey(keys, |keys|, i)
        {
        }
      }
    }
  }

  /** getDefaultKeymap. */
  method GetDefaultKeymap(layoutData: KeyboardLayoutData) returns (r: Result<KeymapConfig>)
    ensures r == DefaultKeymapSpec(layoutData)
  {
    var keys := layoutData.keys;
    var baseKeys: map<string, Binding> := map[];
    var n := 0;
    while n < |keys|
      invariant n <= |keys| && BaseBound(keys, n)
      invariant baseKeys == BaseKeys(keys, n)
    {
      var key := keys[n];
      if key.layer == "0" {
        if key.binding.None? {
          return Err(UNDEFINED_BINDING);
        }
        var binding := key.binding.value;
        baseKeys := baseKeys[Shown(key.id) := Binding(binding, key.displayLabel, GetBindingType(binding))];
      }
      n := n + 1;
    }
    var metadata := layoutData.metadata;
    r := Ok(KeymapConfig(
      [Layer("0", "Base", baseKeys)],
      KeymapMetadata(metadata.name, metadata.version, metadata.layout, metadata.totalKeys)));
  }
}
