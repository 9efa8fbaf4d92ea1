/** The keymap editor's state store (lib/zmk-store.ts): six state cells, the
    write actions that update them, and the derived reads. Each atom becomes a
    field of `KeymapStore`; each write action a method. */
module ZmkStore {
  import opened Text
  import opened KeyboardTypes

  const CANNOT_REMOVE_LAST := "Cannot remove the last layer"

  /** The first layer with the given id (`layers.find(l => l.id === id)`). */
  function FindLayer(layers: seq<Layer>, id: string): (r: Option<Layer>)
    ensures r.Some? ==> r.value.id == id && r.value in layers
    ensures r.None? <==> forall i :: 0 <= i < |layers| ==> layers[i].id != id
    ensures r.Some? ==>
      exists i :: 0 <= i < |layers| && layers[i] == r.value && (forall j :: 0 <= j < i ==> layers[j].id != id)
  {
    if layers == [] then None
    else if layers[0].id == id then Some(layers[0])
    else
      var rest := FindLayer(layers[1..], id);
      assert rest.Some? ==> rest.value in layers[1..];
      assert forall i :: 1 <= i < |layers| ==> layers[i] == layers[1..][i - 1];
      rest
  }

  /** The bindings of a layer after `keys[keyId] = binding`. */
  function SetKey(layer: Layer, keyId: string, binding: Binding): Layer {
    layer.(keys := layer.keys[keyId := binding])
  }

  /** The layer list setBinding computes (`layers.map`): every layer with the
      given id gets the binding, the others are kept as they are. */
  function WithBinding(layers: seq<Layer>, layerId: string, keyId: string, binding: Binding): (r: seq<Layer>)
    ensures |r| == |layers|
    ensures forall i :: 0 <= i < |layers| ==> r[i].id == layers[i].id && r[i].name == layers[i].name
    ensures forall i :: 0 <= i < |layers| && layers[i].id != layerId ==> r[i] == layers[i]
    ensures forall i :: 0 <= i < |layers| && layers[i].id == layerId ==>
      keyId in r[i].keys && r[i].keys[keyId] == binding
      && forall k :: k in layers[i].keys && k != keyId ==> k in r[i].keys && r[i].keys[k] == layers[i].keys[k]
    ensures forall i :: 0 <= i < |layers| ==> r[i].keys.Keys <= layers[i].keys.Keys + {keyId}
  {
    seq(|layers|, i requires 0 <= i < |layers| =>
      if layers[i].id == layerId then SetKey(layers[i], keyId, binding) else layers[i])
  }

  /** The layer list removeLayer computes (`layers.filter`): the layers whose id
      differs, in their order. */
  function WithoutLayer(layers: seq<Layer>, layerId: string): (r: seq<Layer>)
    ensures |r| <= |layers|
    ensures forall l :: l in r ==> l in layers && l.id != layerId
    ensures forall l :: l in layers && l.id != layerId ==> l in r
    decreases |layers|
  {
    if layers == [] then []
    else (if layers[0].id != layerId then [layers[0]] else []) + WithoutLayer(layers[1..], layerId)
  }

  /** The filter keeps the order of the layers: filtering a concatenation
      concatenates the filtered parts. */
  lemma {:induction false} WithoutLayerConcat(a: seq<Layer>, b: seq<Layer>, layerId: string)
    ensures WithoutLayer(a + b, layerId) == WithoutLayer(a, layerId) + WithoutLayer(b, layerId)
    decreases |a|
  {
    if a == [] {
      assert a + b == b;
    } else {
      assert (a + b)[0] == a[0] && (a + b)[1..] == a[1..] + b;
      WithoutLayerConcat(a[1..], b, layerId);
      var head := if a[0].id != layerId then [a[0]] else [];
      assert head + (WithoutLayer(a[1..], layerId) + WithoutLayer(b, layerId))
        == (head + WithoutLayer(a[1..], layerId)) + WithoutLayer(b, layerId);
    }
  }

  /** The keymap after the layers changed: a present keymap follows the new
      layers and keeps its metadata; an absent one stays absent. */
  function SyncKeymap(keymap: Option<KeymapConfig>, layers: seq<Layer>): (r: Option<KeymapConfig>)
    ensures r.Some? <==> keymap.Some?
    ensures r.Some? ==> r.value.layers == layers && r.value.metadata == keymap.value.metadata
  {
    if keymap.Some? then Some(keymap.value.(layers := layers)) else None
  }

  /** `i` is the index of the first layer with this id, the one `find` returns. */
  predicate FirstWithId(layers: seq<Layer>, i: int, id: string) {
    0 <= i < |layers| && layers[i].id == id && forall j :: 0 <= j < i ==> layers[j].id != id
  }

  /** The first layer with an id is the one the lookup finds. */
  lemma FindLayerFirst(layers: seq<Layer>, id: string, i: int)
    requires FirstWithId(layers, i, id)
    ensures FindLayer(layers, id) == Some(layers[i])
  {
    var r := FindLayer(layers, id);
    var i' :| 0 <= i' < |layers| && layers[i'] == r.value && (forall j :: 0 <= j < i' ==> layers[j].id != id);
    assert i' == i;
  }

  /** Every first layer with an id is the one the lookup finds, and a found layer
      sits at such an index. */
  lemma FindFirst(layers: seq<Layer>, id: string)
    ensures forall i :: FirstWithId(layers, i, id) ==> FindLayer(layers, id) == Some(layers[i])
    ensures FindLayer(layers, id).Some? ==> exists i :: FirstWithId(layers, i, id)
  {
    forall i | FirstWithId(layers, i, id)
      ensures FindLayer(layers, id) == Some(layers[i])
    {
      FindLayerFirst(layers, id, i);
    }
    var r := FindLayer(layers, id);
    if r.Some? {
      var i :| 0 <= i < |layers| && layers[i] == r.value && (forall j :: 0 <= j < i ==> layers[j].id != id);
      assert FirstWithId(layers, i, id);
    }
  }

  /** currentLayerAtom: with no selection (none or the empty id) the first layer,
      otherwise the first layer with the selected id. */
  function CurrentLayerOf(layers: seq<Layer>, selectedLayer: Option<string>): (r: Option<Layer>)
    ensures selectedLayer.None? || selectedLayer == Some("") ==>
      (r.Some? <==> layers != []) && (r.Some? ==> r.value == layers[0])
    ensures selectedLayer.Some? && selectedLayer.value != "" ==> r == FindLayer(layers, selectedLayer.value)
  {
    if selectedLayer.None? || selectedLayer.value == "" then
      if layers == [] then None else Some(layers[0])
    else FindLayer(layers, selectedLayer.value)
  }

  /** getKeyBindingAtom: the binding of `keyId` in the first layer with id
      `layerId`, if both exist. */
  function KeyBindingOf(layers: seq<Layer>, layerId: string, keyId: string): (r: Option<Binding>)
    ensures r.Some? <==> FindLayer(layers, layerId).Some? && keyId in FindLayer(layers, layerId).value.keys
    ensures r.Some? ==> r.value == FindLayer(layers, layerId).value.keys[keyId]
  {
    var layer := FindLayer(layers, layerId);
    if layer.Some? && keyId in layer.value.keys then Some(layer.value.keys[keyId]) else None
  }

  /** Finding a layer in the updated list gives the updated copy of the layer
      found before: the same id, the same position. */
  lemma {:induction false} FindAfterBinding(layers: seq<Layer>, layerId: string, keyId: string, binding: Binding, id: string)
    ensures var found := FindLayer(layers, id);
      var after := FindLayer(WithBinding(layers, layerId, keyId, binding), id);
      after.Some? == found.Some?
      && (found.Some? ==> after.value == if id == layerId then SetKey(found.value, keyId, binding) else found.value)
    decreases |layers|
  {
    if layers != [] {
      var updated := WithBinding(layers, layerId, keyId, binding);
      FindAfterBinding(layers[1..], layerId, keyId, binding, id);
      assert updated[1..] == WithBinding(layers[1..], layerId, keyId, binding);
    }
  }

  /** After setBinding, the key reads back the new binding when its layer exists,
      and every other key of every layer reads back what it did before. */
  lemma SetBindingReadBack(layers: seq<Layer>, layerId: string, keyId: string, binding: Binding, id: string, key: string)
    ensures var after := WithBinding(layers, layerId, keyId, binding);
      KeyBindingOf(after, layerId, keyId) == (if FindLayer(layers, layerId).Some? then Some(binding) else None)
      && ((id, key) != (layerId, keyId) ==> KeyBindingOf(after, id, key) == KeyBindingOf(layers, id, key))
  {
    FindAfterBinding(layers, layerId, keyId, binding, layerId);
    FindAfterBinding(layers, layerId, keyId, binding, id);
  }

  /** Removing a layer leaves every other id finding the same layer, and the
      removed id finding none. */
  lemma {:induction false} FindAfterRemove(layers: seq<Layer>, layerId: string, id: string)
    ensures FindLayer(WithoutLayer(layers, layerId), id) == if id == layerId then None else FindLayer(layers, id)
    decreases |layers|
  {
    if layers != [] {
      FindAfterRemove(layers[1..], layerId, id);
      var rest := WithoutLayer(layers[1..], layerId);
      if layers[0].id != layerId {
        assert WithoutLayer(layers, layerId) == [layers[0]] + rest;
        assert ([layers[0]] + rest)[1..] == rest;
      } else {
        assert WithoutLayer(layers, layerId) == rest;
      }
    }
  }

  /** Removing an id no layer has leaves the list as it was. */
  lemma {:induction false} RemoveUnknownKeepsLayers(layers: seq<Layer>, layerId: string)
    requires forall i :: 0 <= i < |layers| ==> layers[i].id != layerId
    ensures WithoutLayer(layers, layerId) == layers
    decreases |layers|
  {
    if layers != [] {
      RemoveUnknownKeepsLayers(layers[1..], layerId);
      assert [layers[0]] + layers[1..] == layers;
    }
  }

  /** With distinct ids, removing one present layer removes exactly one. */
  lemma {:induction false} RemoveDistinctRemovesOne(layers: seq<Layer>, layerId: string)
    requires forall i, j :: 0 <= i < j < |layers| ==> layers[i].id != layers[j].id
    requires exists i :: 0 <= i < |layers| && layers[i].id == layerId
    ensures |WithoutLayer(layers, layerId)| == |layers| - 1
    decreases |layers|
  {
    if layers[0].id == layerId {
      RemoveUnknownKeepsLayers(layers[1..], layerId);
    } else {
      var i :| 0 <= i < |layers| && layers[i].id == layerId;
      assert layers[1..][i - 1].id == layerId;
      RemoveDistinctRemovesOne(layers[1..], layerId);
    }
  }

  /** With distinct ids, removing from two or more layers leaves at least one. */
  lemma RemoveKeepsOneWhenDistinct(layers: seq<Layer>, layerId: string)
    requires |layers| >= 2
    requires forall i, j :: 0 <= i < j < |layers| ==> layers[i].id != layers[j].id
    ensures |WithoutLayer(layers, layerId)| >= 1
  {
    if exists i :: 0 <= i < |layers| && layers[i].id == layerId {
      RemoveDistinctRemovesOne(layers, layerId);
    } else {
      RemoveUnknownKeepsLayers(layers, layerId);
    }
  }

  /** The last-layer guard counts layers, not ids: two layers sharing an id are
      removed together, leaving none. */
  lemma RemoveSharedIdEmpties(a: Layer, b: Layer)
    requires a.id == b.id
    ensures WithoutLayer([a, b], a.id) == []
  {
    assert [a, b][1..] == [b];
  }

  /** A layer appended at the end is found only when no earlier layer has its id;
      the layers found before are found still. */
  lemma {:induction false} FindAfterAppend(layers: seq<Layer>, layer: Layer, id: string)
    ensures FindLayer(layers + [layer], id) ==
      if FindLayer(layers, id).Some? then FindLayer(layers, id)
      else if layer.id == id then Some(layer) else None
    decreases |layers|
  {
    if layers != [] {
      assert (layers + [layer])[1..] == layers[1..] + [layer];
      FindAfterAppend(layers[1..], layer, id);
    }
  }

  /** The six cells of the combined state (zmkStateAtom). */
  datatype StoreState = StoreState(
    layers: seq<Layer>,
    keymap: Option<KeymapConfig>,
    selectedKey: Option<string>,
    selectedLayer: Option<string>,
    isLoading: bool,
    error: Option<string>)

  const INITIAL_STATE := StoreState([], None, None, None, false, None)

  class KeymapStore {
    var layers: seq<Layer>
    var keymap: Option<KeymapConfig>
    var selectedKey: Option<string>
    var selectedLayer: Option<string>
    var isLoading: bool
    var error: Option<string>

    /** zmkStateAtom: the six cells together. */
    function State(): StoreState
      reads this
    {
      StoreState(layers, keymap, selectedKey, selectedLayer, isLoading, error)
    }

    /** A present keymap lists the store's layers: every action keeps this. */
    predicate Synced()
      reads this
    {
      keymap.Some? ==> keymap.value.layers == layers
    }

    constructor()
      ensures State() == INITIAL_STATE
      ensures Synced()
    {
      layers := [];
      keymap := None;
      selectedKey := None;
      selectedLayer := None;
      isLoading := false;
      error := None;
    }

    /** getLayerAtom: a stored layer with that id, or none when no layer has it. */
    function GetLayer(layerId: string): (r: Option<Layer>)
      reads this
      ensures r.Some? ==> r.value in layers && r.value.id == layerId
      ensures r.None? <==> forall i :: 0 <= i < |layers| ==> layers[i].id != layerId
      ensures forall i :: FirstWithId(layers, i, layerId) ==> r == Some(layers[i])
    {
      FindFirst(layers, layerId);
      FindLayer(layers, layerId)
    }

    /** currentLayerAtom: always one of the stored layers; with no selection the
        first one, otherwise one carrying the selected id. */
    function CurrentLayer(): (r: Option<Layer>)
      reads this
      ensures r.Some? ==> r.value in layers
      ensures selectedLayer.None? || selectedLayer == Some("") ==> (r.Some? <==> layers != [])
      ensures selectedLayer.Some? && selectedLayer.value != "" ==>
        (r.Some? ==> r.value.id == selectedLayer.value)
        && (r.None? <==> forall i :: 0 <= i < |layers| ==> layers[i].id != selectedLayer.value)
      ensures selectedLayer.None? || selectedLayer == Some("") ==> (r.Some? ==> r == Some(layers[0]))
      ensures selectedLayer.Some? && selectedLayer.value != "" ==>
        forall i :: FirstWithId(layers, i, selectedLayer.value) ==> r == Some(layers[i])
    {
      FindFirst(layers, if selectedLayer.Some? then selectedLayer.value else "");
      CurrentLayerOf(layers, selectedLayer)
    }

    /** getKeyBindingAtom: a binding the store holds for that key in a layer with
        that id, and none when no layer has the id. */
    function GetKeyBinding(layerId: string, keyId: string): (r: Option<Binding>)
      reads this
      ensures r.Some? ==>
        exists i :: 0 <= i < |layers| && layers[i].id == layerId && keyId in layers[i].keys
                    && r.value == layers[i].keys[keyId]
      ensures (forall i :: 0 <= i < |layers| ==> layers[i].id != layerId) ==> r.None?
      ensures r.Some? <==> exists i :: FirstWithId(layers, i, layerId) && keyId in layers[i].keys
      ensures forall i :: FirstWithId(layers, i, layerId) && keyId in layers[i].keys ==>
        r == Some(layers[i].keys[keyId])
    {
      FindFirst(layers, layerId);
      KeyBindingOf(layers, layerId, keyId)
    }

    /** setBindingAtom: the binding lands in every layer with that id, the
        keymap follows, the error clears; the selections and loading flag stay. */
    method SetBinding(layerId: string, keyId: string, binding: Binding)
      modifies this
      ensures State() == old(State()).(
        layers := WithBinding(old(layers), layerId, keyId, binding),
        keymap := SyncKeymap(old(keymap), layers),
        error := None)
      ensures Synced()
    {
      var updatedLayers := WithBinding(layers, layerId, keyId, binding);
      layers := updatedLayers;
      if keymap.Some? {
        keymap := Some(keymap.value.(layers := updatedLayers));
      }
      error := None;
    }

    /** addLayerAtom: one empty layer with id `layer_<now>` appended at the end.
        `now` stands for the clock reading the action takes. */
    method AddLayer(name: string, now: nat)
      modifies this
      ensures State() == old(State()).(
        layers := old(layers) + [Layer("layer_" + NatToString(now), name, map[])],
        keymap := SyncKeymap(old(keymap), layers),
        error := None)
      ensures Synced()
    {
      var newLayerId := "layer_" + NatToString(now);
      var newLayer := Layer(newLayerId, name, map[]);
      var updatedLayers := layers + [newLayer];
      layers := updatedLayers;
      if keymap.Some? {
        keymap := Some(keymap.value.(layers := updatedLayers));
      }
      error := None;
    }

    /** removeLayerAtom: refused with an error when at most one layer is left;
        otherwise the layers with that id go, the keymap follows, a selection of
        that layer is cleared and so is the error. */
    method RemoveLayer(layerId: string)
      modifies this
      ensures |old(layers)| <= 1 ==> State() == old(State()).(error := Some(CANNOT_REMOVE_LAST))
      ensures |old(layers)| <= 1 && old(Synced()) ==> Synced()
      ensures |old(layers)| > 1 ==> State() == old(State()).(
        layers := WithoutLayer(old(layers), layerId),
        keymap := SyncKeymap(old(keymap), layers),
        selectedLayer := if old(selectedLayer) == Some(layerId) then None else old(selectedLayer),
        error := None)
      ensures |old(layers)| > 1 ==> Synced()
    {
      if |layers| <= 1 {
        error := Some(CANNOT_REMOVE_LAST);
        return;
      }
      var updatedLayers := WithoutLayer(layers, layerId);
      layers := updatedLayers;
      if keymap.Some? {
        keymap := Some(keymap.value.(layers := updatedLayers));
      }
      if selectedLayer == Some(layerId) {
        selectedLayer := None;
      }
      error := None;
    }

    /** loadKeymapAtom: the keymap and its layers replace the old ones; loading
        ends and the error clears; the selections stay. */
    method LoadKeymap(config: KeymapConfig)
      modifies this
      ensures State() == old(State()).(
        keymap := Some(config), layers := config.layers, isLoading := false, error := None)
      ensures Synced()
    {
      keymap := Some(config);
      layers := config.layers;
      isLoading := false;
      error := None;
    }

    /** resetStateAtom: every cell back to its initial value. */
    method ResetState()
      modifies this
      ensures State() == INITIAL_STATE
      ensures Synced()
    {
      layers := [];
      keymap := None;
      selectedKey := None;
      selectedLayer := None;
      isLoading := false;
      error := None;
    }

    /** selectKeyAtom. */
    method SelectKey(keyId: Option<string>)
      modifies this
      ensures State() == old(State()).(selectedKey := keyId, error := None)
      ensures old(Synced()) ==> Synced()
    {
      selectedKey := keyId;
      error := None;
    }

    /** selectLayerAtom. */
    method SelectLayer(layerId: Option<string>)
      modifies this
      ensures State() == old(State()).(selectedLayer := layerId, error := None)
      ensures old(Synced()) ==> Synced()
    {
      selectedLayer := layerId;
      error := None;
    }

    /** setLoadingAtom: only the loading flag changes. */
    method SetLoading(loading: bool)
      modifies this
      ensures State() == old(State()).(isLoading := loading)
      ensures old(Synced()) ==> Synced()
    {
      isLoading := loading;
    }

    /** setErrorAtom: the error is set and loading ends. */
    method SetError(message: Option<string>)
      modifies this
      ensures State() == old(State()).(error := message, isLoading := false)
      ensures old(Synced()) ==> Synced()
    {
      error := message;
      isLoading := false;
    }
  }
}
