/** Names used by the 3D keyboard view (lib/keyboard-config.ts): the display
    symbols of key names, the map from physical keyboard keys to model key
    names, and the key name read off a keycap mesh's node name. */
module KeyboardConfig {
  import opened Text
  import ZmkBinding

  // ---------------------------------------------------------------------------
  // Tables (lib/keyboard-config.ts:9-77)

  /** KEY_SYMBOL_MAP: display symbols for key names. No symbol is empty. */
  function KeySymbol(name: string): (symbol: Option<string>)
    ensures symbol.Some? ==> symbol.value != ""
  {
    match name
    case "Layer1" => Some("L1")
    case "Layer2" => Some("L2")
    case "LAYER1" => Some("L1")
    case "LAYER2" => Some("L2")
    case "Enter" => Some("⏎")
    case "SPACE" => Some("␣")
    case "CMD" => Some("⌘")
    case "CTRL" => Some("⌃")
    case "Del" => Some("⌫")
    case "OPTION" => Some("⌥")
    case "SHIFT" => Some("⇧")
    case "TAB" => Some("⇥")
    case "ESC" => Some("⎋")
    case "DOT" => Some(".")
    case "COMMA" => Some(",")
    case "FSLH" => Some("/")
    case "SEMI" => Some(";")
    case "SQT" => Some("'")
    case "GRAVE" => Some("`")
    case "BSLH" => Some("\\")
    case "LBKT" => Some("[")
    case "RBKT" => Some("]")
    case "MINUS" => Some("-")
    case "EQUAL" => Some("=")
    case "LSHIFT" => Some("⇧")
    case "RSHIFT" => Some("⇧")
    case "LCTRL" => Some("⌃")
    case "RCTRL" => Some("⌃")
    case "LALT" => Some("⌥")
    case "RALT" => Some("⌥")
    case "LGUI" => Some("⌘")
    case "RGUI" => Some("⌘")
    case "BSPC" => Some("⌫")
    case "RET" => Some("⏎")
    case "ENTER" => Some("⏎")
    case _ => None
  }

  /** `KEY_SYMBOL_MAP[name] || name`, as the keyboard view displays a key name:
      every symbol is non-empty, so the name itself shows exactly when the table
      lacks it. */
  function DisplaySymbol(name: string): (shown: string)
    ensures KeySymbol(name).Some? ==> shown == KeySymbol(name).value
    ensures KeySymbol(name).None? ==> shown == name
  {
    if KeySymbol(name).Some? then KeySymbol(name).value else name
  }

  /** No symbol is itself a key name of the table, so displaying is idempotent. */
  lemma DisplaySymbolIdempotent(name: string)
    ensures DisplaySymbol(DisplaySymbol(name)) == DisplaySymbol(name)
  {
    var s := KeySymbol(name);
    if s.Some? {
      SymbolIsNotAName(name);
    }
  }

  lemma SymbolIsNotAName(name: string)
    requires KeySymbol(name).Some?
    ensures KeySymbol(KeySymbol(name).value).None?
  {
  }

  /** The table agrees with the importer's ZMK label table on every key code the
      two share (TAB, ESC, SPACE, the punctuation, the modifiers, BSPC, RET, ENTER). */
  lemma SymbolsAgreeWithZmkLabels(code: string)
    requires KeySymbol(code).Some? && ZmkBinding.ZmkKeyLabels(code).Some?
    ensures KeySymbol(code) == ZmkBinding.ZmkKeyLabels(code)
  {
  }

  /** KEYBOARD_KEY_MAP: the model key name of a physical keyboard key. No model
      key name is empty. */
  function KeyboardKey(key: string): (name: Option<string>)
    ensures name.Some? ==> name.value != ""
  {
    match key
    case "a" => Some("A")
    case "b" => Some("B")
    case "c" => Some("C")
    case "d" => Some("D")
    case "e" => Some("E")
    case "f" => Some("F")
    case "g" => Some("G")
    case "h" => Some("H")
    case "i" => Some("I")
    case "j" => Some("J")
    case "k" => Some("K")
    case "l" => Some("L")
    case "m" => Some("M")
    case "n" => Some("N")
    case "o" => Some("O")
    case "p" => Some("P")
    case "q" => Some("Q")
    case "r" => Some("R")
    case "s" => Some("S")
    case "t" => Some("T")
    case "u" => Some("U")
    case "v" => Some("V")
    case "w" => Some("W")
    case "x" => Some("X")
    case "y" => Some("Y")
    case "z" => Some("Z")
    case "Enter" => Some("Enter")
    case "Escape" => Some("ESC")
    case "Backspace" => Some("Del")
    case "Tab" => Some("TAB")
    case "Space" => Some("SPACE")
    case "Shift" => Some("SHIFT")
    case "Control" => Some("CTRL")
    case "Meta" => Some("CMD")
    case "Alt" => Some("OPTION")
    case "Semicolon" => Some(";")
    case "Quote" => Some("'")
    case "Comma" => Some(",")
    case "Period" => Some(".")
    case "Slash" => Some("/")
    case "CapsLock" => Some("LAYER1")
    case "F13" => Some("LAYER2")
    case _ => None
  }

  /** Each lower-case letter key maps to its upper-case letter. */
  lemma LetterKeysUpper(c: char)
    requires IsLower(c)
    ensures KeyboardKey([c]) == Some([UpperChar(c)])
  {
  }

  /** The special keys (and the two layer keys) land on model key names the
      symbol table shows as a symbol. */
  lemma SpecialKeysHaveSymbols(key: string)
    requires key in ["Enter", "Escape", "Backspace", "Tab", "Space", "Shift", "Control", "Meta", "Alt",
                     "CapsLock", "F13"]
    ensures KeyboardKey(key).Some? && KeySymbol(KeyboardKey(key).value).Some?
  {
  }

  // ---------------------------------------------------------------------------
  // Key name of a keycap node (lib/keyboard-config.ts:123-137)

  const KEYCAP := "Keycap"
  const KEYCAP_OPEN := "Keycap("

  /** Where `/Keycap\(([^)]+)\)/` matches when tried at `start`: it needs the
      literal, then one or more characters other than `)`, then `)`; the greedy
      group runs to the first `)`. The result is the index of that `)`. */
  function GroupEndAt(name: string, start: nat): (e: Option<nat>)
    requires start <= |name|
    ensures e.Some? ==> StartsAt(name, start, KEYCAP_OPEN) && start + 7 < e.value < |name|
    ensures e.Some? ==> name[e.value] == ')' && forall m :: start + 7 <= m < e.value ==> name[m] != ')'
  {
    if StartsAt(name, start, KEYCAP_OPEN) then
      var close := FindChar(name, start + 7, ')');
      if close.Some? && close.value > start + 7 then close else None
    else None
  }

  /** The leftmost position at or after `i` where the pattern matches. */
  function MatchStart(name: string, i: nat): (r: Option<nat>)
    requires i <= |name|
    ensures r.Some? ==> i <= r.value <= |name| && GroupEndAt(name, r.value).Some?
    ensures r.Some? ==> forall m :: i <= m < r.value ==> GroupEndAt(name, m).None?
    ensures r.None? ==> forall m :: i <= m <= |name| ==> GroupEndAt(name, m).None?
    decreases |name| - i
  {
    if GroupEndAt(name, i).Some? then Some(i)
    else if i == |name| then None
    else MatchStart(name, i + 1)
  }

  /** extractKeyName. */
  function ExtractKeyName(nodeName: string): string {
    if nodeName == "Keycap()" then "."
    else if nodeName == "Keycap()_1" then "/"
    else
      var m := MatchStart(nodeName, 0);
      if m.Some? then nodeName[m.value + 7 .. GroupEndAt(nodeName, m.value).value]
      else if StartsAt(nodeName, 0, KEYCAP) then nodeName[6..]
      else ""
  }

  /** In a name whose only 'K' is its first character, the pattern can only be
      tried at the start. */
  lemma OnlyLeadingK(name: string)
    requires forall m :: 0 < m < |name| ==> name[m] != 'K'
    ensures forall m :: 0 < m <= |name| ==> !StartsAt(name, m, KEYCAP_OPEN)
  {
    forall m | 0 < m <= |name| ensures !StartsAt(name, m, KEYCAP_OPEN) {
      if m < |name| {
        assert name[m..][0] == name[m];
      }
    }
  }

  /** The two bare keycaps are named before any other rule applies: without them
      they would fall through to the prefix rule and read "()" and "()_1". */
  lemma ExtractBareKeycaps()
    ensures ExtractKeyName("Keycap()") == "."
    ensures ExtractKeyName("Keycap()_1") == "/"
    ensures MatchStart("Keycap()", 0).None? && MatchStart("Keycap()_1", 0).None?
  {
    var a, b := "Keycap()", "Keycap()_1";
    OnlyLeadingK(a);
    OnlyLeadingK(b);
    assert FindChar(a, 7, ')') == Some(7);
    assert FindChar(b, 7, ')') == Some(7);
  }

  /** A keycap node named `Keycap(<name>)<anything>` with a non-empty name free of
      `)` reads back as that name. */
  lemma ExtractKeycapName(inner: string, rest: string)
    requires inner != [] && ')' !in inner
    ensures ExtractKeyName(KEYCAP_OPEN + inner + ")" + rest) == inner
  {
    var name := KEYCAP_OPEN + inner + ")" + rest;
    assert name[7] == inner[0] != ')';
    assert StartsAt(name, 0, KEYCAP_OPEN);
    assert forall m :: 7 <= m < 7 + |inner| ==> name[m] == inner[m - 7];
    assert name[7 + |inner|] == ')';
    assert FindChar(name, 7, ')') == Some(7 + |inner|);
    assert GroupEndAt(name, 0) == Some(7 + |inner|);
    assert name[7 .. 7 + |inner|] == inner;
  }

  /** The group of a match at `start`: non-empty, free of `)`, and written
      `Keycap(<group>)` at `start`. */
  lemma GroupShape(name: string, start: nat)
    requires start <= |name| && GroupEndAt(name, start).Some?
    ensures var g := name[start + 7 .. GroupEndAt(name, start).value];
      g != [] && ')' !in g && StartsAt(name, start, KEYCAP_OPEN + g + ")")
  {
    var e := GroupEndAt(name, start).value;
    var g := name[start + 7 .. e];
    assert forall m :: 0 <= m < |g| ==> g[m] == name[start + 7 + m];
    assert name[start .. start + 7] == KEYCAP_OPEN;
    assert name[e .. e + 1] == ")";
    assert name[start .. e + 1] == name[start .. start + 7] + g + name[e .. e + 1];
    assert name[start..] == name[start .. e + 1] + name[e + 1..];
  }

  /** Whenever the pattern matches, the result is the group of its leftmost match:
      a non-empty name without `)`, written `Keycap(<name>)` inside the node name,
      and the pattern matches nowhere to the left. */
  lemma ExtractLeftmostGroup(nodeName: string)
    requires MatchStart(nodeName, 0).Some?
    ensures var r := ExtractKeyName(nodeName);
      var s := MatchStart(nodeName, 0).value;
      r != [] && ')' !in r && StartsAt(nodeName, s, KEYCAP_OPEN + r + ")")
      && forall m :: 0 <= m < s ==> GroupEndAt(nodeName, m).None?
  {
    ExtractBareKeycaps();
    var s := MatchStart(nodeName, 0).value;
    GroupShape(nodeName, s);
    assert ExtractKeyName(nodeName) == nodeName[s + 7 .. GroupEndAt(nodeName, s).value];
  }

  /** With no match, a name starting with "Keycap" loses that prefix. */
  lemma ExtractPrefixRule(nodeName: string)
    requires nodeName != "Keycap()" && nodeName != "Keycap()_1"
    requires MatchStart(nodeName, 0).None? && StartsAt(nodeName, 0, KEYCAP)
    ensures KEYCAP + ExtractKeyName(nodeName) == nodeName
  {
  }

  /** "Keycap()_2": the group cannot be empty, so the prefix rule applies. */
  lemma ExtractEmptyGroupExample(nodeName: string)
    requires nodeName == "Keycap()_2"
    ensures ExtractKeyName(nodeName) == "()_2"
  {
    OnlyLeadingK(nodeName);
    assert FindChar(nodeName, 7, ')') == Some(7);
  }

  /** A node name without "Keycap" names no key. */
  lemma ExtractWithoutKeycap(nodeName: string)
    requires !Contains(nodeName, KEYCAP)
    ensures ExtractKeyName(nodeName) == ""
  {
    assert FindSub(nodeName, 0, KEYCAP).None?;
    forall m | 0 <= m <= |nodeName| ensures GroupEndAt(nodeName, m).None? {
      NoOpenWithoutKeycap(nodeName, m);
    }
    assert !StartsAt(nodeName, 0, KEYCAP);
  }

  lemma NoOpenWithoutKeycap(name: string, m: nat)
    requires !StartsAt(name, m, KEYCAP)
    ensures !StartsAt(name, m, KEYCAP_OPEN)
  {
    if m <= |name| && |name| - m >= 7 {
      assert name[m..][..6] == name[m .. m + 6];
    }
  }
}
