/** Classification of one ZMK binding token (`&kp TAB`, `&mt LSHIFT A`, ...) into a
    Binding record, lib/zmk-parser.js:14-184. Each regular expression of the
    source becomes a small scanner with the same semantics; they are tried in the
    source's order and an unmatched token passes through unchanged. */
module ZmkBinding {
  import opened Text
  import opened KeyboardTypes

  /** The ZMK_KEY_LABELS table: display labels for ZMK key codes. No label is
      empty, so `ZMK_KEY_LABELS[code] || code` falls back only for a missing code. */
  function ZmkKeyLabels(code: string): (text: Option<string>)
    ensures text.Some? ==> text.value != ""
  {
    match code
    case "TAB" => Some("⇥")
    case "BSPC" => Some("⌫")
    case "DEL" => Some("⌦")
    case "ESC" => Some("⎋")
    case "RET" => Some("⏎")
    case "ENTER" => Some("⏎")
    case "SPACE" => Some("␣")
    case "LSHIFT" => Some("⇧")
    case "RSHIFT" => Some("⇧")
    case "LCTRL" => Some("⌃")
    case "RCTRL" => Some("⌃")
    case "LALT" => Some("⌥")
    case "RALT" => Some("⌥")
    case "LGUI" => Some("⌘")
    case "RGUI" => Some("⌘")
    case "CAPS" => Some("⇪")
    case "CAPSLOCK" => Some("⇪")
    case "UP" => Some("↑")
    case "DOWN" => Some("↓")
    case "LEFT" => Some("←")
    case "RIGHT" => Some("→")
    case "HOME" => Some("⇱")
    case "END" => Some("⇲")
    case "PGUP" => Some("⇞")
    case "PGDN" => Some("⇟")
    case "SEMI" => Some(";")
    case "SQT" => Some("'")
    case "GRAVE" => Some("`")
    case "COMMA" => Some(",")
    case "DOT" => Some(".")
    case "FSLH" => Some("/")
    case "BSLH" => Some("\\")
    case "LBKT" => Some("[")
    case "RBKT" => Some("]")
    case "LBRC" => Some("{")
    case "RBRC" => Some("}")
    case "LPAR" => Some("(")
    case "RPAR" => Some(")")
    case "MINUS" => Some("-")
    case "EQUAL" => Some("=")
    case "PLUS" => Some("+")
    case "UNDER" => Some("_")
    case "EXCL" => Some("!")
    case "AT" => Some("@")
    case "HASH" => Some("#")
    case "DLLR" => Some("$")
    case "PRCNT" => Some("%")
    case "CARET" => Some("^")
    case "AMPS" => Some("&")
    case "STAR" => Some("*")
    case "KP_MULTIPLY" => Some("*")
    case "PIPE" => Some("|")
    case "TILDE" => Some("~")
    case _ => None
  }

  /** `ZMK_KEY_LABELS[code] || code`: every label in the table is non-empty, so the
      fallback applies exactly to codes the table lacks. */
  function KeyLabel(code: string): string {
    match ZmkKeyLabels(code)
    case Some(l) => l
    case None => code
  }

  /** `^<keyword>$` under `/i`. */
  predicate MatchesKeyword(s: string, keyword: string) {
    |s| == |keyword| && StartsWithIgnoringCase(s, keyword)
  }

  /** `\s+(<cls>+)` at `i`: the argument and where it ends. */
  function Arg(s: string, i: nat, cls: CharClass): (r: Option<(string, nat)>)
    requires i <= |s|
    ensures r.Some? ==> i < r.value.1 <= |s| && r.value.0 != []
  {
    var j := ScanEnd(s, i, Space);
    var e := ScanEnd(s, j, cls);
    if j > i && e > j then Some((s[j..e], e)) else None
  }

  /** `\s+(<cls>+)$` at `i`. */
  function LastArg(s: string, i: nat, cls: CharClass): Option<string>
    requires i <= |s|
  {
    match Arg(s, i, cls)
    case Some((a, e)) => if e == |s| then Some(a) else None
    case None => None
  }

  /** keypress: `^&kp\s+([A-Z0-9_]+)$` with `/i`. */
  function MatchKeypress(s: string): (r: Option<string>)
    ensures r.Some? ==> |s| > 3 && s[0] == '&' && UpperChar(s[1]) == 'K' && UpperChar(s[2]) == 'P'
  {
    if StartsWithIgnoringCase(s, "&kp") then LastArg(s, 3, Word) else None
  }

  /** momentary: `^&mo\s+(\d+)$` with `/i`. */
  function MatchMomentary(s: string): (r: Option<string>)
    ensures r.Some? ==> |s| > 3 && s[0] == '&' && UpperChar(s[1]) == 'M' && UpperChar(s[2]) == 'O'
  {
    if StartsWithIgnoringCase(s, "&mo") then LastArg(s, 3, Digit) else None
  }

  /** modTap: `^&mt\s+([A-Z0-9_]+)\s+([A-Z0-9_]+)$` with `/i`. */
  function MatchModTap(s: string): (r: Option<(string, string)>)
    ensures r.Some? ==> |s| > 3 && s[0] == '&' && UpperChar(s[1]) == 'M' && UpperChar(s[2]) == 'T'
  {
    if StartsWithIgnoringCase(s, "&mt") then
      match Arg(s, 3, Word)
      case Some((m, e)) =>
        (match LastArg(s, e, Word)
         case Some(k) => Some((m, k))
         case None => None)
      case None => None
    else None
  }

  /** layerTap: `^&lt\s+(\d+)\s+([A-Z0-9_]+)$` with `/i`. */
  function MatchLayerTap(s: string): (r: Option<(string, string)>)
    ensures r.Some? ==> |s| > 3 && s[0] == '&' && UpperChar(s[1]) == 'L' && UpperChar(s[2]) == 'T'
  {
    if StartsWithIgnoringCase(s, "&lt") then
      match Arg(s, 3, Digit)
      case Some((n, e)) =>
        (match LastArg(s, e, Word)
         case Some(k) => Some((n, k))
         case None => None)
      case None => None
    else None
  }

  /** toggle: `^&tog\s+(\d+)$` with `/i`. */
  function MatchToggle(s: string): (r: Option<string>)
    ensures r.Some? ==> |s| > 4 && s[0] == '&' && UpperChar(s[1]) == 'T' && UpperChar(s[2]) == 'O'
  {
    if StartsWithIgnoringCase(s, "&tog") then LastArg(s, 4, Digit) else None
  }

  /** sticky: `^&sk\s+([A-Z0-9_]+)$` with `/i`. */
  function MatchSticky(s: string): (r: Option<string>)
    ensures r.Some? ==> |s| > 3 && s[0] == '&' && UpperChar(s[1]) == 'S' && UpperChar(s[2]) == 'K'
  {
    if StartsWithIgnoringCase(s, "&sk") then LastArg(s, 3, Word) else None
  }

  /** combo: `^&combo_([a-zA-Z0-9_]+)$` with `/i`. */
  function MatchCombo(s: string): (r: Option<string>)
    ensures r.Some? ==> |s| > 7 && s[0] == '&' && UpperChar(s[1]) == 'C' && UpperChar(s[2]) == 'O'
  {
    if StartsWithIgnoringCase(s, "&combo_") && ScanEnd(s, 7, Word) == |s| && |s| > 7 then
      Some(s[7..])
    else None
  }

  /** parseBinding: trims the token, then tries the patterns in the source's order;
      each Try function below handles one pattern and hands over to the next. */
  function ParseBinding(token: string): Binding {
    var s := Trim(token);
    if MatchesKeyword(s, "&trans") then Binding("TRANS", Some("▽"), Keycode)
    else if MatchesKeyword(s, "&none") then Binding("NONE", Some(""), Keycode)
    else TryKeypress(s)
  }

  function TryKeypress(s: string): Binding {
    match MatchKeypress(s)
    case Some(key) => var k := Upper(key); Binding(k, Some(KeyLabel(k)), Keycode)
    case None => TryMomentary(s)
  }

  function TryMomentary(s: string): Binding {
    match MatchMomentary(s)
    case Some(n) => Binding("MO(" + n + ")", Some("L" + n), LayerKind)
    case None => TryModTap(s)
  }

  function TryModTap(s: string): Binding {
    match MatchModTap(s)
    case Some((modifier, key)) =>
      var m := Upper(modifier);
      var k := Upper(key);
      Binding("MT(" + m + ", " + k + ")", Some(KeyLabel(m) + "/" + KeyLabel(k)), Modifier)
    case None => TryLayerTap(s)
  }

  function TryLayerTap(s: string): Binding {
    match MatchLayerTap(s)
    case Some((n, key)) =>
      var k := Upper(key);
      Binding("LT(" + n + ", " + k + ")", Some("L" + n + "/" + KeyLabel(k)), LayerKind)
    case None => TryToggle(s)
  }

  function TryToggle(s: string): Binding {
    match MatchToggle(s)
    case Some(n) => Binding("TG(" + n + ")", Some("TG" + n), LayerKind)
    case None => TrySticky(s)
  }

  function TrySticky(s: string): Binding {
    match MatchSticky(s)
    case Some(modifier) =>
      var m := Upper(modifier);
      Binding("SK(" + m + ")", Some("SK(" + KeyLabel(m) + ")"), Modifier)
    case None => TryCombo(s)
  }

  /** The last pattern, then the fallback: the trimmed token itself. */
  function TryCombo(s: string): Binding {
    match MatchCombo(s)
    case Some(name) => Binding("COMBO_" + Upper(name), Some(name), ComboKind)
    case None => Binding(s, Some(s), Keycode)
  }

  // ---------------------------------------------------------------------------
  // A reference grammar for the bindings the importer recognises, and what each
  // one means. ParseBinding is proved against it.

  /** A ZMK behaviour reference with its arguments as written. */
  datatype ZmkAction =
    | Kp(key: string)
    | Mo(layer: string)
    | Mt(modifier: string, key: string)
    | Lt(layer: string, key: string)
    | Tog(layer: string)
    | Sk(modifier: string)
    | ComboRef(name: string)
    | Trans
    | NoOp

  predicate AllIn(s: string, cls: CharClass) {
    forall m :: 0 <= m < |s| ==> InClass(s[m], cls)
  }

  /** A key or modifier name the patterns accept. */
  predicate IsKeyName(s: string) { s != [] && AllIn(s, Word) }

  /** A layer number the patterns accept. */
  predicate IsLayerNumber(s: string) { s != [] && AllIn(s, Digit) }

  predicate WellFormed(a: ZmkAction) {
    match a
    case Kp(k) => IsKeyName(k)
    case Mo(n) => IsLayerNumber(n)
    case Mt(m, k) => IsKeyName(m) && IsKeyName(k)
    case Lt(n, k) => IsLayerNumber(n) && IsKeyName(k)
    case Tog(n) => IsLayerNumber(n)
    case Sk(m) => IsKeyName(m)
    case ComboRef(name) => IsKeyName(name)
    case Trans => true
    case NoOp => true
  }

  /** A non-empty run of white space, as separates a behaviour from its arguments. */
  predicate IsSeparator(sep: string) { sep != [] && AllIn(sep, Space) }

  /** The behaviour name each pattern matches, in lower case. */
  function Keyword(a: ZmkAction): string {
    match a
    case Kp(_) => "&kp"
    case Mo(_) => "&mo"
    case Mt(_, _) => "&mt"
    case Lt(_, _) => "&lt"
    case Tog(_) => "&tog"
    case Sk(_) => "&sk"
    case ComboRef(_) => "&combo_"
    case Trans => "&trans"
    case NoOp => "&none"
  }

  /** How a binding is written: the behaviour name as spelled, and the white
      space before the first and before the second argument. */
  datatype Writing = Writing(behaviour: string, sep1: string, sep2: string)

  /** A writing the patterns accept for `a`: the behaviour name in any mix of
      letter case, and two independent runs of white space. */
  predicate WritesAs(a: ZmkAction, w: Writing) {
    MatchesKeyword(w.behaviour, Keyword(a)) && IsSeparator(w.sep1) && IsSeparator(w.sep2)
  }

  /** The action written out in keymap syntax. */
  function Render(a: ZmkAction, w: Writing): string {
    match a
    case Kp(k) => w.behaviour + w.sep1 + k
    case Mo(n) => w.behaviour + w.sep1 + n
    case Mt(m, k) => w.behaviour + w.sep1 + m + w.sep2 + k
    case Lt(n, k) => w.behaviour + w.sep1 + n + w.sep2 + k
    case Tog(n) => w.behaviour + w.sep1 + n
    case Sk(m) => w.behaviour + w.sep1 + m
    case ComboRef(name) => w.behaviour + name
    case Trans => w.behaviour
    case NoOp => w.behaviour
  }

  /** A string that is some well-formed binding written out in keymap syntax. */
  ghost predicate IsRendering(s: string) {
    exists a, w :: WellFormed(a) && WritesAs(a, w) && Render(a, w) == s
  }

  /** What the importer returns for a token no pattern matches. */
  function PassThrough(s: string): Binding {
    Binding(s, Some(s), Keycode)
  }
  /** What each recognised binding means, per kind of behaviour: the canonical
      code, the display label and the binding type. */
  function Meaning(a: ZmkAction): Binding {
    match a
    case Kp(k) => Binding(Upper(k), Some(KeyLabel(Upper(k))), Keycode)
    case Mo(n) => Binding("MO(" + n + ")", Some("L" + n), LayerKind)
    case Mt(m, k) =>
      Binding("MT(" + Upper(m) + ", " + Upper(k) + ")",
              Some(KeyLabel(Upper(m)) + "/" + KeyLabel(Upper(k))), Modifier)
    case Lt(n, k) =>
      Binding("LT(" + n + ", " + Upper(k) + ")", Some("L" + n + "/" + KeyLabel(Upper(k))), LayerKind)
    case Tog(n) => Binding("TG(" + n + ")", Some("TG" + n), LayerKind)
    case Sk(m) => Binding("SK(" + Upper(m) + ")", Some("SK(" + KeyLabel(Upper(m)) + ")"), Modifier)
    case ComboRef(name) => Binding("COMBO_" + Upper(name), Some(name), ComboKind)
    case Trans => Binding("TRANS", Some("▽"), Keycode)
    case NoOp => Binding("NONE", Some(""), Keycode)
  }

  /** A string with no space at either end is its own trim. */
  lemma TrimNoop(s: string)
    requires s != [] && !IsSpace(s[0]) && !IsSpace(s[|s| - 1])
    ensures Trim(s) == s
  {
    assert ScanEnd(s, 0, Space) == 0;
    assert TrimEndIndex(s, 0, |s|) == |s|;
  }

  /** The classes an argument is drawn from, none of which contains white space. */
  predicate IsArgClass(cls: CharClass) { cls == Word || cls == Digit }

  lemma ArgClassNotSpace(c: char, cls: CharClass)
    requires IsArgClass(cls) && InClass(c, cls)
    ensures !IsSpace(c)
  {
  }

  /** `\s+(<cls>+)` reads back an argument written after a separator. */
  lemma ArgOf(pre: string, sep: string, arg: string, post: string, cls: CharClass)
    requires IsArgClass(cls)
    requires IsSeparator(sep) && arg != [] && AllIn(arg, cls)
    requires post != [] ==> !InClass(post[0], cls)
    ensures var s := pre + sep + arg + post;
      Arg(s, |pre|, cls) == Some((arg, |pre| + |sep| + |arg|))
  {
    var s := pre + sep + arg + post;
    var j := |pre| + |sep|;
    var e := j + |arg|;
    assert forall m :: |pre| <= m < j ==> s[m] == sep[m - |pre|];
    assert forall m :: j <= m < e ==> s[m] == arg[m - j];
    ArgClassNotSpace(arg[0], cls);
    ScanEndUnique(s, |pre|, Space, j);
    assert e < |s| ==> s[e] == post[0];
    ScanEndUnique(s, j, cls, e);
    assert s[j..e] == arg;
  }

  /** The last argument of a rendered binding, read back by `\s+(<cls>+)$`. */
  lemma LastArgOf(pre: string, sep: string, arg: string, cls: CharClass)
    requires IsArgClass(cls)
    requires IsSeparator(sep) && arg != [] && AllIn(arg, cls)
    ensures LastArg(pre + sep + arg, |pre|, cls) == Some(arg)
  {
    ArgOf(pre, sep, arg, "", cls);
    assert pre + sep + arg + "" == pre + sep + arg;
  }

  /** A prefix spelling `kw` in any letter case makes the whole string start
      with `kw` under `/i`. */
  lemma SpelledPrefix(s: string, name: string, kw: string)
    requires MatchesKeyword(name, kw) && name <= s
    ensures StartsWithIgnoringCase(s, kw)
    ensures forall m :: 0 <= m < |kw| ==> UpperChar(s[m]) == UpperChar(kw[m])
  {
    assert forall m :: 0 <= m < |name| ==> s[m] == name[m];
  }

  /** A character that upper-cases to a letter is no white space. */
  lemma LetterNotSpace(c: char)
    requires IsUpper(UpperChar(c))
    ensures !IsSpace(c)
  {
  }

  /** A rendered binding is already trimmed. */
  lemma RenderedIsTrimmed(a: ZmkAction, w: Writing)
    requires WellFormed(a) && WritesAs(a, w)
    ensures Trim(Render(a, w)) == Render(a, w)
  {
    var s := Render(a, w);
    var kw := Keyword(a);
    SpelledPrefix(s, w.behaviour, kw);
    assert UpperChar(s[0]) == '&';
    var last := s[|s| - 1];
    match a {
      case Kp(k) => assert last == k[|k| - 1];
      case Mo(n) => assert last == n[|n| - 1];
      case Mt(m, k) => assert last == k[|k| - 1];
      case Lt(n, k) => assert last == k[|k| - 1];
      case Tog(n) => assert last == n[|n| - 1];
      case Sk(m) => assert last == m[|m| - 1];
      case ComboRef(name) => assert last == name[|name| - 1];
      case Trans => assert UpperChar(last) == 'S'; LetterNotSpace(last);
      case NoOp => assert UpperChar(last) == 'E'; LetterNotSpace(last);
    }
    TrimNoop(s);
  }

  /** The behaviour name's first three letters, as every pattern compares them. */
  predicate Spells(s: string, c1: char, c2: char) {
    |s| > 3 && s[0] == '&' && UpperChar(s[1]) == c1 && UpperChar(s[2]) == c2
  }

  lemma ParseRenderedKp(k: string, w: Writing)
    requires IsKeyName(k) && WritesAs(Kp(k), w)
    ensures ParseBinding(Render(Kp(k), w)) == Meaning(Kp(k))
  {
    var s := Render(Kp(k), w);
    RenderedIsTrimmed(Kp(k), w);
    SpelledPrefix(s, w.behaviour, "&kp");
    assert Spells(s, 'K', 'P');
    assert !MatchesKeyword(s, "&trans");
    assert !MatchesKeyword(s, "&none");
    LastArgOf(w.behaviour, w.sep1, k, Word);
    assert MatchKeypress(s) == Some(k);
    assert ParseBinding(s) == TryKeypress(s);
  }

  lemma ParseRenderedMo(n: string, w: Writing)
    requires IsLayerNumber(n) && WritesAs(Mo(n), w)
    ensures ParseBinding(Render(Mo(n), w)) == Meaning(Mo(n))
  {
    var s := Render(Mo(n), w);
    RenderedIsTrimmed(Mo(n), w);
    SpelledPrefix(s, w.behaviour, "&mo");
    assert Spells(s, 'M', 'O');
    assert !MatchesKeyword(s, "&trans");
    assert !MatchesKeyword(s, "&none");
    assert MatchKeypress(s).None?;
    LastArgOf(w.behaviour, w.sep1, n, Digit);
    assert MatchMomentary(s) == Some(n);
    assert ParseBinding(s) == TryKeypress(s) == TryMomentary(s);
  }

  /** The two-argument patterns read back both arguments, whatever white space
      precedes each. */
  lemma TwoArgsOf(name: string, sep1: string, x: string, sep2: string, k: string, cls: CharClass)
    returns (e: nat)
    requires IsArgClass(cls)
    requires IsSeparator(sep1) && IsSeparator(sep2) && x != [] && AllIn(x, cls) && IsKeyName(k)
    ensures e <= |name + sep1 + x + sep2 + k|
    ensures Arg(name + sep1 + x + sep2 + k, |name|, cls) == Some((x, e))
    ensures LastArg(name + sep1 + x + sep2 + k, e, Word) == Some(k)
  {
    FirstOfTwoArgs(name, sep1, x, sep2, k, cls);
    LastArgOf(name + sep1 + x, sep2, k, Word);
    e := |name| + |sep1| + |x|;
  }

  /** What a two-argument pattern needs of `s`: the keyword, then the first
      argument ending at `e`, then the last argument. */
  predicate TwoArgsAt(s: string, kw: string, cls: CharClass, x: string, e: nat, k: string) {
    StartsWithIgnoringCase(s, kw) && 3 <= e <= |s|
    && Arg(s, 3, cls) == Some((x, e)) && LastArg(s, e, Word) == Some(k)
  }

  /** A rendering of a two-argument behaviour carries both arguments where
      the pattern looks for them. */
  lemma TwoArgPattern(s: string, w: Writing, kw: string, x: string, k: string, cls: CharClass)
    returns (e: nat)
    requires IsArgClass(cls) && |kw| == 3
    requires MatchesKeyword(w.behaviour, kw) && IsSeparator(w.sep1) && IsSeparator(w.sep2)
    requires x != [] && AllIn(x, cls) && IsKeyName(k)
    requires s == w.behaviour + w.sep1 + x + w.sep2 + k
    ensures TwoArgsAt(s, kw, cls, x, e, k)
  {
    SpelledPrefix(s, w.behaviour, kw);
    e := TwoArgsOf(w.behaviour, w.sep1, x, w.sep2, k, cls);
  }

  lemma FirstOfTwoArgs(name: string, sep1: string, x: string, sep2: string, k: string, cls: CharClass)
    requires IsArgClass(cls)
    requires IsSeparator(sep1) && IsSeparator(sep2) && x != [] && AllIn(x, cls)
    ensures Arg(name + sep1 + x + sep2 + k, |name|, cls) == Some((x, |name| + |sep1| + |x|))
  {
    var back := sep2 + k;
    assert back[0] == sep2[0];
    SpaceNotArgClass(sep2[0], cls);
    AppendAssoc(name + sep1 + x, sep2, k);
    ArgOf(name, sep1, x, back, cls);
  }

  lemma AppendAssoc(a: string, b: string, c: string)
    ensures a + b + c == a + (b + c)
  {
  }

  lemma SpaceNotArgClass(c: char, cls: CharClass)
    requires IsArgClass(cls) && IsSpace(c)
    ensures !InClass(c, cls)
  {
  }

  /** `&mt` written in any case, with any white space, carries both arguments
      where its pattern looks for them. */
  lemma ModTapOf(m: string, k: string, w: Writing) returns (e: nat)
    requires IsKeyName(m) && IsKeyName(k) && WritesAs(Mt(m, k), w)
    ensures TwoArgsAt(Render(Mt(m, k), w), "&mt", Word, m, e, k)
  {
    var s := Render(Mt(m, k), w);
    assert s == w.behaviour + w.sep1 + m + w.sep2 + k;
    e := TwoArgPattern(s, w, "&mt", m, k, Word);
  }

  lemma MatchModTapOf(s: string, m: string, k: string, e: nat)
    requires TwoArgsAt(s, "&mt", Word, m, e, k)
    ensures MatchModTap(s) == Some((m, k))
  {
  }

  /** `&lt` written in any case, with any white space, carries both arguments
      where its pattern looks for them. */
  lemma LayerTapOf(n: string, k: string, w: Writing) returns (e: nat)
    requires IsLayerNumber(n) && IsKeyName(k) && WritesAs(Lt(n, k), w)
    ensures TwoArgsAt(Render(Lt(n, k), w), "&lt", Digit, n, e, k)
  {
    var s := Render(Lt(n, k), w);
    assert s == w.behaviour + w.sep1 + n + w.sep2 + k;
    e := TwoArgPattern(s, w, "&lt", n, k, Digit);
  }

  lemma MatchLayerTapOf(s: string, n: string, k: string, e: nat)
    requires TwoArgsAt(s, "&lt", Digit, n, e, k)
    ensures MatchLayerTap(s) == Some((n, k))
  {
  }

  lemma ParseRenderedMt(m: string, k: string, w: Writing)
    requires IsKeyName(m) && IsKeyName(k) && WritesAs(Mt(m, k), w)
    ensures ParseBinding(Render(Mt(m, k), w)) == Meaning(Mt(m, k))
  {
    var s := Render(Mt(m, k), w);
    RenderedIsTrimmed(Mt(m, k), w);
    var e := ModTapOf(m, k, w);
    ParsesModTap(s, m, k, e);
  }

  /** A trimmed token the mod-tap pattern matches parses as that mod-tap. */
  lemma ParsesModTap(s: string, m: string, k: string, e: nat)
    requires Trim(s) == s && TwoArgsAt(s, "&mt", Word, m, e, k)
    ensures ParseBinding(s) == Meaning(Mt(m, k))
  {
    MatchModTapOf(s, m, k, e);
    assert Spells(s, 'M', 'T');
    assert !MatchesKeyword(s, "&trans");
    assert !MatchesKeyword(s, "&none");
    assert MatchKeypress(s).None?;
    assert MatchMomentary(s).None?;
    assert ParseBinding(s) == TryKeypress(s) == TryMomentary(s) == TryModTap(s);
  }

  lemma ParseRenderedLt(n: string, k: string, w: Writing)
    requires IsLayerNumber(n) && IsKeyName(k) && WritesAs(Lt(n, k), w)
    ensures ParseBinding(Render(Lt(n, k), w)) == Meaning(Lt(n, k))
  {
    var s := Render(Lt(n, k), w);
    RenderedIsTrimmed(Lt(n, k), w);
    var e := LayerTapOf(n, k, w);
    ParsesLayerTap(s, n, k, e);
  }

  /** A trimmed token the layer-tap pattern matches parses as that layer-tap. */
  lemma ParsesLayerTap(s: string, n: string, k: string, e: nat)
    requires Trim(s) == s && TwoArgsAt(s, "&lt", Digit, n, e, k)
    ensures ParseBinding(s) == Meaning(Lt(n, k))
  {
    MatchLayerTapOf(s, n, k, e);
    assert Spells(s, 'L', 'T');
    assert !MatchesKeyword(s, "&trans");
    assert !MatchesKeyword(s, "&none");
    assert MatchKeypress(s).None?;
    assert MatchMomentary(s).None?;
    assert MatchModTap(s).None?;
    assert ParseBinding(s) == TryKeypress(s) == TryMomentary(s) == TryModTap(s) == TryLayerTap(s);
  }

  lemma ParseRenderedTog(n: string, w: Writing)
    requires IsLayerNumber(n) && WritesAs(Tog(n), w)
    ensures ParseBinding(Render(Tog(n), w)) == Meaning(Tog(n))
  {
    var s := Render(Tog(n), w);
    RenderedIsTrimmed(Tog(n), w);
    SpelledPrefix(s, w.behaviour, "&tog");
    assert Spells(s, 'T', 'O');
    assert !MatchesKeyword(s, "&trans");
    assert !MatchesKeyword(s, "&none");
    assert MatchKeypress(s).None?;
    assert MatchMomentary(s).None?;
    assert MatchModTap(s).None?;
    assert MatchLayerTap(s).None?;
    LastArgOf(w.behaviour, w.sep1, n, Digit);
    assert MatchToggle(s) == Some(n);
    assert ParseBinding(s) == TryKeypress(s) == TryMomentary(s) == TryModTap(s) == TryLayerTap(s)
      == TryToggle(s);
  }

  lemma ParseRenderedSk(m: string, w: Writing)
    requires IsKeyName(m) && WritesAs(Sk(m), w)
    ensures ParseBinding(Render(Sk(m), w)) == Meaning(Sk(m))
  {
    var s := Render(Sk(m), w);
    RenderedIsTrimmed(Sk(m), w);
    SpelledPrefix(s, w.behaviour, "&sk");
    assert Spells(s, 'S', 'K');
    assert !MatchesKeyword(s, "&trans");
    assert !MatchesKeyword(s, "&none");
    assert MatchKeypress(s).None?;
    assert MatchMomentary(s).None?;
    assert MatchModTap(s).None?;
    assert MatchLayerTap(s).None?;
    assert MatchToggle(s).None?;
    LastArgOf(w.behaviour, w.sep1, m, Word);
    assert MatchSticky(s) == Some(m);
    assert ParseBinding(s) == TryKeypress(s) == TryMomentary(s) == TryModTap(s) == TryLayerTap(s)
      == TryToggle(s) == TrySticky(s);
  }

  lemma ParseRenderedCombo(name: string, w: Writing)
    requires IsKeyName(name) && WritesAs(ComboRef(name), w)
    ensures ParseBinding(Render(ComboRef(name), w)) == Meaning(ComboRef(name))
  {
    var s := Render(ComboRef(name), w);
    RenderedIsTrimmed(ComboRef(name), w);
    SpelledPrefix(s, w.behaviour, "&combo_");
    assert Spells(s, 'C', 'O');
    assert !MatchesKeyword(s, "&trans");
    assert !MatchesKeyword(s, "&none");
    assert MatchKeypress(s).None?;
    assert MatchMomentary(s).None?;
    assert MatchModTap(s).None?;
    assert MatchLayerTap(s).None?;
    assert MatchToggle(s).None?;
    assert MatchSticky(s).None?;
    assert s[7..] == name;
    ScanEndUnique(s, 7, Word, |s|);
    assert MatchCombo(s) == Some(name);
    assert ParseBinding(s) == TryKeypress(s) == TryMomentary(s) == TryModTap(s) == TryLayerTap(s)
      == TryToggle(s) == TrySticky(s) == TryCombo(s);
  }

  /** Parsing a well-formed binding written out in keymap syntax, in any letter
      case and with any white space between its parts, gives its meaning. */
  lemma ParseRendered(a: ZmkAction, w: Writing)
    requires WellFormed(a) && WritesAs(a, w)
    ensures ParseBinding(Render(a, w)) == Meaning(a)
  {
    match a {
      case Kp(k) => ParseRenderedKp(k, w);
      case Mo(n) => ParseRenderedMo(n, w);
      case Mt(m, k) => ParseRenderedMt(m, k, w);
      case Lt(n, k) => ParseRenderedLt(n, k, w);
      case Tog(n) => ParseRenderedTog(n, w);
      case Sk(m) => ParseRenderedSk(m, w);
      case ComboRef(name) => ParseRenderedCombo(name, w);
      case Trans => RenderedIsTrimmed(a, w);
      case NoOp =>
        RenderedIsTrimmed(a, w);
        SpelledPrefix(w.behaviour, w.behaviour, "&none");
        assert !MatchesKeyword(w.behaviour, "&trans");
    }
  }

  /** The classifier works on the trimmed token: surrounding white space never matters. */
  lemma ParseBindingIgnoresPadding(token: string)
    ensures ParseBinding(token) == ParseBinding(Trim(token))
  {
    TrimIdempotent(token);
  }

  // ---------------------------------------------------------------------------
  // The converse: every token a pattern accepts is a rendering.

  /** What `\s+(<cls>+)` matched at `i`: a separator, then the argument up to
      where the match ends. */
  lemma ArgParts(s: string, i: nat, cls: CharClass)
    requires i <= |s| && Arg(s, i, cls).Some?
    ensures var j := ScanEnd(s, i, Space);
      var e := Arg(s, i, cls).value.1;
      i < j < e <= |s| && IsSeparator(s[i..j]) && s[j..e] == Arg(s, i, cls).value.0
      && AllIn(s[j..e], cls)
  {
  }

  /** The prefix a pattern compared under `/i` spells the keyword. */
  lemma PrefixSpells(s: string, kw: string)
    requires StartsWithIgnoringCase(s, kw)
    ensures MatchesKeyword(s[..|kw|], kw)
  {
  }

  /** The argument of a one-argument action. */
  function OnlyArg(a: ZmkAction): string {
    match a
    case Kp(k) => k
    case Mo(n) => n
    case Tog(n) => n
    case Sk(m) => m
    case _ => ""
  }

  /** The first argument of a two-argument action. */
  function FirstArg(a: ZmkAction): string {
    match a
    case Mt(m, _) => m
    case Lt(n, _) => n
    case _ => ""
  }

  /** Cutting a string at three points and joining the pieces gives it back. */
  lemma JoinPieces(s: string, i: nat, j: nat, e: nat, j2: nat)
    requires i <= j <= e <= j2 <= |s|
    ensures s[..i] + s[i..j] + s[j..e] + s[e..j2] + s[j2..] == s
    ensures s[..i] + s[i..j] + s[j..] == s
  {
    assert s[..i] + s[i..j] == s[..j];
    assert s[..j] + s[j..e] == s[..e];
    assert s[..e] + s[e..j2] == s[..j2];
  }

  /** A one-argument token `<behaviour>\s+<arg>` accepted by its pattern is a
      rendering. */
  lemma OneArgRendering(s: string, cls: CharClass, a: ZmkAction)
    requires ((a.Kp? || a.Sk?) && cls == Word) || ((a.Mo? || a.Tog?) && cls == Digit)
    requires StartsWithIgnoringCase(s, Keyword(a))
    requires LastArg(s, |Keyword(a)|, cls) == Some(OnlyArg(a))
    ensures WellFormed(a) && IsRendering(s)
  {
    var i := |Keyword(a)|;
    ArgParts(s, i, cls);
    PrefixSpells(s, Keyword(a));
    var j := ScanEnd(s, i, Space);
    assert s[j..] == OnlyArg(a);
    OneArgRenderingAt(s, i, j, a);
  }

  /** A keyword, a separator and the argument, cut at `i` and `j`, are a rendering. */
  lemma OneArgRenderingAt(s: string, i: nat, j: nat, a: ZmkAction)
    requires i <= j <= |s|
    requires a.Kp? || a.Sk? || a.Mo? || a.Tog?
    requires MatchesKeyword(s[..i], Keyword(a)) && IsSeparator(s[i..j])
    requires OnlyArg(a) == s[j..] && WellFormed(a)
    ensures IsRendering(s)
  {
    JoinPieces(s, i, j, j, j);
    var w := Writing(s[..i], s[i..j], " ");
    assert WritesAs(a, w);
    assert Render(a, w) == s[..i] + s[i..j] + s[j..];
  }

  /** What `\s+(<cls>+)\s+([A-Z0-9_]+)$` matched at `i`: a separator, the
      first argument, a separator and the last argument. */
  lemma TwoArgParts(s: string, i: nat, cls: CharClass)
    requires i <= |s| && Arg(s, i, cls).Some?
    requires LastArg(s, Arg(s, i, cls).value.1, Word).Some?
    ensures var e := Arg(s, i, cls).value.1;
      var j := ScanEnd(s, i, Space);
      var j2 := ScanEnd(s, e, Space);
      i < j <= e < j2 <= |s|
      && IsSeparator(s[i..j]) && IsSeparator(s[e..j2])
      && s[j..e] == Arg(s, i, cls).value.0 && AllIn(s[j..e], cls)
      && s[j2..] == LastArg(s, e, Word).value && AllIn(s[j2..], Word)
  {
    var e := Arg(s, i, cls).value.1;
    ArgParts(s, i, cls);
    ArgParts(s, e, Word);
  }

  /** A two-argument token cut into behaviour, separator, first argument,
      separator and key is a rendering. */
  lemma TwoArgRendering(s: string, i: nat, j: nat, e: nat, j2: nat, a: ZmkAction)
    requires i <= j <= e <= j2 <= |s|
    requires a.Mt? || a.Lt?
    requires MatchesKeyword(s[..i], Keyword(a)) && IsSeparator(s[i..j]) && IsSeparator(s[e..j2])
    requires FirstArg(a) == s[j..e] && a.key == s[j2..] && WellFormed(a)
    ensures IsRendering(s)
  {
    JoinPieces(s, i, j, e, j2);
    var w := Writing(s[..i], s[i..j], s[e..j2]);
    assert WritesAs(a, w);
    assert Render(a, w) == s[..i] + s[i..j] + s[j..e] + s[e..j2] + s[j2..];
  }

  /** `&mt` or `&lt` accepted by its pattern: the token is a rendering. */
  lemma TwoArgMatched(s: string, cls: CharClass, a: ZmkAction)
    requires (a.Mt? && cls == Word) || (a.Lt? && cls == Digit)
    requires StartsWithIgnoringCase(s, Keyword(a))
    requires Arg(s, |Keyword(a)|, cls).Some? && Arg(s, |Keyword(a)|, cls).value.0 == FirstArg(a)
    requires LastArg(s, Arg(s, |Keyword(a)|, cls).value.1, Word) == Some(a.key)
    ensures WellFormed(a) && IsRendering(s)
  {
    var i := |Keyword(a)|;
    var e := Arg(s, i, cls).value.1;
    TwoArgParts(s, i, cls);
    PrefixSpells(s, Keyword(a));
    TwoArgRendering(s, i, ScanEnd(s, i, Space), e, ScanEnd(s, e, Space), a);
  }

  // Down the chain of patterns: what each step returns is a pass-through or
  // comes from a rendering.

  lemma TryComboCases(s: string)
    ensures TryCombo(s) == PassThrough(s) || IsRendering(s)
  {
    if MatchCombo(s).Some? {
      var name := s[7..];
      var w := Writing(s[..7], " ", " ");
      PrefixSpells(s, "&combo_");
      assert s[..7] + name == s;
      assert WritesAs(ComboRef(name), w);
      assert Render(ComboRef(name), w) == s;
    }
  }

  lemma TryStickyCases(s: string)
    ensures TrySticky(s) == PassThrough(s) || IsRendering(s)
  {
    if MatchSticky(s).Some? {
      OneArgRendering(s, Word, Sk(MatchSticky(s).value));
    } else {
      TryComboCases(s);
    }
  }

  lemma TryToggleCases(s: string)
    ensures TryToggle(s) == PassThrough(s) || IsRendering(s)
  {
    if MatchToggle(s).Some? {
      OneArgRendering(s, Digit, Tog(MatchToggle(s).value));
    } else {
      TryStickyCases(s);
    }
  }

  lemma TryLayerTapCases(s: string)
    ensures TryLayerTap(s) == PassThrough(s) || IsRendering(s)
  {
    if MatchLayerTap(s).Some? {
      TwoArgMatched(s, Digit, Lt(MatchLayerTap(s).value.0, MatchLayerTap(s).value.1));
    } else {
      TryToggleCases(s);
    }
  }

  lemma TryModTapCases(s: string)
    ensures TryModTap(s) == PassThrough(s) || IsRendering(s)
  {
    if MatchModTap(s).Some? {
      TwoArgMatched(s, Word, Mt(MatchModTap(s).value.0, MatchModTap(s).value.1));
    } else {
      TryLayerTapCases(s);
    }
  }

  lemma TryMomentaryCases(s: string)
    ensures TryMomentary(s) == PassThrough(s) || IsRendering(s)
  {
    if MatchMomentary(s).Some? {
      OneArgRendering(s, Digit, Mo(MatchMomentary(s).value));
    } else {
      TryModTapCases(s);
    }
  }

  lemma TryKeypressCases(s: string)
    ensures TryKeypress(s) == PassThrough(s) || IsRendering(s)
  {
    if MatchKeypress(s).Some? {
      OneArgRendering(s, Word, Kp(MatchKeypress(s).value));
    } else {
      TryMomentaryCases(s);
    }
  }

  /** Every token the importer classifies, rather than passing through, is a
      well-formed binding written out in keymap syntax once trimmed. */
  lemma ClassifiedIsRendering(token: string)
    ensures ParseBinding(token) == PassThrough(Trim(token)) || IsRendering(Trim(token))
  {
    var s := Trim(token);
    if MatchesKeyword(s, "&trans") {
      var w := Writing(s, " ", " ");
      assert WritesAs(Trans, w) && Render(Trans, w) == s;
    } else if MatchesKeyword(s, "&none") {
      var w := Writing(s, " ", " ");
      assert WritesAs(NoOp, w) && Render(NoOp, w) == s;
    } else {
      TryKeypressCases(s);
    }
  }

  /** No well-formed binding means the same as passing its text through: each
      code differs from the written text in its first character. */
  lemma MeaningIsNotPassThrough(a: ZmkAction, w: Writing)
    requires WellFormed(a) && WritesAs(a, w)
    ensures Meaning(a) != PassThrough(Render(a, w))
  {
    var s := Render(a, w);
    SpelledPrefix(s, w.behaviour, Keyword(a));
    assert UpperChar(s[0]) == '&';
    var code := Meaning(a).code;
    match a {
      case Kp(k) => assert code[0] == UpperChar(k[0]);
      case Mo(n) => assert code[0] == 'M';
      case Mt(m, k) => assert code[0] == 'M';
      case Lt(n, k) => assert code[0] == 'L';
      case Tog(n) => assert code[0] == 'T';
      case Sk(m) => assert code[0] == 'S';
      case ComboRef(name) => assert code[0] == 'C';
      case Trans => assert code[0] == 'T';
      case NoOp => assert code[0] == 'N';
    }
  }

  /** A token passes through unchanged exactly when its trimmed text is not a
      well-formed binding in keymap syntax. */
  lemma PassThroughIff(token: string)
    ensures ParseBinding(token) == PassThrough(Trim(token)) <==> !IsRendering(Trim(token))
  {
    var s := Trim(token);
    ClassifiedIsRendering(token);
    if IsRendering(s) {
      var a, w :| WellFormed(a) && WritesAs(a, w) && Render(a, w) == s;
      ParseRendered(a, w);
      ParseBindingIgnoresPadding(token);
      MeaningIsNotPassThrough(a, w);
    }
  }

  /** A token that is not a well-formed binding in keymap syntax (an unknown
      behaviour such as `&to 1` or `&mkp LCLK`, or a malformed one such as `&kp`
      or `&mo X`) comes back with code and label equal to the trimmed token and
      type keycode. */
  lemma UnknownPassesThrough(token: string)
    requires !IsRendering(Trim(token))
    ensures ParseBinding(token) == Binding(Trim(token), Some(Trim(token)), Keycode)
  {
    ClassifiedIsRendering(token);
  }

  /** Upper-casing a name that is already upper case changes nothing. */
  lemma UpperOfUpper(s: string)
    requires forall m :: 0 <= m < |s| ==> !IsLower(s[m])
    ensures Upper(s) == s
  {
  }

  lemma ExampleKeypressTab(t: string)
    requires t == "&kp TAB"
    ensures ParseBinding(t) == Binding("TAB", Some("⇥"), Keycode)
  {
    var key := "TAB";
    var w := Writing("&kp", " ", " ");
    assert IsKeyName(key);
    assert WritesAs(Kp(key), w);
    assert t == Render(Kp(key), w);
    ParseRenderedKp(key, w);
    UpperOfUpper(key);
    assert KeyLabel(key) == "⇥";
  }

  /** The behaviour name and the key may be written in lower case. */
  lemma ExampleUpperCaseKeypress(t: string)
    requires t == "&KP tab"
    ensures ParseBinding(t) == Binding("TAB", Some("⇥"), Keycode)
  {
    var key := "tab";
    var w := Writing("&KP", " ", " ");
    assert IsKeyName(key);
    assert WritesAs(Kp(key), w);
    assert t == Render(Kp(key), w);
    ParseRenderedKp(key, w);
    assert Upper(key) == "TAB";
    assert KeyLabel("TAB") == "⇥";
  }

  lemma ExampleMomentary(t: string)
    requires t == "&mo 1"
    ensures ParseBinding(t) == Binding("MO(1)", Some("L1"), LayerKind)
  {
    var n := "1";
    var w := Writing("&mo", " ", " ");
    assert IsLayerNumber(n);
    assert WritesAs(Mo(n), w);
    assert t == Render(Mo(n), w);
    ParseRendered(Mo(n), w);
    assert "MO(" + n + ")" == "MO(1)";
    assert "L" + n == "L1";
  }

  /** The two gaps of a mod-tap may hold different white space. */
  lemma ExampleModTap(t: string)
    requires t == "&mt LSHIFT\tA"
    ensures ParseBinding(t) == Binding("MT(LSHIFT, A)", Some("⇧/A"), Modifier)
  {
    var m, k := "LSHIFT", "A";
    var w := Writing("&mt", " ", "\t");
    assert IsKeyName(m) && IsKeyName(k);
    assert WritesAs(Mt(m, k), w);
    assert t == Render(Mt(m, k), w);
    ParseRendered(Mt(m, k), w);
    ModTapMeaning(m, k);
  }

  lemma ModTapMeaning(m: string, k: string)
    requires m == "LSHIFT" && k == "A"
    ensures Meaning(Mt(m, k)) == Binding("MT(LSHIFT, A)", Some("⇧/A"), Modifier)
  {
    UpperOfUpper(m);
    UpperOfUpper(k);
    assert KeyLabel(m) == "⇧";
    assert KeyLabel(k) == "A";
    assert "MT(" + m + ", " + k + ")" == "MT(LSHIFT, A)";
    assert KeyLabel(m) + "/" + KeyLabel(k) == "⇧/A";
  }

  lemma ExampleTransparent(t: string)
    requires t == "&trans" || t == "&TRANS"
    ensures ParseBinding(t) == Binding("TRANS", Some("▽"), Keycode)
  {
    TrimNoop(t);
  }

  lemma ExampleNone(t: string)
    requires t == "&none"
    ensures ParseBinding(t) == Binding("NONE", Some(""), Keycode)
  {
    TrimNoop(t);
    assert !MatchesKeyword(t, "&trans");
    assert MatchesKeyword(t, "&none");
  }

  /** The bare keywords are compared without regard to case. */
  lemma ExampleNoneUpperCase(t: string)
    requires t == "&NONE"
    ensures ParseBinding(t) == Binding("NONE", Some(""), Keycode)
  {
    TrimNoop(t);
    assert !MatchesKeyword(t, "&trans");
    assert MatchesKeyword(t, "&none");
  }

  /** An unknown behaviour passes through. */
  lemma ExampleUnknown(t: string)
    requires t == "&foo BAR"
    ensures ParseBinding(t) == Binding(t, Some(t), Keycode)
  {
    TrimNoop(t);
    assert UpperChar(t[1]) == 'F';
    assert !MatchesKeyword(t, "&trans") && !MatchesKeyword(t, "&none");
    assert MatchKeypress(t).None? && MatchMomentary(t).None? && MatchModTap(t).None?;
    assert MatchLayerTap(t).None? && MatchToggle(t).None? && MatchSticky(t).None?;
    assert MatchCombo(t).None?;
  }

  /** A known behaviour missing its argument passes through too. */
  lemma ExampleMissingArgument(t: string)
    requires t == "&kp"
    ensures ParseBinding(t) == Binding(t, Some(t), Keycode)
  {
    TrimNoop(t);
    assert |t| == 3;
    assert !MatchesKeyword(t, "&trans");
    assert !MatchesKeyword(t, "&none");
  }
}
