/** The layer extractor of the ZMK importer, lib/zmk-parser.js:188-216: strip
    comments, collapse white space, cut out the `keymap { ... }` body, find each
    `name { ... bindings = < ... >` layer in it and split its bindings into `&...`
    tokens. Each regular expression of the source is a scanner with the same
    semantics, written over indices into the text. */
module ZmkExtract {
  import opened Text

  /** A layer as the extractor finds it: its name and its binding tokens. */
  datatype RawLayer = RawLayer(name: string, bindings: seq<string>)

  // ---------------------------------------------------------------------------
  // Comments and white space (lib/zmk-parser.js:191-195)

  /** `.replace(/\/\*[\s\S]*?\*\//g, '')`: a comment runs to the first `*` `/` after
      its opening; an opening with no close after it, and everything after that,
      is kept as it is. */
  function StripBlockComments(s: string): (r: string)
    ensures |r| <= |s|
    ensures forall c :: c in r ==> c in s
    decreases |s|
  {
    if StartsAt(s, 0, "/*") then
      match FindSub(s, 2, "*/")
      case Some(k) => assert forall c :: c in s[k + 2..] ==> c in s; StripBlockComments(s[k + 2..])
      case None => s
    else if s == [] then []
    else [s[0]] + StripBlockComments(s[1..])
  }

  /** `.replace(/\/\/.*$/gm, '')`: a comment runs up to, not including, the next line
      terminator. */
  function StripLineComments(s: string): (r: string)
    ensures |r| <= |s|
    ensures forall c :: c in r ==> c in s
    decreases |s|
  {
    if StartsAt(s, 0, "//") then
      var k := ScanEnd(s, 2, NotLineEnd);
      assert forall c :: c in s[k..] ==> c in s;
      StripLineComments(s[k..])
    else if s == [] then []
    else [s[0]] + StripLineComments(s[1..])
  }

  /** No two adjacent slashes are left once line comments are removed: a removal
      stops at a line terminator, and a kept `/` is never followed by another. The
      second clause carries the induction: a leading `/` of the result is the
      input's own. */
  lemma {:induction false} NoSlashPairLeft(s: string)
    ensures var r := StripLineComments(s);
      forall m :: 0 <= m && m + 1 < |r| ==> r[m] != '/' || r[m + 1] != '/'
    ensures var r := StripLineComments(s);
      r != [] && r[0] == '/' ==> s[0] == '/' && !StartsAt(s, 0, "//")
    decreases |s|
  {
    if StartsAt(s, 0, "//") {
      var k := ScanEnd(s, 2, NotLineEnd);
      NoSlashPairLeft(s[k..]);
    } else if s != [] {
      NoSlashPairLeft(s[1..]);
      var t := StripLineComments(s[1..]);
      assert StripLineComments(s) == [s[0]] + t;
      if s[0] == '/' && |s| >= 2 {
        assert s[1] != '/' by {
          assert s[..2] == [s[0], s[1]];
        }
      }
    }
  }

  /** Removing line comments leaves no `//` in the text. */
  lemma LineCommentsGone(s: string)
    ensures !Contains(StripLineComments(s), "//")
  {
    var r := StripLineComments(s);
    NoSlashPairLeft(s);
    forall m | 0 <= m <= |r|
      ensures !StartsAt(r, m, "//")
    {
      if m + 1 < |r| {
        assert r[m] != '/' || r[m + 1] != '/';
      }
    }
  }

  /** `.replace(/\s+/g, ' ')`: every run of white space becomes one space. */
  function CollapseSpaces(s: string): (r: string)
    ensures forall c :: c in r ==> c in s || c == ' '
    ensures forall m :: 0 <= m < |r| && IsSpace(r[m]) ==> r[m] == ' '
    ensures forall m, n :: 0 <= m && n == m + 1 && n < |r| ==> r[m] != ' ' || r[n] != ' '
    ensures s != [] ==> r != [] && (IsSpace(s[0]) <==> r[0] == ' ')
    decreases |s|
  {
    if s == [] then []
    else if IsSpace(s[0]) then
      var j := ScanEnd(s, 0, Space);
      assert forall c :: c in s[j..] ==> c in s;
      [' '] + CollapseSpaces(s[j..])
    else [s[0]] + CollapseSpaces(s[1..])
  }

  /** The text the extractor scans: comments removed, white space collapsed, trimmed. */
  function Clean(content: string): string {
    Trim(CollapseSpaces(StripLineComments(StripBlockComments(content))))
  }

  /** The cleaned text has no character the input lacks, except the space. */
  lemma CleanCharacters(content: string)
    ensures forall c :: c in Clean(content) ==> c in content || c == ' '
  {
    var c := CollapseSpaces(StripLineComments(StripBlockComments(content)));
    TrimSpec(c);
    var r := Clean(content);
    assert forall x :: x in r ==> x in c;
  }

  /** The only white space left in the cleaned text is single spaces, and it
      neither starts nor ends with one. */
  lemma CleanSpacing(content: string)
    ensures var r := Clean(content);
      (forall m :: 0 <= m < |r| && IsSpace(r[m]) ==> r[m] == ' ')
      && (forall m, n :: 0 <= m && n == m + 1 && n < |r| ==> r[m] != ' ' || r[n] != ' ')
      && (r != [] ==> r[0] != ' ' && r[|r| - 1] != ' ')
  {
    var c := CollapseSpaces(StripLineComments(StripBlockComments(content)));
    TrimSpec(c);
    var lo := ScanEnd(c, 0, Space);
    var r := Clean(content);
    assert forall m :: 0 <= m < |r| ==> r[m] == c[lo + m];
  }

  // ---------------------------------------------------------------------------
  // The keymap block (lib/zmk-parser.js:197-201)

  /** `keymap\s*\{([^}]+)\}` tried at position `i`: the captured body, which runs
      to the first closing brace. */
  function KeymapBodyAt(s: string, i: nat): (r: Option<string>)
    requires i <= |s|
    ensures r.Some? ==> r.value != [] && '}' !in r.value
  {
    if !StartsAt(s, i, "keymap") then None
    else
      var j := ScanEnd(s, i + 6, Space);
      if j < |s| && s[j] == '{' then
        match FindChar(s, j + 1, '}')
        case Some(k) =>
          if k > j + 1 then
            Some(s[j + 1..k])
          else None
        case None => None
      else None
  }

  /** The leftmost position at or after `i` where the keymap pattern matches. */
  function FindKeymap(s: string, i: nat): (r: Option<nat>)
    requires i <= |s|
    ensures r.Some? ==> i <= r.value <= |s| && KeymapBodyAt(s, r.value).Some?
    ensures r.Some? ==> forall m :: i <= m < r.value ==> KeymapBodyAt(s, m).None?
    ensures r.None? ==> forall m :: i <= m <= |s| ==> KeymapBodyAt(s, m).None?
    decreases |s| - i
  {
    if KeymapBodyAt(s, i).Some? then Some(i)
    else if i == |s| then None
    else FindKeymap(s, i + 1)
  }

  // ---------------------------------------------------------------------------
  // Layers (lib/zmk-parser.js:203-207)

  /** `bindings\s*=\s*<([^>]+)>` tried at position `p`: the text between the angle
      brackets, which runs to the first `>`, and the end of the match. */
  function BindingsAt(b: string, p: nat): (r: Option<(string, nat)>)
    requires p <= |b|
    ensures r.Some? ==> p < r.value.1 <= |b| && r.value.0 != []
  {
    if !StartsAt(b, p, "bindings") then None
    else
      var q := ScanEnd(b, p + 8, Space);
      if q < |b| && b[q] == '=' then
        var t := ScanEnd(b, q + 1, Space);
        if t < |b| && b[t] == '<' then
          match FindChar(b, t + 1, '>')
          case Some(e) => if e > t + 1 then Some((b[t + 1..e], e + 1)) else None
          case None => None
        else None
      else None
  }

  /** The largest position in `[lo, hi]` where BindingsAt matches: the greedy
      `[^}]*` in front of `bindings` gives back characters from the right, so the
      last candidate wins. */
  function LastBindings(b: string, lo: nat, hi: nat): (r: Option<nat>)
    requires lo <= hi <= |b|
    ensures r.Some? ==> lo <= r.value <= hi && BindingsAt(b, r.value).Some?
    ensures r.Some? ==> forall p :: r.value < p <= hi ==> BindingsAt(b, p).None?
    ensures r.None? ==> forall p :: lo <= p <= hi ==> BindingsAt(b, p).None?
    decreases hi
  {
    if BindingsAt(b, hi).Some? then Some(hi)
    else if hi == lo then None
    else LastBindings(b, lo, hi - 1)
  }

  /** One match of the layer pattern: the layer name, where its `bindings` starts,
      the text between the angle brackets, and where the match ends. */
  datatype LayerMatch = LayerMatch(name: string, bindingsAt: nat, bindingsText: string, end: nat)

  /** `(\w+)\s*\{` tried at position `i`: the end of the name, and the stretch after
      the brace that `[^}]*` can cover (up to the next closing brace, or the end). */
  function LayerBlock(b: string, i: nat): (r: Option<(nat, nat, nat)>)
    requires i <= |b|
    ensures r.Some? ==> i < r.value.0 < r.value.1 <= r.value.2 <= |b|
    ensures r.Some? ==> forall m :: r.value.1 <= m < r.value.2 ==> b[m] != '}'
    ensures r.Some? && r.value.2 < |b| ==> b[r.value.2] == '}'
  {
    var j := ScanEnd(b, i, Word);
    var k := ScanEnd(b, j, Space);
    if j > i && k < |b| && b[k] == '{' then
      var close := FindChar(b, k + 1, '}');
      Some((j, k + 1, if close.Some? then close.value else |b|))
    else None
  }

  /** `(\w+)\s*\{[^}]*bindings\s*=\s*<([^>]+)>` tried at position `i`. The name is
      the whole word run at `i` (a shorter one would leave a word character where
      white space or `{` is needed); the bindings are the last ones in the block. */
  function LayerMatchAt(b: string, i: nat): (r: Option<LayerMatch>)
    requires i <= |b|
    ensures r.Some? ==> i < r.value.end <= |b| && r.value.name != []
    ensures r.Some? ==> r.value.bindingsAt <= |b|
  {
    var block := LayerBlock(b, i);
    if block.None? then None
    else
      var last := LastBindings(b, block.value.1, block.value.2);
      if last.None? then None
      else
        var found := BindingsAt(b, last.value).value;
        Some(LayerMatch(b[i..block.value.0], last.value, found.0, found.1))
  }

  /** The layer pattern tried at every start position of the body. */
  function Attempts(b: string): (c: seq<Option<LayerMatch>>)
    ensures |c| == |b| + 1
    ensures Advancing(c)
  {
    seq(|b| + 1, m requires 0 <= m <= |b| => LayerMatchAt(b, m))
  }

  /** A match found at a position ends after it and inside the text. */
  predicate Advancing(c: seq<Option<LayerMatch>>) {
    forall m :: 0 <= m < |c| && c[m].Some? ==> m < c[m].value.end < |c|
  }

  lemma AttemptAt(b: string, m: nat)
    requires m <= |b|
    ensures Attempts(b)[m] == LayerMatchAt(b, m)
  {
  }

  /** `layerRegex.exec` with `lastIndex == i`: the leftmost position at or after `i`
      where the pattern matches. */
  function NextMatch(c: seq<Option<LayerMatch>>, i: nat): (r: Option<nat>)
    requires i <= |c|
    ensures r.Some? ==> i <= r.value < |c| && c[r.value].Some?
    ensures r.Some? ==> forall m :: i <= m < r.value ==> c[m].None?
    ensures r.None? ==> forall m :: i <= m < |c| ==> c[m].None?
    decreases |c| - i
  {
    if i == |c| then None
    else if c[i].Some? then Some(i)
    else NextMatch(c, i + 1)
  }

  /** Every match the `exec` loop finds from `i` on, each with its start. */
  function MatchesFrom(c: seq<Option<LayerMatch>>, i: nat): (r: seq<(nat, LayerMatch)>)
    requires i <= |c| && Advancing(c)
    ensures forall k :: 0 <= k < |r| ==> i <= r[k].0 < |c| && c[r[k].0] == Some(r[k].1)
    decreases |c| - i
  {
    var next := NextMatch(c, i);
    if next.None? then []
    else
      var m := c[next.value].value;
      [(next.value, m)] + MatchesFrom(c, m.end)
  }

  // ---------------------------------------------------------------------------
  // Binding tokens (lib/zmk-parser.js:209-210)

  /** `(?:\s+[A-Z0-9_]+)*` from `j`: where the repeated upper-case arguments end. */
  function ArgsEnd(s: string, j: nat): (e: nat)
    requires j <= |s|
    ensures j <= e <= |s|
    ensures e > j ==> InClass(s[e - 1], UpperArg)
    decreases |s| - j
  {
    var k := ScanEnd(s, j, Space);
    if k > j && k < |s| && InClass(s[k], UpperArg) then ArgsEnd(s, ScanEnd(s, k, UpperArg)) else j
  }

  /** `&[a-zA-Z_]+(?:\s+[A-Z0-9_]+)*(?:\s+[A-Z0-9_]+)*` tried at position `i`: where
      the token ends. The second repetition never adds anything after the first. */
  function TokenEndAt(s: string, i: nat): (r: Option<nat>)
    requires i <= |s|
    ensures r.Some? ==> i + 1 < r.value <= |s| && s[i] == '&' && !IsSpace(s[r.value - 1])
  {
    if i < |s| && s[i] == '&' then
      var j := ScanEnd(s, i + 1, Letter);
      if j > i + 1 then Some(ArgsEnd(s, j)) else None
    else None
  }

  /** `s.match(bindingRegex) || []`, from position `i` on. */
  function Tokens(s: string, i: nat): seq<string>
    requires i <= |s|
    decreases |s| - i
  {
    if i == |s| then []
    else
      var e := TokenEndAt(s, i);
      if e.Some? then [s[i..e.value]] + Tokens(s, e.value) else Tokens(s, i + 1)
  }

  /** At least `&` and a letter, ending in a non-space character. */
  predicate TokenShaped(t: string) {
    |t| >= 2 && t[0] == '&' && !IsSpace(t[|t| - 1])
  }

  /** Every token is at least `&` and a letter, and ends in a non-space character. */
  lemma {:induction false} TokensWellFormed(s: string, i: nat)
    requires i <= |s|
    ensures forall t :: t in Tokens(s, i) ==> TokenShaped(t)
    decreases |s| - i
  {
    if i < |s| {
      var e := TokenEndAt(s, i);
      if e.Some? {
        TokensWellFormed(s, e.value);
        var t := s[i..e.value];
        assert t[0] == s[i] && t[|t| - 1] == s[e.value - 1];
        assert TokenShaped(t);
        assert Tokens(s, i) == [t] + Tokens(s, e.value);
      } else {
        TokensWellFormed(s, i + 1);
        assert Tokens(s, i) == Tokens(s, i + 1);
      }
    }
  }

  // ---------------------------------------------------------------------------
  // extractLayers

  function ToRawLayer(m: LayerMatch): RawLayer {
    RawLayer(m.name, Tokens(m.bindingsText, 0))
  }

  function LayersOf(ms: seq<(nat, LayerMatch)>): seq<RawLayer> {
    seq(|ms|, k requires 0 <= k < |ms| => ToRawLayer(ms[k].1))
  }

  const NO_KEYMAP_BLOCK := "No keymap block found in file"

  /** The body of the first keymap block of the cleaned text, if there is one. */
  function KeymapBody(clean: string): (r: Option<string>)
    ensures r.Some? ==> r.value != [] && '}' !in r.value
  {
    var at := FindKeymap(clean, 0);
    if at.None? then None else KeymapBodyAt(clean, at.value)
  }

  /** The layers the `exec` loop finds in a keymap body, in order. */
  function LayersIn(body: string): seq<RawLayer> {
    LayersOf(MatchesFrom(Attempts(body), 0))
  }

  /** What extractLayers returns or throws for a file's content. */
  function ExtractLayersSpec(content: string): Result<seq<RawLayer>> {
    var body := KeymapBody(Clean(content));
    if body.None? then Err(NO_KEYMAP_BLOCK) else Ok(LayersIn(body.value))
  }

  lemma LayersOfCons(x: (nat, LayerMatch), ms: seq<(nat, LayerMatch)>)
    ensures LayersOf([x] + ms) == [ToRawLayer(x.1)] + LayersOf(ms)
  {
  }

  /** The `exec` loop of extractLayers over the attempts of a keymap body: one
      layer per match, each search starting where the previous match ended. */
  method CollectLayers(attempts: seq<Option<LayerMatch>>) returns (layers: seq<RawLayer>)
    requires Advancing(attempts)
    ensures layers == LayersOf(MatchesFrom(attempts, 0))
  {
    layers := [];
    var pos := 0;
    var next := NextMatch(attempts, pos);
    while next.Some?
      invariant pos <= |attempts|
      invariant next == NextMatch(attempts, pos)
      invariant layers + LayersOf(MatchesFrom(attempts, pos)) == LayersOf(MatchesFrom(attempts, 0))
      decreases |attempts| - pos
    {
      var m := attempts[next.value].value;
      LayersOfCons((next.value, m), MatchesFrom(attempts, m.end));
      layers := layers + [RawLayer(m.name, Tokens(m.bindingsText, 0))];
      pos := m.end;
      next := NextMatch(attempts, pos);
    }
  }

  /** extractLayers: clean the text, find the keymap block, collect its layers. */
  method ExtractLayers(content: string) returns (r: Result<seq<RawLayer>>)
    ensures r == ExtractLayersSpec(content)
  {
    var found := KeymapBody(Clean(content));
    if found.None? {
      return Err(NO_KEYMAP_BLOCK);
    }
    var layers := CollectLayers(Attempts(found.value));
    return Ok(layers);
  }

  // ---------------------------------------------------------------------------
  // Properties

  /** Extraction fails exactly when the keymap pattern matches nowhere in the
      cleaned text, and then with the source's message. */
  lemma ExtractFailsIffNoKeymap(content: string)
    ensures ExtractLayersSpec(content).Err? <==>
      forall m :: 0 <= m <= |Clean(content)| ==> KeymapBodyAt(Clean(content), m).None?
    ensures ExtractLayersSpec(content).Err? ==> ExtractLayersSpec(content).message == NO_KEYMAP_BLOCK
  {
  }

  /** Where the gap before the `k`-th match starts: at `i`, or at the end of the
      match before it. */
  function GapStart(ms: seq<(nat, LayerMatch)>, i: nat, k: nat): nat
    requires k <= |ms|
  {
    if k == 0 then i else ms[k - 1].1.end
  }

  /** Each match ends at or before the start of every later one. */
  predicate InSourceOrder(ms: seq<(nat, LayerMatch)>) {
    forall k, l :: 0 <= k < l < |ms| ==> ms[k].1.end <= ms[l].0
  }

  /** The matches come in source order and do not overlap. */
  lemma {:induction false} MatchesOrdered(c: seq<Option<LayerMatch>>, i: nat)
    requires i <= |c| && Advancing(c)
    ensures InSourceOrder(MatchesFrom(c, i))
    decreases |c| - i
  {
    var ms := MatchesFrom(c, i);
    var next := NextMatch(c, i);
    if next.Some? {
      var end := c[next.value].value.end;
      var rest := MatchesFrom(c, end);
      MatchesOrdered(c, end);
      assert ms == [(next.value, c[next.value].value)] + rest;
      forall k, l | 0 <= k < l < |ms|
        ensures ms[k].1.end <= ms[l].0
      {
        assert ms[l] == rest[l - 1];
        if k > 0 {
          assert ms[k] == rest[k - 1];
        } else {
          assert ms[0].1.end == end <= rest[l - 1].0;
        }
      }
    }
  }

  /** No attempt matches in the gap before any of the matches. */
  predicate GapsEmpty(c: seq<Option<LayerMatch>>, ms: seq<(nat, LayerMatch)>, i: nat) {
    forall k, m :: 0 <= k < |ms| && GapStart(ms, i, k) <= m < ms[k].0 && m < |c| ==> c[m].None?
  }

  /** No attempt matches after the last match (or from `i`, when there is none). */
  predicate TailEmpty(c: seq<Option<LayerMatch>>, ms: seq<(nat, LayerMatch)>, i: nat) {
    forall m :: GapStart(ms, i, |ms|) <= m < |c| ==> c[m].None?
  }

  /** The gaps of a list with one more match in front: the new first gap, then
      the gaps of the rest, each one place further on. */
  lemma GapsCons(c: seq<Option<LayerMatch>>, x: (nat, LayerMatch), rest: seq<(nat, LayerMatch)>, i: nat)
    requires forall m :: i <= m < x.0 && m < |c| ==> c[m].None?
    requires GapsEmpty(c, rest, x.1.end) && TailEmpty(c, rest, x.1.end)
    ensures GapsEmpty(c, [x] + rest, i) && TailEmpty(c, [x] + rest, i)
  {
    var ms := [x] + rest;
    forall k, m | 0 <= k < |ms| && GapStart(ms, i, k) <= m < ms[k].0 && m < |c|
      ensures c[m].None?
    {
      if k > 0 {
        assert ms[k] == rest[k - 1];
        assert GapStart(ms, i, k) == GapStart(rest, x.1.end, k - 1);
      }
    }
    assert GapStart(ms, i, |ms|) == GapStart(rest, x.1.end, |rest|);
  }

  /** Nothing in the gaps between the matches, or after the last one, matches:
      the loop finds every layer the pattern finds. */
  lemma {:induction false} MatchesSkipNothing(c: seq<Option<LayerMatch>>, i: nat)
    requires i <= |c| && Advancing(c)
    ensures GapsEmpty(c, MatchesFrom(c, i), i) && TailEmpty(c, MatchesFrom(c, i), i)
    decreases |c| - i
  {
    var next := NextMatch(c, i);
    if next.Some? {
      var x := (next.value, c[next.value].value);
      MatchesSkipNothing(c, x.1.end);
      GapsCons(c, x, MatchesFrom(c, x.1.end), i);
      assert MatchesFrom(c, i) == [x] + MatchesFrom(c, x.1.end);
    }
  }

  /** A token that starts with `&` and ends in a non-space character is its own trim. */
  lemma TokenIsTrimmed(t: string)
    requires TokenShaped(t)
    ensures Trim(t) == t
  {
    TrimSpec(t);
    assert ScanEnd(t, 0, Space) == 0;
  }

  /** Every token of every collected layer is non-empty, starts with `&` and has
      no white space at its end, so trimming leaves it as it is. */
  lemma LayerTokensWellFormed(ms: seq<(nat, LayerMatch)>)
    ensures var ls := LayersOf(ms);
      forall k, n :: 0 <= k < |ls| && 0 <= n < |ls[k].bindings| ==>
        |ls[k].bindings[n]| >= 2 && ls[k].bindings[n][0] == '&' && Trim(ls[k].bindings[n]) == ls[k].bindings[n]
  {
    var ls := LayersOf(ms);
    forall k, n | 0 <= k < |ls| && 0 <= n < |ls[k].bindings|
      ensures |ls[k].bindings[n]| >= 2 && ls[k].bindings[n][0] == '&' && Trim(ls[k].bindings[n]) == ls[k].bindings[n]
    {
      var t := ls[k].bindings[n];
      assert t in ls[k].bindings;
      TokensWellFormed(ms[k].1.bindingsText, 0);
      TokenIsTrimmed(t);
    }
  }

  /** Of two `bindings = < ... >` entries in one layer block, the later one is the
      one the layer gets (a `sensor-bindings` entry after `bindings` wins). */
  lemma LastBindingsWin(b: string, i: nat, p: nat)
    requires i <= |b| && p <= |b|
    requires LayerMatchAt(b, i).Some?
    requires LayerMatchAt(b, i).value.bindingsAt <= p
    requires BindingsAt(b, p).Some?
    requires forall m :: LayerMatchAt(b, i).value.bindingsAt <= m < p ==> b[m] != '}'
    ensures LayerMatchAt(b, i).value.bindingsAt == p
  {
    var block := LayerBlock(b, i).value;
    var q := LayerMatchAt(b, i).value.bindingsAt;
    assert LastBindings(b, block.1, block.2) == Some(q);
  }

  /** Every binding of every layer is a trimmed `&` token of at least two
      characters. */
  predicate BindingsWellFormed(layers: seq<RawLayer>) {
    forall k, n :: 0 <= k < |layers| && 0 <= n < |layers[k].bindings| ==>
      |layers[k].bindings[n]| >= 2 && layers[k].bindings[n][0] == '&'
      && Trim(layers[k].bindings[n]) == layers[k].bindings[n]
  }

  /** What extractLayers returns for any file has only well-formed bindings. */
  lemma ExtractedBindingsWellFormed(content: string)
    ensures ExtractLayersSpec(content).Ok? ==> BindingsWellFormed(ExtractLayersSpec(content).value)
  {
    var body := KeymapBody(Clean(content));
    if body.Some? {
      LayerTokensWellFormed(MatchesFrom(Attempts(body.value), 0));
    }
  }

  /** A file with no `k` in it (plain prose, say) has no keymap block: cleaning
      adds no letter, so `keymap` cannot occur. */
  lemma NoKeymapWithoutK(content: string)
    requires 'k' !in content
    ensures ExtractLayersSpec(content) == Err(NO_KEYMAP_BLOCK)
  {
    CleanCharacters(content);
    var clean := Clean(content);
    assert 'k' !in clean;
    forall m | 0 <= m <= |clean|
      ensures KeymapBodyAt(clean, m).None?
    {
      if m < |clean| {
        assert clean[m] in clean;
      }
    }
  }
}
