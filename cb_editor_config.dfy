/** `CBEditorConfig::LoadConfig`, the Code::Blocks EditorConfig plugin's one
    piece of logic: ask the EditorConfig library for the settings of a file,
    give up on a real parse error, keep the last value of each of the four
    recognised keys, and set the active editor control accordingly.

    The settings struct `ecConf` is declared without an initialiser in the
    C++; this model starts it at `NoSettings` (no strings, both numbers 0),
    the value a zero-initialised struct would hold.
 */
module CBEditorConfig {
  import opened CStrings
  import opened EditorConfigLib
  import opened EditorControl

  datatype Option<T> = None | Some(value: T)

  /** `ecConf`: the settings read from the library.  A `None` string is a null
      `const char*`; the two numbers are what `atoi` made of their values. */
  datatype EcConf = EcConf(
    indentStyle: Option<string>,
    indentSize: int,
    tabWidth: int,
    endOfLine: Option<string>)

  const NoSettings := EcConf(None, 0, 0, None)

  // ---------------------------------------------------------------------
  // Reading the settings: the loop over the library's name/value pairs
  // ---------------------------------------------------------------------

  /** The four names LoadConfig recognises, in the order it tests them. */
  datatype Key = IndentStyle | TabWidth | IndentSize | EndOfLine

  function KeyName(k: Key): string {
    match k
    case IndentStyle => "indent_style"
    case TabWidth => "tab_width"
    case IndentSize => "indent_size"
    case EndOfLine => "end_of_line"
  }

  /** Which key, if any, a pair's name is: an exact, case-sensitive comparison. */
  function KeyOf(name: string): (k: Option<Key>)
    ensures k.Some? ==> KeyName(k.value) == name
    ensures k.None? <==> forall key: Key :: KeyName(key) != name
  {
    if name == "indent_style" then Some(IndentStyle)
    else if name == "tab_width" then Some(TabWidth)
    else if name == "indent_size" then Some(IndentSize)
    else if name == "end_of_line" then Some(EndOfLine)
    else None
  }

  /** Overwrite one slot of `ecConf` with a value; the numeric slots go through `atoi`. */
  function Store(c: EcConf, k: Key, value: string): EcConf {
    match k
    case IndentStyle => c.(indentStyle := Some(value))
    case TabWidth => c.(tabWidth := Atoi(value))
    case IndentSize => c.(indentSize := Atoi(value))
    case EndOfLine => c.(endOfLine := Some(value))
  }

  /** One iteration of the loop: a pair with an unknown name changes nothing. */
  function Record(c: EcConf, pair: (string, string)): EcConf {
    match KeyOf(pair.0)
    case None => c
    case Some(k) => Store(c, k, pair.1)
  }

  /** `ecConf` after the loop has seen every pair, in the library's order. */
  function Classify(nameValues: seq<(string, string)>): EcConf {
    if nameValues == [] then NoSettings
    else Record(Classify(nameValues[..|nameValues| - 1]), nameValues[|nameValues| - 1])
  }

  /** A slot's content, whatever its C type. */
  datatype SlotValue = Text(text: Option<string>) | Number(number: int)

  function Slot(c: EcConf, k: Key): SlotValue {
    match k
    case IndentStyle => Text(c.indentStyle)
    case TabWidth => Number(c.tabWidth)
    case IndentSize => Number(c.indentSize)
    case EndOfLine => Text(c.endOfLine)
  }

  /** What a slot holds once the value `value` has been read for it. */
  function Assigned(k: Key, value: string): SlotValue {
    match k
    case IndentStyle => Text(Some(value))
    case TabWidth => Number(Atoi(value))
    case IndentSize => Number(Atoi(value))
    case EndOfLine => Text(Some(value))
  }

  /** Storing into one slot leaves the other three as they were. */
  lemma StoreOnlyTouchesItsSlot(c: EcConf, k: Key, value: string, other: Key)
    ensures Slot(Store(c, k, value), other) == if other == k then Assigned(k, value) else Slot(c, other)
  {
  }

  /** Each slot holds the value of the LAST pair whose name is exactly its key. */
  lemma {:induction false} ClassifyLastWins(nameValues: seq<(string, string)>, k: Key, i: nat)
    requires i < |nameValues| && nameValues[i].0 == KeyName(k)
    requires forall j :: i < j < |nameValues| ==> nameValues[j].0 != KeyName(k)
    ensures Slot(Classify(nameValues), k) == Assigned(k, nameValues[i].1)
  {
    var n := |nameValues|;
    var last := nameValues[n - 1];
    var init := nameValues[..n - 1];
    if i == n - 1 {
      assert KeyOf(last.0) == Some(k);
      StoreOnlyTouchesItsSlot(Classify(init), k, last.1, k);
    } else {
      ClassifyLastWins(init, k, i);
      match KeyOf(last.0)
      case None =>
      case Some(k') =>
        StoreOnlyTouchesItsSlot(Classify(init), k', last.1, k);
    }
  }

  /** A key that no pair names keeps its initial (absent) value. */
  lemma {:induction false} ClassifyUnnamedKey(nameValues: seq<(string, string)>, k: Key)
    requires forall j :: 0 <= j < |nameValues| ==> nameValues[j].0 != KeyName(k)
    ensures Slot(Classify(nameValues), k) == Slot(NoSettings, k)
  {
    var n := |nameValues|;
    if n > 0 {
      var last := nameValues[n - 1];
      ClassifyUnnamedKey(nameValues[..n - 1], k);
      match KeyOf(last.0)
      case None =>
      case Some(k') =>
        StoreOnlyTouchesItsSlot(Classify(nameValues[..n - 1]), k', last.1, k);
    }
  }

  /** A pair whose name is not one of the four keys can be dropped from
      anywhere in the sequence without changing the result. */
  lemma {:induction false} ClassifyIgnoresUnknown(
    before: seq<(string, string)>, pair: (string, string), after: seq<(string, string)>)
    requires KeyOf(pair.0) == None
    ensures Classify(before + [pair] + after) == Classify(before + after)
  {
    if after == [] {
      assert before + [pair] + after == before + [pair];
      assert (before + [pair])[..|before|] == before;
      assert before + after == before;
    } else {
      var n := |after|;
      assert (before + [pair] + after)[..|before| + n] == before + [pair] + after[..n - 1];
      assert (before + after)[..|before| + n - 1] == before + after[..n - 1];
      ClassifyIgnoresUnknown(before, pair, after[..n - 1]);
    }
  }

  /** The loop of lines 74-88: read every pair from the live handle, in order,
      comparing names as `strcmp` does. */
  method ReadSettings(eh: Handle) returns (conf: EcConf)
    requires eh.destroyCount == 0
    ensures conf == Classify(eh.nameValues)
  {
    conf := NoSettings;
    var count := eh.NameValueCount();
    for i := 0 to count
      invariant conf == Classify(eh.nameValues[..i])
    {
      var name, value := eh.GetNameValue(i);
      if name == "indent_style" {
        conf := conf.(indentStyle := Some(value));
      } else if name == "tab_width" {
        conf := conf.(tabWidth := Atoi(value));
      } else if name == "indent_size" {
        conf := conf.(indentSize := Atoi(value));
      } else if name == "end_of_line" {
        conf := conf.(endOfLine := Some(value));
      }
      assert eh.nameValues[..i + 1][..i] == eh.nameValues[..i];
    }
    assert eh.nameValues[..count] == eh.nameValues;
  }

  // ---------------------------------------------------------------------
  // Applying the settings: the guarded setter calls
  // ---------------------------------------------------------------------

  /** Lines 95-100: "tab" turns tabs on, "space" turns them off. */
  function StyleMutations(indentStyle: Option<string>): seq<Mutation> {
    if indentStyle == Some("tab") then [UseTabsSet(true)]
    else if indentStyle == Some("space") then [UseTabsSet(false)]
    else []
  }

  /** Lines 101-107: a positive indent size sets the indent and, as a default, the tab width. */
  function IndentMutations(c: EcConf): seq<Mutation> {
    if c.indentSize > 0 then [IndentSet(c.indentSize), TabWidthSet(c.indentSize)] else []
  }

  /** Lines 109-110 as written: a positive tab width sets the tab width to the
      INDENT SIZE, not to the tab width. */
  function TabWidthMutations(c: EcConf): seq<Mutation> {
    if c.tabWidth > 0 then [TabWidthSet(c.indentSize)] else []
  }

  /** Lines 113-120: only the exact strings "lf", "crlf" and "cr" set the end-of-line mode. */
  function EolMutations(endOfLine: Option<string>): seq<Mutation> {
    if endOfLine == Some("lf") then [EolModeSet(Lf)]
    else if endOfLine == Some("crlf") then [EolModeSet(CrLf)]
    else if endOfLine == Some("cr") then [EolModeSet(Cr)]
    else []
  }

  /** The setter calls LoadConfig makes for the settings `c`, in order. */
  function Mutations(c: EcConf): seq<Mutation> {
    StyleMutations(c.indentStyle) + IndentMutations(c) + TabWidthMutations(c) + EolMutations(c.endOfLine)
  }

  /** Lines 95-100. */
  method ApplyIndentStyle(conf: EcConf, control: StyledTextCtrl)
    modifies control
    ensures control.log == old(control.log) + StyleMutations(conf.indentStyle)
    ensures control.State() == Replay(old(control.State()), StyleMutations(conf.indentStyle))
  {
    if conf.indentStyle.Some? {
      if conf.indentStyle.value == "tab" {
        control.SetUseTabs(true);
      } else if conf.indentStyle.value == "space" {
        control.SetUseTabs(false);
      }
    }
    ReplayShort(old(control.State()), StyleMutations(conf.indentStyle));
  }

  /** Lines 101-107. */
  method ApplyIndentSize(conf: EcConf, control: StyledTextCtrl)
    modifies control
    ensures control.log == old(control.log) + IndentMutations(conf)
    ensures control.State() == Replay(old(control.State()), IndentMutations(conf))
  {
    if conf.indentSize > 0 {
      control.SetIndent(conf.indentSize);
      // Set here so that a positive tab width can override it below.
      control.SetTabWidth(conf.indentSize);
    }
    ReplayShort(old(control.State()), IndentMutations(conf));
  }

  /** Lines 109-110, passing `indentSize` as the source does. */
  method ApplyTabWidth(conf: EcConf, control: StyledTextCtrl)
    modifies control
    ensures control.log == old(control.log) + TabWidthMutations(conf)
    ensures control.State() == Replay(old(control.State()), TabWidthMutations(conf))
  {
    if conf.tabWidth > 0 {
      control.SetTabWidth(conf.indentSize);
    }
    ReplayShort(old(control.State()), TabWidthMutations(conf));
  }

  /** Lines 113-120. */
  method ApplyEndOfLine(conf: EcConf, control: StyledTextCtrl)
    modifies control
    ensures control.log == old(control.log) + EolMutations(conf.endOfLine)
    ensures control.State() == Replay(old(control.State()), EolMutations(conf.endOfLine))
  {
    if conf.endOfLine.Some? {
      if conf.endOfLine.value == "lf" {
        control.SetEOLMode(Lf);
      } else if conf.endOfLine.value == "crlf" {
        control.SetEOLMode(CrLf);
      } else if conf.endOfLine.value == "cr" {
        control.SetEOLMode(Cr);
      }
    }
    ReplayShort(old(control.State()), EolMutations(conf.endOfLine));
  }

  /** Lines 95-120: the four groups of setter calls, in the source's order. */
  method ApplySettings(conf: EcConf, control: StyledTextCtrl)
    modifies control
    ensures control.log == old(control.log) + Mutations(conf)
    ensures control.State() == Replay(old(control.State()), Mutations(conf))
  {
    var a, b, c, d := StyleMutations(conf.indentStyle), IndentMutations(conf),
                      TabWidthMutations(conf), EolMutations(conf.endOfLine);
    ApplyIndentStyle(conf, control);
    ApplyIndentSize(conf, control);
    ApplyTabWidth(conf, control);
    ApplyEndOfLine(conf, control);
    ReplayAppend(old(control.State()), a, b);
    ReplayAppend(old(control.State()), a + b, c);
    ReplayAppend(old(control.State()), a + b + c, d);
  }

  // ---------------------------------------------------------------------
  // LoadConfig
  // ---------------------------------------------------------------------

  /** Lines 50-53: a non-zero status is an error, except "not a full path". */
  predicate ParseFailed(status: int) {
    status != 0 && status != EDITORCONFIG_PARSE_NOT_FULL_PATH
  }

  /** The setter calls one LoadConfig makes, given what the library reports. */
  function LoadMutations(parsed: ParseResult): seq<Mutation> {
    if ParseFailed(parsed.status) then [] else Mutations(Classify(parsed.nameValues))
  }

  /** `CBEditorConfig::LoadConfig`.  `parsed` is what `editorconfig_parse`
      reports for the file name; `control` is the active editor's control.
      The handle it creates is returned (as a ghost) to show that it is
      released exactly once, on the error path as on the success path, and
      only after the last name/value pair has been read from it. */
  method LoadConfig(parsed: ParseResult, control: StyledTextCtrl) returns (ghost handle: Handle)
    modifies control
    ensures fresh(handle) && handle.destroyCount == 1
    ensures ParseFailed(parsed.status) ==> control.State() == old(control.State()) && control.log == old(control.log)
    ensures control.log == old(control.log) + LoadMutations(parsed)
    ensures control.State() == Replay(old(control.State()), LoadMutations(parsed))
  {
    var eh := new Handle();
    handle := eh;
    var errNum := eh.Parse(parsed);
    if errNum != 0 && errNum != EDITORCONFIG_PARSE_NOT_FULL_PATH {
      // The error message is built but never shown.
      eh.Destroy();
      return;
    }
    var conf := ReadSettings(eh);
    ApplySettings(conf, control);
    eh.Destroy();
  }
}

