/** What one LoadConfig leaves in the editor control, property by property;
    the tab-width mix-up of line 110 and its correction; and the worked
    examples of the plugin's design.
 */
module LoadConfigProperties {
  import opened CStrings
  import opened EditorConfigLib
  import opened EditorControl
  import opened CBEditorConfig

  // ---------------------------------------------------------------------
  // The error gate
  // ---------------------------------------------------------------------

  /** A real parse error: no setter is called, so the control is unchanged. */
  lemma ParseErrorLeavesControl(parsed: ParseResult, s: CtrlState)
    requires ParseFailed(parsed.status)
    ensures LoadMutations(parsed) == [] && Replay(s, LoadMutations(parsed)) == s
  {
  }

  /** "Not a full path" is not an error: it is handled exactly like status 0. */
  lemma NotFullPathIsSuccess(nameValues: seq<(string, string)>)
    ensures LoadMutations(ParseResult(EDITORCONFIG_PARSE_NOT_FULL_PATH, nameValues))
         == LoadMutations(ParseResult(0, nameValues))
         == Mutations(Classify(nameValues))
  {
  }

  // ---------------------------------------------------------------------
  // The control after the setter calls, property by property
  // ---------------------------------------------------------------------

  /** The calls of `Mutations(c)` replayed group by group. */
  lemma MutationsInGroups(c: EcConf, s: CtrlState)
    ensures Replay(s, Mutations(c)) ==
      Replay(Replay(Replay(Replay(s, StyleMutations(c.indentStyle)), IndentMutations(c)),
                    TabWidthMutations(c)), EolMutations(c.endOfLine))
  {
    var a, b, d, e := StyleMutations(c.indentStyle), IndentMutations(c),
                      TabWidthMutations(c), EolMutations(c.endOfLine);
    ReplayAppend(s, a + b + d, e);
    ReplayAppend(s, a + b, d);
    ReplayAppend(s, a, b);
  }

  /** Each group of calls, replayed on its own. */
  lemma StyleGroup(indentStyle: Option<string>, s: CtrlState)
    ensures Replay(s, StyleMutations(indentStyle)) ==
      if indentStyle == Some("tab") then s.(useTabs := true)
      else if indentStyle == Some("space") then s.(useTabs := false)
      else s
  {
    ReplayShort(s, StyleMutations(indentStyle));
  }

  lemma IndentGroup(c: EcConf, s: CtrlState)
    ensures Replay(s, IndentMutations(c)) ==
      if c.indentSize > 0 then s.(indent := c.indentSize, tabWidth := c.indentSize) else s
  {
    ReplayShort(s, IndentMutations(c));
  }

  lemma TabWidthGroup(c: EcConf, s: CtrlState)
    ensures Replay(s, TabWidthMutations(c)) == if c.tabWidth > 0 then s.(tabWidth := c.indentSize) else s
    ensures Replay(s, TabWidthMutationsIntended(c)) == if c.tabWidth > 0 then s.(tabWidth := c.tabWidth) else s
  {
    ReplayShort(s, TabWidthMutations(c));
    ReplayShort(s, TabWidthMutationsIntended(c));
  }

  lemma EolGroup(endOfLine: Option<string>, s: CtrlState)
    ensures Replay(s, EolMutations(endOfLine)) ==
      if endOfLine == Some("lf") then s.(eolMode := Lf)
      else if endOfLine == Some("crlf") then s.(eolMode := CrLf)
      else if endOfLine == Some("cr") then s.(eolMode := Cr)
      else s
  {
    ReplayShort(s, EolMutations(endOfLine));
  }

  /** The control after all four groups, as written and corrected. */
  lemma AppliedState(c: EcConf, s: CtrlState)
    ensures var useTabs := if c.indentStyle == Some("tab") then true
                           else if c.indentStyle == Some("space") then false
                           else s.useTabs;
            var indent := if c.indentSize > 0 then c.indentSize else s.indent;
            var eolMode := if c.endOfLine == Some("lf") then Lf
                           else if c.endOfLine == Some("crlf") then CrLf
                           else if c.endOfLine == Some("cr") then Cr
                           else s.eolMode;
            && Replay(s, Mutations(c)) ==
                 CtrlState(useTabs, indent,
                           if c.indentSize > 0 || c.tabWidth > 0 then c.indentSize else s.tabWidth,
                           eolMode)
            && Replay(s, MutationsIntended(c)) ==
                 CtrlState(useTabs, indent,
                           if c.tabWidth > 0 then c.tabWidth else if c.indentSize > 0 then c.indentSize else s.tabWidth,
                           eolMode)
  {
    MutationsInGroups(c, s);
    MutationsIntendedInGroups(c, s);
    var s1 := Replay(s, StyleMutations(c.indentStyle));
    StyleGroup(c.indentStyle, s);
    var s2 := Replay(s1, IndentMutations(c));
    IndentGroup(c, s1);
    TabWidthGroup(c, s2);
    EolGroup(c.endOfLine, Replay(s2, TabWidthMutations(c)));
    EolGroup(c.endOfLine, Replay(s2, TabWidthMutationsIntended(c)));
  }

  /** indent_style "tab" turns tabs on, "space" turns them off, anything else
      (or no indent_style at all) leaves the flag alone. */
  lemma AppliedUseTabs(c: EcConf, s: CtrlState)
    ensures Replay(s, Mutations(c)).useTabs ==
      if c.indentStyle == Some("tab") then true
      else if c.indentStyle == Some("space") then false
      else s.useTabs
  {
    AppliedState(c, s);
  }

  /** A positive indent_size becomes the indent; otherwise (which includes a
      value `atoi` cannot read, such as "tab") the indent is left alone. */
  lemma AppliedIndent(c: EcConf, s: CtrlState)
    ensures Replay(s, Mutations(c)).indent == if c.indentSize > 0 then c.indentSize else s.indent
  {
    AppliedState(c, s);
  }

  /** As written, the tab width ends up as indent_size whenever indent_size or
      tab_width is positive: the value of tab_width itself never reaches the
      control, so it does not override, and a positive tab_width with no
      positive indent_size sets the tab width to that non-positive indent_size. */
  lemma AppliedTabWidth(c: EcConf, s: CtrlState)
    ensures Replay(s, Mutations(c)).tabWidth ==
      if c.indentSize > 0 || c.tabWidth > 0 then c.indentSize else s.tabWidth
  {
    AppliedState(c, s);
  }

  /** end_of_line "lf", "crlf" or "cr" sets the matching mode; any other
      string, or none, leaves the mode alone. */
  lemma AppliedEolMode(c: EcConf, s: CtrlState)
    ensures Replay(s, Mutations(c)).eolMode ==
      if c.endOfLine == Some("lf") then Lf
      else if c.endOfLine == Some("crlf") then CrLf
      else if c.endOfLine == Some("cr") then Cr
      else s.eolMode
  {
    AppliedState(c, s);
  }

  /** Loading the same settings twice leaves the control as loading them once. */
  lemma AppliedIdempotent(c: EcConf, s: CtrlState)
    ensures Replay(Replay(s, Mutations(c)), Mutations(c)) == Replay(s, Mutations(c))
  {
    var s' := Replay(s, Mutations(c));
    AppliedUseTabs(c, s);
    AppliedIndent(c, s);
    AppliedTabWidth(c, s);
    AppliedEolMode(c, s);
    AppliedUseTabs(c, s');
    AppliedIndent(c, s');
    AppliedTabWidth(c, s');
    AppliedEolMode(c, s');
  }

  /** No name/value pairs: no setter is called. */
  lemma NoPairsNoCalls(status: int)
    ensures LoadMutations(ParseResult(status, [])) == []
  {
  }

  // ---------------------------------------------------------------------
  // From the library's pairs to the control
  // ---------------------------------------------------------------------

  /** The last indent_style pair alone decides the use-tabs flag. */
  lemma LastIndentStyleDecides(parsed: ParseResult, i: nat, s: CtrlState)
    requires !ParseFailed(parsed.status)
    requires i < |parsed.nameValues| && parsed.nameValues[i].0 == "indent_style"
    requires forall j :: i < j < |parsed.nameValues| ==> parsed.nameValues[j].0 != "indent_style"
    ensures Replay(s, LoadMutations(parsed)).useTabs ==
      if parsed.nameValues[i].1 == "tab" then true
      else if parsed.nameValues[i].1 == "space" then false
      else s.useTabs
  {
    var c := Classify(parsed.nameValues);
    ClassifyLastWins(parsed.nameValues, IndentStyle, i);
    AppliedUseTabs(c, s);
  }

  /** With no indent_style pair at all, the use-tabs flag is left alone. */
  lemma NoIndentStyleKeepsUseTabs(parsed: ParseResult, s: CtrlState)
    requires forall j :: 0 <= j < |parsed.nameValues| ==> parsed.nameValues[j].0 != "indent_style"
    ensures Replay(s, LoadMutations(parsed)).useTabs == s.useTabs
  {
    if !ParseFailed(parsed.status) {
      ClassifyUnnamedKey(parsed.nameValues, IndentStyle);
      AppliedUseTabs(Classify(parsed.nameValues), s);
    }
  }

  /** The last end_of_line pair alone decides the end-of-line mode. */
  lemma LastEndOfLineDecides(parsed: ParseResult, i: nat, s: CtrlState)
    requires !ParseFailed(parsed.status)
    requires i < |parsed.nameValues| && parsed.nameValues[i].0 == "end_of_line"
    requires forall j :: i < j < |parsed.nameValues| ==> parsed.nameValues[j].0 != "end_of_line"
    ensures Replay(s, LoadMutations(parsed)).eolMode ==
      if parsed.nameValues[i].1 == "lf" then Lf
      else if parsed.nameValues[i].1 == "crlf" then CrLf
      else if parsed.nameValues[i].1 == "cr" then Cr
      else s.eolMode
  {
    var c := Classify(parsed.nameValues);
    ClassifyLastWins(parsed.nameValues, EndOfLine, i);
    AppliedEolMode(c, s);
  }

  /** The last indent_size pair decides the indent: its `atoi` value when that
      is positive, and otherwise the indent is left alone. */
  lemma LastIndentSizeDecides(parsed: ParseResult, i: nat, s: CtrlState)
    requires !ParseFailed(parsed.status)
    requires i < |parsed.nameValues| && parsed.nameValues[i].0 == "indent_size"
    requires forall j :: i < j < |parsed.nameValues| ==> parsed.nameValues[j].0 != "indent_size"
    ensures Replay(s, LoadMutations(parsed)).indent ==
      if Atoi(parsed.nameValues[i].1) > 0 then Atoi(parsed.nameValues[i].1) else s.indent
  {
    var c := Classify(parsed.nameValues);
    ClassifyLastWins(parsed.nameValues, IndentSize, i);
    AppliedIndent(c, s);
  }

  // ---------------------------------------------------------------------
  // Line 110: the tab width that tab_width was meant to override
  // ---------------------------------------------------------------------

  /** Line 110 as evidently intended by the comment at lines 104-105: a
      positive tab_width sets the tab width to tab_width. */
  function TabWidthMutationsIntended(c: EcConf): seq<Mutation> {
    if c.tabWidth > 0 then [TabWidthSet(c.tabWidth)] else []
  }

  /** The setter calls with line 110 corrected. */
  function MutationsIntended(c: EcConf): seq<Mutation> {
    StyleMutations(c.indentStyle) + IndentMutations(c) + TabWidthMutationsIntended(c) + EolMutations(c.endOfLine)
  }

  lemma MutationsIntendedInGroups(c: EcConf, s: CtrlState)
    ensures Replay(s, MutationsIntended(c)) ==
      Replay(Replay(Replay(Replay(s, StyleMutations(c.indentStyle)), IndentMutations(c)),
                    TabWidthMutationsIntended(c)), EolMutations(c.endOfLine))
  {
    var a, b, d, e := StyleMutations(c.indentStyle), IndentMutations(c),
                      TabWidthMutationsIntended(c), EolMutations(c.endOfLine);
    ReplayAppend(s, a + b + d, e);
    ReplayAppend(s, a + b, d);
    ReplayAppend(s, a, b);
  }

  /** Corrected, a positive tab_width overrides the tab width that a positive
      indent_size set; indent_size still decides the indent, and the other
      three properties end up as with the code as written. */
  lemma IntendedTabWidthOverrides(c: EcConf, s: CtrlState)
    ensures Replay(s, MutationsIntended(c)).tabWidth ==
      if c.tabWidth > 0 then c.tabWidth
      else if c.indentSize > 0 then c.indentSize
      else s.tabWidth
    ensures Replay(s, MutationsIntended(c)).indent == Replay(s, Mutations(c)).indent
    ensures Replay(s, MutationsIntended(c)).useTabs == Replay(s, Mutations(c)).useTabs
    ensures Replay(s, MutationsIntended(c)).eolMode == Replay(s, Mutations(c)).eolMode
  {
    AppliedState(c, s);
  }

  /** The code as written and the correction make the same calls exactly when
      tab_width is not positive or equals indent_size. */
  lemma IntendedDiffersOnlyOnTabWidth(c: EcConf)
    ensures MutationsIntended(c) == Mutations(c) <==> (c.tabWidth <= 0 || c.tabWidth == c.indentSize)
  {
    var a, b := StyleMutations(c.indentStyle), IndentMutations(c);
    var e := EolMutations(c.endOfLine);
    if MutationsIntended(c) == Mutations(c) && c.tabWidth > 0 {
      var k := |a + b|;
      assert MutationsIntended(c)[k] == TabWidthSet(c.tabWidth);
      assert Mutations(c)[k] == TabWidthSet(c.indentSize);
    }
  }

  /** Reading one more pair with a recognised name stores its value. */
  lemma ClassifySnoc(nameValues: seq<(string, string)>, k: Key, value: string)
    ensures Classify(nameValues + [(KeyName(k), value)]) == Store(Classify(nameValues), k, value)
  {
    assert (nameValues + [(KeyName(k), value)])[..|nameValues|] == nameValues;
    KeyOfKeyName(k);
  }

  /** The four key names are distinct, so each one is recognised as its own key. */
  lemma KeyOfKeyName(k: Key)
    ensures KeyOf(KeyName(k)) == Some(k)
  {
  }

  /** `atoi` of the values used in the examples below. */
  lemma AtoiExamples()
    ensures Atoi("2") == 2 && Atoi("4") == 4 && Atoi("8") == 8
  {
    AtoiDecimal(2, []);
    assert Decimal(2) + [] == "2";
    AtoiDecimal(4, []);
    assert Decimal(4) + [] == "4";
    AtoiDecimal(8, []);
    assert Decimal(8) + [] == "8";
  }

  /** indent_size = 4 and tab_width = 2: as written the tab width becomes 4,
      where the correction makes it 2. */
  lemma TabWidthOverrideLost(s: CtrlState)
    ensures var c := Classify([("indent_size", "4"), ("tab_width", "2")]);
            && c == EcConf(None, 4, 2, None)
            && Mutations(c) == [IndentSet(4), TabWidthSet(4), TabWidthSet(4)]
            && Replay(s, Mutations(c)).tabWidth == 4
            && Replay(s, MutationsIntended(c)).tabWidth == 2
            && Replay(s, MutationsIntended(c)).indent == 4
  {
    var p1, p2 := ("indent_size", "4"), ("tab_width", "2");
    AtoiExamples();
    ClassifySnoc([], IndentSize, "4");
    assert [] + [p1] == [p1];
    ClassifySnoc([p1], TabWidth, "2");
    assert [p1] + [p2] == [p1, p2];
    var c := Classify([p1, p2]);
    assert c == EcConf(None, 4, 2, None);
    assert Mutations(c) == [] + [IndentSet(4), TabWidthSet(4)] + [TabWidthSet(4)] + [];
    AppliedState(c, s);
  }

  /** tab_width = 8 alone: as written the tab width is set to 0, the unset
      indent_size, where the correction makes it 8. */
  lemma TabWidthAloneSetsZero(s: CtrlState)
    ensures var c := Classify([("tab_width", "8")]);
            && Mutations(c) == [TabWidthSet(0)]
            && Replay(s, Mutations(c)).tabWidth == 0
            && Replay(s, MutationsIntended(c)).tabWidth == 8
  {
    var p := ("tab_width", "8");
    AtoiExamples();
    ClassifySnoc([], TabWidth, "8");
    assert [] + [p] == [p];
    var c := Classify([p]);
    assert c == EcConf(None, 0, 8, None);
    AppliedState(c, s);
  }

  // ---------------------------------------------------------------------
  // Worked examples
  // ---------------------------------------------------------------------

  /** indent_style = space, indent_size = 4, tab_width = 8 (what the library
      reports for a.c when /project/.editorconfig has them under [*.c] and
      /project/src/.editorconfig sets tab_width under [*]): tabs off, indent 4,
      tab width 4 twice, no end-of-line change.  The correction would end with
      tab width 8. */
  lemma MergedSettingsExample(s: CtrlState)
    ensures var parsed := ParseResult(0, [("indent_style", "space"), ("indent_size", "4"), ("tab_width", "8")]);
            && LoadMutations(parsed) == [UseTabsSet(false), IndentSet(4), TabWidthSet(4), TabWidthSet(4)]
            && Replay(s, LoadMutations(parsed)) == s.(useTabs := false, indent := 4, tabWidth := 4)
            && Replay(s, MutationsIntended(Classify(parsed.nameValues))).tabWidth == 8
  {
    var p1, p2, p3 := ("indent_style", "space"), ("indent_size", "4"), ("tab_width", "8");
    AtoiExamples();
    ClassifySnoc([], IndentStyle, "space");
    assert [] + [p1] == [p1];
    ClassifySnoc([p1], IndentSize, "4");
    assert [p1] + [p2] == [p1, p2];
    ClassifySnoc([p1, p2], TabWidth, "8");
    assert [p1, p2] + [p3] == [p1, p2, p3];
    var c := Classify([p1, p2, p3]);
    assert c == EcConf(Some("space"), 4, 8, None);
    assert Mutations(c) == [UseTabsSet(false)] + [IndentSet(4), TabWidthSet(4)] + [TabWidthSet(4)] + [];
    AppliedState(c, s);
  }

  /** An unknown end-of-line value such as "crlfx" leaves the mode alone. */
  lemma UnknownEndOfLineIgnored(s: CtrlState)
    ensures Replay(s, LoadMutations(ParseResult(0, [("end_of_line", "crlfx")]))).eolMode == s.eolMode
  {
    var nv := [("end_of_line", "crlfx")];
    LastEndOfLineDecides(ParseResult(0, nv), 0, s);
  }

  /** indent_size = tab reads as 0, so the indent is left alone. */
  lemma IndentSizeTabIgnored(parsed: ParseResult, i: nat, s: CtrlState)
    requires !ParseFailed(parsed.status)
    requires i < |parsed.nameValues| && parsed.nameValues[i] == ("indent_size", "tab")
    requires forall j :: i < j < |parsed.nameValues| ==> parsed.nameValues[j].0 != "indent_size"
    ensures Replay(s, LoadMutations(parsed)).indent == s.indent
  {
    AtoiNonNumeric("tab");
    LastIndentSizeDecides(parsed, i, s);
  }
}
