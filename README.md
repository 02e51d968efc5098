# CBEditorConfig: a Dafny model of the Code::Blocks EditorConfig plugin

The plugin applies EditorConfig settings to the editor that Code::Blocks has
just opened. All of its logic is in `CBEditorConfig::LoadConfig`
(`CBEditorConfig.cpp:44-123`), which runs in three steps.

1. **Error gate.** It asks the EditorConfig library to parse the settings for
   the file. A status of 0 is success. So is `EDITORCONFIG_PARSE_NOT_FULL_PATH`.
   Any other status abandons the load. The library handle is released on both
   paths.
2. **Reading the settings.** It walks the library's ordered name/value list and
   fills the struct `ecConf`. Only four names count, compared exactly:
   `indent_style` and `end_of_line` keep their string, and `tab_width` and
   `indent_size` go through `atoi`. A later pair overwrites an earlier one.
3. **Applying them.** A fixed sequence of guarded setter calls changes the
   active editor control: use-tabs, indent, tab width and end-of-line mode.

## Structure

- `cstrings.dfy`, module `CStrings`: the C library's `atoi` (`Atoi`, built
  from `SkipSpaces` and `ReadDigits`), with `Decimal` as its reference
  inverse.
- `editorconfig_handle.dfy`, module `EditorConfigLib`: the library handle as
  a class.
  - `Handle.Parse` stores a `ParseResult`, which is the status and the pairs
    the library would report.
  - `Handle.GetNameValue` reads one pair back.
  - `Handle.Destroy` may run only once.
  - `EDITORCONFIG_PARSE_NOT_FULL_PATH` is -2, as in the library's public
    header. Only the fact that it is non-zero matters to the proofs.
- `editor_control.dfy`, module `EditorControl`: the editor control as the
  class `StyledTextCtrl`.
  - It has four mutable fields and one setter for each.
  - A ghost `log` records every setter call in order, as a `Mutation`.
  - `Replay` gives the properties that a sequence of calls leaves behind.
- `cb_editor_config.dfy`, module `CBEditorConfig`: the plugin itself.
  - `EcConf` is `ecConf`, where `None` is a null string.
  - `Classify` is the specification of the reading loop, as a fold of
    `Record` over the pairs.
  - `Mutations` is the exact sequence of setter calls the settings cause, in
    four groups: `StyleMutations`, `IndentMutations`, `TabWidthMutations` and
    `EolMutations`.
  - `LoadMutations` extends `Mutations` with the error gate.
  - The methods `ReadSettings`, the four `Apply…` steps, `ApplySettings` and
    `LoadConfig` are the imperative code, each proved against those
    functions.
- `load_config_properties.dfy`, module `LoadConfigProperties`: the
  properties.
  - The final value of each control property in closed form.
  - Idempotence, and the "last pair wins" results carried through to the
    control.
  - The line-110 finding with its correction (`MutationsIntended`).
  - Worked examples.

`ecConf` is declared without an initialiser (lines 63-69). Reading its
fields is then undefined behaviour unless a pair for each of them was seen.
The model starts the struct at `NoSettings`, which holds null strings and
zeros, the value a zero-initialised struct would have. Every statement below
about an absent setting rests on this assumption.

Line 110 is modelled as written: it passes `indent_size`, not `tab_width`,
to `SetTabWidth`. Its consequences are under "## Findings".

Some descriptions of this plugin mention three things that do not exist in
`CBEditorConfig.cpp`: a reload command, an `indent_size = tab` value that
makes the indent follow the tab width, and "no active document" / "no
editing surface" errors. The model follows the code. In the code,
`indent_size = tab` goes through `atoi` and gives 0, so the indent is left
alone (`IndentSizeTabIgnored`). The code also tests the raw `atoi` value of
both numbers with `> 0` at the point of use, rather than discarding
non-positive values while reading.

## Model

| member | source | states |
|---|---|---|
| `CStrings.AtoiDecimal` | CBEditorConfig.cpp:83-85 | `atoi` gives back n for the decimal rendering of n, with or without a leading `+`, and -n after a `-`. It stops at the first character that is not a digit. |
| `CStrings.AtoiSkipsLeadingSpace` | CBEditorConfig.cpp:83-85 | leading white space does not change the value `atoi` reads |
| `CStrings.AtoiNonNumeric` | CBEditorConfig.cpp:83-85 | a value that does not start with white space, a sign or a digit (for example "tab") reads as 0 |
| `CStrings.ReadDigitsAppend` | CBEditorConfig.cpp:83-85 | reading a run of digits and then the text after it is reading the text with the run's value accumulated |
| `EditorConfigLib.Handle.constructor` | CBEditorConfig.cpp:46 | `editorconfig_handle_init` gives an empty handle that has not been released |
| `EditorConfigLib.Handle.Parse` | CBEditorConfig.cpp:50 | the handle then holds the library's name/value list, and the library's status is returned |
| `EditorConfigLib.Handle.GetNameValue` | CBEditorConfig.cpp:78 | returns the i-th pair, only while the handle is live and i is below the count |
| `EditorConfigLib.Handle.Destroy` | CBEditorConfig.cpp:57 | releases a live handle, and a handle can be released only once |
| `EditorControl.StyledTextCtrl.SetUseTabs` | CBEditorConfig.cpp:97-99 | sets the use-tabs flag only, and logs the call |
| `EditorControl.StyledTextCtrl.SetIndent` | CBEditorConfig.cpp:102 | sets the indent only, and logs the call |
| `EditorControl.StyledTextCtrl.SetTabWidth` | CBEditorConfig.cpp:106-110 | sets the tab width only, and logs the call |
| `EditorControl.StyledTextCtrl.SetEOLMode` | CBEditorConfig.cpp:113-120 | sets the end-of-line mode only, and logs the call |
| `EditorControl.ReplayAppend` | CBEditorConfig.cpp:95-120 | running two groups of setter calls one after the other has the same effect as running the concatenated sequence |
| `CBEditorConfig.KeyOf` | CBEditorConfig.cpp:80-87 | a name is recognised exactly when it equals one of the four key names; otherwise no key matches |
| `CBEditorConfig.ClassifyLastWins` | CBEditorConfig.cpp:74-88 | after the loop, each slot holds the value of the last pair whose name is exactly its key: the string for `indent_style`/`end_of_line`, and its `atoi` for `tab_width`/`indent_size` |
| `CBEditorConfig.ClassifyUnnamedKey` | CBEditorConfig.cpp:63-88 | a key that no pair names keeps its initial absent value |
| `CBEditorConfig.ClassifyIgnoresUnknown` | CBEditorConfig.cpp:80-88 | removing a pair with an unrecognised name, wherever it is, changes none of the four slots |
| `CBEditorConfig.ReadSettings` | CBEditorConfig.cpp:71-88 | the loop over the live handle's pairs computes `Classify` of the whole list |
| `CBEditorConfig.ApplyIndentStyle` | CBEditorConfig.cpp:95-100 | makes exactly the use-tabs call that `indent_style` causes, or none |
| `CBEditorConfig.ApplyIndentSize` | CBEditorConfig.cpp:101-107 | when `indent_size > 0`, sets the indent and then the tab width to it; otherwise makes no call |
| `CBEditorConfig.ApplyTabWidth` | CBEditorConfig.cpp:109-110 | when `tab_width > 0`, sets the tab width to `indent_size`, as line 110 is written |
| `CBEditorConfig.ApplyEndOfLine` | CBEditorConfig.cpp:113-120 | makes exactly the end-of-line call that `end_of_line` causes, or none |
| `CBEditorConfig.ApplySettings` | CBEditorConfig.cpp:95-120 | appends `Mutations(conf)` to the control's call log, in the source's order, and nothing else. The control ends in the state those calls produce. |
| `CBEditorConfig.LoadConfig` | CBEditorConfig.cpp:44-123 | the handle is fresh and released exactly once on both paths. On a real parse error the control and its call log are unchanged. Otherwise the call log grows by exactly `LoadMutations(parsed)`. Only the control's four properties are written. |
| `LoadConfigProperties.ParseErrorLeavesControl` | CBEditorConfig.cpp:50-59 | a status that is neither 0 nor "not a full path" causes no setter call |
| `LoadConfigProperties.NotFullPathIsSuccess` | CBEditorConfig.cpp:50-53 | "not a full path" causes the same calls as status 0, and they are the calls the pairs call for |
| `LoadConfigProperties.AppliedState` | CBEditorConfig.cpp:95-120 | the closed form of the control after the calls, as written and as corrected |
| `LoadConfigProperties.AppliedUseTabs` | CBEditorConfig.cpp:95-100 | "tab" gives use-tabs true and "space" gives false. Any other string, or none, leaves the flag unchanged. |
| `LoadConfigProperties.AppliedIndent` | CBEditorConfig.cpp:101-107 | a positive `indent_size` becomes the indent. Any other value, or none, leaves the indent unchanged. |
| `LoadConfigProperties.AppliedTabWidth` | CBEditorConfig.cpp:101-110 | as written, the final tab width is `indent_size` whenever `indent_size` or `tab_width` is positive, and is unchanged otherwise |
| `LoadConfigProperties.AppliedEolMode` | CBEditorConfig.cpp:113-120 | "lf", "crlf" and "cr" select the matching mode. Any other string, or none, leaves the mode unchanged. |
| `LoadConfigProperties.AppliedIdempotent` | CBEditorConfig.cpp:95-120 | applying the same settings twice leaves the control as applying them once |
| `LoadConfigProperties.NoPairsNoCalls` | CBEditorConfig.cpp:71-74 | an empty name/value list causes no setter call |
| `LoadConfigProperties.LastIndentStyleDecides` | CBEditorConfig.cpp:74-100 | after a successful parse, the last `indent_style` pair alone decides the use-tabs flag |
| `LoadConfigProperties.NoIndentStyleKeepsUseTabs` | CBEditorConfig.cpp:63-100 | with no `indent_style` pair, the use-tabs flag is unchanged whatever the status |
| `LoadConfigProperties.LastEndOfLineDecides` | CBEditorConfig.cpp:74-120 | after a successful parse, the last `end_of_line` pair alone decides the end-of-line mode |
| `LoadConfigProperties.LastIndentSizeDecides` | CBEditorConfig.cpp:74-107 | after a successful parse, the indent is set to the `atoi` value of the last `indent_size` pair when that value is positive, and is unchanged otherwise |
| `LoadConfigProperties.IndentSizeTabIgnored` | CBEditorConfig.cpp:85-107 | a last `indent_size` of "tab" leaves the indent unchanged |
| `LoadConfigProperties.UnknownEndOfLineIgnored` | CBEditorConfig.cpp:113-120 | `end_of_line = crlfx` leaves the end-of-line mode unchanged |
| `LoadConfigProperties.KeyOfKeyName` | CBEditorConfig.cpp:80-87 | the four key names are distinct, so each is recognised as its own key |
| `LoadConfigProperties.IntendedTabWidthOverrides` | CBEditorConfig.cpp:104-110 | with line 110 corrected, a positive `tab_width` becomes the tab width and overrides `indent_size`. The other three properties end up as they do with the code as written. |
| `LoadConfigProperties.IntendedDiffersOnlyOnTabWidth` | CBEditorConfig.cpp:109-110 | the code as written and the correction make the same calls if and only if `tab_width` is not positive or equals `indent_size` |
| `LoadConfigProperties.TabWidthOverrideLost` | CBEditorConfig.cpp:101-110 | `indent_size = 4` and `tab_width = 2`: as written the tab width becomes 4, and with the correction it becomes 2 |
| `LoadConfigProperties.TabWidthAloneSetsZero` | CBEditorConfig.cpp:63-110 | `tab_width = 8` alone: as written the only call is `SetTabWidth(0)`, and with the correction the tab width becomes 8 |
| `LoadConfigProperties.MergedSettingsExample` | CBEditorConfig.cpp:74-120 | `indent_style = space`, `indent_size = 4`, `tab_width = 8` leads to these calls: tabs off, indent 4, tab width 4, tab width 4 again, and no end-of-line change |

## Findings

| source | as written | input that shows it | evidently intended | confidence | as-written member | corrected member |
|---|---|---|---|---|---|---|
| CBEditorConfig.cpp:109-110 | a positive `tab_width` makes the code set the tab width to `indent_size`, so the value of `tab_width` never reaches the control | `indent_size = 4`, `tab_width = 2`: the final tab width is 4 | a positive `tab_width` overrides the tab width that `indent_size` set, as the comment at lines 104-105 says, so the tab width is 2 | high (not executed) | `LoadConfigProperties.TabWidthOverrideLost` | `LoadConfigProperties.IntendedTabWidthOverrides` |
| CBEditorConfig.cpp:109-110 | with a positive `tab_width` and no positive `indent_size`, the tab width is set to that non-positive `indent_size` | `tab_width = 8` alone (with `ecConf` zero-initialised): `SetTabWidth(0)` | the tab width becomes 8 | high (not executed) | `LoadConfigProperties.TabWidthAloneSetsZero` | `LoadConfigProperties.IntendedTabWidthOverrides` |

`CBEditorConfig.LoadConfig` keeps the behaviour as written, because it
models what the plugin does. The corrected calls, `MutationsIntended`, stand
beside it. `LoadConfigProperties.IntendedDiffersOnlyOnTabWidth` shows that
the two differ only in that one call.

## Left out

- Plugin registration, resource loading, event-sink wiring, `OnEditorOpen`, `OnRelease`, `Configure`, the priority and group getters, and the menu and toolbar builders (lines 11-42 and 125-164). These are host-framework boilerplate with no logic.
- The EditorConfig library itself: the file walk, glob matching and section merging behind `editorconfig_parse`. Its source is not part of this model. `LoadConfig` takes the library's answer (status and ordered pairs) as the parameter `parsed`, so the file name and its `ToAscii` conversion do not appear.
- The error message and the `wxMessageDialog` (lines 54-56). This is UI; the dialog is constructed but never shown, so it has no effect to model.
- Looking up the active editor and its control (lines 91-93). These are host calls. The source does not check them for null, so the model takes the control as a parameter.
- What Scintilla does with the values it receives, for example its own handling of a non-positive tab width. Each setter is modelled as a plain store of its argument.
- `CStrings.Atoi`: does not model overflow. The C standard leaves an out-of-range `atoi` result undefined, so the model's integers, including `ecConf`'s two ints, are unbounded.
- `strcmp` on strings with embedded NUL characters. The library's names and values are C strings, which end at their first NUL, so the model compares them with string equality.
- Uninitialised reads of `ecConf` (lines 63-69) are undefined behaviour in C++. The model replaces them with zero-initialisation, as described above.
