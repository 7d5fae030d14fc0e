# xrandr_rotate, modelled in Dafny

This project models py3status's `xrandr_rotate` module. The module is a status-bar widget that
shows whether the screen is horizontal or vertical. A click toggles the selected rotation, and
a right click applies the selection through `xrandr`. Its only state is the field `displayed`.
That field is empty, the horizontal icon or the vertical icon.

- `rotation.dfy`, module `Rotation`: the configuration, the response, and every decision as a
  pure function. This covers how a rotation descriptor is classified, the toggle, the rotation
  keyword and its targets, the commands, click dispatch, the `{screen}` label, the colour and a
  whole render.
- `widget.dfy`, module `XrandrRotate`: class `Py3status`. It has the immutable `cfg` and the
  mutable `displayed` field. Its methods `SwitchSelection`, `Apply` (a loop that builds one
  command per target), `OnClick` and `Render` update `displayed` in place. Each one is proved to
  agree with the pure function and to keep the invariant
  `displayed ∈ {"", horizontal_icon, vertical_icon}`.
- `behaviour.dfy`, module `RotationBehaviour`: properties that span several steps. These are
  the toggle involution, click sequences, render idempotence, discovery giving the good colour,
  and apply-then-render giving the good colour. It also holds worked scenarios.

Every xrandr query is an input:

- `outputs` is the list of connected output names.
- `descriptors` maps an output name to the fourth field of its `xrandr -q` line. A missing name
  reads as `""`, as the empty pipeline output does.

`_apply` returns its `xrandr --output … --rotate …` invocations as a sequence of
`Command(output, rotation)` values. The clock is an integer `now`.

Python truthiness is kept apart from `is not None`:

- `screen or …` and `if self.screen` become `ScreenConfigured`: set and non-empty.
- `self.screen is not None` on line 110 becomes `cfg.screen.Some?`.

A render's precondition, `RenderDefined`, is exactly the condition under which the source never
evaluates `all_outputs[0]` on an empty list.

Two behaviours of the code are kept as written:

- The `{screen}` label. The module's docstring (lines 30-31) says the label is the `screen`
  option, or the output detected automatically when only one is connected, and otherwise
  `ALL`. Line 118 parses as `(screen or all_outputs[0]) if len(all_outputs) == 1 else 'ALL'`.
  So a configured screen is labelled `ALL` whenever the number of connected outputs is not
  exactly one (`ConfiguredScreenLabelledAll`). The model follows line 118.
- The `?` fallback. On line 119, the `?` in `self.displayed or '?'` is reached only when the
  discovered glyph is empty. Line 116 has already filled an empty `displayed` by then. So `?`
  appears only when an icon glyph is configured as the empty string (`NoFallbackWithIcons`).

## Model

| member | source | states |
|---|---|---|
| Rotation.InspectedOutput | py3status/modules/xrandr_rotate.py:79 | the inspected output is the configured screen when one is set, and otherwise the first connected output; a precondition demands a non-empty output list when no screen is set |
| Rotation.IconFor | py3status/modules/xrandr_rotate.py:82-84 | a descriptor starting with `(`, or equal to `normal` or `inverted`, gives the horizontal icon; every other descriptor gives the vertical icon |
| Rotation.CurrentIcon | py3status/modules/xrandr_rotate.py:78-84 | the current icon is always one of the two icons, horizontal exactly when the inspected output's descriptor is a horizontal one |
| Rotation.Toggled | py3status/modules/xrandr_rotate.py:93-94 | toggling gives one of the two icons: vertical from horizontal, and horizontal from anything else, including `''` |
| Rotation.RotationKeyword | py3status/modules/xrandr_rotate.py:87 | the horizontal keyword when the horizontal icon is selected, and otherwise the vertical keyword |
| Rotation.Targets | py3status/modules/xrandr_rotate.py:88 | `[screen]` when a screen is configured, and otherwise every connected output in order |
| Rotation.Commands | py3status/modules/xrandr_rotate.py:89-91 | exactly one command per target, in target order, all with the same rotation |
| Rotation.Click | py3status/modules/xrandr_rotate.py:96-106 | a click keeps the `displayed` invariant; only buttons 1, 4 and 5 change `displayed`; only button 3 issues commands; any other button changes nothing |
| Rotation.ScreenLabel | py3status/modules/xrandr_rotate.py:118 | with exactly one output, the label is the configured screen or else that output; with any other count it is `ALL`, even when a screen is configured |
| Rotation.Colour | py3status/modules/xrandr_rotate.py:126-130 | degraded exactly when the screen is disconnected and not hidden; otherwise good exactly when `displayed` equals the freshly computed icon; otherwise no colour key |
| Rotation.Render | py3status/modules/xrandr_rotate.py:108-132 | hidden branch: `displayed` and the text become `''`; otherwise a non-empty `displayed` is kept and an empty one is discovered; the text is the template applied to `displayed or '?'` and the label; `cached_until == now + cache_timeout`; the colour rules; the `displayed` invariant is preserved |
| XrandrRotate.Py3status.constructor | py3status/modules/xrandr_rotate.py:61-62 | a new instance displays nothing, which satisfies the invariant |
| XrandrRotate.Py3status.SwitchSelection | py3status/modules/xrandr_rotate.py:93-94 | updates `displayed` in place to the toggled icon, so the invariant then holds |
| XrandrRotate.Py3status.Apply | py3status/modules/xrandr_rotate.py:86-91 | the loop issues one command per target, in order, each with the keyword chosen by `displayed` |
| XrandrRotate.Py3status.OnClick | py3status/modules/xrandr_rotate.py:96-106 | the new `displayed` and the commands are those of the click dispatch; the invariant is kept |
| XrandrRotate.Py3status.Render | py3status/modules/xrandr_rotate.py:108-132 | the in-place render leaves `displayed` and returns the response exactly as the render function says; the invariant is kept |
| RotationBehaviour.HorizontalDescriptors | py3status/modules/xrandr_rotate.py:82-83 | `startswith('(')` read character by character: horizontal exactly when the first character is `(` or the descriptor is `normal` or `inverted` |
| RotationBehaviour.DescriptorExamples | py3status/modules/xrandr_rotate.py:82-84 | `(normal`, `normal` and `inverted` are horizontal; `left`, `right` and the empty answer are vertical |
| RotationBehaviour.ToggleTwice | py3status/modules/xrandr_rotate.py:93-94 | with distinct icons, toggling twice from either icon returns to it |
| RotationBehaviour.ToggleFromNothing | py3status/modules/xrandr_rotate.py:94 | when the horizontal glyph is non-empty, toggling an empty selection selects the horizontal icon |
| RotationBehaviour.KeywordFollowsSelection | py3status/modules/xrandr_rotate.py:87 | with distinct keywords, the horizontal keyword is used exactly when the horizontal icon is selected; when the horizontal glyph is non-empty, an empty selection applies the vertical keyword |
| RotationBehaviour.ClickDispatch | py3status/modules/xrandr_rotate.py:102-106 | buttons 1, 4 and 5 toggle and issue nothing; button 3 keeps `displayed` and issues the apply commands; every other button changes nothing |
| RotationBehaviour.LeftThenRightClick | py3status/modules/xrandr_rotate.py:93-106 | a left click then a right click rotates every target to the keyword of the newly selected icon |
| RotationBehaviour.RenderIdempotent | py3status/modules/xrandr_rotate.py:108-132 | two renders in a row with the same xrandr answers give the same `displayed` and the same response |
| RotationBehaviour.DiscoveryIsGood | py3status/modules/xrandr_rotate.py:115-116 | a first render of a connected module selects the real rotation's icon and shows the good colour |
| RotationBehaviour.NoFallbackWithIcons | py3status/modules/xrandr_rotate.py:115-119 | with non-empty icon glyphs, a visible render never shows `?` |
| RotationBehaviour.HideNeedsScreen | py3status/modules/xrandr_rotate.py:110-113 | without a configured screen the hide flag changes nothing about a render |
| RotationBehaviour.ConfiguredScreenLabelledAll | py3status/modules/xrandr_rotate.py:118 | for any configured screen and any output list, the label is `ALL` when the output count is not exactly one, and the screen's own name when it is one |
| RotationBehaviour.DisconnectedMeaning | py3status/modules/xrandr_rotate.py:110 | a screen is disconnected exactly when one is given, even as the empty name, and it is not among the connected outputs; without a screen nothing is disconnected |
| RotationBehaviour.DefaultsAsDocumented | py3status/modules/xrandr_rotate.py:52-59 | `DefaultConfig` holds the documented defaults: ten seconds, a template that shows only the icon, no hiding, `H`/`normal`, `V`/`left`, and no screen |
| Rotation.Format | py3status/modules/xrandr_rotate.py:119 | substitutes the icon and the label into the template; the default `{icon}` template gives exactly the icon, and an empty template gives `''` |
| Rotation.ShownIcon | py3status/modules/xrandr_rotate.py:119 | `displayed or '?'`: never empty; it is `displayed` when that is non-empty, and `?` otherwise |
| RotationBehaviour.FormatAppend | py3status/modules/xrandr_rotate.py:119 | formatting a template made of two parts formats each part in turn and concatenates the results |
| RotationBehaviour.FormatWithoutScreen | py3status/modules/xrandr_rotate.py:119 | a template without `{screen}` gives the same text whatever the screen label |
| RotationBehaviour.ExecuteKeepsOthers | py3status/modules/xrandr_rotate.py:89-91 | commands for other outputs leave an output's reported rotation unchanged |
| RotationBehaviour.ExecuteRotates | py3status/modules/xrandr_rotate.py:89-91 | after the commands run, every target reports the applied rotation |
| RotationBehaviour.ApplyThenRenderIsGood | py3status/modules/xrandr_rotate.py:86-91 | once the right-click commands are carried out, the next render of a connected module shows the good colour, provided the keywords are among xrandr's options |
| RotationBehaviour.FormatIconScreen | py3status/modules/xrandr_rotate.py:119 | the template `{icon} {screen}` substitutes to the icon, a space and the screen label |
| RotationBehaviour.ScenarioSingleOutput | py3status/modules/xrandr_rotate.py:108-132 | one output at `normal` with the defaults: the first render shows `H` in the good colour, cached for ten seconds |
| RotationBehaviour.ScenarioHidden | py3status/modules/xrandr_rotate.py:110-113 | an absent configured screen with hiding on: empty text, cleared selection and no colour |
| RotationBehaviour.ScenarioDegraded | py3status/modules/xrandr_rotate.py:115-128 | the same screen with hiding off: degraded colour and the discovered icon `V` with label `VGA1` |
| RotationBehaviour.ScenarioTwoOutputs | py3status/modules/xrandr_rotate.py:118-119 | two outputs and no screen: the label is `ALL` |
| RotationBehaviour.ScenarioLeftThenRight | py3status/modules/xrandr_rotate.py:102-106 | a left click then a right click from nothing selected: `H` is selected and both outputs are rotated to `normal` |

## Left out

- `_call`, meaning the subprocess, the shell, the output decoding and the swallowed decode error (lines 64-72). It is process I/O. Its results are inputs here.
- `_get_all_outputs` and the `xrandr | grep | cut` pipelines (lines 74-76, 80). Their text depends on the external tool. The model takes the output list and a per-output descriptor as given. A `grep "^name"` that matches several lines is not modelled.
- A render queries the descriptor twice (lines 116 and 129). The model gives both queries the same answer, because it assumes a stable tool.
- `str.format` on an arbitrary template (line 119). Templates are modelled as a list of literal pieces and the `{icon}` and `{screen}` placeholders. Brace escapes, format specs and unknown placeholders are not modelled.
- `time()` is a float clock (line 122). It is an integer `now` here.
- The `i3s_config` colour strings are opaque host values. The response carries `ColorGood` or `ColorDegraded` instead.
- The event dictionary is reduced to its `button` entry. `i3s_output_list` is unused by the source and is left out.
- The `__main__` polling loop with `sleep` (lines 135-147). It is a manual test driver.
- The xrandr effect model `Execute` (module `RotationBehaviour`) is an assumption about xrandr, not part of the module. It says a rotated output then reports its keyword. xrandr may instead print the parenthesised list for `normal`, which classifies the same.
