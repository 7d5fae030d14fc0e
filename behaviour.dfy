/**
 Properties that relate several steps of the module: the click state
 machine, repeated renders, and a click that applies the selection followed
 by a render once xrandr has carried the commands out. The last needs a model
 of what xrandr does with a command; `Execute` is that model and is an
 assumption about the external tool, not part of the module.
 */
module RotationBehaviour {
  import opened Rotation

  // ---------------------------------------------------------------------
  // Classification of the rotation descriptor

  /** The horizontal descriptors, stated character by character: a leading
      `(`, or exactly `normal` or `inverted`. */
  lemma HorizontalDescriptors(d: string)
    ensures IsHorizontalDescriptor(d) <==>
              (|d| > 0 && d[0] == '(') || d == "normal" || d == "inverted"
  {
  }

  /** What xrandr prints: the omitted-normal list and the two horizontal
      keywords are horizontal; the vertical keywords and an empty answer are
      vertical. */
  lemma DescriptorExamples(cfg: Config)
    ensures IconFor(cfg, "(normal") == cfg.horizontalIcon
    ensures IconFor(cfg, "normal") == cfg.horizontalIcon
    ensures IconFor(cfg, "inverted") == cfg.horizontalIcon
    ensures IconFor(cfg, "left") == cfg.verticalIcon
    ensures IconFor(cfg, "right") == cfg.verticalIcon
    ensures IconFor(cfg, "") == cfg.verticalIcon
  {
    HorizontalDescriptors("(normal");
    HorizontalDescriptors("left");
    HorizontalDescriptors("right");
  }

  // ---------------------------------------------------------------------
  // Selection and clicks

  /** With distinct icons, switching twice returns to the start. */
  lemma ToggleTwice(cfg: Config, d: string)
    requires cfg.horizontalIcon != cfg.verticalIcon
    requires d == cfg.horizontalIcon || d == cfg.verticalIcon
    ensures Toggled(cfg, Toggled(cfg, d)) == d
  {
  }

  /** From the empty selection a switch selects the horizontal icon. */
  lemma ToggleFromNothing(cfg: Config)
    requires cfg.horizontalIcon != ""
    ensures Toggled(cfg, "") == cfg.horizontalIcon
  {
  }

  /** With distinct keywords, the horizontal keyword is used exactly when the
      horizontal icon is selected; a selection that is still empty (with a
      non-empty horizontal icon) applies the vertical one. */
  lemma KeywordFollowsSelection(cfg: Config, d: string)
    requires cfg.horizontalRotation != cfg.verticalRotation
    ensures RotationKeyword(cfg, d) == cfg.horizontalRotation <==> d == cfg.horizontalIcon
    ensures cfg.horizontalIcon != "" ==> RotationKeyword(cfg, "") == cfg.verticalRotation
  {
  }

  /** The three kinds of button. */
  lemma ClickDispatch(cfg: Config, d: string, button: int, outputs: seq<string>)
    ensures button in {1, 4, 5} ==> Click(cfg, d, button, outputs) == ClickOutcome(Toggled(cfg, d), [])
    ensures button == 3 ==>
              Click(cfg, d, button, outputs).displayed == d &&
              Click(cfg, d, button, outputs).commands == Commands(Targets(cfg, outputs), RotationKeyword(cfg, d))
    ensures button !in {1, 3, 4, 5} ==> Click(cfg, d, button, outputs) == ClickOutcome(d, [])
  {
  }

  /** A left click then a right click sends, to every target, the keyword of
      the icon the left click selected. */
  lemma LeftThenRightClick(cfg: Config, d: string, outputs: seq<string>)
    requires cfg.horizontalIcon != cfg.verticalIcon
    requires ValidDisplayed(cfg, d)
    ensures var first := Click(cfg, d, 1, outputs);
            var second := Click(cfg, first.displayed, 3, outputs);
            second.displayed == first.displayed &&
            second.commands ==
              Commands(Targets(cfg, outputs),
                       if d == cfg.horizontalIcon then cfg.verticalRotation else cfg.horizontalRotation)
  {
  }

  // ---------------------------------------------------------------------
  // Rendering

  /** Two renders in a row, with the same answers from xrandr, give the same
      selection and the same response. */
  lemma RenderIdempotent(cfg: Config, outputs: seq<string>, descriptors: map<string, string>,
                         d: string, now: int)
    requires RenderDefined(cfg, outputs, d)
    ensures var first := Render(cfg, outputs, descriptors, d, now);
            Render(cfg, outputs, descriptors, first.displayed, now) == first
  {
  }

  /** The first render of a connected module discovers the real rotation and
      therefore shows the good colour. */
  lemma DiscoveryIsGood(cfg: Config, outputs: seq<string>, descriptors: map<string, string>, now: int)
    requires CanInspect(cfg, outputs) && !Disconnected(cfg, outputs)
    ensures var r := Render(cfg, outputs, descriptors, "", now);
            r.displayed == CurrentIcon(cfg, outputs, descriptors) &&
            r.response.color == Some(ColorGood)
  {
  }

  /** With non-empty icon glyphs, a render that is not hidden never falls back
      to `?`: the shown icon is the selection. */
  lemma NoFallbackWithIcons(cfg: Config, outputs: seq<string>, descriptors: map<string, string>,
                            d: string, now: int)
    requires cfg.horizontalIcon != "" && cfg.verticalIcon != ""
    requires RenderDefined(cfg, outputs, d) && !Hidden(cfg, outputs)
    ensures var r := Render(cfg, outputs, descriptors, d, now);
            r.displayed != "" && ShownIcon(r.displayed) == r.displayed
  {
  }

  /** Without a configured screen the hide flag changes nothing. */
  lemma HideNeedsScreen(cfg: Config, outputs: seq<string>, descriptors: map<string, string>,
                        d: string, now: int)
    requires cfg.screen.None? && |outputs| > 0
    ensures Render(cfg.(hideIfDisconnected := true), outputs, descriptors, d, now) ==
            Render(cfg.(hideIfDisconnected := false), outputs, descriptors, d, now)
  {
  }

  /** A configured screen is labelled `ALL` whenever the number of connected
      outputs is not exactly one, and by its own name when it is one. */
  lemma ConfiguredScreenLabelledAll(cfg: Config, outputs: seq<string>)
    requires ScreenConfigured(cfg)
    ensures |outputs| != 1 ==> ScreenLabel(cfg, outputs) == "ALL"
    ensures |outputs| == 1 ==> ScreenLabel(cfg, outputs) == cfg.screen.value
  {
  }

  /** A screen counts as disconnected exactly when it is given (even as the
      empty name) and not among the connected outputs; without a screen
      nothing is disconnected. */
  lemma DisconnectedMeaning(cfg: Config, outputs: seq<string>)
    ensures cfg.screen.None? ==> !Disconnected(cfg, outputs)
    ensures cfg.screen.Some? ==> (Disconnected(cfg, outputs) <==> cfg.screen.value !in outputs)
    ensures cfg.screen == Some("") && "" !in outputs ==> Disconnected(cfg, outputs) && !ScreenConfigured(cfg)
  {
  }

  /** The documented defaults: ten seconds, the template `{icon}`, no hiding,
      `H`/`normal` and `V`/`left`, and every screen. */
  lemma DefaultsAsDocumented(icon: string, screen: string)
    ensures DefaultConfig.cacheTimeout == 10
    ensures Format(DefaultConfig.format, icon, screen) == icon
    ensures !DefaultConfig.hideIfDisconnected
    ensures DefaultConfig.horizontalIcon == "H" && DefaultConfig.horizontalRotation == "normal"
    ensures DefaultConfig.verticalIcon == "V" && DefaultConfig.verticalRotation == "left"
    ensures DefaultConfig.screen.None? && !ScreenConfigured(DefaultConfig)
  {
  }

  // ---------------------------------------------------------------------
  // Formatting

  /** Formatting a template made of two parts formats each part in turn. */
  lemma {:induction false} FormatAppend(t1: seq<Piece>, t2: seq<Piece>, icon: string, screen: string)
    ensures Format(t1 + t2, icon, screen) == Format(t1, icon, screen) + Format(t2, icon, screen)
    decreases |t1|
  {
    if t1 == [] {
      assert t1 + t2 == t2;
    } else {
      assert (t1 + t2)[0] == t1[0];
      assert (t1 + t2)[1..] == t1[1..] + t2;
      FormatAppend(t1[1..], t2, icon, screen);
    }
  }

  /** A template without `{screen}` does not depend on the screen label. */
  lemma {:induction false} FormatWithoutScreen(template: seq<Piece>, icon: string, s1: string, s2: string)
    requires forall i :: 0 <= i < |template| ==> template[i] != ScreenField
    ensures Format(template, icon, s1) == Format(template, icon, s2)
    decreases |template|
  {
    if template != [] {
      FormatWithoutScreen(template[1..], icon, s1, s2);
    }
  }

  // ---------------------------------------------------------------------
  // xrandr carrying out commands

  /** The descriptors after xrandr has run `cmds` in order, assuming a rotated
      output then reports its rotation keyword. */
  function Execute(descriptors: map<string, string>, cmds: seq<Command>): map<string, string>
    decreases |cmds|
  {
    if cmds == [] then descriptors
    else Execute(descriptors[cmds[0].output := cmds[0].rotation], cmds[1..])
  }

  /** Commands for other outputs leave an output's descriptor alone. */
  lemma {:induction false} ExecuteKeepsOthers(descriptors: map<string, string>, cmds: seq<Command>, o: string)
    requires forall i :: 0 <= i < |cmds| ==> cmds[i].output != o
    ensures DescriptorOf(Execute(descriptors, cmds), o) == DescriptorOf(descriptors, o)
    decreases |cmds|
  {
    if cmds != [] {
      var next := descriptors[cmds[0].output := cmds[0].rotation];
      ExecuteKeepsOthers(next, cmds[1..], o);
    }
  }

  /** Every target of a batch of commands ends up with the batch's rotation. */
  lemma {:induction false} ExecuteRotates(descriptors: map<string, string>, targets: seq<string>,
                                          rotation: string, o: string)
    requires o in targets
    ensures DescriptorOf(Execute(descriptors, Commands(targets, rotation)), o) == rotation
    decreases |targets|
  {
    var cmds := Commands(targets, rotation);
    var next := descriptors[targets[0] := rotation];
    assert cmds[1..] == Commands(targets[1..], rotation);
    if o in targets[1..] {
      ExecuteRotates(next, targets[1..], rotation, o);
    } else {
      assert forall i :: 0 <= i < |cmds[1..]| ==> cmds[1..][i].output == targets[1..][i];
      ExecuteKeepsOthers(next, cmds[1..], o);
    }
  }

  /** The keywords are among the options xrandr offers for each orientation. */
  predicate KeywordsMatchIcons(cfg: Config)
  {
    cfg.horizontalRotation in ["normal", "inverted"] && cfg.verticalRotation in ["left", "right"]
  }

  /** Right-clicking applies the selection; once xrandr has done so, the next
      render of a connected module shows the good colour, whatever the
      selection was (an empty one is filled in by that render). */
  lemma ApplyThenRenderIsGood(cfg: Config, d: string, outputs: seq<string>,
                              descriptors: map<string, string>, now: int)
    requires ValidDisplayed(cfg, d) && KeywordsMatchIcons(cfg)
    requires CanInspect(cfg, outputs) && !Disconnected(cfg, outputs)
    ensures var after := Execute(descriptors, Click(cfg, d, 3, outputs).commands);
            Render(cfg, outputs, after, d, now).response.color == Some(ColorGood)
  {
    var k := RotationKeyword(cfg, d);
    var after := Execute(descriptors, Click(cfg, d, 3, outputs).commands);
    var o := InspectedOutput(cfg, outputs);
    assert o in Targets(cfg, outputs);
    ExecuteRotates(descriptors, Targets(cfg, outputs), k, o);
    HorizontalDescriptors(k);
  }

  // ---------------------------------------------------------------------
  // Worked scenarios

  /** One output at normal rotation, defaults: the first render shows `H` in
      the good colour. */
  lemma ScenarioSingleOutput()
    ensures var r := Render(DefaultConfig, ["eDP1"], map["eDP1" := "normal"], "", 100);
            r.displayed == "H" && r.response == Response(110, "H", Some(ColorGood))
  {
  }

  /** A configured screen that is absent, with hiding on: nothing shown, no colour. */
  lemma ScenarioHidden()
    ensures var cfg := DefaultConfig.(screen := Some("VGA1"), hideIfDisconnected := true);
            var r := Render(cfg, ["eDP1"], map["eDP1" := "normal"], "H", 0);
            r.displayed == "" && r.response == Response(10, "", None)
  {
  }

  /** The template `{icon} {screen}` produces the icon, a space and the label. */
  lemma FormatIconScreen(icon: string, screen: string)
    ensures Format([IconField, Literal(" "), ScreenField], icon, screen) == icon + " " + screen
  {
    var t := [IconField, Literal(" "), ScreenField];
    assert t[1..] == [Literal(" "), ScreenField];
    assert t[1..][1..] == [ScreenField];
    assert Format([ScreenField], icon, screen) == screen + Format([], icon, screen);
  }

  /** The same screen with hiding off: degraded colour, and the selection is
      discovered from the empty answer for that screen, so the icon is `V`
      rather than `?`. */
  lemma ScenarioDegraded()
    ensures var cfg := DefaultConfig.(screen := Some("VGA1"), format := [IconField, Literal(" "), ScreenField]);
            var r := Render(cfg, ["eDP1"], map["eDP1" := "normal"], "", 0);
            r.displayed == "V" && r.response == Response(10, "V VGA1", Some(ColorDegraded))
  {
    var cfg := DefaultConfig.(screen := Some("VGA1"), format := [IconField, Literal(" "), ScreenField]);
    HorizontalDescriptors("");
    assert CurrentIcon(cfg, ["eDP1"], map["eDP1" := "normal"]) == "V";
    assert ScreenLabel(cfg, ["eDP1"]) == "VGA1";
    FormatIconScreen("V", "VGA1");
  }

  /** Two outputs and no screen: the label is `ALL`. */
  lemma ScenarioTwoOutputs()
    ensures var cfg := DefaultConfig.(format := [IconField, Literal(" "), ScreenField]);
            var r := Render(cfg, ["eDP1", "HDMI1"], map["eDP1" := "left"], "", 0);
            r.response.fullText == "V ALL"
  {
    var cfg := DefaultConfig.(format := [IconField, Literal(" "), ScreenField]);
    HorizontalDescriptors("left");
    assert CurrentIcon(cfg, ["eDP1", "HDMI1"], map["eDP1" := "left"]) == "V";
    assert ScreenLabel(cfg, ["eDP1", "HDMI1"]) == "ALL";
    FormatIconScreen("V", "ALL");
  }

  /** Left click then right click from nothing selected: `H` is selected and
      both outputs are rotated to `normal`. */
  lemma ScenarioLeftThenRight()
    ensures var first := Click(DefaultConfig, "", 1, ["eDP1", "HDMI1"]);
            var second := Click(DefaultConfig, first.displayed, 3, ["eDP1", "HDMI1"]);
            second.displayed == "H" &&
            second.commands == [Command("eDP1", "normal"), Command("HDMI1", "normal")]
  {
  }
}
