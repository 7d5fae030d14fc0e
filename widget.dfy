/**
 The module instance: its configuration and the one field it updates in
 place, `displayed`. Each method mirrors one method of the source and is
 proved to agree with the pure function of the same decision in `Rotation`.
 */
module XrandrRotate {
  import opened Rotation

  class Py3status {
    const cfg: Config
    var displayed: string

    /** `displayed` is empty, or one of the two configured icons. */
    ghost predicate Valid()
      reads this
    {
      ValidDisplayed(cfg, displayed)
    }

    /** `__init__`: nothing is displayed yet. */
    constructor (cfg: Config)
      ensures this.cfg == cfg && displayed == ""
      ensures Valid()
    {
      this.cfg := cfg;
      displayed := "";
    }

    /** `_switch_selection`. */
    method SwitchSelection()
      modifies this
      ensures displayed == Toggled(cfg, old(displayed))
      ensures Valid()
    {
      if displayed == cfg.horizontalIcon {
        displayed := cfg.verticalIcon;
      } else {
        displayed := cfg.horizontalIcon;
      }
    }

    /** `_apply`: the rotation keyword for the current selection, sent to the
        configured screen or to every connected output, one command each. */
    method Apply(outputs: seq<string>) returns (cmds: seq<Command>)
      ensures |cmds| == |Targets(cfg, outputs)|
      ensures forall i :: 0 <= i < |cmds| ==>
                cmds[i].output == Targets(cfg, outputs)[i] &&
                cmds[i].rotation == RotationKeyword(cfg, displayed)
      ensures cmds == ApplyPlan(cfg, displayed, outputs)
    {
      var rotation := if displayed == cfg.horizontalIcon then cfg.horizontalRotation
                      else cfg.verticalRotation;
      var targets := if ScreenConfigured(cfg) then [cfg.screen.value] else outputs;
      cmds := [];
      var i := 0;
      while i < |targets|
        invariant 0 <= i <= |targets|
        invariant |cmds| == i
        invariant forall j :: 0 <= j < i ==> cmds[j] == Command(targets[j], rotation)
      {
        cmds := cmds + [Command(targets[i], rotation)];
        i := i + 1;
      }
    }

    /** `on_click`: buttons 1, 4 and 5 switch the selection, button 3 applies
        it, every other button is ignored. */
    method OnClick(button: int, outputs: seq<string>) returns (cmds: seq<Command>)
      requires Valid()
      modifies this
      ensures Valid()
      ensures ClickOutcome(displayed, cmds) == Click(cfg, old(displayed), button, outputs)
    {
      cmds := [];
      if IsToggleButton(button) {
        SwitchSelection();
      } else if button == ApplyButton {
        cmds := Apply(outputs);
      }
    }

    /** `xrandr_rotate`: hide, or discover the rotation when nothing is
        selected yet and format the text; then choose the colour. */
    method Render(outputs: seq<string>, descriptors: map<string, string>, now: int)
      returns (response: Response)
      requires Valid()
      requires RenderDefined(cfg, outputs, displayed)
      modifies this
      ensures Valid()
      ensures RenderOutcome(displayed, response) == Rotation.Render(cfg, outputs, descriptors, old(displayed), now)
    {
      var disconnected := Disconnected(cfg, outputs);
      var fullText: string;
      if Hidden(cfg, outputs) {
        displayed := "";
        fullText := "";
      } else {
        if displayed == "" {
          displayed := CurrentIcon(cfg, outputs, descriptors);
        }
        var screen := ScreenLabel(cfg, outputs);
        fullText := Format(cfg.format, ShownIcon(displayed), screen);
      }
      var color: Option<ColorKey> := None;
      if disconnected && !cfg.hideIfDisconnected {
        color := Some(ColorDegraded);
      } else if displayed == CurrentIcon(cfg, outputs, descriptors) {
        color := Some(ColorGood);
      }
      response := Response(now + cfg.cacheTimeout, fullText, color);
    }
  }
}
