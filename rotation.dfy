/**
 The decision logic of the xrandr_rotate status-bar module, as pure functions.

 Every xrandr query is an input here: `outputs` is the list of connected
 output names, in the order xrandr prints them, and `descriptors` gives, per
 output name, the fourth space-separated field of that output's line in
 `xrandr -q` (an output xrandr does not list yields the empty string, as the
 empty pipeline output does). Applying a rotation is a `Command` value instead
 of a subprocess.
 */
module Rotation {

  datatype Option<T> = None | Some(value: T)

  /** The output template, already split into literal text and the two
      placeholders `{icon}` and `{screen}`. */
  datatype Piece = Literal(text: string) | IconField | ScreenField

  /** The configuration parameters of the module (class attributes in the source). */
  datatype Config = Config(
    cacheTimeout: int,
    format: seq<Piece>,
    hideIfDisconnected: bool,
    horizontalIcon: string,
    horizontalRotation: string,
    screen: Option<string>,
    verticalIcon: string,
    verticalRotation: string)

  /** The defaults: refresh every 10 seconds, template '{icon}', no hiding,
      icons H and V, rotations normal and left, all screens. */
  const DefaultConfig: Config :=
    Config(10, [IconField], false, "H", "normal", None, "V", "left")

  /** One `xrandr --output <output> --rotate <rotation>` invocation. */
  datatype Command = Command(output: string, rotation: string)

  /** Which of the host's colours the response asks for. */
  datatype ColorKey = ColorGood | ColorDegraded

  /** The dictionary returned to the host; `color == None` means no colour key. */
  datatype Response = Response(cachedUntil: int, fullText: string, color: Option<ColorKey>)

  /** The new value of `displayed` together with the response of one render. */
  datatype RenderOutcome = RenderOutcome(displayed: string, response: Response)

  /** The new value of `displayed` together with the commands one click issues. */
  datatype ClickOutcome = ClickOutcome(displayed: string, commands: seq<Command>)

  /** The invariant of the `displayed` field: empty, or one of the two icons. */
  predicate ValidDisplayed(cfg: Config, d: string)
  {
    d == "" || d == cfg.horizontalIcon || d == cfg.verticalIcon
  }

  /** `screen` is truthy: set and not the empty string. */
  predicate ScreenConfigured(cfg: Config)
  {
    cfg.screen.Some? && cfg.screen.value != ""
  }

  /** `screen is not None and screen not in all_outputs`. */
  predicate Disconnected(cfg: Config, outputs: seq<string>)
  {
    cfg.screen.Some? && cfg.screen.value !in outputs
  }

  /** The render takes the hidden branch. */
  predicate Hidden(cfg: Config, outputs: seq<string>)
  {
    Disconnected(cfg, outputs) && cfg.hideIfDisconnected
  }

  /** The rotation of some output can be looked up: `screen or all_outputs[0]`
      does not index an empty list. */
  predicate CanInspect(cfg: Config, outputs: seq<string>)
  {
    ScreenConfigured(cfg) || |outputs| > 0
  }

  /** A render never indexes an empty output list: wherever it looks up the
      current rotation, an output to inspect exists. The only render that needs
      no lookup is a degraded one whose `displayed` is already filled. */
  predicate RenderDefined(cfg: Config, outputs: seq<string>, displayed: string)
  {
    CanInspect(cfg, outputs) ||
    (Disconnected(cfg, outputs) && !cfg.hideIfDisconnected && displayed != "")
  }

  /** The output whose rotation is inspected: the configured screen, else the
      first connected output. */
  function InspectedOutput(cfg: Config, outputs: seq<string>): (o: string)
    requires CanInspect(cfg, outputs)
    ensures ScreenConfigured(cfg) ==> o == cfg.screen.value
    ensures !ScreenConfigured(cfg) ==> |outputs| > 0 && o == outputs[0]
  {
    if ScreenConfigured(cfg) then cfg.screen.value else outputs[0]
  }

  /** What the descriptor query prints for output `o`. */
  function DescriptorOf(descriptors: map<string, string>, o: string): string
  {
    if o in descriptors then descriptors[o] else ""
  }

  /** xrandr omits `normal` and then prints the parenthesised list of
      rotations, so a leading `(` also means horizontal. */
  predicate IsHorizontalDescriptor(d: string)
  {
    "(" <= d || d in ["normal", "inverted"]
  }

  /** The icon a descriptor stands for. */
  function IconFor(cfg: Config, d: string): (icon: string)
    ensures icon == cfg.horizontalIcon || icon == cfg.verticalIcon
    ensures IsHorizontalDescriptor(d) ==> icon == cfg.horizontalIcon
    ensures !IsHorizontalDescriptor(d) ==> icon == cfg.verticalIcon
  {
    if IsHorizontalDescriptor(d) then cfg.horizontalIcon else cfg.verticalIcon
  }

  /** `_get_current_rotation_icon`: the icon for the inspected output's rotation. */
  function CurrentIcon(cfg: Config, outputs: seq<string>, descriptors: map<string, string>): (icon: string)
    requires CanInspect(cfg, outputs)
    ensures icon == cfg.horizontalIcon || icon == cfg.verticalIcon
    ensures IsHorizontalDescriptor(DescriptorOf(descriptors, InspectedOutput(cfg, outputs)))
            ==> icon == cfg.horizontalIcon
    ensures !IsHorizontalDescriptor(DescriptorOf(descriptors, InspectedOutput(cfg, outputs)))
            ==> icon == cfg.verticalIcon
  {
    IconFor(cfg, DescriptorOf(descriptors, InspectedOutput(cfg, outputs)))
  }

  /** `_switch_selection`: the other icon from the horizontal one, and the
      horizontal one from anything else. */
  function Toggled(cfg: Config, d: string): (r: string)
    ensures r == cfg.horizontalIcon || r == cfg.verticalIcon
    ensures d == cfg.horizontalIcon ==> r == cfg.verticalIcon
    ensures d != cfg.horizontalIcon ==> r == cfg.horizontalIcon
  {
    if d == cfg.horizontalIcon then cfg.verticalIcon else cfg.horizontalIcon
  }

  /** The rotation keyword `_apply` hands to xrandr. */
  function RotationKeyword(cfg: Config, d: string): (k: string)
    ensures d == cfg.horizontalIcon ==> k == cfg.horizontalRotation
    ensures d != cfg.horizontalIcon ==> k == cfg.verticalRotation
  {
    if d == cfg.horizontalIcon then cfg.horizontalRotation else cfg.verticalRotation
  }

  /** The outputs `_apply` rotates: the configured screen, else every connected output. */
  function Targets(cfg: Config, outputs: seq<string>): (t: seq<string>)
    ensures ScreenConfigured(cfg) ==> t == [cfg.screen.value]
    ensures !ScreenConfigured(cfg) ==> t == outputs
  {
    if ScreenConfigured(cfg) then [cfg.screen.value] else outputs
  }

  /** One command per target, in order, all with the same rotation. */
  function Commands(targets: seq<string>, rotation: string): (cmds: seq<Command>)
    ensures |cmds| == |targets|
    ensures forall i :: 0 <= i < |cmds| ==> cmds[i] == Command(targets[i], rotation)
  {
    if targets == [] then [] else [Command(targets[0], rotation)] + Commands(targets[1..], rotation)
  }

  /** The commands `_apply` issues for the current selection. */
  function ApplyPlan(cfg: Config, displayed: string, outputs: seq<string>): seq<Command>
  {
    Commands(Targets(cfg, outputs), RotationKeyword(cfg, displayed))
  }

  /** Buttons that switch the selection: left click and the two scroll directions. */
  predicate IsToggleButton(button: int)
  {
    button in {1, 4, 5}
  }

  /** The right mouse button, which applies the selection. */
  const ApplyButton: int := 3

  /** `on_click`: toggle, apply, or nothing. */
  function Click(cfg: Config, displayed: string, button: int, outputs: seq<string>): (r: ClickOutcome)
    ensures ValidDisplayed(cfg, displayed) ==> ValidDisplayed(cfg, r.displayed)
    ensures r.displayed != displayed ==> IsToggleButton(button)
    ensures r.commands != [] ==> button == ApplyButton
    ensures !IsToggleButton(button) && button != ApplyButton ==> r == ClickOutcome(displayed, [])
  {
    if IsToggleButton(button) then ClickOutcome(Toggled(cfg, displayed), [])
    else if button == ApplyButton then ClickOutcome(displayed, ApplyPlan(cfg, displayed, outputs))
    else ClickOutcome(displayed, [])
  }

  /** The `{screen}` value: with exactly one connected output, the configured
      screen or else that output; otherwise `ALL`, even when a screen is configured. */
  function ScreenLabel(cfg: Config, outputs: seq<string>): (name: string)
    ensures |outputs| != 1 ==> name == "ALL"
    ensures |outputs| == 1 && ScreenConfigured(cfg) ==> name == cfg.screen.value
    ensures |outputs| == 1 && !ScreenConfigured(cfg) ==> name == outputs[0]
  {
    if |outputs| == 1 then (if ScreenConfigured(cfg) then cfg.screen.value else outputs[0])
    else "ALL"
  }

  /** The template with its placeholders substituted. */
  function Format(template: seq<Piece>, icon: string, screen: string): (text: string)
    ensures template == [IconField] ==> text == icon
    ensures template == [] ==> text == ""
  {
    if template == [] then ""
    else
      var head := match template[0]
        case Literal(s) => s
        case IconField => icon
        case ScreenField => screen;
      head + Format(template[1..], icon, screen)
  }

  /** The icon placed in the text: `displayed or '?'`. */
  function ShownIcon(displayed: string): (shown: string)
    ensures shown != ""
    ensures displayed != "" ==> shown == displayed
    ensures displayed == "" ==> shown == "?"
  {
    if displayed == "" then "?" else displayed
  }

  /** The colour decision, taken after `displayed` has its new value. */
  function Colour(cfg: Config, outputs: seq<string>, descriptors: map<string, string>, displayed: string): (c: Option<ColorKey>)
    requires !(Disconnected(cfg, outputs) && !cfg.hideIfDisconnected) ==> CanInspect(cfg, outputs)
    ensures c == Some(ColorDegraded) <==> Disconnected(cfg, outputs) && !cfg.hideIfDisconnected
    ensures c == Some(ColorGood) <==>
              !(Disconnected(cfg, outputs) && !cfg.hideIfDisconnected) &&
              displayed == CurrentIcon(cfg, outputs, descriptors)
  {
    if Disconnected(cfg, outputs) && !cfg.hideIfDisconnected then Some(ColorDegraded)
    else if displayed == CurrentIcon(cfg, outputs, descriptors) then Some(ColorGood)
    else None
  }

  /** `xrandr_rotate`: one render, from the old `displayed` to the new one and the response. */
  function Render(cfg: Config, outputs: seq<string>, descriptors: map<string, string>,
                  displayed: string, now: int): (r: RenderOutcome)
    requires RenderDefined(cfg, outputs, displayed)
    ensures RenderDefined(cfg, outputs, r.displayed)
    ensures ValidDisplayed(cfg, displayed) ==> ValidDisplayed(cfg, r.displayed)
    ensures r.response.cachedUntil == now + cfg.cacheTimeout
    ensures Hidden(cfg, outputs) ==> r.displayed == "" && r.response.fullText == ""
    ensures !Hidden(cfg, outputs) && displayed != "" ==> r.displayed == displayed
    ensures !Hidden(cfg, outputs) && displayed == "" ==>
              r.displayed == CurrentIcon(cfg, outputs, descriptors)
    ensures !Hidden(cfg, outputs) ==>
              r.response.fullText == Format(cfg.format, ShownIcon(r.displayed), ScreenLabel(cfg, outputs))
    ensures r.response.color == Some(ColorDegraded) <==>
              Disconnected(cfg, outputs) && !cfg.hideIfDisconnected
    ensures r.response.color == Some(ColorGood) <==>
              !(Disconnected(cfg, outputs) && !cfg.hideIfDisconnected) &&
              r.displayed == CurrentIcon(cfg, outputs, descriptors)
  {
    var d' := if Hidden(cfg, outputs) then ""
              else if displayed == "" then CurrentIcon(cfg, outputs, descriptors)
              else displayed;
    var text := if Hidden(cfg, outputs) then ""
                else Format(cfg.format, ShownIcon(d'), ScreenLabel(cfg, outputs));
    RenderOutcome(d', Response(now + cfg.cacheTimeout, text, Colour(cfg, outputs, descriptors, d')))
  }
}
