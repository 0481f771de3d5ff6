/** Colour set-up of the command line (crates/cli/src/helpers.rs): how
    `setup_colors` turns the `--color` flag and the colour variables of the
    process environment into a normalised colour level. */
module Colors {

  /** The process environment and the console crate's colour switch
      (`set_colors_enabled` and `set_colors_enabled_stderr` are always set
      together, so one flag stands for both). */
  datatype ColorState = ColorState(vars: map<string, string>, enabled: bool)

  /** Whether colouring is forced: by the flag or by any forcing variable. */
  predicate Forced(vars: map<string, string>, force: bool)
  {
    force || "MOON_COLOR" in vars || "FORCE_COLOR" in vars || "CLICOLOR_FORCE" in vars
  }

  /** The requested level: `MOON_COLOR`, then `FORCE_COLOR`, else "3". */
  function RequestedLevel(vars: map<string, string>): (r: string)
    ensures "MOON_COLOR" in vars ==> r == vars["MOON_COLOR"]
    ensures "MOON_COLOR" !in vars && "FORCE_COLOR" in vars ==> r == vars["FORCE_COLOR"]
    ensures "MOON_COLOR" !in vars && "FORCE_COLOR" !in vars ==> r == "3"
  {
    if "MOON_COLOR" in vars then vars["MOON_COLOR"]
    else if "FORCE_COLOR" in vars then vars["FORCE_COLOR"]
    else "3"
  }

  /** Node's `FORCE_COLOR` conventions: empty or "true" is level 1, "false" is level 0. */
  function NormalizeLevel(level: string): (r: string)
    ensures r != "" && r != "true" && r != "false"
    ensures level == "" || level == "true" ==> r == "1"
    ensures level != "" && level != "true" && level != "false" ==> r == level
    ensures r == "0" <==> level == "0" || level == "false"
  {
    if level == "" || level == "true" then "1"
    else if level == "false" then "0"
    else level
  }

  /** Normalising a level twice changes nothing. */
  lemma NormalizeLevelIdempotent(level: string)
    ensures NormalizeLevel(NormalizeLevel(level)) == NormalizeLevel(level)
  {
  }

  /** `setup_no_colors`. */
  function NoColors(s: ColorState): (r: ColorState)
    ensures r.vars.Keys == s.vars.Keys + {"NO_COLOR", "CLICOLOR"}
    ensures r.vars["NO_COLOR"] == "1" && r.vars["CLICOLOR"] == "0" && !r.enabled
    ensures forall k :: k in s.vars && k != "NO_COLOR" && k != "CLICOLOR" ==> r.vars[k] == s.vars[k]
  {
    ColorState(s.vars["NO_COLOR" := "1"]["CLICOLOR" := "0"], false)
  }

  /** The state `setup_colors` leaves. `noColor` is what `no_color()` reports
      and `supportsColor` the decimal form of `supports_color()`. */
  function SetupColorsState(s: ColorState, force: bool, noColor: bool, supportsColor: string): ColorState
  {
    if Forced(s.vars, force) then
      var level := NormalizeLevel(RequestedLevel(s.vars));
      if level == "0" then NoColors(s)
      else ColorState(s.vars["CLICOLOR_FORCE" := level]["FORCE_COLOR" := level], true)
    else if noColor then NoColors(s)
    else s.(vars := s.vars["CLICOLOR" := supportsColor])
  }

  /** A forced level that normalises to "0" turns colours off. */
  lemma ForcedZeroDisables(s: ColorState, force: bool, noColor: bool, supportsColor: string)
    requires Forced(s.vars, force) && NormalizeLevel(RequestedLevel(s.vars)) == "0"
    ensures var r := SetupColorsState(s, force, noColor, supportsColor);
      r.vars == s.vars["NO_COLOR" := "1"]["CLICOLOR" := "0"] && !r.enabled
  {
  }

  /** A forced non-zero level turns colours on and is written, normalised,
      to both forcing variables; nothing else changes. */
  lemma ForcedLevelEnables(s: ColorState, force: bool, noColor: bool, supportsColor: string)
    requires Forced(s.vars, force) && NormalizeLevel(RequestedLevel(s.vars)) != "0"
    ensures var r := SetupColorsState(s, force, noColor, supportsColor);
      var level := NormalizeLevel(RequestedLevel(s.vars));
      && r.enabled && r.vars["CLICOLOR_FORCE"] == level && r.vars["FORCE_COLOR"] == level
      && r.vars.Keys == s.vars.Keys + {"CLICOLOR_FORCE", "FORCE_COLOR"}
      && forall k :: k in s.vars && k != "CLICOLOR_FORCE" && k != "FORCE_COLOR" ==> r.vars[k] == s.vars[k]
  {
  }

  /** Not forced: `no_color()` turns colours off, otherwise only `CLICOLOR`
      is set, to the supported level. */
  lemma UnforcedFollowsTerminal(s: ColorState, force: bool, noColor: bool, supportsColor: string)
    requires !Forced(s.vars, force)
    ensures var r := SetupColorsState(s, force, noColor, supportsColor);
      && (noColor ==> r == NoColors(s))
      && (!noColor ==> r.enabled == s.enabled && r.vars == s.vars["CLICOLOR" := supportsColor])
  {
  }

  /** Setting colours up a second time with the same inputs changes nothing. */
  lemma SetupColorsIdempotent(s: ColorState, force: bool, noColor: bool, supportsColor: string)
    ensures var once := SetupColorsState(s, force, noColor, supportsColor);
      SetupColorsState(once, force, noColor, supportsColor) == once
  {
    var once := SetupColorsState(s, force, noColor, supportsColor);
    if Forced(s.vars, force) {
      var level := NormalizeLevel(RequestedLevel(s.vars));
      assert Forced(once.vars, force);
      if level == "0" {
        assert RequestedLevel(once.vars) == RequestedLevel(s.vars);
        assert once.vars["NO_COLOR" := "1"]["CLICOLOR" := "0"] == once.vars;
      } else {
        NormalizeLevelIdempotent(RequestedLevel(s.vars));
        assert NormalizeLevel(RequestedLevel(once.vars)) == level;
        assert once.vars["CLICOLOR_FORCE" := level]["FORCE_COLOR" := level] == once.vars;
      }
    } else if noColor {
      assert !Forced(once.vars, force);
      assert once.vars["NO_COLOR" := "1"]["CLICOLOR" := "0"] == once.vars;
    } else {
      assert !Forced(once.vars, force);
      assert once.vars["CLICOLOR" := supportsColor] == once.vars;
    }
  }

  /** An environment with none of the colour variables, as the tests reset it. */
  predicate Reset(vars: map<string, string>)
  {
    "NO_COLOR" !in vars && "CLICOLOR" !in vars && "CLICOLOR_FORCE" !in vars
    && "FORCE_COLOR" !in vars && "MOON_COLOR" !in vars
  }

  /** Test `no_color::sets_vars`: with NO_COLOR set (so `no_color()` reports
      it), colours are off. */
  lemma NoColorSetsVars(vars: map<string, string>, enabled: bool, supportsColor: string)
    requires Reset(vars)
    ensures var r := SetupColorsState(ColorState(vars["NO_COLOR" := "1"], enabled), false, true, supportsColor);
      r.vars["CLICOLOR"] == "0" && r.vars["NO_COLOR"] == "1"
  {
  }

  /** Tests `disables_if_zero` and `disables_if_false_string`: "0" or "false"
      in MOON_COLOR or FORCE_COLOR turns colours off. */
  lemma DisablesIfZeroOrFalse(vars: map<string, string>, enabled: bool, noColor: bool, supportsColor: string, name: string, value: string)
    requires Reset(vars) && (name == "MOON_COLOR" || name == "FORCE_COLOR") && (value == "0" || value == "false")
    ensures var r := SetupColorsState(ColorState(vars[name := value], enabled), false, noColor, supportsColor);
      r.vars["CLICOLOR"] == "0" && r.vars["NO_COLOR"] == "1" && !r.enabled
  {
    assert RequestedLevel(vars[name := value]) == value;
  }

  /** Tests `enables_if_empty_string` and `enables_if_true_string`: an empty
      or "true" level in MOON_COLOR or FORCE_COLOR is level 1. */
  lemma EnablesIfEmptyOrTrue(vars: map<string, string>, enabled: bool, noColor: bool, supportsColor: string, name: string, value: string)
    requires Reset(vars) && (name == "MOON_COLOR" || name == "FORCE_COLOR") && (value == "" || value == "true")
    ensures var r := SetupColorsState(ColorState(vars[name := value], enabled), false, noColor, supportsColor);
      r.vars["CLICOLOR_FORCE"] == "1" && r.vars["FORCE_COLOR"] == "1" && r.enabled
  {
    assert RequestedLevel(vars[name := value]) == value;
  }

  /** The process environment as `setup_colors` sees and changes it. */
  class ProcessEnv {
    var vars: map<string, string>
    var colorsEnabled: bool

    constructor (vars: map<string, string>, colorsEnabled: bool)
      ensures this.vars == vars && this.colorsEnabled == colorsEnabled
    {
      this.vars := vars;
      this.colorsEnabled := colorsEnabled;
    }

    function State(): ColorState
      reads this
    {
      ColorState(vars, colorsEnabled)
    }

    /** `setup_no_colors`. */
    method SetupNoColors()
      modifies this
      ensures State() == NoColors(old(State()))
    {
      vars := vars["NO_COLOR" := "1"];
      vars := vars["CLICOLOR" := "0"];
      colorsEnabled := false;
    }

    /** `setup_colors`. */
    method SetupColors(force: bool, noColor: bool, supportsColor: string)
      modifies this
      ensures State() == SetupColorsState(old(State()), force, noColor, supportsColor)
    {
      if force || "MOON_COLOR" in vars || "FORCE_COLOR" in vars || "CLICOLOR_FORCE" in vars {
        var colorLevel := if "MOON_COLOR" in vars then vars["MOON_COLOR"]
                          else if "FORCE_COLOR" in vars then vars["FORCE_COLOR"]
                          else "3";
        if colorLevel == "" || colorLevel == "true" {
          colorLevel := "1";
        } else if colorLevel == "false" {
          colorLevel := "0";
        }
        if colorLevel == "0" {
          SetupNoColors();
        } else {
          colorsEnabled := true;
          vars := vars["CLICOLOR_FORCE" := colorLevel];
          vars := vars["FORCE_COLOR" := colorLevel];
        }
        return;
      }
      if noColor {
        SetupNoColors();
      } else {
        vars := vars["CLICOLOR" := supportsColor];
      }
    }
  }
}
