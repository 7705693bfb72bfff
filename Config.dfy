/** Compiler configuration: per-target settings and indentation (src/vl/config.py). */
module Config {
  import opened Wrappers
  import opened Strings

  const DefaultIndent: string := "    "
  const OptimizeBooleanChains: bool := true

  /** One entry of `TARGET_SETTINGS`. */
  datatype TargetSettings = TargetSettings(
    fileExtension: string,
    booleanOptimization: bool,
    supportsTypeHints: bool,
    requiresSemicolons: bool)

  /** `TARGET_SETTINGS.get(name)`, keyed by the lower-case target name. */
  function TargetSettingsFor(name: string): Option<TargetSettings> {
    if name == "python" then Some(TargetSettings(".py", true, true, false))
    else if name == "javascript" then Some(TargetSettings(".js", false, false, true))
    else if name == "typescript" then Some(TargetSettings(".ts", false, true, true))
    else if name == "c" then Some(TargetSettings(".c", false, true, true))
    else if name == "rust" then Some(TargetSettings(".rs", false, true, true))
    else None
  }

  /** `get_target_extension`: looked up case-insensitively, ".txt" for an unknown target. */
  function TargetExtension(target: string): (r: string)
    ensures TargetSettingsFor(Lower(target)).None? ==> r == ".txt"
    ensures TargetSettingsFor(Lower(target)).Some? ==> r == TargetSettingsFor(Lower(target)).value.fileExtension
  {
    var settings := TargetSettingsFor(Lower(target));
    if settings.Some? then settings.value.fileExtension else ".txt"
  }

  /** `should_optimize_booleans` with the global flag as a parameter. */
  function OptimizeBooleansWith(flag: bool, target: string): bool {
    if !flag then false
    else
      var settings := TargetSettingsFor(Lower(target));
      settings.Some? && settings.value.booleanOptimization
  }

  /** `should_optimize_booleans` under the shipped flag value. */
  function ShouldOptimizeBooleans(target: string): bool {
    OptimizeBooleansWith(OptimizeBooleanChains, target)
  }

  /** Switching the global flag off switches the optimisation off for every target. */
  lemma FlagOffDisables(target: string)
    ensures !OptimizeBooleansWith(false, target)
  {
  }

  /** With the shipped flag, only Python (in any letter case) gets boolean-chain optimisation. */
  lemma OnlyPythonOptimizes(target: string)
    ensures ShouldOptimizeBooleans(target) <==> Lower(target) == "python"
  {
  }

  /** The extension depends only on the lower-case name: "PYTHON" and "python" agree. */
  lemma ExtensionCaseInsensitive(a: string, b: string)
    requires Lower(a) == Lower(b)
    ensures TargetExtension(a) == TargetExtension(b)
  {
  }

  /** Every listed target has an extension of its own that starts with '.'; others get ".txt". */
  lemma ExtensionsDistinct(a: string, b: string)
    requires TargetSettingsFor(Lower(a)).Some? && TargetSettingsFor(Lower(b)).Some?
    ensures TargetExtension(a) == TargetExtension(b) <==> Lower(a) == Lower(b)
    ensures TargetExtension(a) != ".txt"
  {
  }

  /** `get_indent(n)`: the default indent repeated `n` times, empty for `n <= 0`. The
      Python default argument `n = 1` is the call `Indent(1)`. */
  function Indent(n: int): (r: string)
    ensures |r| == if n <= 0 then 0 else 4 * n
    ensures forall i :: 0 <= i < |r| ==> r[i] == ' '
  {
    SpacesRepeat(DefaultIndent, n);
    if n <= 0 then Repeat(DefaultIndent, n)
    else
      RepeatLength(DefaultIndent, n);
      Repeat(DefaultIndent, n)
  }

  /** Repeating a run of spaces gives a run of spaces. */
  lemma {:induction false} SpacesRepeat(s: string, n: int)
    requires forall i :: 0 <= i < |s| ==> s[i] == ' '
    ensures forall i :: 0 <= i < |Repeat(s, n)| ==> Repeat(s, n)[i] == ' '
    decreases if n <= 0 then 0 else n
  {
    if n > 0 {
      SpacesRepeat(s, n - 1);
      var r := Repeat(s, n);
      assert r == s + Repeat(s, n - 1);
      forall i | 0 <= i < |r|
        ensures r[i] == ' '
      {
        if i >= |s| { assert r[i] == Repeat(s, n - 1)[i - |s|]; }
      }
    }
  }
}
