/**
 * The application-mode registry: a data asset holding an ordered list of
 * mode entries, searched front to back.
 */
module AppModeRegistry {
  import opened TwinTypes

  /** One row of the registry; the level and icon references are kept as paths. */
  datatype AppModeEntry = AppModeEntry(
    mode: AppMode,
    displayName: string,
    description: string,
    levelPath: string)

  /**
   * The first entry whose mode equals `mode`, or None when no entry has it.
   * Lookup only reads the list.
   */
  function FindMode(modes: seq<AppModeEntry>, mode: AppMode): (r: Option<AppModeEntry>)
    ensures r.Some? <==> exists i :: 0 <= i < |modes| && modes[i].mode == mode
    ensures r.Some? ==> r.value.mode == mode && r.value in modes
  {
    if modes == [] then None
    else if modes[0].mode == mode then Some(modes[0])
    else
      var r := FindMode(modes[1..], mode);
      assert forall i :: 0 < i < |modes| ==> modes[i] == modes[1..][i - 1];
      r
  }

  /** FindMode returns the earliest matching entry, even when several share a mode. */
  lemma {:induction false} FindModeIsFirstMatch(modes: seq<AppModeEntry>, mode: AppMode, i: nat)
    requires i < |modes| && modes[i].mode == mode
    requires forall j :: 0 <= j < i ==> modes[j].mode != mode
    ensures FindMode(modes, mode) == Some(modes[i])
  {
    if i > 0 {
      FindModeIsFirstMatch(modes[1..], mode, i - 1);
    }
  }
}
