/**
 * Shared vocabulary of the mode/tool runtime: the application enumerations,
 * the tool metadata record, tool classes as seen by the runtime, and the
 * ASCII case folding that the engine uses when it compares strings and names.
 */
module TwinTypes {

  datatype Option<T> = None | Some(value: T)

  /** EAppMode; `NoMode` is the enumerator the engine calls `None`. */
  datatype AppMode = NoMode | MainMenu | InGame | Editor | Runtime

  /** EAppState; `NoState` is the enumerator the engine calls `None`. */
  datatype AppState = NoState | Explore | Simulation | Edit | Loading | Paused

  /** EUILayer, the stacks a UI manager keeps. */
  datatype UILayer = Background | HUD | Menu | Popup

  datatype ToolCategory = Analysis | UI | Utility | Workflow | Custom

  datatype ToolScope = Global | ModeSpecific | SceneSpecific

  /** FToolMetadata (the icon brush is not modelled). */
  datatype ToolMetadata = ToolMetadata(
    toolName: string,
    description: string,
    version: string,
    author: string,
    category: ToolCategory,
    scope: ToolScope,
    supportedModes: seq<AppMode>,
    priority: int,
    requiresScene: bool,
    dependencies: seq<string>)

  /** A default-constructed FToolMetadata. */
  function DefaultMetadata(): ToolMetadata
  {
    ToolMetadata("", "", "", "", Custom, Global, [], 100, false, [])
  }

  /**
   * A class a tool record can point at. Whether it implements the tool
   * interface is an opaque fact about the class, supplied from outside.
   */
  datatype ToolClass = ToolClass(name: string, implementsInterface: bool)

  /**
   * The mode policy every template tool applies: an empty list of supported
   * modes means "every mode".
   */
  function SupportsMode(modes: seq<AppMode>, mode: AppMode): (r: bool)
    ensures modes == [] ==> r
    ensures modes != [] ==> (r <==> exists i :: 0 <= i < |modes| && modes[i] == mode)
  {
    mode in modes || |modes| == 0
  }

  function DigitChar(d: int): char
    requires 0 <= d < 10
  {
    "0123456789"[d]
  }

  /** Decimal digits of a natural number, most significant first. */
  function DecimalString(n: nat): (s: string)
    ensures |s| > 0
    ensures forall i :: 0 <= i < |s| ==> '0' <= s[i] <= '9'
  {
    if n < 10 then [DigitChar(n)] else DecimalString(n / 10) + [DigitChar(n % 10)]
  }

  /** An integer as the `%d` conversion writes it. */
  function IntText(i: int): string
  {
    if i < 0 then "-" + DecimalString(-i) else DecimalString(i)
  }

  /** The engine's character lower-casing, which only touches ASCII letters. */
  function LowerChar(c: char): char
  {
    if 'A' <= c <= 'Z' then (c as int + 32) as char else c
  }

  /** Lower-cases a string letter by letter (FString::ToLower). */
  function Fold(s: string): string
  {
    seq(|s|, i requires 0 <= i < |s| => LowerChar(s[i]))
  }

  /** Case-insensitive equality of strings and names. */
  predicate SameName(a: string, b: string)
  {
    Fold(a) == Fold(b)
  }

  /** Folding is a normal form: folding twice changes nothing. */
  lemma FoldIdempotent(s: string)
    ensures Fold(Fold(s)) == Fold(s)
  {
  }

  /** Folding keeps the length, hence emptiness. */
  lemma FoldEmpty(s: string)
    ensures |Fold(s)| == |s|
    ensures Fold(s) == [] <==> s == []
  {
  }
}
