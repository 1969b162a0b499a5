/**
 * The dvgrab argument vector (`which_dvgrab`, `build_dvgrab_cmd`): the
 * resolved binary, then the arguments of each rule in a fixed order, then
 * the base name of the clips inside the capture directory.
 *
 * The rules are written over typed arguments (an option, an option with an
 * `=value`, or a plain word), which `Render` turns into the strings handed
 * to the process. The rule functions carry no contracts of their own, so
 * that the long concatenation in `Arguments` stays cheap to reason about;
 * what each rule promises is stated by the lemma that follows it.
 */
module Command {
  import opened Text

  /** The settings the front-end hands to the command builder, already converted to their types. */
  datatype Values = Values(
    outputDir: string,
    subfolderPrefix: string,
    format: string,
    filenameScheme: string,
    showStatus: bool,
    autosplit: bool,
    autosplitSeconds: int,
    sizeMb: int,
    csizeMb: int,
    cminCutSizeMb: int,
    rewind: bool,
    noAvc: bool,
    recordOnly: bool,
    openDml: bool,
    framesPerFile: int,
    everyNth: int,
    card: string,
    channel: string,
    guid: string,
    duration: string,
    useV4l2: bool,
    v4l2Input: string,
    dvgrabPath: string)

  /**
   * What the host answers about executables: whether a path exists on disk,
   * and what the search of PATH finds for a command name.
   */
  datatype Env = Env(pathExists: string -> bool, searchPath: string -> Option<string>)

  /**
   * `which_dvgrab(path_pref)`: a preference that names a path is used as it is;
   * otherwise PATH is searched, falling back to the preference or "dvgrab".
   */
  function WhichDvgrab(pathPref: string, env: Env): string {
    if pathPref != [] && (env.pathExists(pathPref) || '/' in pathPref) then pathPref
    else
      var found := env.searchPath(if pathPref != [] then pathPref else "dvgrab");
      if found.Some? && found.value != [] then found.value
      else if pathPref != [] then pathPref
      else "dvgrab"
  }

  /**
   * The binary is never empty; a preference containing '/' or naming an
   * existing file wins; otherwise a non-empty PATH hit wins, and failing that
   * the preference, or "dvgrab" when there is none.
   */
  lemma WhichDvgrabResolves(pathPref: string, env: Env)
    ensures WhichDvgrab(pathPref, env) != []
    ensures pathPref != [] && ('/' in pathPref || env.pathExists(pathPref)) ==>
              WhichDvgrab(pathPref, env) == pathPref
    ensures !(pathPref != [] && ('/' in pathPref || env.pathExists(pathPref))) ==>
              var name := if pathPref == [] then "dvgrab" else pathPref;
              var found := env.searchPath(name);
              WhichDvgrab(pathPref, env) == (if found.Some? && found.value != [] then found.value else name)
  {
  }

  /** The options dvgrab is given, in the order the builder emits them. */
  datatype Flag =
    | Format | Timestamp | Timecode | Timesys
    | Size | Frames | Autosplit | CSize | CMinCutSize
    | ShowStatus | Rewind | NoAvc | RecordOnly | OpenDml
    | Card | Channel | Guid | V4l2 | Input | Duration
    | Every

  /** The spelling of each option on the command line. */
  function FlagName(f: Flag): string {
    match f
    case Format => "-format"
    case Timestamp => "-timestamp"
    case Timecode => "-timecode"
    case Timesys => "-timesys"
    case Size => "-size"
    case Frames => "-frames"
    case Autosplit => "-autosplit"
    case CSize => "-csize"
    case CMinCutSize => "-cmincutsize"
    case ShowStatus => "-showstatus"
    case Rewind => "-rewind"
    case NoAvc => "-noavc"
    case RecordOnly => "-recordonly"
    case OpenDml => "-opendml"
    case Card => "-card"
    case Channel => "-channel"
    case Guid => "-guid"
    case V4l2 => "-v4l2"
    case Input => "-input"
    case Duration => "-duration"
    case Every => "-every"
  }

  /** One argument: an option alone, an option joined to its value by `=`, or a plain word. */
  datatype Arg = Opt(flag: Flag) | OptAssign(flag: Flag, value: string) | Word(text: string)

  /** The string an argument becomes. */
  function Render(a: Arg): string {
    match a
    case Opt(f) => FlagName(f)
    case OptAssign(f, value) => FlagName(f) + "=" + value
    case Word(text) => text
  }

  /** The strings of an argument vector, one per argument. */
  function RenderAll(args: seq<Arg>): seq<string> {
    seq(|args|, i requires 0 <= i < |args| => Render(args[i]))
  }

  /** The formats for which `-format` is passed on. */
  const KnownFormats: seq<string> := ["dv2", "dv1", "raw", "qt", "mov", "avi", "mpeg2"]

  /** Format rule: `-format mpeg2` for mpeg2, `-format F` for the other known formats. */
  function FormatArgs(fmt: string): seq<Arg> {
    if fmt != [] then
      if fmt == "mpeg2" then [Opt(Format), Word("mpeg2")]
      else if fmt in ["dv2", "dv1", "raw", "qt", "mov", "avi"] then [Opt(Format), Word(fmt)]
      else []
    else []
  }

  /** `-format` is passed, followed by the format itself, exactly for a known format. */
  lemma FormatRule(fmt: string)
    ensures FormatArgs(fmt) == (if fmt in KnownFormats then [Opt(Format), Word(fmt)] else [])
  {
  }

  /** The filename schemes that have an option of their own, and those options. */
  const Schemes: seq<string> := ["timestamp", "timecode", "timesys"]
  const SchemeFlags: seq<Flag> := [Timestamp, Timecode, Timesys]

  /** Filename-scheme rule. */
  function SchemeArgs(scheme: string): seq<Arg> {
    if scheme == "timestamp" then [Opt(Timestamp)]
    else if scheme == "timecode" then [Opt(Timecode)]
    else if scheme == "timesys" then [Opt(Timesys)]
    else []
  }

  /**
   * At most one scheme option is passed; a scheme without an option of its
   * own ("none" or anything unknown) passes nothing; and the option is the
   * scheme's name after a dash.
   */
  lemma SchemeRule(scheme: string)
    ensures |SchemeArgs(scheme)| <= 1
    ensures SchemeArgs(scheme) != [] <==> scheme in Schemes
    ensures SchemeArgs(scheme) != [] ==>
              SchemeArgs(scheme)[0].Opt? && SchemeArgs(scheme)[0].flag in SchemeFlags
              && FlagName(SchemeArgs(scheme)[0].flag) == "-" + scheme
  {
  }

  /** A count rule: the option, then the count in decimal, when the count is above the threshold. */
  function CountAbove(flag: Flag, n: int, threshold: int): seq<Arg> {
    if n > threshold then [Opt(flag), Word(IntToString(n))] else []
  }

  /** A count rule passes its option exactly above the threshold, and the word after it reads back as the count. */
  lemma CountRule(flag: Flag, n: int, threshold: int)
    ensures CountAbove(flag, n, threshold) != [] <==> n > threshold
    ensures CountAbove(flag, n, threshold) != [] ==>
              var r := CountAbove(flag, n, threshold);
              |r| == 2 && r[0] == Opt(flag) && r[1].Word? && ParseInt(r[1].text) == Some(n)
  {
    if n > threshold {
      ParseIntToString(n);
    }
  }

  /** Maximum-file-size rule: `-size N` whenever N is not negative. */
  function SizeArgs(sizeMb: int): seq<Arg> {
    CountAbove(Size, sizeMb, -1)
  }

  /** `-size` is passed for every size that is not negative, a size of 0 included. */
  lemma SizeRule(sizeMb: int)
    ensures SizeArgs(sizeMb) != [] <==> sizeMb >= 0
    ensures SizeArgs(0) == [Opt(Size), Word("0")]
  {
  }

  /** Autosplit rule. */
  function AutosplitArgs(enabled: bool, secs: int): seq<Arg> {
    if enabled then
      if secs > 0 then [OptAssign(Autosplit, IntToString(secs))]
      else [Opt(Autosplit)]
    else []
  }

  /**
   * Autosplit passes nothing when it is off, a bare `-autosplit` for a
   * period that is not positive, and otherwise one `-autosplit=S` whose value
   * reads back as the period.
   */
  lemma AutosplitRule(enabled: bool, secs: int)
    ensures !enabled ==> AutosplitArgs(enabled, secs) == []
    ensures enabled && secs <= 0 ==> AutosplitArgs(enabled, secs) == [Opt(Autosplit)]
    ensures enabled && secs > 0 ==>
              var r := AutosplitArgs(enabled, secs);
              |r| == 1 && r[0].OptAssign? && r[0].flag == Autosplit && ParseInt(r[0].value) == Some(secs)
  {
    if enabled && secs > 0 {
      ParseIntToString(secs);
    }
  }

  /** With a positive period the rule is the single string `-autosplit=` followed by the period. */
  lemma AutosplitToken(secs: int)
    requires secs > 0
    ensures RenderAll(AutosplitArgs(true, secs)) == ["-autosplit=" + IntToString(secs)]
  {
    assert Render(AutosplitArgs(true, secs)[0]) == "-autosplit=" + IntToString(secs);
  }

  /** A switch: the option alone when its condition holds. */
  function Switch(cond: bool, flag: Flag): seq<Arg> {
    if cond then [Opt(flag)] else []
  }

  /** The behaviour options, in the order they are emitted. */
  const BehaviourFlags: seq<Flag> := [ShowStatus, Rewind, NoAvc, RecordOnly, OpenDml]

  /** Behaviour rules: each option alone when set, `-opendml` only for the dv2 format. */
  function BehaviourArgs(showStatus: bool, rewind: bool, noAvc: bool, recordOnly: bool,
                         openDml: bool, fmt: string): seq<Arg> {
    Switch(showStatus, ShowStatus)
    + Switch(rewind, Rewind)
    + Switch(noAvc, NoAvc)
    + Switch(recordOnly, RecordOnly)
    + Switch(openDml && fmt == "dv2", OpenDml)
  }

  /** Card and channel rule. */
  function DigitsOption(flag: Flag, raw: string): seq<Arg> {
    var value := Strip(raw);
    if IsDigits(value) then [Opt(flag), Word(value)] else []
  }

  /** The card and channel are passed, stripped, exactly when what is left is all digits. */
  lemma DigitsRule(flag: Flag, raw: string)
    ensures DigitsOption(flag, raw) != [] <==> IsDigits(Strip(raw))
    ensures DigitsOption(flag, raw) != [] ==> DigitsOption(flag, raw) == [Opt(flag), Word(Strip(raw))]
  {
  }

  /** GUID, V4L2 input and duration rule. */
  function TextOption(flag: Flag, raw: string): seq<Arg> {
    var value := Strip(raw);
    if value != [] then [Opt(flag), Word(value)] else []
  }

  /**
   * The value is passed exactly when it is not blank, and it is passed
   * stripped: it neither starts nor ends with whitespace.
   */
  lemma TextRule(flag: Flag, raw: string)
    ensures TextOption(flag, raw) != [] <==> !IsBlank(raw)
    ensures TextOption(flag, raw) != [] ==>
              TextOption(flag, raw) == [Opt(flag), Word(Strip(raw))]
              && !IsSpace(Strip(raw)[0]) && !IsSpace(Strip(raw)[|Strip(raw)| - 1])
  {
    StripTrims(raw);
  }

  /** V4L2 rule. */
  function V4l2Args(useV4l2: bool, input: string): seq<Arg> {
    if useV4l2 then [Opt(V4l2)] + TextOption(Input, input) else []
  }

  /** `-v4l2` is passed when asked for; `-input` only right after it, and only with a device. */
  lemma V4l2Rule(useV4l2: bool, input: string)
    ensures V4l2Args(useV4l2, input) != [] <==> useV4l2
    ensures V4l2Args(useV4l2, input) != [] ==> V4l2Args(useV4l2, input)[0] == Opt(V4l2)
    ensures |V4l2Args(useV4l2, input)| > 1 <==> useV4l2 && !IsBlank(input)
    ensures |V4l2Args(useV4l2, input)| > 1 ==>
              V4l2Args(useV4l2, input) == [Opt(V4l2), Opt(Input), Word(Strip(input))]
  {
    TextRule(Input, input);
  }

  /** The base name of the clips inside the capture directory. */
  function ClipBase(captureDir: string): string {
    JoinPath(captureDir, "clip-")
  }

  /** Splitting rules: maximum file size, frames per file, autosplit, collection size and minimum cut size. */
  function SplitArgs(v: Values): seq<Arg> {
    SizeArgs(v.sizeMb)
    + CountAbove(Frames, v.framesPerFile, 0)
    + AutosplitArgs(v.autosplit, v.autosplitSeconds)
    + CountAbove(CSize, v.csizeMb, 0)
    + CountAbove(CMinCutSize, v.cminCutSizeMb, 0)
  }

  /** Device routing (card, channel, GUID), the V4L2 path and the time limit. */
  function SourceArgs(v: Values): seq<Arg> {
    DigitsOption(Card, v.card)
    + DigitsOption(Channel, v.channel)
    + TextOption(Guid, v.guid)
    + V4l2Args(v.useV4l2, v.v4l2Input)
    + TextOption(Duration, v.duration)
  }

  /** The whole argument vector, rule by rule, in the order the builder emits them. */
  function Arguments(v: Values, captureDir: string, bin: string): seq<Arg> {
    [Word(bin)]
    + FormatArgs(v.format)
    + SchemeArgs(v.filenameScheme)
    + SplitArgs(v)
    + BehaviourArgs(v.showStatus, v.rewind, v.noAvc, v.recordOnly, v.openDml, v.format)
    + SourceArgs(v)
    + CountAbove(Every, v.everyNth, 1)
    + [Word(ClipBase(captureDir))]
  }

  /** `build_dvgrab_cmd(values, capture_dir)` with the binary already resolved: the strings handed to the process. */
  function CommandLine(v: Values, captureDir: string, bin: string): seq<string> {
    RenderAll(Arguments(v, captureDir, bin))
  }

  /** The binary comes first and the base name of the clips, inside the capture directory, last. */
  lemma CommandFrame(v: Values, captureDir: string, bin: string)
    ensures var cmd := CommandLine(v, captureDir, bin);
            |cmd| >= 2 && cmd[0] == bin && cmd[|cmd| - 1] == JoinPath(captureDir, "clip-")
  {
  }
}
