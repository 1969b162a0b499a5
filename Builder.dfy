/**
 * `build_dvgrab_cmd` as the builder runs it: the vector starts with the
 * binary and each rule appends its strings in turn. Each step is proved to
 * append the rendering of its rule, and the whole method to return the
 * rendering of `Arguments`.
 */
module Builder {
  import opened Text
  import opened Command

  /** Rendering distributes over concatenation. */
  lemma RenderAppend(a: seq<Arg>, b: seq<Arg>)
    ensures RenderAll(a + b) == RenderAll(a) + RenderAll(b)
  {
    assert forall i :: 0 <= i < |a + b| ==> RenderAll(a + b)[i] == (RenderAll(a) + RenderAll(b))[i];
  }

  /** Five runs appended one by one are the five runs appended as one. */
  lemma Regroup(x: seq<Arg>, p1: seq<Arg>, p2: seq<Arg>, p3: seq<Arg>, p4: seq<Arg>, p5: seq<Arg>)
    ensures x + (p1 + p2 + p3 + p4 + p5) == x + p1 + p2 + p3 + p4 + p5
  {
    calc {
      x + (p1 + p2 + p3 + p4 + p5);
      (x + (p1 + p2 + p3 + p4)) + p5;
      (x + (p1 + p2 + p3)) + p4 + p5;
      (x + (p1 + p2)) + p3 + p4 + p5;
      x + p1 + p2 + p3 + p4 + p5;
    }
  }

  /** The argument vector with every rule side by side, in the order the builder runs them. */
  lemma ArgumentsFlat(v: Values, captureDir: string, bin: string)
    ensures Arguments(v, captureDir, bin)
         == [Word(bin)] + FormatArgs(v.format) + SchemeArgs(v.filenameScheme)
            + SizeArgs(v.sizeMb) + CountAbove(Frames, v.framesPerFile, 0)
            + AutosplitArgs(v.autosplit, v.autosplitSeconds) + CountAbove(CSize, v.csizeMb, 0)
            + CountAbove(CMinCutSize, v.cminCutSizeMb, 0)
            + Switch(v.showStatus, ShowStatus) + Switch(v.rewind, Rewind) + Switch(v.noAvc, NoAvc)
            + Switch(v.recordOnly, RecordOnly) + Switch(v.openDml && v.format == "dv2", OpenDml)
            + DigitsOption(Card, v.card) + DigitsOption(Channel, v.channel) + TextOption(Guid, v.guid)
            + V4l2Args(v.useV4l2, v.v4l2Input) + TextOption(Duration, v.duration)
            + CountAbove(Every, v.everyNth, 1) + [Word(ClipBase(captureDir))]
  {
    var x1 := [Word(bin)] + FormatArgs(v.format) + SchemeArgs(v.filenameScheme);
    Regroup(x1, SizeArgs(v.sizeMb), CountAbove(Frames, v.framesPerFile, 0),
            AutosplitArgs(v.autosplit, v.autosplitSeconds), CountAbove(CSize, v.csizeMb, 0),
            CountAbove(CMinCutSize, v.cminCutSizeMb, 0));
    var x2 := x1 + SplitArgs(v);
    Regroup(x2, Switch(v.showStatus, ShowStatus), Switch(v.rewind, Rewind), Switch(v.noAvc, NoAvc),
            Switch(v.recordOnly, RecordOnly), Switch(v.openDml && v.format == "dv2", OpenDml));
    var x3 := x2 + BehaviourArgs(v.showStatus, v.rewind, v.noAvc, v.recordOnly, v.openDml, v.format);
    Regroup(x3, DigitsOption(Card, v.card), DigitsOption(Channel, v.channel), TextOption(Guid, v.guid),
            V4l2Args(v.useV4l2, v.v4l2Input), TextOption(Duration, v.duration));
  }

  /** Four runs rendered one after another. */
  lemma RenderRuns(x: seq<Arg>, p1: seq<Arg>, p2: seq<Arg>, p3: seq<Arg>, p4: seq<Arg>)
    ensures RenderAll(x + p1 + p2 + p3 + p4)
         == RenderAll(x) + RenderAll(p1) + RenderAll(p2) + RenderAll(p3) + RenderAll(p4)
  {
    RenderAppend(x + p1 + p2 + p3, p4);
    RenderAppend(x + p1 + p2, p3);
    RenderAppend(x + p1, p2);
    RenderAppend(x, p1);
  }

  /** Three runs rendered one after another. */
  lemma RenderRuns3(x: seq<Arg>, p1: seq<Arg>, p2: seq<Arg>, p3: seq<Arg>)
    ensures RenderAll(x + p1 + p2 + p3) == RenderAll(x) + RenderAll(p1) + RenderAll(p2) + RenderAll(p3)
  {
    RenderAppend(x + p1 + p2, p3);
    RenderAppend(x + p1, p2);
    RenderAppend(x, p1);
  }

  /** Twenty runs rendered one after another: the shape of the builder's vector. */
  lemma RenderTwenty(p0: seq<Arg>, p1: seq<Arg>, p2: seq<Arg>, p3: seq<Arg>, p4: seq<Arg>, p5: seq<Arg>,
                     p6: seq<Arg>, p7: seq<Arg>, p8: seq<Arg>, p9: seq<Arg>, p10: seq<Arg>, p11: seq<Arg>,
                     p12: seq<Arg>, p13: seq<Arg>, p14: seq<Arg>, p15: seq<Arg>, p16: seq<Arg>, p17: seq<Arg>,
                     p18: seq<Arg>, p19: seq<Arg>)
    ensures RenderAll(p0 + p1 + p2 + p3 + p4 + p5 + p6 + p7 + p8 + p9 + p10 + p11 + p12 + p13 + p14 + p15
                      + p16 + p17 + p18 + p19)
         == RenderAll(p0) + RenderAll(p1) + RenderAll(p2) + RenderAll(p3) + RenderAll(p4) + RenderAll(p5)
            + RenderAll(p6) + RenderAll(p7) + RenderAll(p8) + RenderAll(p9) + RenderAll(p10) + RenderAll(p11)
            + RenderAll(p12) + RenderAll(p13) + RenderAll(p14) + RenderAll(p15) + RenderAll(p16)
            + RenderAll(p17) + RenderAll(p18) + RenderAll(p19)
  {
    var x4 := p0 + p1 + p2 + p3 + p4;
    var x8 := x4 + p5 + p6 + p7 + p8;
    var x12 := x8 + p9 + p10 + p11 + p12;
    var x16 := x12 + p13 + p14 + p15 + p16;
    RenderRuns(p0, p1, p2, p3, p4);
    RenderRuns(x4, p5, p6, p7, p8);
    RenderRuns(x8, p9, p10, p11, p12);
    RenderRuns(x12, p13, p14, p15, p16);
    RenderRuns3(x16, p17, p18, p19);
  }

  /** The strings of the command line, rule by rule, in the order the builder appends them. */
  lemma RenderArguments(v: Values, captureDir: string, bin: string)
    ensures CommandLine(v, captureDir, bin)
         == [bin] + RenderAll(FormatArgs(v.format)) + RenderAll(SchemeArgs(v.filenameScheme))
            + RenderAll(SizeArgs(v.sizeMb)) + RenderAll(CountAbove(Frames, v.framesPerFile, 0))
            + RenderAll(AutosplitArgs(v.autosplit, v.autosplitSeconds)) + RenderAll(CountAbove(CSize, v.csizeMb, 0))
            + RenderAll(CountAbove(CMinCutSize, v.cminCutSizeMb, 0))
            + RenderAll(Switch(v.showStatus, ShowStatus)) + RenderAll(Switch(v.rewind, Rewind))
            + RenderAll(Switch(v.noAvc, NoAvc)) + RenderAll(Switch(v.recordOnly, RecordOnly))
            + RenderAll(Switch(v.openDml && v.format == "dv2", OpenDml))
            + RenderAll(DigitsOption(Card, v.card)) + RenderAll(DigitsOption(Channel, v.channel))
            + RenderAll(TextOption(Guid, v.guid)) + RenderAll(V4l2Args(v.useV4l2, v.v4l2Input))
            + RenderAll(TextOption(Duration, v.duration)) + RenderAll(CountAbove(Every, v.everyNth, 1))
            + RenderAll([Word(ClipBase(captureDir))])
  {
    ArgumentsFlat(v, captureDir, bin);
    assert RenderAll([Word(bin)]) == [bin];
    RenderTwenty([Word(bin)], FormatArgs(v.format), SchemeArgs(v.filenameScheme),
                 SizeArgs(v.sizeMb), CountAbove(Frames, v.framesPerFile, 0),
                 AutosplitArgs(v.autosplit, v.autosplitSeconds), CountAbove(CSize, v.csizeMb, 0),
                 CountAbove(CMinCutSize, v.cminCutSizeMb, 0),
                 Switch(v.showStatus, ShowStatus), Switch(v.rewind, Rewind), Switch(v.noAvc, NoAvc),
                 Switch(v.recordOnly, RecordOnly), Switch(v.openDml && v.format == "dv2", OpenDml),
                 DigitsOption(Card, v.card), DigitsOption(Channel, v.channel), TextOption(Guid, v.guid),
                 V4l2Args(v.useV4l2, v.v4l2Input), TextOption(Duration, v.duration),
                 CountAbove(Every, v.everyNth, 1), [Word(ClipBase(captureDir))]);
  }

  /** The format step of the builder: `-format F` for a known format. */
  method AppendFormat(cmd: seq<string>, fmt: string) returns (r: seq<string>)
    ensures r == cmd + RenderAll(FormatArgs(fmt))
  {
    r := cmd;
    if fmt != "" {
      if fmt == "mpeg2" {
        r := r + ["-format", "mpeg2"];
      } else if fmt in ["dv2", "dv1", "raw", "qt", "mov", "avi"] {
        r := r + ["-format", fmt];
      }
    }
  }

  /** The filename-scheme step: the option named after the scheme, if it has one. */
  method AppendScheme(cmd: seq<string>, scheme: string) returns (r: seq<string>)
    ensures r == cmd + RenderAll(SchemeArgs(scheme))
  {
    if scheme == "timestamp" {
      r := cmd + ["-timestamp"];
    } else if scheme == "timecode" {
      r := cmd + ["-timecode"];
    } else if scheme == "timesys" {
      r := cmd + ["-timesys"];
    } else {
      r := cmd;
    }
  }

  /** A count step: the option and `str(n)` when `n` is above the threshold. */
  method AppendCount(cmd: seq<string>, f: Flag, n: int, threshold: int) returns (r: seq<string>)
    ensures r == cmd + RenderAll(CountAbove(f, n, threshold))
  {
    if n > threshold {
      r := cmd + [FlagName(f), IntToString(n)];
    } else {
      r := cmd;
    }
  }

  /** The autosplit step: `-autosplit=S` for a positive S, bare `-autosplit` otherwise. */
  method AppendAutosplit(cmd: seq<string>, enabled: bool, secs: int) returns (r: seq<string>)
    ensures r == cmd + RenderAll(AutosplitArgs(enabled, secs))
  {
    r := cmd;
    if enabled {
      if secs > 0 {
        r := r + ["-autosplit=" + IntToString(secs)];
        assert "-autosplit=" + IntToString(secs) == FlagName(Autosplit) + "=" + IntToString(secs);
      } else {
        r := r + ["-autosplit"];
      }
    }
  }

  /** A switch step: the option alone when the condition holds. */
  method AppendSwitch(cmd: seq<string>, cond: bool, f: Flag) returns (r: seq<string>)
    ensures r == cmd + RenderAll(Switch(cond, f))
  {
    if cond {
      r := cmd + [FlagName(f)];
    } else {
      r := cmd;
    }
  }

  /** The card and channel steps: the stripped value when it is all digits. */
  method AppendDigits(cmd: seq<string>, f: Flag, raw: string) returns (r: seq<string>)
    ensures r == cmd + RenderAll(DigitsOption(f, raw))
  {
    var value := Strip(raw);
    if IsDigits(value) {
      r := cmd + [FlagName(f), value];
    } else {
      r := cmd;
    }
  }

  /** The GUID and duration steps: the stripped value when it is not empty. */
  method AppendText(cmd: seq<string>, f: Flag, raw: string) returns (r: seq<string>)
    ensures r == cmd + RenderAll(TextOption(f, raw))
  {
    var value := Strip(raw);
    if value != "" {
      r := cmd + [FlagName(f), value];
    } else {
      r := cmd;
    }
  }

  /** The V4L2 step: `-v4l2`, then `-input` with the device when one is given. */
  method AppendV4l2(cmd: seq<string>, useV4l2: bool, input: string) returns (r: seq<string>)
    ensures r == cmd + RenderAll(V4l2Args(useV4l2, input))
  {
    r := cmd;
    if useV4l2 {
      r := r + ["-v4l2"];
      var value := Strip(input);
      if value != "" {
        r := r + ["-input", value];
      }
      RenderAppend([Opt(V4l2)], TextOption(Input, input));
    }
  }

  /** The last step: the base name of the clips inside the capture directory. */
  method AppendBase(cmd: seq<string>, captureDir: string) returns (r: seq<string>)
    ensures r == cmd + RenderAll([Word(ClipBase(captureDir))])
  {
    r := cmd + [JoinPath(captureDir, "clip-")];
  }

  /** The splitting section: size, frames per file, autosplit, collection size and minimum cut size. */
  method AppendSplitting(cmd: seq<string>, sizeMb: int, frames: int, autosplit: bool, secs: int,
                         csizeMb: int, cminCutSizeMb: int) returns (r: seq<string>)
    ensures r == cmd + RenderAll(SizeArgs(sizeMb)) + RenderAll(CountAbove(Frames, frames, 0))
                 + RenderAll(AutosplitArgs(autosplit, secs)) + RenderAll(CountAbove(CSize, csizeMb, 0))
                 + RenderAll(CountAbove(CMinCutSize, cminCutSizeMb, 0))
  {
    r := AppendCount(cmd, Size, sizeMb, -1);
    r := AppendCount(r, Frames, frames, 0);
    r := AppendAutosplit(r, autosplit, secs);
    r := AppendCount(r, CSize, csizeMb, 0);
    r := AppendCount(r, CMinCutSize, cminCutSizeMb, 0);
  }

  /** The behaviour section: one switch per setting, `-opendml` only for dv2. */
  method AppendBehaviours(cmd: seq<string>, showStatus: bool, rewind: bool, noAvc: bool, recordOnly: bool,
                          openDml: bool, fmt: string) returns (r: seq<string>)
    ensures r == cmd + RenderAll(Switch(showStatus, ShowStatus)) + RenderAll(Switch(rewind, Rewind))
                 + RenderAll(Switch(noAvc, NoAvc)) + RenderAll(Switch(recordOnly, RecordOnly))
                 + RenderAll(Switch(openDml && fmt == "dv2", OpenDml))
  {
    r := AppendSwitch(cmd, showStatus, ShowStatus);
    r := AppendSwitch(r, rewind, Rewind);
    r := AppendSwitch(r, noAvc, NoAvc);
    r := AppendSwitch(r, recordOnly, RecordOnly);
    r := AppendSwitch(r, openDml && fmt == "dv2", OpenDml);
  }

  /** Device routing, the V4L2 path and the time limit. */
  method AppendSource(cmd: seq<string>, card: string, channel: string, guid: string, useV4l2: bool,
                      input: string, duration: string) returns (r: seq<string>)
    ensures r == cmd + RenderAll(DigitsOption(Card, card)) + RenderAll(DigitsOption(Channel, channel))
                 + RenderAll(TextOption(Guid, guid)) + RenderAll(V4l2Args(useV4l2, input))
                 + RenderAll(TextOption(Duration, duration))
  {
    r := AppendDigits(cmd, Card, card);
    r := AppendDigits(r, Channel, channel);
    r := AppendText(r, Guid, guid);
    r := AppendV4l2(r, useV4l2, input);
    r := AppendText(r, Duration, duration);
  }

  /**
   * `build_dvgrab_cmd(values, capture_dir)`: the vector starts with the
   * resolved binary and grows one section at a time; the result is the
   * rendered `Arguments`.
   */
  method BuildDvgrabCmd(v: Values, captureDir: string, env: Env) returns (cmd: seq<string>)
    ensures cmd == CommandLine(v, captureDir, WhichDvgrab(v.dvgrabPath, env))
  {
    var bin := WhichDvgrab(v.dvgrabPath, env);
    cmd := [bin];
    cmd := AppendFormat(cmd, v.format);
    cmd := AppendScheme(cmd, v.filenameScheme);
    cmd := AppendSplitting(cmd, v.sizeMb, v.framesPerFile, v.autosplit, v.autosplitSeconds,
                           v.csizeMb, v.cminCutSizeMb);
    cmd := AppendBehaviours(cmd, v.showStatus, v.rewind, v.noAvc, v.recordOnly, v.openDml, v.format);
    cmd := AppendSource(cmd, v.card, v.channel, v.guid, v.useV4l2, v.v4l2Input, v.duration);
    cmd := AppendCount(cmd, Every, v.everyNth, 1);
    cmd := AppendBase(cmd, captureDir);
    RenderArguments(v, captureDir, bin);
  }
}
