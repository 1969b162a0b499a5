/**
 * Which options the command line carries, and in what order: `Flags` reads
 * the options off an argument vector, and `Selected` is the reference list,
 * the entries of `AllFlags` whose condition in `Conditions` holds. The main
 * result, `ArgumentsFlags`, says that the two agree for every setting.
 */
module Options {
  import opened Text
  import opened Command

  /** The options of an argument vector, in order. */
  function Flags(args: seq<Arg>): seq<Flag> {
    if args == [] then []
    else (if args[0].Word? then [] else [args[0].flag]) + Flags(args[1..])
  }

  /** Taking the options distributes over concatenation. */
  lemma {:induction false} FlagsAppend(a: seq<Arg>, b: seq<Arg>)
    ensures Flags(a + b) == Flags(a) + Flags(b)
  {
    if a == [] {
      assert a + b == b;
    } else {
      assert (a + b)[0] == a[0] && (a + b)[1..] == a[1..] + b;
      FlagsAppend(a[1..], b);
    }
  }

  /** The flags whose condition holds, in order. */
  function Selected(conds: seq<bool>, flags: seq<Flag>): (r: seq<Flag>)
    requires |conds| == |flags|
    ensures forall f :: f in r ==> f in flags
    decreases |flags|
  {
    if flags == [] then []
    else (if conds[0] then [flags[0]] else []) + Selected(conds[1..], flags[1..])
  }

  /** No flag is listed twice. */
  predicate Distinct(flags: seq<Flag>) {
    forall i, j :: 0 <= i < j < |flags| ==> flags[i] != flags[j]
  }

  /** In a list without repeats, a flag is selected exactly when its condition holds. */
  lemma {:induction false} SelectedMembership(conds: seq<bool>, flags: seq<Flag>, i: nat)
    requires |conds| == |flags| && Distinct(flags) && i < |flags|
    ensures flags[i] in Selected(conds, flags) <==> conds[i]
    decreases |flags|
  {
    if i == 0 {
      assert flags[0] !in flags[1..] by {
        forall j | 0 <= j < |flags[1..]| ensures flags[1..][j] != flags[0] {
          assert flags[1..][j] == flags[j + 1];
        }
      }
    } else {
      assert Distinct(flags[1..]) by {
        forall a, b | 0 <= a < b < |flags[1..]| ensures flags[1..][a] != flags[1..][b] {
          assert flags[1..][a] == flags[a + 1] && flags[1..][b] == flags[b + 1];
        }
      }
      SelectedMembership(conds[1..], flags[1..], i - 1);
      assert flags[1..][i - 1] == flags[i] && conds[1..][i - 1] == conds[i];
      assert flags[i] != flags[0];
    }
  }

  /** Selecting from two lists one after the other is selecting from their concatenation. */
  lemma {:induction false} SelectedAppend(c1: seq<bool>, f1: seq<Flag>, c2: seq<bool>, f2: seq<Flag>)
    requires |c1| == |f1| && |c2| == |f2|
    ensures Selected(c1 + c2, f1 + f2) == Selected(c1, f1) + Selected(c2, f2)
    decreases |f1|
  {
    if f1 == [] {
      assert c1 + c2 == c2 && f1 + f2 == f2;
    } else {
      var c, f := c1 + c2, f1 + f2;
      assert c[0] == c1[0] && f[0] == f1[0];
      assert c[1..] == c1[1..] + c2 && f[1..] == f1[1..] + f2;
      SelectedAppend(c1[1..], f1[1..], c2, f2);
      var h := if c1[0] then [f1[0]] else [];
      calc {
        Selected(c, f);
        h + Selected(c1[1..] + c2, f1[1..] + f2);
        h + (Selected(c1[1..], f1[1..]) + Selected(c2, f2));
        (h + Selected(c1[1..], f1[1..])) + Selected(c2, f2);
      }
    }
  }

  /** The splitting options and the options of device routing, V4L2 and the time limit. */
  const SplitFlags: seq<Flag> := [Size, Frames, Autosplit, CSize, CMinCutSize]
  const SourceFlags: seq<Flag> := [Card, Channel, Guid, V4l2, Input, Duration]

  /** Every option of the builder, in the order it emits them. */
  const AllFlags: seq<Flag> :=
    [Format, Timestamp, Timecode, Timesys, Size, Frames, Autosplit, CSize, CMinCutSize,
     ShowStatus, Rewind, NoAvc, RecordOnly, OpenDml, Card, Channel, Guid, V4l2, Input, Duration, Every]

  function SchemeConditions(v: Values): seq<bool> {
    [v.filenameScheme == "timestamp", v.filenameScheme == "timecode", v.filenameScheme == "timesys"]
  }

  function SplitConditions(v: Values): seq<bool> {
    [v.sizeMb >= 0, v.framesPerFile > 0, v.autosplit, v.csizeMb > 0, v.cminCutSizeMb > 0]
  }

  function BehaviourConditions(v: Values): seq<bool> {
    [v.showStatus, v.rewind, v.noAvc, v.recordOnly, v.openDml && v.format == "dv2"]
  }

  function SourceConditions(v: Values): seq<bool> {
    [IsDigits(Strip(v.card)), IsDigits(Strip(v.channel)), !IsBlank(v.guid),
     v.useV4l2, v.useV4l2 && !IsBlank(v.v4l2Input), !IsBlank(v.duration)]
  }

  /** For each entry of `AllFlags`, the condition under which the builder emits that option. */
  function Conditions(v: Values): (c: seq<bool>)
    ensures |c| == |AllFlags|
  {
    [v.format in KnownFormats] + SchemeConditions(v) + SplitConditions(v)
    + BehaviourConditions(v) + SourceConditions(v) + [v.everyNth > 1]
  }

  /** The options of the builder, group by group. */
  lemma AllFlagsGrouped()
    ensures AllFlags == [Format] + SchemeFlags + SplitFlags + BehaviourFlags + SourceFlags + [Every]
  {
  }


  /** Selecting from a single entry. */
  lemma SelectedOne(c: bool, f: Flag)
    ensures Selected([c], [f]) == if c then [f] else []
  {
    assert [c][1..] == [] && [f][1..] == [];
  }

  /** Selecting from three entries is selecting from each in turn. */
  lemma SelectedOfThree(c: seq<bool>, f: seq<Flag>)
    requires |c| == |f| == 3
    ensures Selected(c, f) == Selected([c[0]], [f[0]]) + Selected([c[1]], [f[1]]) + Selected([c[2]], [f[2]])
  {
    assert c == [c[0]] + [c[1]] + [c[2]] && f == [f[0]] + [f[1]] + [f[2]];
    SelectedAppend([c[0]] + [c[1]], [f[0]] + [f[1]], [c[2]], [f[2]]);
    SelectedAppend([c[0]], [f[0]], [c[1]], [f[1]]);
  }

  /** Selecting from five entries is selecting from each in turn. */
  lemma SelectedOfFive(c: seq<bool>, f: seq<Flag>)
    requires |c| == |f| == 5
    ensures Selected(c, f) == Selected([c[0]], [f[0]]) + Selected([c[1]], [f[1]]) + Selected([c[2]], [f[2]])
                              + Selected([c[3]], [f[3]]) + Selected([c[4]], [f[4]])
  {
    assert c == [c[0]] + [c[1]] + [c[2]] + [c[3]] + [c[4]];
    assert f == [f[0]] + [f[1]] + [f[2]] + [f[3]] + [f[4]];
    SelectedAppend([c[0]] + [c[1]] + [c[2]] + [c[3]], [f[0]] + [f[1]] + [f[2]] + [f[3]], [c[4]], [f[4]]);
    SelectedAppend([c[0]] + [c[1]] + [c[2]], [f[0]] + [f[1]] + [f[2]], [c[3]], [f[3]]);
    SelectedAppend([c[0]] + [c[1]], [f[0]] + [f[1]], [c[2]], [f[2]]);
    SelectedAppend([c[0]], [f[0]], [c[1]], [f[1]]);
  }

  /** The options of five runs of arguments, one run after another. */
  lemma FlagsOfFive(p1: seq<Arg>, p2: seq<Arg>, p3: seq<Arg>, p4: seq<Arg>, p5: seq<Arg>)
    ensures Flags(p1 + p2 + p3 + p4 + p5) == Flags(p1) + Flags(p2) + Flags(p3) + Flags(p4) + Flags(p5)
  {
    FlagsAppend(p1 + p2 + p3 + p4, p5);
    FlagsAppend(p1 + p2 + p3, p4);
    FlagsAppend(p1 + p2, p3);
    FlagsAppend(p1, p2);
  }

  /** A rule of one option and one word contributes that option when it fires. */
  lemma PairFlags(r: seq<Arg>, f: Flag, cond: bool)
    requires r == [] || (|r| == 2 && r[0] == Opt(f) && r[1].Word?)
    requires r != [] <==> cond
    ensures Flags(r) == Selected([cond], [f])
  {
    SelectedOne(cond, f);
    if r != [] {
      assert Flags(r[1..]) == [] by { assert r[1..][1..] == []; }
    }
  }

  /** A rule of at most one option contributes that option when it fires. */
  lemma SingleFlags(r: seq<Arg>, f: Flag, cond: bool)
    requires r == [] || (|r| == 1 && !r[0].Word? && r[0].flag == f)
    requires r != [] <==> cond
    ensures Flags(r) == Selected([cond], [f])
  {
    SelectedOne(cond, f);
    if r != [] {
      assert r[1..] == [];
    }
  }

  /** The options of the format rule. */
  lemma FormatFlags(fmt: string)
    ensures Flags(FormatArgs(fmt)) == Selected([fmt in KnownFormats], [Format])
  {
    FormatRule(fmt);
    PairFlags(FormatArgs(fmt), Format, fmt in KnownFormats);
  }

  /** The options of the filename-scheme rule: the one for the scheme, if it has one. */
  lemma SchemeFlagsFrom(s: string)
    ensures Flags(SchemeArgs(s)) == Selected([s == "timestamp", s == "timecode", s == "timesys"], SchemeFlags)
  {
    SelectedOfThree([s == "timestamp", s == "timecode", s == "timesys"], SchemeFlags);
    SelectedOne(s == "timestamp", Timestamp);
    SelectedOne(s == "timecode", Timecode);
    SelectedOne(s == "timesys", Timesys);
    var r := SchemeArgs(s);
    if r != [] {
      assert r[1..] == [];
    }
  }

  lemma SchemeFlagsOf(v: Values)
    ensures Flags(SchemeArgs(v.filenameScheme)) == Selected(SchemeConditions(v), SchemeFlags)
  {
    SchemeFlagsFrom(v.filenameScheme);
  }

  /** The options of a count rule: its option exactly when the count is above the threshold. */
  lemma CountFlags(f: Flag, n: int, threshold: int)
    ensures Flags(CountAbove(f, n, threshold)) == Selected([n > threshold], [f])
  {
    CountRule(f, n, threshold);
    PairFlags(CountAbove(f, n, threshold), f, n > threshold);
  }

  /** The options of the autosplit rule: its option exactly when autosplitting is on. */
  lemma AutosplitFlags(enabled: bool, secs: int)
    ensures Flags(AutosplitArgs(enabled, secs)) == Selected([enabled], [Autosplit])
  {
    AutosplitRule(enabled, secs);
    SingleFlags(AutosplitArgs(enabled, secs), Autosplit, enabled);
  }

  /** Five runs of arguments, each contributing the selection of one entry, contribute the selection of all five. */
  lemma FlagsOfFiveRuns(p1: seq<Arg>, p2: seq<Arg>, p3: seq<Arg>, p4: seq<Arg>, p5: seq<Arg>,
                        c: seq<bool>, f: seq<Flag>)
    requires |c| == |f| == 5
    requires Flags(p1) == Selected([c[0]], [f[0]]) && Flags(p2) == Selected([c[1]], [f[1]])
    requires Flags(p3) == Selected([c[2]], [f[2]]) && Flags(p4) == Selected([c[3]], [f[3]])
    requires Flags(p5) == Selected([c[4]], [f[4]])
    ensures Flags(p1 + p2 + p3 + p4 + p5) == Selected(c, f)
  {
    FlagsOfFive(p1, p2, p3, p4, p5);
    SelectedOfFive(c, f);
  }

  /** The options of the splitting rules, from the settings they read. */
  lemma SplitFlagsFrom(sizeMb: int, frames: int, autosplit: bool, secs: int, csize: int, cmin: int)
    ensures Flags(SizeArgs(sizeMb) + CountAbove(Frames, frames, 0) + AutosplitArgs(autosplit, secs)
                  + CountAbove(CSize, csize, 0) + CountAbove(CMinCutSize, cmin, 0))
         == Selected([sizeMb >= 0, frames > 0, autosplit, csize > 0, cmin > 0], SplitFlags)
  {
    CountFlags(Size, sizeMb, -1);
    CountFlags(Frames, frames, 0);
    AutosplitFlags(autosplit, secs);
    CountFlags(CSize, csize, 0);
    CountFlags(CMinCutSize, cmin, 0);
    FlagsOfFiveRuns(SizeArgs(sizeMb), CountAbove(Frames, frames, 0), AutosplitArgs(autosplit, secs),
                    CountAbove(CSize, csize, 0), CountAbove(CMinCutSize, cmin, 0),
                    [sizeMb >= 0, frames > 0, autosplit, csize > 0, cmin > 0], SplitFlags);
  }

  /** The options of the splitting rules. */
  lemma SplitFlagsOf(v: Values)
    ensures Flags(SplitArgs(v)) == Selected(SplitConditions(v), SplitFlags)
  {
    SplitFlagsFrom(v.sizeMb, v.framesPerFile, v.autosplit, v.autosplitSeconds, v.csizeMb, v.cminCutSizeMb);
  }

  /** The options of a switch. */
  lemma SwitchFlags(cond: bool, f: Flag)
    ensures Flags(Switch(cond, f)) == Selected([cond], [f])
  {
    SingleFlags(Switch(cond, f), f, cond);
  }

  /** The options of five switches one after another. */
  lemma SwitchesFlags(c0: bool, c1: bool, c2: bool, c3: bool, c4: bool)
    ensures Flags(Switch(c0, ShowStatus) + Switch(c1, Rewind) + Switch(c2, NoAvc) + Switch(c3, RecordOnly)
                  + Switch(c4, OpenDml))
         == Selected([c0, c1, c2, c3, c4], BehaviourFlags)
  {
    SwitchFlags(c0, ShowStatus);
    SwitchFlags(c1, Rewind);
    SwitchFlags(c2, NoAvc);
    SwitchFlags(c3, RecordOnly);
    SwitchFlags(c4, OpenDml);
    FlagsOfFiveRuns(Switch(c0, ShowStatus), Switch(c1, Rewind), Switch(c2, NoAvc), Switch(c3, RecordOnly),
                    Switch(c4, OpenDml), [c0, c1, c2, c3, c4], BehaviourFlags);
  }

  /** The options of the behaviour rules. */
  lemma BehaviourFlagsOf(v: Values)
    ensures Flags(BehaviourArgs(v.showStatus, v.rewind, v.noAvc, v.recordOnly, v.openDml, v.format))
         == Selected(BehaviourConditions(v), BehaviourFlags)
  {
    SwitchesFlags(v.showStatus, v.rewind, v.noAvc, v.recordOnly, v.openDml && v.format == "dv2");
  }

  /** The options of a rule of one option and its stripped value. */
  lemma DigitsFlags(f: Flag, raw: string)
    ensures Flags(DigitsOption(f, raw)) == Selected([IsDigits(Strip(raw))], [f])
  {
    DigitsRule(f, raw);
    PairFlags(DigitsOption(f, raw), f, IsDigits(Strip(raw)));
  }

  lemma TextFlags(f: Flag, raw: string)
    ensures Flags(TextOption(f, raw)) == Selected([!IsBlank(raw)], [f])
  {
    TextRule(f, raw);
    PairFlags(TextOption(f, raw), f, !IsBlank(raw));
  }

  /** The options of the V4L2 rule: `-v4l2` when asked for and `-input` only along with it. */
  lemma V4l2Flags(useV4l2: bool, input: string)
    ensures Flags(V4l2Args(useV4l2, input)) == Selected([useV4l2, useV4l2 && !IsBlank(input)], [V4l2, Input])
  {
    var c, f := [useV4l2, useV4l2 && !IsBlank(input)], [V4l2, Input];
    assert c[1..] == [c[1]] && f[1..] == [Input];
    SelectedOne(c[1], Input);
    if useV4l2 {
      var r := V4l2Args(useV4l2, input);
      TextFlags(Input, input);
      SelectedOne(!IsBlank(input), Input);
      assert r[1..] == TextOption(Input, input);
    }
  }

  /** Six entries selected as one, one, one, two and one. */
  lemma SelectedOfSourceShape(c: seq<bool>, f: seq<Flag>)
    requires |c| == |f| == 6
    ensures Selected(c, f) == Selected([c[0]], [f[0]]) + Selected([c[1]], [f[1]]) + Selected([c[2]], [f[2]])
                              + Selected([c[3], c[4]], [f[3], f[4]]) + Selected([c[5]], [f[5]])
  {
    assert c == [c[0]] + [c[1]] + [c[2]] + [c[3], c[4]] + [c[5]];
    assert f == [f[0]] + [f[1]] + [f[2]] + [f[3], f[4]] + [f[5]];
    SelectedAppend([c[0]] + [c[1]] + [c[2]] + [c[3], c[4]], [f[0]] + [f[1]] + [f[2]] + [f[3], f[4]], [c[5]], [f[5]]);
    SelectedAppend([c[0]] + [c[1]] + [c[2]], [f[0]] + [f[1]] + [f[2]], [c[3], c[4]], [f[3], f[4]]);
    SelectedAppend([c[0]] + [c[1]], [f[0]] + [f[1]], [c[2]], [f[2]]);
    SelectedAppend([c[0]], [f[0]], [c[1]], [f[1]]);
  }

  /** The options of the source rules, from the settings they read. */
  lemma SourceFlagsFrom(card: string, channel: string, guid: string, useV4l2: bool, input: string, duration: string)
    ensures Flags(DigitsOption(Card, card) + DigitsOption(Channel, channel) + TextOption(Guid, guid)
                  + V4l2Args(useV4l2, input) + TextOption(Duration, duration))
         == Selected([IsDigits(Strip(card)), IsDigits(Strip(channel)), !IsBlank(guid),
                      useV4l2, useV4l2 && !IsBlank(input), !IsBlank(duration)], SourceFlags)
  {
    var c := [IsDigits(Strip(card)), IsDigits(Strip(channel)), !IsBlank(guid),
              useV4l2, useV4l2 && !IsBlank(input), !IsBlank(duration)];
    FlagsOfFive(DigitsOption(Card, card), DigitsOption(Channel, channel), TextOption(Guid, guid),
                V4l2Args(useV4l2, input), TextOption(Duration, duration));
    SelectedOfSourceShape(c, SourceFlags);
    DigitsFlags(Card, card);
    DigitsFlags(Channel, channel);
    TextFlags(Guid, guid);
    V4l2Flags(useV4l2, input);
    TextFlags(Duration, duration);
  }

  /** The options of the source rules. */
  lemma SourceFlagsOf(v: Values)
    ensures Flags(SourceArgs(v)) == Selected(SourceConditions(v), SourceFlags)
  {
    SourceFlagsFrom(v.card, v.channel, v.guid, v.useV4l2, v.v4l2Input, v.duration);
  }

  /** A single word contributes no option. */
  lemma WordFlags(w: Arg)
    requires w.Word?
    ensures Flags([w]) == []
  {
    assert [w][1..] == [];
  }

  /** Six runs of options between a head and a tail that contribute none. */
  lemma FlagsOfGroups(h: seq<Arg>, p1: seq<Arg>, p2: seq<Arg>, p3: seq<Arg>, p4: seq<Arg>, p5: seq<Arg>,
                      p6: seq<Arg>, t: seq<Arg>)
    requires Flags(h) == [] && Flags(t) == []
    ensures Flags(h + p1 + p2 + p3 + p4 + p5 + p6 + t)
         == Flags(p1) + Flags(p2) + Flags(p3) + Flags(p4) + Flags(p5) + Flags(p6)
  {
    var x3, x6 := h + p1 + p2 + p3, h + p1 + p2 + p3 + p4 + p5 + p6;
    FlagsOfFour(h, p1, p2, p3);
    FlagsOfFour(x3, p4, p5, p6);
    FlagsAppend(x6, t);
    assert Flags(h) + Flags(p1) == Flags(p1);
    assert Flags(x6) + Flags(t) == Flags(x6);
  }

  /** The options of four runs of arguments, one run after another. */
  lemma FlagsOfFour(p1: seq<Arg>, p2: seq<Arg>, p3: seq<Arg>, p4: seq<Arg>)
    ensures Flags(p1 + p2 + p3 + p4) == Flags(p1) + Flags(p2) + Flags(p3) + Flags(p4)
  {
    FlagsAppend(p1 + p2 + p3, p4);
    FlagsAppend(p1 + p2, p3);
    FlagsAppend(p1, p2);
  }

  /** Selecting from six groups one after another. */
  lemma SelectedOfGroups(c1: seq<bool>, f1: seq<Flag>, c2: seq<bool>, f2: seq<Flag>, c3: seq<bool>, f3: seq<Flag>,
                         c4: seq<bool>, f4: seq<Flag>, c5: seq<bool>, f5: seq<Flag>, c6: seq<bool>, f6: seq<Flag>)
    requires |c1| == |f1| && |c2| == |f2| && |c3| == |f3| && |c4| == |f4| && |c5| == |f5| && |c6| == |f6|
    ensures Selected(c1 + c2 + c3 + c4 + c5 + c6, f1 + f2 + f3 + f4 + f5 + f6)
         == Selected(c1, f1) + Selected(c2, f2) + Selected(c3, f3) + Selected(c4, f4) + Selected(c5, f5)
            + Selected(c6, f6)
  {
    SelectedAppend(c1 + c2 + c3 + c4 + c5, f1 + f2 + f3 + f4 + f5, c6, f6);
    SelectedAppend(c1 + c2 + c3 + c4, f1 + f2 + f3 + f4, c5, f5);
    SelectedAppend(c1 + c2 + c3, f1 + f2 + f3, c4, f4);
    SelectedAppend(c1 + c2, f1 + f2, c3, f3);
    SelectedAppend(c1, f1, c2, f2);
  }

  /**
   * The options of the whole command, in order, are exactly those of `AllFlags`
   * whose condition holds.
   */
  lemma ArgumentsFlags(v: Values, captureDir: string, bin: string)
    ensures Flags(Arguments(v, captureDir, bin)) == Selected(Conditions(v), AllFlags)
  {
    WordFlags(Word(bin));
    WordFlags(Word(ClipBase(captureDir)));
    FlagsOfGroups([Word(bin)], FormatArgs(v.format), SchemeArgs(v.filenameScheme), SplitArgs(v),
                  BehaviourArgs(v.showStatus, v.rewind, v.noAvc, v.recordOnly, v.openDml, v.format),
                  SourceArgs(v), CountAbove(Every, v.everyNth, 1), [Word(ClipBase(captureDir))]);
    AllFlagsGrouped();
    SelectedOfGroups([v.format in KnownFormats], [Format], SchemeConditions(v), SchemeFlags,
                     SplitConditions(v), SplitFlags, BehaviourConditions(v), BehaviourFlags,
                     SourceConditions(v), SourceFlags, [v.everyNth > 1], [Every]);
    FormatFlags(v.format);
    SchemeFlagsOf(v);
    SplitFlagsOf(v);
    BehaviourFlagsOf(v);
    SourceFlagsOf(v);
    CountFlags(Every, v.everyNth, 1);
  }

  /** The position of each option in `AllFlags`. */
  function FlagIndex(f: Flag): nat {
    match f
    case Format => 0
    case Timestamp => 1
    case Timecode => 2
    case Timesys => 3
    case Size => 4
    case Frames => 5
    case Autosplit => 6
    case CSize => 7
    case CMinCutSize => 8
    case ShowStatus => 9
    case Rewind => 10
    case NoAvc => 11
    case RecordOnly => 12
    case OpenDml => 13
    case Card => 14
    case Channel => 15
    case Guid => 16
    case V4l2 => 17
    case Input => 18
    case Duration => 19
    case Every => 20
  }

  /** Every option of the builder appears once in `AllFlags`, at its own position. */
  lemma AllFlagsIndexed()
    ensures forall i :: 0 <= i < |AllFlags| ==> FlagIndex(AllFlags[i]) == i
  {
  }

  /** No option is listed twice in `AllFlags`. */
  lemma AllFlagsDistinct()
    ensures Distinct(AllFlags)
  {
    AllFlagsIndexed();
    forall i, j | 0 <= i < j < |AllFlags| ensures AllFlags[i] != AllFlags[j] {
      assert FlagIndex(AllFlags[i]) != FlagIndex(AllFlags[j]);
    }
  }

  /** Option `AllFlags[i]` is on the command line exactly when its condition holds. */
  lemma FlagInArguments(v: Values, captureDir: string, bin: string, i: nat)
    requires i < |AllFlags|
    ensures AllFlags[i] in Flags(Arguments(v, captureDir, bin)) <==> Conditions(v)[i]
  {
    ArgumentsFlags(v, captureDir, bin);
    AllFlagsDistinct();
    SelectedMembership(Conditions(v), AllFlags, i);
  }
}
