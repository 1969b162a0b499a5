/**
 * The capture log: how `_read_stream` turns each line dvgrab writes into
 * queued entries, the two entries `_pump_process` queues when dvgrab exits,
 * and how `_schedule_log_pump` moves queued entries into the visible log.
 */
module LogStream {
  import opened Text

  /** The tag a queued line carries: none for standard output, "err" for standard error. */
  datatype Tag = Untagged | Err

  /** A `(line, tag)` pair on the log queue. */
  datatype Entry = Entry(text: string, tag: Tag)

  /** A line as the log view shows it, with the error highlighting flag `_log` receives. */
  datatype Shown = Shown(text: string, isErr: bool)

  /** The marker `_pump_process` queues when dvgrab has exited; the view never shows it. */
  const ExitSentinel := "[exit]"

  /** The text of the entry that reports dvgrab's exit status, before the code. */
  const ExitPrefix := "dvgrab exited with code "

  /** Of the pieces of a split line, the right-stripped form of each piece that is not blank. */
  function KeptFragments(parts: seq<string>): seq<string>
  {
    if parts == [] then []
    else (if Strip(parts[0]) != [] then [RStrip(parts[0])] else []) + KeptFragments(parts[1..])
  }

  /**
   * The texts `_read_stream` queues for one line: with a carriage return in it,
   * the right-stripped non-blank pieces between carriage returns; without one,
   * the right-stripped line itself, even when that leaves nothing.
   */
  function NormaliseLine(line: string): seq<string>
  {
    if '\r' in line then KeptFragments(Split(line, '\r')) else [RStrip(line)]
  }

  /** Keeping fragments works piece by piece, so the kept fragments come out in the order of the pieces. */
  lemma {:induction false} KeptFragmentsAppend(a: seq<string>, b: seq<string>)
    ensures KeptFragments(a + b) == KeptFragments(a) + KeptFragments(b)
  {
    if a == [] {
      assert a + b == b;
    } else {
      assert (a + b)[1..] == a[1..] + b;
      KeptFragmentsAppend(a[1..], b);
    }
  }

  /** One more piece adds its right-stripped form after the fragments kept so far, when it is not blank. */
  lemma KeptFragmentsSnoc(parts: seq<string>, j: int)
    requires 0 <= j < |parts|
    ensures KeptFragments(parts[..j + 1]) ==
            KeptFragments(parts[..j]) + (if Strip(parts[j]) != [] then [RStrip(parts[j])] else [])
  {
    KeptFragmentsAppend(parts[..j], [parts[j]]);
    assert parts[..j + 1] == parts[..j] + [parts[j]];
    assert KeptFragments([parts[j]]) == (if Strip(parts[j]) != [] then [RStrip(parts[j])] else []) + KeptFragments([]);
  }

  /** A text is kept exactly when it is the right-stripped form of a piece that is not blank. */
  lemma {:induction false} KeptFragmentsMembership(parts: seq<string>, t: string)
    ensures t in KeptFragments(parts) <==> exists p :: p in parts && !IsBlank(p) && t == RStrip(p)
  {
    if parts != [] {
      KeptFragmentsMembership(parts[1..], t);
      assert parts == [parts[0]] + parts[1..];
      assert forall p :: p in parts <==> p == parts[0] || p in parts[1..];
    }
  }

  /** What `rstrip` keeps of a string that is not blank is not empty. */
  lemma RStripOfNonBlank(s: string)
    requires !IsBlank(s)
    ensures RStrip(s) != []
  {
  }

  /**
   * Every queued text is free of carriage returns and of trailing whitespace;
   * a line with a carriage return in it never yields an empty text.
   */
  lemma NormalisedTextsClean(line: string)
    ensures forall t :: t in NormaliseLine(line) ==>
              && '\r' !in t
              && (t == [] || !IsSpace(t[|t| - 1]))
              && ('\r' in line ==> t != [])
  {
    if '\r' in line {
      var parts := Split(line, '\r');
      SplitPiecesLackSeparator(line, '\r');
      forall t | t in NormaliseLine(line)
        ensures '\r' !in t && (t == [] || !IsSpace(t[|t| - 1])) && t != []
      {
        KeptFragmentsMembership(parts, t);
        var p :| p in parts && !IsBlank(p) && t == RStrip(p);
        assert '\r' !in p;
        assert forall k :: 0 <= k < |t| ==> t[k] == p[k];
        RStripOfNonBlank(p);
      }
    }
  }

  /**
   * A line without a carriage return yields exactly one text: the line with
   * its trailing whitespace removed, empty exactly when the line is blank.
   */
  lemma SingleLine(line: string)
    requires '\r' !in line
    ensures var ts := NormaliseLine(line);
            && |ts| == 1
            && ts[0] <= line
            && IsBlank(line[|ts[0]|..])
            && (ts[0] == [] <==> IsBlank(line))
  {
    var t := RStrip(line);
    assert forall k :: 0 <= k < |line| - |t| ==> line[|t|..][k] == line[|t| + k];
    if t == [] {
      assert line[|t|..] == line;
    } else {
      assert !IsSpace(line[|t| - 1]);
    }
  }

  /**
   * A status line with carriage-return updates: "frame 1", a blank update
   * and "frame 2" give the two non-blank updates in order.
   */
  lemma StatusUpdates()
    ensures NormaliseLine("a\r \rb\n") == ["a", "b"]
  {
    var line := "a\r \rb\n";
    assert '\r' in line by {
      assert line[1] == '\r';
    }
    SplitStatusLine();
    KeepStatusFragments();
  }

  lemma SplitStatusLine()
    ensures Split("a\r \rb\n", '\r') == ["a", " ", "b\n"]
  {
    SplitWithoutSeparator("b\n", '\r');
    assert "a\r \rb\n" == "a" + "\r" + " \rb\n";
    assert " \rb\n" == " " + "\r" + "b\n";
    SplitAtSeparator("a", " \rb\n", '\r');
    SplitAtSeparator(" ", "b\n", '\r');
  }

  lemma KeepStatusFragments()
    ensures KeptFragments(["a", " ", "b\n"]) == ["a", "b"]
  {
    assert RStrip("b\n") == "b" by {
      assert "b\n"[..1] == "b";
    }
    assert IsBlank(" ");
    assert Strip("a") == "a" && Strip("b\n") == "b";
    assert ["a", " ", "b\n"][1..] == [" ", "b\n"];
    assert [" ", "b\n"][1..] == ["b\n"];
    assert ["b\n"][1..] == [];
  }

  /** The entries queued for a text stream, line after line, each with the stream's tag. */
  function StreamEntries(lines: seq<string>, tag: Tag): seq<Entry>
  {
    if lines == [] then []
    else StreamEntries(lines[..|lines| - 1], tag) + Tagged(NormaliseLine(lines[|lines| - 1]), tag)
  }

  /** Reading one more line queues that line's entries after those of the lines before it. */
  lemma StreamEntriesSnoc(lines: seq<string>, i: int, tag: Tag)
    requires 0 <= i < |lines|
    ensures StreamEntries(lines[..i + 1], tag) == StreamEntries(lines[..i], tag) + Tagged(NormaliseLine(lines[i]), tag)
  {
    assert lines[..i + 1][..i] == lines[..i];
  }

  /** The queue after one more line is the queue of the lines so far plus that line's entries. */
  lemma QueueStep(q0: seq<Entry>, q1: seq<Entry>, q2: seq<Entry>, lines: seq<string>, i: int, tag: Tag)
    requires 0 <= i < |lines|
    requires q1 == q0 + StreamEntries(lines[..i], tag)
    requires q2 == q1 + Tagged(NormaliseLine(lines[i]), tag)
    ensures q2 == q0 + StreamEntries(lines[..i + 1], tag)
  {
    StreamEntriesSnoc(lines, i, tag);
    AppendStep(q0, q1, q2, StreamEntries(lines[..i], tag), Tagged(NormaliseLine(lines[i]), tag), StreamEntries(lines[..i + 1], tag));
  }

  /** Appending `a` and then `b` appends `a + b`. */
  lemma AppendStep<T>(q0: seq<T>, q1: seq<T>, q2: seq<T>, a: seq<T>, b: seq<T>, ab: seq<T>)
    requires q1 == q0 + a && q2 == q1 + b && ab == a + b
    ensures q2 == q0 + ab
  {
  }

  /** The texts as entries with one tag. */
  function Tagged(texts: seq<string>, tag: Tag): seq<Entry>
  {
    seq(|texts|, i requires 0 <= i < |texts| => Entry(texts[i], tag))
  }

  /** Every entry of a stream carries the stream's tag and a text that came out of line normalisation. */
  lemma {:induction false} StreamEntriesFromLines(lines: seq<string>, tag: Tag)
    ensures forall e :: e in StreamEntries(lines, tag) ==>
              e.tag == tag && exists k :: 0 <= k < |lines| && e.text in NormaliseLine(lines[k])
  {
    if lines != [] {
      var init := lines[..|lines| - 1];
      StreamEntriesFromLines(init, tag);
      forall e | e in StreamEntries(lines, tag)
        ensures e.tag == tag && exists k :: 0 <= k < |lines| && e.text in NormaliseLine(lines[k])
      {
        if e in StreamEntries(init, tag) {
          var k :| 0 <= k < |init| && e.text in NormaliseLine(init[k]);
          assert lines[k] == init[k];
        } else {
          var ts := NormaliseLine(lines[|lines| - 1]);
          var i :| 0 <= i < |ts| && Tagged(ts, tag)[i] == e;
          assert e.text == ts[i];
        }
      }
    }
  }

  /** The two entries queued after `proc.wait()` returns `ret`: the sentinel, then the exit code. */
  function ExitEntries(ret: int): seq<Entry>
  {
    [Entry(ExitSentinel, Untagged), Entry(ExitPrefix + IntToString(ret), if ret != 0 then Err else Untagged)]
  }

  /** The exit report carries the code, readable back, and is tagged as an error exactly when the code is not 0. */
  lemma ExitReport(ret: int)
    ensures var es := ExitEntries(ret);
            && |es| == 2 && es[0].text == ExitSentinel
            && es[1].text[..|ExitPrefix|] == ExitPrefix
            && ParseInt(es[1].text[|ExitPrefix|..]) == Some(ret)
            && (es[1].tag == Err <==> ret != 0)
  {
    var t := ExitPrefix + IntToString(ret);
    assert t[|ExitPrefix|..] == IntToString(ret);
    ParseIntToString(ret);
  }

  /** What the view shows for queued entries, in queue order: everything but the sentinel, "err" as the error flag. */
  function Displayed(entries: seq<Entry>): seq<Shown>
  {
    if entries == [] then []
    else
      var e := entries[|entries| - 1];
      Displayed(entries[..|entries| - 1]) + (if e.text == ExitSentinel then [] else [Shown(e.text, e.tag == Err)])
  }

  /** Showing entries in several pumps shows the same as showing them at once. */
  lemma {:induction false} DisplayedAppend(a: seq<Entry>, b: seq<Entry>)
    ensures Displayed(a + b) == Displayed(a) + Displayed(b)
    decreases |b|
  {
    if b == [] {
      assert a + b == a;
    } else {
      var b' := b[..|b| - 1];
      assert (a + b)[..|a + b| - 1] == a + b';
      DisplayedAppend(a, b');
    }
  }

  /**
   * A line is shown exactly when some queued entry has its text, that text is
   * not the sentinel, and the error flag is set exactly for the "err" tag.
   */
  lemma {:induction false} DisplayedMembership(entries: seq<Entry>, s: Shown)
    ensures s in Displayed(entries) <==>
            exists e :: e in entries && e.text != ExitSentinel && s == Shown(e.text, e.tag == Err)
  {
    if entries != [] {
      var init := entries[..|entries| - 1];
      DisplayedMembership(init, s);
      assert entries == init + [entries[|entries| - 1]];
      assert forall e :: e in entries <==> e in init || e == entries[|entries| - 1];
    }
  }

  /** Of the exit entries the view shows only the exit code, as an error exactly when it is not 0. */
  lemma DisplayedExit(ret: int)
    ensures Displayed(ExitEntries(ret)) == [Shown(ExitPrefix + IntToString(ret), ret != 0)]
  {
    var es := ExitEntries(ret);
    assert es[..1] == [Entry(ExitSentinel, Untagged)];
    assert es[..1][..0] == [];
    assert Displayed(es[..1]) == [];
    assert es[1].text != ExitSentinel by {
      assert |es[1].text| > |ExitSentinel|;
    }
  }

  /** The log queue and the log view, with the methods that feed and drain them. */
  class LogView {
    var queue: seq<Entry>
    var shown: seq<Shown>

    constructor ()
      ensures queue == [] && shown == []
    {
      queue := [];
      shown := [];
    }

    /** `log_q.put(entry)`. */
    method Put(e: Entry)
      modifies this
      ensures queue == old(queue) + [e] && shown == old(shown)
    {
      queue := queue + [e];
    }

    /** `_log(text, is_err)`: append one line to the view. */
    method Log(text: string, isErr: bool)
      modifies this
      ensures shown == old(shown) + [Shown(text, isErr)] && queue == old(queue)
    {
      shown := shown + [Shown(text, isErr)];
    }

    /**
     * `_read_stream(stream, tag)`: every line of the stream, normalised, onto
     * the queue with the stream's tag; an absent stream queues nothing.
     */
    method ReadStream(stream: Option<seq<string>>, tag: Tag)
      modifies this
      ensures queue == old(queue) + (if stream.Some? then StreamEntries(stream.value, tag) else [])
      ensures shown == old(shown)
    {
      if stream.None? {
        return;
      }
      var lines := stream.value;
      var i := 0;
      while i < |lines|
        invariant 0 <= i <= |lines|
        invariant queue == old(queue) + StreamEntries(lines[..i], tag)
        invariant shown == old(shown)
      {
        ghost var before := queue;
        QueueLine(lines[i], tag);
        QueueStep(old(queue), before, queue, lines, i, tag);
        i := i + 1;
      }
      assert lines[..i] == lines;
    }

    /** The body of the reading loop: the texts of one line onto the queue. */
    method QueueLine(line: string, tag: Tag)
      modifies this
      ensures queue == old(queue) + Tagged(NormaliseLine(line), tag)
      ensures shown == old(shown)
    {
      if '\r' in line {
        QueueFragments(Split(line, '\r'), tag);
      } else {
        Put(Entry(RStrip(line), tag));
        assert Tagged([RStrip(line)], tag) == [Entry(RStrip(line), tag)];
      }
    }

    /** The loop over the pieces of a line split at carriage returns: each non-blank piece, right-stripped. */
    method QueueFragments(parts: seq<string>, tag: Tag)
      modifies this
      ensures queue == old(queue) + Tagged(KeptFragments(parts), tag)
      ensures shown == old(shown)
    {
      var j := 0;
      while j < |parts|
        invariant 0 <= j <= |parts|
        invariant queue == old(queue) + Tagged(KeptFragments(parts[..j]), tag)
        invariant shown == old(shown)
      {
        var p := parts[j];
        ghost var before := queue;
        if Strip(p) != [] {
          Put(Entry(RStrip(p), tag));
        }
        FragmentStep(old(queue), before, queue, parts, j, tag);
        j := j + 1;
      }
      assert parts[..j] == parts;
    }

    /**
     * One run of `_schedule_log_pump`: take every queued entry in order, skip
     * the sentinel, and show the rest with "err" as the error flag.
     */
    method Pump()
      modifies this
      ensures queue == [] && shown == old(shown) + Displayed(old(queue))
    {
      ghost var i := 0;
      while queue != []
        invariant 0 <= i <= |old(queue)|
        invariant queue == old(queue)[i..]
        invariant shown == old(shown) + Displayed(old(queue)[..i])
        decreases |queue|
      {
        var e := queue[0];
        queue := queue[1..];
        ghost var before := shown;
        if e.text != ExitSentinel {
          Log(e.text, e.tag == Err);
        }
        PumpStep(old(shown), before, shown, old(queue), i);
        i := i + 1;
      }
      assert old(queue)[..i] == old(queue);
    }
  }

  /** A piece without the separator, the separator, then the rest: the piece comes first, then the rest's pieces. */
  lemma {:induction false} SplitAtSeparator(a: string, b: string, c: char)
    requires c !in a
    ensures Split(a + [c] + b, c) == [a] + Split(b, c)
  {
    if a == [] {
      assert a + [c] + b == [c] + b;
      assert ([c] + b)[1..] == b;
    } else {
      var s := a + [c] + b;
      assert s[1..] == a[1..] + [c] + b;
      SplitAtSeparator(a[1..], b, c);
      assert [a[0]] + a[1..] == a;
    }
  }

  /** Appending one text to a tagged run appends its entry. */
  lemma TaggedSnoc(texts: seq<string>, t: string, tag: Tag)
    ensures Tagged(texts + [t], tag) == Tagged(texts, tag) + [Entry(t, tag)]
  {
  }

  /** One step of queueing fragments: the next part is queued exactly when it is not blank. */
  lemma FragmentStep(q0: seq<Entry>, q1: seq<Entry>, q2: seq<Entry>, parts: seq<string>, j: int, tag: Tag)
    requires 0 <= j < |parts|
    requires q1 == q0 + Tagged(KeptFragments(parts[..j]), tag)
    requires q2 == if Strip(parts[j]) != [] then q1 + [Entry(RStrip(parts[j]), tag)] else q1
    ensures q2 == q0 + Tagged(KeptFragments(parts[..j + 1]), tag)
  {
    KeptFragmentsSnoc(parts, j);
    TaggedSnoc(KeptFragments(parts[..j]), RStrip(parts[j]), tag);
  }

  /** One step of the pump: the next entry is shown unless it is the exit sentinel. */
  lemma PumpStep(s0: seq<Shown>, s1: seq<Shown>, s2: seq<Shown>, es: seq<Entry>, i: int)
    requires 0 <= i < |es|
    requires s1 == s0 + Displayed(es[..i])
    requires s2 == if es[i].text == ExitSentinel then s1 else s1 + [Shown(es[i].text, es[i].tag == Err)]
    ensures s2 == s0 + Displayed(es[..i + 1])
  {
    assert es[..i + 1][..i] == es[..i];
  }
}
