/**
 * Allocation of the numbered capture subfolder (`find_next_subfolder`): a
 * persisted "next index" per base directory, reconciled with the numbered
 * folders that already exist there.
 */
module Allocator {
  import opened Text

  /** One child of the base directory as listed: its name and whether it is a directory. */
  datatype DirEntry = DirEntry(name: string, isDir: bool)

  /**
   * `name` matches `^{prefix}(\d+)$`: the prefix, one or more digits, and the
   * end of the name; Python's `$` also matches just before a final "\n".
   */
  predicate Matches(name: string, prefix: string) {
    && |prefix| < |name|
    && name[..|prefix|] == prefix
    && (|| IsDigits(name[|prefix|..])
        || (name[|name| - 1] == '\n' && IsDigits(name[|prefix|..|name| - 1])))
  }

  /** The number captured by the digits group of a matching name. */
  function MatchedNumber(name: string, prefix: string): nat
    requires Matches(name, prefix)
  {
    if IsDigits(name[|prefix|..]) then DigitsValue(name[|prefix|..])
    else DigitsValue(name[|prefix|..|name| - 1])
  }

  /** A child that takes part in the scan: a directory whose name matches. */
  predicate Counted(e: DirEntry, prefix: string) {
    e.isDir && Matches(e.name, prefix)
  }

  /** Every name made of the prefix and digits matches, and captures the value of those digits. */
  lemma MatchesPrefixDigits(prefix: string, digits: string)
    requires IsDigits(digits)
    ensures Matches(prefix + digits, prefix)
    ensures MatchedNumber(prefix + digits, prefix) == DigitsValue(digits)
  {
    assert (prefix + digits)[..|prefix|] == prefix;
    assert (prefix + digits)[|prefix|..] == digits;
  }

  /** The largest number among the counted children, 0 when there is none. */
  function MaxFound(listing: seq<DirEntry>, prefix: string): (m: nat)
    ensures forall i :: 0 <= i < |listing| && Counted(listing[i], prefix) ==>
              MatchedNumber(listing[i].name, prefix) <= m
    ensures m == 0 || exists i :: 0 <= i < |listing| && Counted(listing[i], prefix) &&
                                  MatchedNumber(listing[i].name, prefix) == m
  {
    if listing == [] then 0
    else
      var init := listing[..|listing| - 1];
      var m := MaxFound(init, prefix);
      var e := listing[|listing| - 1];
      assert forall i :: 0 <= i < |init| ==> listing[i] == init[i];
      if Counted(e, prefix) && MatchedNumber(e.name, prefix) > m then MatchedNumber(e.name, prefix)
      else m
  }

  /** The scanning loop of `find_next_subfolder`: the largest N over the listing. */
  method ScanMaxFound(listing: seq<DirEntry>, prefix: string) returns (maxFound: nat)
    ensures maxFound == MaxFound(listing, prefix)
  {
    maxFound := 0;
    var i := 0;
    while i < |listing|
      invariant 0 <= i <= |listing|
      invariant maxFound == MaxFound(listing[..i], prefix)
    {
      assert listing[..i + 1][..i] == listing[..i];
      var p := listing[i];
      if p.isDir && Matches(p.name, prefix) {
        var n := MatchedNumber(p.name, prefix);
        if n > maxFound {
          maxFound := n;
        }
      }
      i := i + 1;
    }
    assert listing[..i] == listing;
  }

  /** The persisted counter for `key`, 1 when the map has none. */
  function Persisted(next: map<string, int>, key: string): int {
    if key in next then next[key] else 1
  }

  /**
   * The index `find_next_subfolder` allocates: the least integer that is at
   * least the persisted counter and above every counted child's number.
   */
  function NextIndex(next: map<string, int>, key: string, prefix: string, listing: seq<DirEntry>): (idx: int)
    ensures idx >= 1 && idx >= Persisted(next, key)
    ensures forall i :: 0 <= i < |listing| && Counted(listing[i], prefix) ==>
              MatchedNumber(listing[i].name, prefix) < idx
  {
    var start := Persisted(next, key);
    var maxFound := MaxFound(listing, prefix);
    if start >= maxFound + 1 then start else maxFound + 1
  }

  /**
   * No smaller index would do: the allocated index is the persisted counter,
   * or 1, or one more than the number of some counted child.
   */
  lemma NextIndexIsLeast(next: map<string, int>, key: string, prefix: string, listing: seq<DirEntry>)
    ensures var idx := NextIndex(next, key, prefix, listing);
            || idx == Persisted(next, key)
            || idx == 1
            || exists i :: 0 <= i < |listing| && Counted(listing[i], prefix) &&
                           MatchedNumber(listing[i].name, prefix) == idx - 1
  {
  }

  /** The name of the folder allocated with index `idx`. */
  function CandidateName(prefix: string, idx: int): string {
    prefix + IntToString(idx)
  }

  /** The allocated folder's name differs from the name of every directory already present. */
  lemma CandidateAvoidsExistingFolders(next: map<string, int>, key: string, prefix: string, listing: seq<DirEntry>)
    ensures forall i :: 0 <= i < |listing| && listing[i].isDir ==>
              listing[i].name != CandidateName(prefix, NextIndex(next, key, prefix, listing))
  {
    var idx := NextIndex(next, key, prefix, listing);
    MatchesPrefixDigits(prefix, NatToString(idx));
    forall i | 0 <= i < |listing| && listing[i].isDir
      ensures listing[i].name != CandidateName(prefix, idx)
    {
      if listing[i].name == CandidateName(prefix, idx) {
        assert Counted(listing[i], prefix);
        assert false;
      }
    }
  }

  /** The indices handed out for one base directory, call after call, each call seeing its own listing. */
  function Allocations(next: map<string, int>, key: string, prefix: string, listings: seq<seq<DirEntry>>): (idxs: seq<int>)
    ensures |idxs| == |listings|
    decreases |listings|
  {
    if listings == [] then []
    else
      var idx := NextIndex(next, key, prefix, listings[0]);
      [idx] + Allocations(next[key := idx + 1], key, prefix, listings[1..])
  }

  /**
   * Within one allocation lineage an index is never handed out twice: successive
   * allocations for the same base directory are strictly increasing and never
   * below the counter they started from, whatever the folders on disk are at
   * each call.
   */
  lemma {:induction false} AllocationsIncrease(next: map<string, int>, key: string, prefix: string, listings: seq<seq<DirEntry>>)
    ensures forall i, j :: 0 <= i < j < |listings| ==>
              Allocations(next, key, prefix, listings)[i] < Allocations(next, key, prefix, listings)[j]
    ensures forall i :: 0 <= i < |listings| ==> Allocations(next, key, prefix, listings)[i] >= Persisted(next, key)
    decreases |listings|
  {
    if listings != [] {
      var idx := NextIndex(next, key, prefix, listings[0]);
      var next' := next[key := idx + 1];
      var rest := Allocations(next', key, prefix, listings[1..]);
      var all := Allocations(next, key, prefix, listings);
      AllocationsIncrease(next', key, prefix, listings[1..]);
      assert all == [idx] + rest;
      assert Persisted(next', key) == idx + 1;
      assert forall k :: 0 <= k < |rest| ==> rest[k] > idx;
      assert forall k :: 0 < k < |all| ==> all[k] == rest[k - 1];
    }
  }

  /** Allocating for one base directory leaves the index of every other base directory as it was. */
  lemma OtherDirectoriesUnaffected(next: map<string, int>, key: string, other: string, prefix: string,
                                   listing: seq<DirEntry>, otherPrefix: string, otherListing: seq<DirEntry>)
    requires other != key
    ensures var next' := next[key := NextIndex(next, key, prefix, listing) + 1];
            NextIndex(next', other, otherPrefix, otherListing) == NextIndex(next, other, otherPrefix, otherListing)
  {
  }

  /** The settings object whose `next_index_by_dir` map the allocator updates in place. */
  class Settings {
    var nextIndexByDir: map<string, int>

    constructor (nextIndexByDir: map<string, int>)
      ensures this.nextIndexByDir == nextIndexByDir
    {
      this.nextIndexByDir := nextIndexByDir;
    }

    /**
     * `find_next_subfolder(base_dir, prefix, cfg)` with `baseKey` the resolved
     * base directory and `listing` its children: returns the new folder's path
     * and stores the index after it.
     */
    method FindNextSubfolder(baseKey: string, prefix: string, listing: seq<DirEntry>) returns (candidate: string)
      modifies this
      ensures candidate == JoinPath(baseKey, CandidateName(prefix, NextIndex(old(nextIndexByDir), baseKey, prefix, listing)))
      ensures nextIndexByDir == old(nextIndexByDir)[baseKey := NextIndex(old(nextIndexByDir), baseKey, prefix, listing) + 1]
    {
      var next := nextIndexByDir;
      var startIdx := if baseKey in next then next[baseKey] else 1;
      var maxFound := ScanMaxFound(listing, prefix);
      var idx := if startIdx >= maxFound + 1 then startIdx else maxFound + 1;
      assert idx == NextIndex(next, baseKey, prefix, listing);
      nextIndexByDir := next[baseKey := idx + 1];
      assert nextIndexByDir == old(nextIndexByDir)[baseKey := NextIndex(old(nextIndexByDir), baseKey, prefix, listing) + 1];
      candidate := JoinPath(baseKey, prefix + IntToString(idx));
    }
  }

  /**
   * A base holding `tape1` and `tape3`, with no counter stored for it, gets
   * `tape4`, and the counter becomes 5.
   */
  lemma TapeScenario()
    ensures var listing := [DirEntry("tape1", true), DirEntry("tape3", true)];
            var idx := NextIndex(map[], "/home/user/Videos", "tape", listing);
            && idx == 4
            && JoinPath("/home/user/Videos", CandidateName("tape", idx)) == "/home/user/Videos/tape4"
            && map[]["/home/user/Videos" := idx + 1]["/home/user/Videos"] == 5
  {
    var listing := [DirEntry("tape1", true), DirEntry("tape3", true)];
    MatchesPrefixDigits("tape", "1");
    MatchesPrefixDigits("tape", "3");
    assert "tape" + "1" == "tape1" && "tape" + "3" == "tape3";
    assert DigitsValue("3") == 3 by { assert "3"[..0] == ""; }
    assert DigitsValue("1") == 1 by { assert "1"[..0] == ""; }
    assert MaxFound(listing, "tape") == 3 by {
      assert listing[..1] == [DirEntry("tape1", true)];
      assert listing[..1][..0] == [];
    }
  }

  /**
   * Only directories are scanned: a regular file named `tape1` does not move
   * the index, so the allocated name can equal that file's name.
   */
  lemma FilesAreNotScanned()
    ensures var listing := [DirEntry("tape1", false)];
            CandidateName("tape", NextIndex(map[], "/v", "tape", listing)) == listing[0].name
  {
    var listing := [DirEntry("tape1", false)];
    assert MaxFound(listing, "tape") == 0 by { assert listing[..0] == []; }
  }
}
