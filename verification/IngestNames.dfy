/**
 The file names behind the segments of the ingest protocol: what a directory
 scan recognises as a segment, and what the pruner may delete.
 */
module IngestNames {
  import opened Lists
  import opened Ingest
  import opened IngestProtocol

  /** A rendered rotation time: digits, dashes and dots. */
  predicate IsStampText(s: string) {
    s != "" && forall i :: 0 <= i < |s| ==> '0' <= s[i] <= '9' || s[i] == '-' || s[i] == '.'
  }

  type Stamps = nat -> string

  /** Rotation times render as stamps, distinct ones differently. */
  ghost predicate Renders(text: Stamps) {
    && (forall n :: IsStampText(text(n)))
    && (forall m, n :: text(m) == text(n) ==> m == n)
  }

  const PREFIX: string := "events-"

  function Suffix(failed: bool): string { if failed then ".failed.jsonl" else ".jsonl" }

  function NameOf(text: Stamps, seg: Seg): string { PREFIX + text(seg.stamp) + Suffix(seg.failed) }

  /** Position of the last dot, or the length when there is none. */
  function LastDot(name: string): (i: nat)
    ensures i <= |name| && (i < |name| ==> name[i] == '.')
    ensures forall k :: 0 <= k < |name| && name[k] == '.' ==> k <= i < |name|
  {
    if name == "" then 0
    else if name[|name| - 1] == '.' then |name| - 1
    else
      var i := LastDot(name[..|name| - 1]);
      if i < |name| - 1 then i else |name|
  }

  function WithExtension(name: string, extension: string): string { name[..LastDot(name)] + "." + extension }

  // ---------------------------------------------------------------------
  // Names of segments
  // ---------------------------------------------------------------------

  lemma Joined(stem: string, suffix: string)
    ensures EndsWith(stem + suffix, suffix)
  {
    assert (stem + suffix)[|stem|..] == suffix;
  }

  lemma NameParts(t: string, failed: bool)
    requires IsStampText(t)
    ensures var name := PREFIX + t + Suffix(failed);
      && StartsWith(name, "events-") && EndsWith(name, ".jsonl")
      && (EndsWith(name, ".failed.jsonl") <==> failed)
  {
    var stem := PREFIX + t;
    var name := stem + Suffix(failed);
    assert name[..7] == "events-";
    if failed {
      Joined(stem, ".failed.jsonl");
      assert name == (stem + ".failed") + ".jsonl";
      Joined(stem + ".failed", ".jsonl");
    } else {
      Joined(stem, ".jsonl");
      NotFailed(stem, t[|t| - 1]);
    }
  }

  /** A stem ending in anything but a `d` does not look failed. */
  lemma NotFailed(stem: string, last: char)
    requires stem != "" && stem[|stem| - 1] == last && last != 'd'
    ensures !EndsWith(stem + ".jsonl", ".failed.jsonl")
  {
    var name := stem + ".jsonl";
    assert name[|stem| - 1] == last;
    assert |name| >= 13 ==> name[|name| - 13..][6] == name[|stem| - 1];
    assert ".failed.jsonl"[6] == 'd';
  }

  /** The scan takes a segment for exactly what it is. */
  lemma NamesClassified(text: Stamps, seg: Seg)
    requires Renders(text)
    ensures IsNormalName(NameOf(text, seg)) <==> !seg.failed
    ensures IsFailedName(NameOf(text, seg)) <==> seg.failed
  {
    NameParts(text(seg.stamp), seg.failed);
  }

  lemma NamesDiffer(text: Stamps, a: Seg, b: Seg)
    requires Renders(text) && NameOf(text, a) == NameOf(text, b)
    ensures a == b
  {
    NamesClassified(text, a);
    NamesClassified(text, b);
    hide IsNormalName, IsFailedName;
    var name := NameOf(text, a);
    var n := |name| - |Suffix(a.failed)|;
    assert name[7..n] == text(a.stamp) && name[7..n] == text(b.stamp);
  }

  /** The name a failed import gives a segment is that of its failed form. */
  lemma FailedName(text: Stamps, stamp: nat)
    ensures WithExtension(NameOf(text, Seg(stamp, false)), "failed.jsonl") == NameOf(text, Seg(stamp, true))
  {
    var stem := PREFIX + text(stamp);
    var name := stem + ".jsonl";
    assert name[|stem|] == '.';
    assert forall k :: |stem| < k < |name| ==> name[k] == ".jsonl"[k - |stem|] && name[k] != '.';
    assert LastDot(name) == |stem|;
    assert name[..|stem|] == stem;
    assert stem + "." + "failed.jsonl" == stem + ".failed.jsonl";
  }

  // ---------------------------------------------------------------------
  // Directories
  // ---------------------------------------------------------------------

  ghost predicate HasEntry(entries: seq<Option<DirEntry>>, name: string) {
    exists i :: 0 <= i < |entries| && entries[i] == Some(DirEntry(name, Some(true)))
  }

  ghost predicate IsSegmentName(text: Stamps, dir: map<Seg, nat>, name: string) {
    exists seg :: seg in dir && NameOf(text, seg) == name
  }

  /**
   A scan of the log directory: every segment shows up as a regular file,
   nothing else there is named like one, and no name shows up twice. Other
   files, directories and unreadable entries may be there as well.
   */
  ghost predicate Scans(entries: seq<Option<DirEntry>>, dir: map<Seg, nat>, text: Stamps) {
    && (forall seg :: seg in dir ==> HasEntry(entries, NameOf(text, seg)))
    && (forall i :: 0 <= i < |entries| && IsCandidate(entries[i]) ==>
          IsSegmentName(text, dir, entries[i].value.name))
    && (forall i, j :: 0 <= i < j < |entries| && entries[i].Some? && entries[j].Some? ==>
          entries[i].value.name != entries[j].value.name)
  }

  lemma {:induction false} CollectedMembers(entries: seq<Option<DirEntry>>, x: (string, bool))
    ensures x in Collected(entries) <==>
            exists i :: 0 <= i < |entries| && IsCandidate(entries[i])
                        && x == (entries[i].value.name, IsFailedName(entries[i].value.name))
  {
    hide IsCandidate, IsFailedName;
    if entries != [] {
      var n := |entries| - 1;
      CollectedMembers(entries[..n], x);
      assert forall i :: 0 <= i < n ==> entries[..n][i] == entries[i];
    }
  }

  lemma {:induction false} CollectedOnce(entries: seq<Option<DirEntry>>, x: (string, bool))
    requires forall i, j :: 0 <= i < j < |entries| && entries[i].Some? && entries[j].Some? ==>
      entries[i].value.name != entries[j].value.name
    ensures multiset(Collected(entries))[x] <= 1
  {
    hide IsFailedName;
    if entries != [] {
      var n := |entries| - 1;
      CollectedOnce(entries[..n], x);
      CollectedMembers(entries[..n], x);
    }
  }

  /** A segment is collected exactly when it is in the directory. */
  lemma CollectedIff(entries: seq<Option<DirEntry>>, dir: map<Seg, nat>, text: Stamps, seg: Seg)
    requires Renders(text) && Scans(entries, dir, text)
    ensures (NameOf(text, seg), seg.failed) in Collected(entries) <==> seg in dir
  {
    hide IsNormalName, IsFailedName, NameOf, Collected;
    var x := (NameOf(text, seg), seg.failed);
    CollectedMembers(entries, x);
    NamesClassified(text, seg);
    if seg in dir {
      assert HasEntry(entries, NameOf(text, seg));
    }
    if x in Collected(entries) {
      var i :| 0 <= i < |entries| && IsCandidate(entries[i])
               && x == (entries[i].value.name, IsFailedName(entries[i].value.name));
      assert IsSegmentName(text, dir, x.0);
      var other :| other in dir && NameOf(text, other) == x.0;
      NamesDiffer(text, other, seg);
    }
  }

  function Pairs(text: Stamps, todo: seq<Seg>): (r: seq<(string, bool)>)
    ensures |r| == |todo| && forall i :: 0 <= i < |r| ==> r[i] == (NameOf(text, todo[i]), todo[i].failed)
  {
    seq(|todo|, i requires 0 <= i < |todo| => (NameOf(text, todo[i]), todo[i].failed))
  }

  /** What was collected, put into some order, lists every segment of the directory exactly once. */
  lemma CollectedIsListing(entries: seq<Option<DirEntry>>, dir: map<Seg, nat>, text: Stamps, todo: seq<Seg>)
    requires Renders(text) && Scans(entries, dir, text)
    requires multiset(Pairs(text, todo)) == multiset(Collected(entries))
    ensures Listing(todo, dir)
  {
    hide NameOf, Collected, Renders, Scans;
    var pairs := Pairs(text, todo);
    forall x ensures x in pairs <==> x in Collected(entries) {
      assert x in pairs <==> x in multiset(pairs);
      assert x in Collected(entries) <==> x in multiset(Collected(entries));
    }
    forall seg ensures seg in todo <==> seg in dir {
      CollectedIff(entries, dir, text, seg);
      PairedIff(text, todo, seg);
    }
    assert (set seg | seg in todo) == dir.Keys;
    forall i, j | 0 <= i < j < |todo| ensures todo[i] != todo[j] {
      NamesOnceScanned(entries, dir, text, pairs[i]);
      if todo[i] == todo[j] { TwoCopies(pairs, i, j); }
    }
  }

  lemma PairedIff(text: Stamps, todo: seq<Seg>, seg: Seg)
    requires Renders(text)
    ensures (NameOf(text, seg), seg.failed) in Pairs(text, todo) <==> seg in todo
  {
    hide NameOf;
    var x := (NameOf(text, seg), seg.failed);
    if x in Pairs(text, todo) {
      var i :| 0 <= i < |todo| && Pairs(text, todo)[i] == x;
      NamesDiffer(text, todo[i], seg);
    }
    if seg in todo {
      var i :| 0 <= i < |todo| && todo[i] == seg;
      assert Pairs(text, todo)[i] == x;
    }
  }

  lemma NamesOnceScanned(entries: seq<Option<DirEntry>>, dir: map<Seg, nat>, text: Stamps, x: (string, bool))
    requires Scans(entries, dir, text)
    ensures multiset(Collected(entries))[x] <= 1
  {
    hide Collected, NameOf, IsCandidate;
    CollectedOnce(entries, x);
  }

  lemma TwoCopies<T>(s: seq<T>, i: nat, j: nat)
    requires i < j < |s| && s[i] == s[j]
    ensures multiset(s)[s[i]] >= 2
  {
    assert s == s[..i] + [s[i]] + s[i + 1..j] + [s[j]] + s[j + 1..];
  }

  // ---------------------------------------------------------------------
  // The protocol's guards, from the names
  // ---------------------------------------------------------------------

  /** Any order of what the scan collected may start the recovery. */
  lemma ScanStartsRecovery(s: State, entries: seq<Option<DirEntry>>, text: Stamps, todo: seq<Seg>)
    requires Renders(text) && Scans(entries, s.dir, text) && s.phase.Down?
    requires multiset(Pairs(text, todo)) == multiset(Collected(entries))
    ensures StartupEnabled(s, Start(todo))
  {
    hide NameOf, Collected, Renders, Scans, Listing;
    CollectedIsListing(entries, s.dir, text, todo);
  }

  /** Of the segments in the directory, the pruner may delete exactly those the protocol lets it. */
  lemma PrunesExactly(s: State, text: Stamps, seg: Seg)
    requires Renders(text) && s.phase.Pruning? && seg in s.dir
    ensures IsReapable(NameOf(text, seg)) <==> !seg.failed
    ensures IsReapable(NameOf(text, seg)) ==> StartupEnabled(s, Prune(seg.stamp))
  {
    NamesClassified(text, seg);
    hide NameOf;
    PrunerSparesFailedSegments(NameOf(text, seg));
  }
}
