/**
 Ingesting `events.jsonl` into the decision table: tailing, rotation by rename,
 failed segments, crash and restart. Hooks append through handles they opened on
 `events.jsonl`, so a line can land in a file that has been renamed since.
 */
module Ingest {
  import opened Lists

  const EVENTS_LOG_MAX_BYTES: nat := 16 * 1024 * 1024

  /** A line is a decision with its deduplication key, another event, or not JSON at all. */
  datatype Line = Malformed(size: nat) | Other(size: nat) | Decision(key: nat, size: nat)

  predicate Decides(line: Line, key: nat) { line.Decision? && line.key == key }

  ghost predicate Mentions(lines: seq<Line>, key: nat) { exists line :: line in lines && Decides(line, key) }

  function TotalBytes(lines: seq<Line>): nat {
    if lines == [] then 0 else TotalBytes(lines[..|lines| - 1]) + lines[|lines| - 1].size
  }

  /** Insert-if-absent: the table lists its keys in insertion order. */
  function Insert(table: seq<nat>, key: nat): (t: seq<nat>)
    ensures key in t && (forall k :: k in t <==> k in table || k == key)
    ensures NoRepeats(table) ==> NoRepeats(t)
  {
    if key in table then table else table + [key]
  }

  predicate NoRepeats(table: seq<nat>) {
    forall i, j :: 0 <= i < j < |table| ==> table[i] != table[j]
  }

  function IngestLine(table: seq<nat>, line: Line): (t: seq<nat>)
    ensures forall k :: k in t <==> k in table || Decides(line, k)
    ensures NoRepeats(table) ==> NoRepeats(t)
  {
    if line.Decision? then Insert(table, line.key) else table
  }

  ghost predicate Recorded(table: seq<nat>, line: Line) { line.Decision? ==> line.key in table }

  /** The import stops at position `i`: reading on fails there, or the database refuses that decision. */
  predicate StopsAt(lines: seq<Line>, readOk: nat -> bool, dbOk: nat -> bool, i: nat) {
    !readOk(i) || (i < |lines| && lines[i].Decision? && !dbOk(i))
  }

  /**
   Read a whole file into the table. Malformed JSON is skipped. Failing to read
   or decode what comes at position `i` (`!readOk(i)`, the end of the file
   included) or a database error on line `i` (`!dbOk(i)`) stops the import.
   */
  method ReimportAll(lines: seq<Line>, table: seq<nat>, readOk: nat -> bool, dbOk: nat -> bool)
    returns (t: seq<nat>, count: nat, ok: bool)
    requires NoRepeats(table)
    ensures NoRepeats(t) && table <= t && count == |t| - |table|
    ensures forall k :: k in t ==> k in table || Mentions(lines, k)
    ensures ok ==> forall i :: 0 <= i < |lines| ==> Recorded(t, lines[i])
    ensures ok <==>
      && (forall i :: 0 <= i <= |lines| ==> readOk(i))
      && (forall i :: 0 <= i < |lines| && lines[i].Decision? ==> dbOk(i))
    ensures !ok ==> exists i :: 0 <= i <= |lines| && StopsAt(lines, readOk, dbOk, i)
                                && forall j :: 0 <= j < i ==> Recorded(t, lines[j])
  {
    t, count, ok := table, 0, true;
    var i := 0;
    while readOk(i) && i < |lines|
      invariant 0 <= i <= |lines| && ok
      invariant NoRepeats(t) && table <= t && count == |t| - |table|
      invariant forall k :: k in t ==> k in table || Mentions(lines, k)
      invariant forall j :: 0 <= j < i ==> Recorded(t, lines[j])
      invariant forall j :: 0 <= j < i ==> readOk(j) && (lines[j].Decision? ==> dbOk(j))
      decreases |lines| - i
    {
      if lines[i].Decision? {
        if !dbOk(i) {
          assert StopsAt(lines, readOk, dbOk, i);
          ok := false;
          return;
        }
        if lines[i].key !in t {
          count := count + 1;
        }
      }
      assert lines[i] in lines;
      t := IngestLine(t, lines[i]);
      i := i + 1;
    }
    ok := readOk(i);
    assert !ok ==> StopsAt(lines, readOk, dbOk, i);
  }

  // ---------------------------------------------------------------------
  // Segment names
  // ---------------------------------------------------------------------

  predicate StartsWith(s: string, prefix: string) { |prefix| <= |s| && s[..|prefix|] == prefix }

  predicate EndsWith(s: string, suffix: string) {
    |suffix| <= |s| && s[|s| - |suffix|..] == suffix
  }

  predicate IsFailedName(name: string) { StartsWith(name, "events-") && EndsWith(name, ".failed.jsonl") }

  predicate IsNormalName(name: string) {
    StartsWith(name, "events-") && EndsWith(name, ".jsonl") && !IsFailedName(name)
  }

  predicate IsReapable(name: string) {
    if EndsWith(name, ".failed.jsonl") then false
    else if StartsWith(name, "decision_log.jsonl") then false
    else StartsWith(name, "wisphive.log") || (StartsWith(name, "events-") && EndsWith(name, ".jsonl"))
  }

  /** Of the files recovery reads, the pruner may delete exactly the normal segments. */
  lemma PrunerSparesFailedSegments(name: string)
    ensures IsNormalName(name) ==> IsReapable(name)
    ensures IsFailedName(name) ==> !IsReapable(name)
    ensures IsReapable(name) ==> IsNormalName(name) || StartsWith(name, "wisphive.log")
  {
    if IsNormalName(name) {
      assert name[0] == name[..7][0] == 'e';
      assert |name| >= 18 ==> name[..18][0] == 'e';
    }
  }

  datatype DirEntry = DirEntry(name: string, isFile: Option<bool>)

  predicate IsCandidate(entry: Option<DirEntry>) {
    entry.Some? && entry.value.isFile == Some(true)
    && (IsNormalName(entry.value.name) || IsFailedName(entry.value.name))
  }

  /** The candidates' names, in order, each with whether it is a failed segment's. */
  function Collected(entries: seq<Option<DirEntry>>): seq<(string, bool)> {
    if entries == [] then []
    else
      var n := |entries| - 1;
      Collected(entries[..n])
      + if IsCandidate(entries[n]) then [(entries[n].value.name, IsFailedName(entries[n].value.name))] else []
  }

  /** A regular file's entry, by its name: a segment, failed or not. */
  predicate IsSegmentEntry(entry: Option<DirEntry>, segment: (string, bool)) {
    var (name, failed) := segment;
    && entry == Some(DirEntry(name, Some(true)))
    && "events-" <= name && |name| >= 6 && name[|name| - 6..] == ".jsonl"
    && (failed <==> |name| >= 13 && name[|name| - 13..] == ".failed.jsonl")
  }

  lemma CandidateIff(entry: Option<DirEntry>, segment: (string, bool))
    ensures IsSegmentEntry(entry, segment) <==>
      IsCandidate(entry) && segment == (entry.value.name, IsFailedName(entry.value.name))
  {
    if entry.Some? && EndsWith(entry.value.name, ".failed.jsonl") {
      var name := entry.value.name;
      assert name[|name| - 6..] == name[|name| - 13..][7..];
      assert ".failed.jsonl"[7..] == ".jsonl";
    }
  }

  /** An unreadable entry, or one whose type is unreadable, is skipped and stops nothing. */
  method CollectRecoverySegments(entries: seq<Option<DirEntry>>) returns (segments: seq<(string, bool)>)
    ensures segments == Collected(entries)
    ensures forall x :: x in segments <==> exists i :: 0 <= i < |entries| && IsSegmentEntry(entries[i], x)
  {
    hide IsSegmentEntry;
    segments := [];
    var i := 0;
    while i < |entries|
      invariant 0 <= i <= |entries|
      invariant segments == Collected(entries[..i])
      invariant forall x :: x in segments <==> exists j :: 0 <= j < i && IsSegmentEntry(entries[j], x)
    {
      forall x ensures IsSegmentEntry(entries[i], x) <==>
        IsCandidate(entries[i]) && x == (entries[i].value.name, IsFailedName(entries[i].value.name))
      {
        CandidateIff(entries[i], x);
      }
      assert entries[..i + 1][..i] == entries[..i];
      if entries[i].Some? && entries[i].value.isFile == Some(true) {
        var name := entries[i].value.name;
        var isFailed := IsFailedName(name);
        if IsNormalName(name) || isFailed {
          segments := segments + [(name, isFailed)];
        }
      }
      i := i + 1;
    }
    assert entries[..i] == entries;
  }
}
