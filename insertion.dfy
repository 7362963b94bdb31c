/** Text insertion bookkeeping (`insertion.rs`): which status an insertion
    attempt ends with, and the bounded list of recent insertions, newest first.
    The insertion itself (keyboard injection, clipboard) is an input. */
module Insertion {
  import opened Wrappers
  import opened Ints

  datatype InsertionStatus = Success | Fallback | Failure

  datatype InsertionRecord = InsertionRecord(text: string, status: InsertionStatus)

  /** `resolve_status`. */
  function ResolveStatus(directResult: Result<(), string>, fallbackEnabled: bool,
                         fallbackResult: Result<(), string>): (r: InsertionStatus)
    ensures r == Success <==> directResult.Ok?
    ensures r == Fallback <==> directResult.Err? && fallbackEnabled && fallbackResult.Ok?
    ensures r == Failure <==> directResult.Err? && !(fallbackEnabled && fallbackResult.Ok?)
  {
    if directResult.Ok? then Success
    else if fallbackEnabled && fallbackResult.Ok? then Fallback
    else Failure
  }

  /** The source's examples. */
  lemma StatusExamples()
    ensures ResolveStatus(Ok(()), true, Ok(())) == Success
    ensures ResolveStatus(Err("direct failed"), true, Ok(())) == Fallback
    ensures ResolveStatus(Err("direct failed"), true, Err("fallback failed")) == Failure
    ensures ResolveStatus(Err("direct failed"), false, Ok(())) == Failure
  {
  }

  /** `Vec::truncate`. */
  function Truncated<T>(s: seq<T>, max: nat): (r: seq<T>)
    ensures |r| == Min(|s|, max) && r == s[..|r|]
  {
    if |s| <= max then s else s[..max]
  }

  /** The list after `append_recent`. */
  function AppendedRecent(records: seq<InsertionRecord>, record: InsertionRecord, max: usize): seq<InsertionRecord> {
    Truncated([record] + records, max)
  }

  /** The new record comes first (when anything is kept), the list holds at most
      `max` records, and after the new one come the old ones, newest first, in
      their old order. */
  lemma AppendRecentRules(records: seq<InsertionRecord>, record: InsertionRecord, max: usize)
    ensures var r := AppendedRecent(records, record, max);
      && |r| == Min(|records| + 1, max)
      && (max > 0 ==> r[0] == record && r[1..] == records[..|r| - 1])
      && (max == 0 ==> r == [])
  {
    var r := AppendedRecent(records, record, max);
    if max > 0 {
      assert r[1..] == ([record] + records)[1..|r|];
      assert ([record] + records)[1..|r|] == records[..|r| - 1];
    }
  }

  /** However many records are appended, the list stays within its bound and
      the last one appended comes first. */
  lemma {:induction false} AppendKeepsBound(records: seq<InsertionRecord>, items: seq<InsertionRecord>, max: usize)
    requires |records| <= max
    ensures |AppendAll(records, items, max)| <= max
    ensures |items| > 0 && max > 0 ==> AppendAll(records, items, max)[0] == items[|items| - 1]
    decreases |items|
  {
    if items != [] {
      AppendKeepsBound(records, items[..|items| - 1], max);
    }
  }

  /** The list after appending each of `items` in turn. */
  function AppendAll(records: seq<InsertionRecord>, items: seq<InsertionRecord>, max: usize): seq<InsertionRecord>
    decreases |items|
  {
    if items == [] then records
    else AppendedRecent(AppendAll(records, items[..|items| - 1], max), items[|items| - 1], max)
  }

  /** The source's example: appending "four" to "one", "two", "three" with a
      bound of three gives "four", "one", "two". */
  lemma AppendExample()
    ensures var r := AppendedRecent([InsertionRecord("one", Success), InsertionRecord("two", Success),
                                     InsertionRecord("three", Success)], InsertionRecord("four", Fallback), 3);
      |r| == 3 && r[0].text == "four" && r[1].text == "one" && r[2].text == "two"
  {
  }

  /** The recent-insertions list the application keeps. */
  class RecentInsertions {
    var records: seq<InsertionRecord>

    constructor()
      ensures records == []
    {
      records := [];
    }

    /** `append_recent`: insert at the front, then truncate to `max`. */
    method AppendRecent(record: InsertionRecord, max: usize)
      modifies this
      ensures records == AppendedRecent(old(records), record, max)
    {
      records := [record] + records;
      if |records| > max {
        records := records[..max];
      }
    }
  }
}
