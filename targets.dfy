/**
 * Tab housekeeping in the browser client (lib/index.js): which remote
 * targets `flush` closes, and which listed target a page job binds to.
 */
module Targets {
  import opened Optional

  /** One entry of the protocol's target list, as `flush` reads it. */
  datatype TargetInfo = TargetInfo(targetId: string, url: string)

  /** One entry of the tab list the transport offers a job's target chooser. */
  datatype Tab = Tab(id: string, url: string)

  /** A browser-internal page: its url starts with `chrome://` or `about://` (so `about:blank` is not one). */
  predicate IsSpecial(url: string) {
    "chrome://" <= url || "about://" <= url
  }

  /** `about:blank`, the url new tabs open with, is not special; `chrome://` and `about://` pages are. */
  lemma SpecialExamples()
    ensures !IsSpecial("about:blank")
    ensures IsSpecial("chrome://newtab/") && IsSpecial("about://blank")
  {
    assert "about:blank"[6] != "about://"[6];
  }

  /** How many entries of `entries` are special. */
  function SpecialCount(entries: seq<TargetInfo>): nat {
    if entries == [] then 0
    else SpecialCount(entries[..|entries| - 1]) + (if IsSpecial(entries[|entries| - 1].url) then 1 else 0)
  }

  /**
   * The targets `flush` asks to close, in list order: the entry at each step
   * is kept only when it is special and no special entry came before it.
   */
  function Closed(entries: seq<TargetInfo>): seq<string> {
    if entries == [] then []
    else
      var before := entries[..|entries| - 1];
      var last := entries[|entries| - 1];
      Closed(before) + (if IsSpecial(last.url) && SpecialCount(before) == 0 then [] else [last.targetId])
  }

  /** The ids of `entries`, in order. */
  function Ids(entries: seq<TargetInfo>): (ids: seq<string>)
    ensures |ids| == |entries| && forall i :: 0 <= i < |entries| ==> ids[i] == entries[i].targetId
  {
    seq(|entries|, i requires 0 <= i < |entries| => entries[i].targetId)
  }

  /** `k` is the position of the first special entry. */
  predicate IsFirstSpecial(entries: seq<TargetInfo>, k: nat) {
    k < |entries| && IsSpecial(entries[k].url) && forall j :: 0 <= j < k ==> !IsSpecial(entries[j].url)
  }

  /**
   * The selection loop of `flush` (lib/index.js:96-124) over the list the
   * protocol returned; a reply without `targetInfos` reads as the empty list.
   */
  method SelectTargetsToClose(targetInfos: Option<seq<TargetInfo>>) returns (closes: seq<string>)
    ensures closes == Closed(if targetInfos.Some? then targetInfos.value else [])
  {
    var entries := if targetInfos.Some? then targetInfos.value else [];
    var specialCount := 0;
    closes := [];
    var i := 0;
    while i < |entries|
      invariant 0 <= i <= |entries|
      invariant specialCount == SpecialCount(entries[..i])
      invariant closes == Closed(entries[..i])
    {
      assert entries[..i + 1][..i] == entries[..i];
      var keep := false;
      if IsSpecial(entries[i].url) {
        specialCount := specialCount + 1;
        keep := specialCount == 1;
      }
      if !keep {
        closes := closes + [entries[i].targetId];
      }
      i := i + 1;
    }
    assert entries[..i] == entries;
  }

  lemma {:induction false} SpecialCountZero(entries: seq<TargetInfo>)
    ensures SpecialCount(entries) == 0 <==> forall j :: 0 <= j < |entries| ==> !IsSpecial(entries[j].url)
  {
    if entries != [] {
      var before := entries[..|entries| - 1];
      SpecialCountZero(before);
      assert forall j :: 0 <= j < |before| ==> before[j] == entries[j];
    }
  }

  /** With no special entry every target is closed, in list order. */
  lemma {:induction false} ClosedWithoutSpecial(entries: seq<TargetInfo>)
    requires forall j :: 0 <= j < |entries| ==> !IsSpecial(entries[j].url)
    ensures Closed(entries) == Ids(entries)
  {
    if entries != [] {
      var before := entries[..|entries| - 1];
      ClosedWithoutSpecial(before);
      assert Ids(entries) == Ids(before) + [entries[|entries| - 1].targetId];
    }
  }

  /** The first special entry is kept; every other target, later special ones included, is closed in list order. */
  lemma {:induction false} ClosedKeepsFirstSpecial(entries: seq<TargetInfo>, k: nat)
    requires IsFirstSpecial(entries, k)
    ensures Closed(entries) == Ids(entries[..k]) + Ids(entries[k + 1..])
  {
    var before := entries[..|entries| - 1];
    var last := entries[|entries| - 1];
    if k == |entries| - 1 {
      SpecialCountZero(before);
      ClosedWithoutSpecial(before);
      assert entries[..k] == before;
      assert entries[k + 1..] == [];
    } else {
      assert IsFirstSpecial(before, k);
      ClosedKeepsFirstSpecial(before, k);
      SpecialCountZero(before);
      assert before[k] == entries[k];
      assert before[..k] == entries[..k];
      assert Ids(entries[k + 1..]) == Ids(before[k + 1..]) + [last.targetId];
    }
  }

  /** `flush` closes every target but one when a special one exists, and every target otherwise. */
  lemma {:induction false} ClosedCount(entries: seq<TargetInfo>)
    ensures |Closed(entries)| == |entries| - (if SpecialCount(entries) > 0 then 1 else 0)
  {
    if entries != [] {
      ClosedCount(entries[..|entries| - 1]);
    }
  }

  /**
   * The target chooser a page job hands the transport (lib/index.js:174-192):
   * the first listed tab whose id is the job's target id, or none.
   */
  method FindTarget(tabs: seq<Tab>, targetId: string) returns (found: Option<Tab>)
    ensures found.None? <==> forall i :: 0 <= i < |tabs| ==> tabs[i].id != targetId
    ensures found.Some? ==> exists i :: 0 <= i < |tabs| && tabs[i] == found.value && tabs[i].id == targetId &&
                                        forall j :: 0 <= j < i ==> tabs[j].id != targetId
  {
    var i := 0;
    while i < |tabs|
      invariant 0 <= i <= |tabs|
      invariant forall j :: 0 <= j < i ==> tabs[j].id != targetId
    {
      if tabs[i].id == targetId {
        return Some(tabs[i]);
      }
      i := i + 1;
    }
    return None;
  }
}
