/**
 * The feedback store: a local list of submissions, newest first, with
 * submit, history, lookup, delete and clear, and a best-effort copy to a
 * remote collector. The web `localStorage` copy and the in-memory cache are
 * one store here; `fault` is the error a write raises (None: it works).
 * The clock, the random id fragment and the timestamp text are parameters.
 */
module Feedback {
  import opened Wrappers
  import opened Js
  import opened Text
  import opened Types
  import opened Lists

  /** The caller's part of a submission: what the report form sends. */
  datatype FeedbackData = FeedbackData(
    category: string, subject: string, description: string, rating: Option<int>, email: Option<string>)

  datatype DeviceInfo = DeviceInfo(platform: string, version: string, model: string)

  datatype FeedbackSubmission = FeedbackSubmission(
    data: FeedbackData, id: string, deviceInfo: DeviceInfo, timestamp: string, status: string)

  /** The browser's `navigator`, when there is one. */
  datatype Navigator = Navigator(userAgent: string, platform: string)

  /** The best-effort copy of a new submission: a JSON POST to the collector. */
  datatype SyncPost = SyncPost(url: string, body: FeedbackSubmission)

  /** `getDeviceInfo`: iOS for an iPhone or iPad user agent, else Android, else web; the agent is the version. */
  function DeviceInfoOf(nav: Option<Navigator>): (d: DeviceInfo)
    ensures var ua := if nav.Some? then nav.value.userAgent else "";
      (d.platform == "ios" <==> Contains(ua, "iPhone") || Contains(ua, "iPad"))
      && (d.platform == "android" <==> !Contains(ua, "iPhone") && !Contains(ua, "iPad") && Contains(ua, "Android"))
      && (d.platform == "web" <==> !Contains(ua, "iPhone") && !Contains(ua, "iPad") && !Contains(ua, "Android"))
      && d.version == ua
    ensures d.model == if nav.Some? then nav.value.platform else "Unknown"
  {
    var ua := if nav.Some? then nav.value.userAgent else "";
    var platform :=
      if Contains(ua, "iPhone") || Contains(ua, "iPad") then "ios"
      else if Contains(ua, "Android") then "android"
      else "web";
    DeviceInfo(platform, ua, if nav.Some? then nav.value.platform else "Unknown")
  }

  /** `fb_<milliseconds>_<random fragment>`. */
  function NewId(now: int, fragment: string): (id: string)
    ensures StartsWith(id, "fb_")
  {
    "fb_" + IntToString(now) + "_" + fragment
  }

  /** The list without the submissions whose id is `id`. */
  function WithoutId(entries: seq<FeedbackSubmission>, id: string): (r: seq<FeedbackSubmission>)
    ensures Sublist(r, entries)
    ensures forall i :: 0 <= i < |r| ==> r[i].id != id
    ensures forall i :: 0 <= i < |entries| && entries[i].id != id ==> entries[i] in r
  {
    Filter(entries, (f: FeedbackSubmission) => f.id != id)
  }

  /** The position of the first submission with id `id`. */
  function IndexOfFeedback(entries: seq<FeedbackSubmission>, id: string): (r: Option<nat>)
    ensures r.Some? ==> r.value < |entries| && entries[r.value].id == id
    ensures r.Some? ==> forall j :: 0 <= j < r.value ==> entries[j].id != id
    ensures r.None? ==> forall j :: 0 <= j < |entries| ==> entries[j].id != id
  {
    if entries == [] then None
    else if entries[0].id == id then Some(0)
    else
      match IndexOfFeedback(entries[1..], id)
      case None => None
      case Some(k) => Some(k + 1)
  }

  class FeedbackService {
    /** The stored submissions, newest first. */
    var entries: seq<FeedbackSubmission>
    /** The collector's base URL; empty when none is configured. */
    const syncUrl: string

    constructor (entries: seq<FeedbackSubmission>, syncUrl: string)
      ensures this.entries == entries && this.syncUrl == syncUrl
    {
      this.entries := entries;
      this.syncUrl := syncUrl;
    }

    /**
     * `submitFeedback`: the new submission, pending, goes first and the
     * previous ones follow unchanged; the answer's data is the object `{id}`. A failing
     * save changes nothing and answers the error's message. The copy to the
     * collector is returned as a request, sent only when a URL is
     * configured, and nothing about its fate reaches the answer.
     */
    method Submit(data: FeedbackData, now: int, fragment: string, timestamp: string, nav: Option<Navigator>, fault: Option<Exception>)
      returns (r: ApiResponse<Json>, sync: Option<SyncPost>)
      modifies this
      ensures fault.None? ==>
        var f := FeedbackSubmission(data, NewId(now, fragment), DeviceInfoOf(nav), timestamp, "pending");
        entries == [f] + old(entries)
        && r == ApiResponse(true, Some(Obj(map["id" := Str(f.id)])), Some(Str("Thank you for your feedback!")), None)
        && sync == (if syncUrl == "" then None else Some(SyncPost(syncUrl + "/api/feedback", f)))
      ensures fault.Some? ==>
        entries == old(entries) && sync.None?
        && r == Failure(Str(MessageOr(fault.value, "Failed to submit feedback")))
    {
      var f := FeedbackSubmission(data, NewId(now, fragment), DeviceInfoOf(nav), timestamp, "pending");
      if fault.Some? {
        r := Failure(Str(MessageOr(fault.value, "Failed to submit feedback")));
        sync := None;
        return;
      }
      entries := [f] + entries;
      sync := if syncUrl == "" then None else Some(SyncPost(syncUrl + "/api/feedback", f));
      r := ApiResponse(true, Some(Obj(map["id" := Str(f.id)])), Some(Str("Thank you for your feedback!")), None);
    }

    /** `getFeedbackHistory`: the whole store, newest first. */
    method History() returns (r: ApiResponse<seq<FeedbackSubmission>>)
      ensures r.success && r.data == Some(entries) && r.error.None?
    {
      r := Ok(entries);
    }

    /** `getFeedbackById`: the first submission with that id, or 'Feedback not found'. */
    function FeedbackById(id: string): (r: ApiResponse<FeedbackSubmission>)
      reads this
      ensures r.success <==> exists j :: 0 <= j < |entries| && entries[j].id == id
      ensures r.success ==>
        r.data.Some? && r.data.value.id == id && r.data.value == entries[IndexOfFeedback(entries, id).value]
      ensures !r.success ==> r == Failure(Str("Feedback not found"))
    {
      match IndexOfFeedback(entries, id)
      case None => Failure(Str("Feedback not found"))
      case Some(k) => Ok(entries[k])
    }

    /**
     * `deleteFeedback`: every submission with that id goes, the rest keep
     * their order; it succeeds whether or not anything matched. A failing
     * save changes nothing.
     */
    method Delete(id: string, fault: Option<Exception>) returns (r: ApiResponse<()>)
      modifies this
      ensures fault.None? ==>
        entries == WithoutId(old(entries), id) && r == ApiResponse(true, None, Some(Str("Feedback deleted successfully")), None)
      ensures fault.Some? ==>
        entries == old(entries) && r == Failure(Str(MessageOr(fault.value, "Failed to delete feedback")))
    {
      if fault.Some? {
        return Failure(Str(MessageOr(fault.value, "Failed to delete feedback")));
      }
      entries := WithoutId(entries, id);
      r := ApiResponse(true, None, Some(Str("Feedback deleted successfully")), None);
    }

    /** `clearAllFeedback`: the store is left empty, unless removing it fails. */
    method ClearAll(fault: Option<Exception>) returns (r: ApiResponse<()>)
      modifies this
      ensures fault.None? ==> entries == [] && r == ApiResponse(true, None, Some(Str("All feedback cleared")), None)
      ensures fault.Some? ==>
        entries == old(entries) && r == Failure(Str(MessageOr(fault.value, "Failed to clear feedback")))
    {
      if fault.Some? {
        return Failure(Str(MessageOr(fault.value, "Failed to clear feedback")));
      }
      entries := [];
      r := ApiResponse(true, None, Some(Str("All feedback cleared")), None);
    }
  }

  /** The submission just put first is what a lookup of its id finds, even if an older one shares the id. */
  lemma SubmittedIsFound(f: FeedbackSubmission, entries: seq<FeedbackSubmission>)
    ensures IndexOfFeedback([f] + entries, f.id) == Some(0)
  {
  }

  /** After a delete, no lookup of that id succeeds. */
  lemma DeletedIsGone(entries: seq<FeedbackSubmission>, id: string)
    ensures IndexOfFeedback(WithoutId(entries, id), id).None?
  {
  }

  /** Deleting a fresh submission's id right after it was put first gives back the previous list. */
  lemma {:induction false} DeleteUndoesSubmit(f: FeedbackSubmission, entries: seq<FeedbackSubmission>)
    requires forall i :: 0 <= i < |entries| ==> entries[i].id != f.id
    ensures WithoutId([f] + entries, f.id) == entries
  {
    var xs := [f] + entries;
    assert xs[1..] == entries;
    FilterKeepsAll(entries, (g: FeedbackSubmission) => g.id != f.id);
  }

  /** Deleting an id no submission carries leaves the list as it was. */
  lemma DeleteMissingKeepsAll(entries: seq<FeedbackSubmission>, id: string)
    requires forall i :: 0 <= i < |entries| ==> entries[i].id != id
    ensures WithoutId(entries, id) == entries
  {
    FilterKeepsAll(entries, (g: FeedbackSubmission) => g.id != id);
  }
}
