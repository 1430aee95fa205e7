/**
 * The incident-report form: a draft that a submit moves to "submitting"
 * (and a scheduled callback then to "submitted") once it has content and a
 * location, with handlers that reset or clear the fields.
 *
 * Attached files are represented by their names; the geolocation watcher's
 * callbacks are methods that the browser would call.
 */
module IncidentReport {
  import opened Wrappers
  import opened Text

  datatype ReportStatus = Draft | Submitting | Submitted

  datatype Location = Location(lat: real, lng: real)

  const CONTENT_ERROR: string := "Please provide a description or upload media before submitting."
  const GPS_ERROR: string := "Real-time location not available. Please enable GPS."
  const LOCATION_ERROR: string := "Unable to fetch your real-time location."

  /**
   * The error a submit reports, if any: the content check (a blank trimmed
   * description and no media) comes before the location check.
   */
  function SubmitError(description: string, media: seq<string>, location: Option<Location>): (e: Option<string>)
    ensures e == Some(CONTENT_ERROR) <==> Trim(description) == "" && |media| == 0
    ensures e == Some(GPS_ERROR) <==> (Trim(description) != "" || |media| > 0) && location.None?
    ensures e.None? <==> (Trim(description) != "" || |media| > 0) && location.Some?
  {
    if Trim(description) == "" && |media| == 0 then Some(CONTENT_ERROR)
    else if location.None? then Some(GPS_ERROR)
    else None
  }

  /** The badge colour of a severity level; unknown levels are muted. */
  function SeverityColor(level: string): (c: string)
    ensures level == "low" <==> c == "success"
    ensures level == "medium" <==> c == "warning"
    ensures level == "high" <==> c == "danger"
    ensures level !in {"low", "medium", "high"} <==> c == "muted"
  {
    match level
    case "low" => "success"
    case "medium" => "warning"
    case "high" => "danger"
    case _ => "muted"
  }

  /** Media alone is enough content: a blank description with an attachment passes the content check. */
  lemma MediaIsContent(description: string, file: string, location: Location)
    ensures SubmitError(description, [file], Some(location)).None?
  {
  }

  /** Whitespace alone is not content. */
  lemma BlankIsNoContent(location: Option<Location>)
    ensures SubmitError(" \t\n", [], location) == Some(CONTENT_ERROR)
  {
    assert Trim(" \t\n") == "";
  }

  class IncidentForm {
    var reportStatus: ReportStatus
    var incidentType: string
    var severity: string
    var description: string
    var media: seq<string>
    var location: Option<Location>
    var error: string
    /** Callbacks scheduled by a submit that have not run yet. */
    var pendingTimers: nat

    constructor()
      ensures reportStatus == Draft && incidentType == "" && severity == "" && description == ""
      ensures media == [] && location == None && error == "" && pendingTimers == 0
    {
      reportStatus := Draft;
      incidentType := "";
      severity := "";
      description := "";
      media := [];
      location := None;
      error := "";
      pendingTimers := 0;
    }

    /** The watcher reports a position. */
    method PositionChanged(lat: real, lng: real)
      modifies this`location
      ensures location == Some(Location(lat, lng))
    {
      location := Some(Location(lat, lng));
    }

    /** The watcher reports an error; the last known location is kept. */
    method PositionFailed()
      modifies this`error
      ensures error == LOCATION_ERROR
    {
      error := LOCATION_ERROR;
    }

    /** The description field's change handler. */
    method DescriptionChanged(text: string)
      modifies this`description
      ensures description == text
    {
      description := text;
    }

    /** `handleFileChange`: a selection replaces the media list; no selection keeps it. */
    method FileChange(files: Option<seq<string>>)
      modifies this`media
      ensures files.Some? ==> media == files.value
      ensures files.None? ==> media == old(media)
    {
      if files.Some? {
        media := files.value;
      }
    }

    /**
     * `handleSubmit`: the error is cleared, then set by a failing check,
     * which leaves the status as it was; a passing submit moves to
     * submitting and schedules the callback.
     */
    method Submit()
      modifies this`error, this`reportStatus, this`pendingTimers
      ensures SubmitError(description, media, location).Some? ==>
                error == SubmitError(description, media, location).value &&
                reportStatus == old(reportStatus) && pendingTimers == old(pendingTimers)
      ensures SubmitError(description, media, location).None? ==>
                error == "" && reportStatus == Submitting && pendingTimers == old(pendingTimers) + 1
    {
      error := "";
      var e := SubmitError(description, media, location);
      if e.Some? {
        error := e.value;
        return;
      }
      reportStatus := Submitting;
      pendingTimers := pendingTimers + 1;
    }

    /** The scheduled callback: the report is submitted. */
    method TimerFires()
      requires pendingTimers > 0
      modifies this`reportStatus, this`pendingTimers
      ensures reportStatus == Submitted && pendingTimers == old(pendingTimers) - 1
    {
      reportStatus := Submitted;
      pendingTimers := pendingTimers - 1;
    }

    /** "Submit Another Report": back to a draft with empty fields; location and error stay. */
    method SubmitAnother()
      modifies this`reportStatus, this`media, this`description, this`incidentType, this`severity
      ensures reportStatus == Draft && media == [] && description == "" && incidentType == "" && severity == ""
    {
      reportStatus := Draft;
      media := [];
      description := "";
      incidentType := "";
      severity := "";
    }

    /** "Clear": the fields and the error are emptied; the status stays. */
    method Clear()
      modifies this`incidentType, this`severity, this`description, this`media, this`error
      ensures incidentType == "" && severity == "" && description == "" && media == [] && error == ""
    {
      incidentType := "";
      severity := "";
      description := "";
      media := [];
      error := "";
    }
  }

  /**
   * From a fresh form with a position and a description, one submit and the
   * callback reach "submitted" without an error; without a position the form
   * stays a draft with the GPS error.
   */
  method SubmitScenario(lat: real, lng: real, text: string) returns (form: IncidentForm)
    requires Trim(text) != ""
    ensures form.reportStatus == Submitted && form.error == ""
  {
    form := new IncidentForm();
    form.DescriptionChanged(text);
    form.Submit();
    assert form.reportStatus == Draft && form.error == GPS_ERROR;
    form.PositionChanged(lat, lng);
    form.Submit();
    form.TimerFires();
  }
}
