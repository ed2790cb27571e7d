/** The `/start` and `/stop` handlers of the webcam server: the single global handle of the
    running workout script guards both, and `/stop` reads the results file back with the
    parser of `Report` and logs the workout. */
module WebCamServer {
  import opened Common
  import opened Report

  /** A JSON reply: the HTTP status, its "message", and the parsed count and rate on success. */
  datatype Response = Response(status: nat, message: string, summary: Option<Summary>)

  /** A row handed to `insert_user_workout`. */
  datatype Workout = Workout(username: string, startDT: string, workout: string, summary: Summary)

  /** Python truthiness of a URL returned by the live-video lookup: present and not empty. */
  predicate Truthy(u: Option<string>) {
    u.Some? && u.value != ""
  }

  class Server {
    /** `ffmpeg_process`: the script launched by `/start` (None when no stream runs). */
    var process: Option<string>
    /** The texts handed to the server's `speak_text`, in order. */
    var announcements: seq<string>
    /** The workouts inserted into the database, in order. */
    var logged: seq<Workout>

    constructor ()
      ensures process == None && announcements == [] && logged == []
    {
      process := None;
      announcements := [];
      logged := [];
    }

    /** `/start`: launch `{workout}.py` unless a stream is already running. The live-video
        lookup after the launch is the pair of URLs given. */
    method Start(workout: string, embedUrl: Option<string>, watchUrl: Option<string>) returns (r: Response)
      modifies this
      ensures old(process).Some? ==>
                r == Response(400, "Stream is already running", None) &&
                process == old(process) && announcements == old(announcements)
      ensures old(process).None? ==> process == Some(workout + ".py") && r.status == 200 && r.summary == None
      ensures old(process).None? && Truthy(embedUrl) && Truthy(watchUrl) ==>
                r.message == "Stream started" &&
                announcements == old(announcements) + ["The video stream has started successfully."]
      ensures old(process).None? && !(Truthy(embedUrl) && Truthy(watchUrl)) ==>
                r.message == "Stream started, but no live video found yet" && announcements == old(announcements)
      ensures logged == old(logged)
    {
      if process.None? {
        process := Some(workout + ".py");
        if Truthy(embedUrl) && Truthy(watchUrl) {
          announcements := announcements + ["The video stream has started successfully."];
          return Response(200, "Stream started", None);
        } else {
          return Response(200, "Stream started, but no live video found yet", None);
        }
      } else {
        return Response(400, "Stream is already running", None);
      }
    }

    /** `/stop`: stop the running script, clear the handle, then read the results file (None
        when it does not exist) and log the workout. A count that `int()` refuses raises an
        exception the handler does not catch, which the web framework answers with 500. */
    method Stop(username: string, startDT: string, workout: string, resultFile: Option<seq<string>>)
      returns (r: Response)
      modifies this
      ensures old(process).None? ==>
                r == Response(400, "No stream is running", None) && process == None && logged == old(logged)
      // the handle is cleared before the file is read, so it is cleared whatever the file holds
      ensures old(process).Some? ==> process == None
      ensures old(process).Some? && resultFile.None? ==>
                r == Response(400, "Result file not found", None) && logged == old(logged)
      ensures old(process).Some? && resultFile.Some? && ParseLines(resultFile.value).BadCount? ==>
                r == Response(500, "Internal Server Error", None) && logged == old(logged)
      ensures old(process).Some? && resultFile.Some? && ParseLines(resultFile.value).Done? ==>
                var s := ParseLines(resultFile.value).summary;
                r == Response(200, "Stream stopped and workout logged", Some(s)) &&
                logged == old(logged) + [Workout(username, startDT, workout, s)]
      ensures announcements == old(announcements)
    {
      if process.Some? {
        process := None;
        if resultFile.None? {
          return Response(400, "Result file not found", None);
        }
        var parsed := ParseReport(resultFile.value);
        match parsed
        case BadCount(_) =>
          return Response(500, "Internal Server Error", None);
        case Done(s) =>
          logged := logged + [Workout(username, startDT, workout, s)];
          return Response(200, "Stream stopped and workout logged", Some(s));
      } else {
        return Response(400, "No stream is running", None);
      }
    }
  }
}
