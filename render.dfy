/** The per-style loop (main.py:86-105) and the script as a whole. Every style
    is requested once, in list order; a 200 response is saved under the style's
    file name, anything else is reported and the loop moves on. The network,
    the clock, the file system and the console are not modelled as effects:
    responses and the clock reading are inputs, and the requests issued, the
    files written and the lines printed are results. */
module Render {
  import opened Wrappers
  import opened Config
  import opened Styles
  import opened Overlay
  import opened Request
  import opened Decimal
  import Timestamp

  /** One byte of a response body. */
  newtype byte = x: int | 0 <= x < 256

  /** What `requests.get` returns that the script looks at. */
  datatype Response = Response(status: int, content: seq<byte>, text: string)

  /** A file written by `open(output_file, "wb").write(response.content)`. */
  datatype SavedFile = SavedFile(name: string, content: seq<byte>)

  /** The lines the loop prints. */
  datatype Event =
    | Requesting(styleName: string)
    | Saved(fileName: string)
    | Failed(styleName: string, status: int, body: string)

  const StatusOk := 200

  /** The parts of the map request shared by all styles: the two markers, the
      encoded route overlay, the center at zoom 16, the 1280x800 size and the
      token. `encode` stands for `urllib.parse.quote(json.dumps(...))`. */
  function BannerPlan(start: Coord, finish: Coord, center: Coord, route: seq<Coord>,
                      encode: FeatureCollection -> string, token: string): MapPlan
  {
    MapPlan(StartMarker(start), FinishMarker(finish), encode(RouteOverlay(route)),
            CenterText(center, Zoom), SizeText(Width, Height), token)
  }

  /** For printed coordinates, an encoded overlay free of `,`, `/` and `?` and
      a token without `?`, every map request of the run reads back as its style
      id and the shared plan. */
  lemma BannerPlanFits(start: Coord, finish: Coord, center: Coord, route: seq<Coord>,
                       encode: FeatureCollection -> string, token: string)
    requires IsPrintedCoord(start) && IsPrintedCoord(finish) && IsPrintedCoord(center)
    requires var o := encode(RouteOverlay(route)); ',' !in o && '/' !in o && '?' !in o
    requires '?' !in token
    ensures PlanFits(BannerPlan(start, finish, center, route, encode, token))
  {
    MarkerFitsPrinted("circle", start);
    MarkerFitsPrinted("star", finish);
    PrintedCoordText(center);
    var z := Numeral(Zoom);
    assert '/' !in z && '?' !in z;
    assert CenterText(center, Zoom) == (center.lon + [','] + center.lat) + [','] + z;
    var w, h := Numeral(Width), Numeral(Height);
    assert '/' !in w && '?' !in w && '/' !in h && '?' !in h;
    assert SizeText(Width, Height) == w + ['x'] + h;
  }

  /** The file one style leaves behind: one file when its response is 200, none otherwise. */
  function FilesFor(styleId: string, response: Response, timestamp: string): seq<SavedFile>
  {
    if response.status == StatusOk
    then [SavedFile(FileName(StyleName(styleId), timestamp), response.content)]
    else []
  }

  /** The lines one style prints: the request line, then the saved or error line. */
  function EventsFor(styleId: string, response: Response, timestamp: string): seq<Event>
  {
    var name := StyleName(styleId);
    [Requesting(name)]
    + if response.status == StatusOk then [Saved(FileName(name, timestamp))]
      else [Failed(name, response.status, response.text)]
  }

  /** How many responses are 200. */
  function OkCount(responses: seq<Response>): nat
    decreases |responses|
  {
    if |responses| == 0 then 0
    else OkCount(responses[..|responses| - 1]) + if responses[|responses| - 1].status == StatusOk then 1 else 0
  }

  /** The files written for the styles, in style order; every one is named
      with the run's single timestamp. */
  function SavedFiles(styleIds: seq<string>, responses: seq<Response>, timestamp: string): (files: seq<SavedFile>)
    requires |styleIds| == |responses|
    ensures forall k :: 0 <= k < |files| ==> HasTimestamp(files[k].name, timestamp)
    decreases |styleIds|
  {
    if |styleIds| == 0 then []
    else
      var n := |styleIds| - 1;
      FileNameHasTimestamp(StyleName(styleIds[n]), timestamp);
      SavedFiles(styleIds[..n], responses[..n], timestamp) + FilesFor(styleIds[n], responses[n], timestamp)
  }

  /** The lines printed for the styles, in style order: two per style. */
  function EventLog(styleIds: seq<string>, responses: seq<Response>, timestamp: string): (log: seq<Event>)
    requires |styleIds| == |responses|
    ensures |log| == 2 * |styleIds|
    decreases |styleIds|
  {
    if |styleIds| == 0 then []
    else
      var n := |styleIds| - 1;
      EventLog(styleIds[..n], responses[..n], timestamp) + EventsFor(styleIds[n], responses[n], timestamp)
  }

  /** One pass of the loop body: the request for `styleId`, the file written
      when its response is 200, and the two lines printed. */
  method RenderStyle(styleId: string, plan: MapPlan, timestamp: string, response: Response)
    returns (url: string, saved: seq<SavedFile>, events: seq<Event>)
    ensures url == StaticUrl(styleId, plan)
    ensures saved == FilesFor(styleId, response, timestamp)
    ensures events == EventsFor(styleId, response, timestamp)
  {
    var styleName := StyleName(styleId);
    var outputFile := FileName(styleName, timestamp);
    url := StaticUrl(styleId, plan);
    events := [Requesting(styleName)];
    if response.status == StatusOk {
      saved := [SavedFile(outputFile, response.content)];
      events := events + [Saved(outputFile)];
    } else {
      saved := [];
      events := events + [Failed(styleName, response.status, response.text)];
    }
  }

  /** The files of the first `i + 1` styles extend those of the first `i`. */
  lemma SavedFilesStep(styleIds: seq<string>, responses: seq<Response>, timestamp: string, i: nat)
    requires |styleIds| == |responses| && i < |styleIds|
    ensures SavedFiles(styleIds[..i + 1], responses[..i + 1], timestamp)
            == SavedFiles(styleIds[..i], responses[..i], timestamp) + FilesFor(styleIds[i], responses[i], timestamp)
  {
    assert styleIds[..i + 1][..i] == styleIds[..i];
    assert responses[..i + 1][..i] == responses[..i];
  }

  /** The lines of the first `i + 1` styles extend those of the first `i`. */
  lemma EventLogStep(styleIds: seq<string>, responses: seq<Response>, timestamp: string, i: nat)
    requires |styleIds| == |responses| && i < |styleIds|
    ensures EventLog(styleIds[..i + 1], responses[..i + 1], timestamp)
            == EventLog(styleIds[..i], responses[..i], timestamp) + EventsFor(styleIds[i], responses[i], timestamp)
  {
    assert styleIds[..i + 1][..i] == styleIds[..i];
    assert responses[..i + 1][..i] == responses[..i];
  }

  /** Style i prints lines 2i and 2i+1 of the log: its request line, then the
      saved file or its failing status and body. */
  lemma {:induction false} EventLogAt(styleIds: seq<string>, responses: seq<Response>, timestamp: string, i: nat)
    requires |styleIds| == |responses| && i < |styleIds|
    ensures EventLog(styleIds, responses, timestamp)[2 * i..2 * i + 2] == EventsFor(styleIds[i], responses[i], timestamp)
    decreases |styleIds|
  {
    var n := |styleIds| - 1;
    if i < n {
      EventLogAt(styleIds[..n], responses[..n], timestamp, i);
    }
  }

  /** The map requests for the styles, one per style, in style order. */
  function StaticUrls(styleIds: seq<string>, plan: MapPlan): (urls: seq<string>)
    ensures |urls| == |styleIds|
    decreases |styleIds|
  {
    if |styleIds| == 0 then []
    else StaticUrls(styleIds[..|styleIds| - 1], plan) + [StaticUrl(styleIds[|styleIds| - 1], plan)]
  }

  lemma {:induction false} StaticUrlsAt(styleIds: seq<string>, plan: MapPlan)
    ensures forall i :: 0 <= i < |styleIds| ==> StaticUrls(styleIds, plan)[i] == StaticUrl(styleIds[i], plan)
    decreases |styleIds|
  {
    if |styleIds| > 0 {
      StaticUrlsAt(styleIds[..|styleIds| - 1], plan);
    }
  }

  lemma StaticUrlsStep(styleIds: seq<string>, plan: MapPlan, i: nat)
    requires i < |styleIds|
    ensures StaticUrls(styleIds[..i + 1], plan) == StaticUrls(styleIds[..i], plan) + [StaticUrl(styleIds[i], plan)]
  {
    assert styleIds[..i + 1][..i] == styleIds[..i];
  }

  /** Every map request of a run reads back as its own style id, in style
      order, and the plan shared by the run. */
  lemma StaticUrlsReadBack(styleIds: seq<string>, plan: MapPlan)
    requires PlanFits(plan)
    requires forall i :: 0 <= i < |styleIds| ==> '?' !in styleIds[i]
    ensures forall i :: 0 <= i < |styleIds| ==> StaticFields(StaticUrls(styleIds, plan)[i]) == Some((styleIds[i], plan))
  {
    StaticUrlsAt(styleIds, plan);
    forall i | 0 <= i < |styleIds|
      ensures StaticFields(StaticUrls(styleIds, plan)[i]) == Some((styleIds[i], plan))
    {
      StaticRoundTrip(styleIds[i], plan);
    }
  }

  /** The loop over the styles, in list order; a failed style does not stop
      the ones after it. */
  method RenderStyles(styleIds: seq<string>, plan: MapPlan, timestamp: string, responses: seq<Response>)
    returns (requests: seq<string>, files: seq<SavedFile>, log: seq<Event>)
    requires |responses| == |styleIds|
    ensures requests == StaticUrls(styleIds, plan)
    ensures files == SavedFiles(styleIds, responses, timestamp)
    ensures log == EventLog(styleIds, responses, timestamp)
  {
    requests, files, log := [], [], [];
    for i := 0 to |styleIds|
      invariant requests == StaticUrls(styleIds[..i], plan)
      invariant files == SavedFiles(styleIds[..i], responses[..i], timestamp)
      invariant log == EventLog(styleIds[..i], responses[..i], timestamp)
    {
      var url, saved, events := RenderStyle(styleIds[i], plan, timestamp, responses[i]);
      StaticUrlsStep(styleIds, plan, i);
      SavedFilesStep(styleIds, responses, timestamp, i);
      EventLogStep(styleIds, responses, timestamp, i);
      requests := requests + [url];
      files := files + saved;
      log := log + events;
    }
    assert styleIds[..|styleIds|] == styleIds;
    assert responses[..|responses|] == responses;
  }

  /** Saving is decided style by style: the files of two consecutive runs of
      the loop are those of the first followed by those of the second, whatever
      the first one's statuses were. */
  lemma {:induction false} SavedFilesAppend(ids1: seq<string>, rs1: seq<Response>,
                                            ids2: seq<string>, rs2: seq<Response>, timestamp: string)
    requires |ids1| == |rs1| && |ids2| == |rs2|
    ensures SavedFiles(ids1 + ids2, rs1 + rs2, timestamp)
            == SavedFiles(ids1, rs1, timestamp) + SavedFiles(ids2, rs2, timestamp)
    decreases |ids2|
  {
    if |ids2| == 0 {
      assert ids1 + ids2 == ids1 && rs1 + rs2 == rs1;
    } else {
      var n := |ids2| - 1;
      var ids, rs := ids1 + ids2, rs1 + rs2;
      assert ids[..|ids| - 1] == ids1 + ids2[..n];
      assert rs[..|rs| - 1] == rs1 + rs2[..n];
      assert ids[|ids| - 1] == ids2[n] && rs[|rs| - 1] == rs2[n];
      var last := FilesFor(ids2[n], rs2[n], timestamp);
      var front1, front2 := SavedFiles(ids1, rs1, timestamp), SavedFiles(ids2[..n], rs2[..n], timestamp);
      calc {
        SavedFiles(ids, rs, timestamp);
        SavedFiles(ids1 + ids2[..n], rs1 + rs2[..n], timestamp) + last;
        { SavedFilesAppend(ids1, rs1, ids2[..n], rs2[..n], timestamp); }
        (front1 + front2) + last;
        front1 + (front2 + last);
        front1 + SavedFiles(ids2, rs2, timestamp);
      }
    }
  }

  /** One file is written per 200 response. */
  lemma {:induction false} SavedFilesCount(styleIds: seq<string>, responses: seq<Response>, timestamp: string)
    requires |styleIds| == |responses|
    ensures |SavedFiles(styleIds, responses, timestamp)| == OkCount(responses)
    decreases |styleIds|
  {
    if |styleIds| > 0 {
      var n := |styleIds| - 1;
      SavedFilesCount(styleIds[..n], responses[..n], timestamp);
    }
  }

  /** The i-th style contributes exactly one file, between the files of the
      styles before it and those after it, when its status is 200, and nothing
      otherwise. */
  lemma SavedFilesAt(styleIds: seq<string>, responses: seq<Response>, timestamp: string, i: nat)
    requires |styleIds| == |responses| && i < |styleIds|
    ensures SavedFiles(styleIds, responses, timestamp)
            == SavedFiles(styleIds[..i], responses[..i], timestamp)
               + FilesFor(styleIds[i], responses[i], timestamp)
               + SavedFiles(styleIds[i + 1..], responses[i + 1..], timestamp)
  {
    var idsFront, rsFront := styleIds[..i + 1], responses[..i + 1];
    var idsBack, rsBack := styleIds[i + 1..], responses[i + 1..];
    SavedFilesStep(styleIds, responses, timestamp, i);
    SavedFilesAppend(idsFront, rsFront, idsBack, rsBack, timestamp);
    PrefixSuffix(styleIds, i + 1);
    PrefixSuffix(responses, i + 1);
  }

  lemma PrefixSuffix<T>(s: seq<T>, k: nat)
    requires k <= |s|
    ensures s[..k] + s[k..] == s
  {
  }

  /** Two styles whose first request succeeds and whose second fails: exactly
      one file is written, for the first style, and the second style's status
      and body are reported as the last line. */
  lemma OneOfTwoFails(first: string, second: string, ok: Response, failed: Response, timestamp: string)
    requires ok.status == StatusOk && failed.status != StatusOk
    ensures SavedFiles([first, second], [ok, failed], timestamp)
            == [SavedFile(FileName(StyleName(first), timestamp), ok.content)]
    ensures EventLog([first, second], [ok, failed], timestamp)[3]
            == Failed(StyleName(second), failed.status, failed.text)
  {
    assert [first, second][..1] == [first] && [ok, failed][..1] == [ok];
    assert [first][..0] == [] && [ok][..0] == [];
  }

  /** Every file of a run reads back as the short name of one of its styles
      and the run's one timestamp. */
  lemma {:induction false} SavedFilesShareTimestamp(styleIds: seq<string>, responses: seq<Response>,
                                                    timestamp: string, k: nat)
    requires |styleIds| == |responses| && |timestamp| == Timestamp.Width
    requires k < |SavedFiles(styleIds, responses, timestamp)|
    ensures var name := SavedFiles(styleIds, responses, timestamp)[k].name;
      FileNameFields(name).Some? && FileNameFields(name).value.1 == timestamp
    decreases |styleIds|
  {
    var n := |styleIds| - 1;
    var front := SavedFiles(styleIds[..n], responses[..n], timestamp);
    var here := FilesFor(styleIds[n], responses[n], timestamp);
    assert SavedFiles(styleIds, responses, timestamp) == front + here;
    if k < |front| {
      SavedFilesShareTimestamp(styleIds[..n], responses[..n], timestamp, k);
    } else {
      FileNameRoundTrip(StyleName(styleIds[n]), timestamp);
    }
  }

  /** How a run ends: stopped by the settings check, or through the loop. */
  datatype RunResult =
    | Halted(missing: Setting)
    | Finished(requests: seq<string>, files: seq<SavedFile>, log: seq<Event>)

  /** The whole script. The settings are checked before any request is made;
      then the route is requested, the timestamp is taken once, and the loop
      renders every parsed style with the same plan and timestamp.
      `start`, `finish` and `center` are the printed coordinates, `route` the
      geometry the Directions API returned, `now` the clock reading and
      `responses` the Static Images API's answers, one per style. */
  method Run(env: Env, start: Coord, finish: Coord, center: Coord, route: seq<Coord>,
             encode: FeatureCollection -> string, now: Timestamp.DateTime, responses: seq<Response>)
    returns (result: RunResult)
    requires now.Valid()
    requires !Missing(env.styles) ==> |responses| == |ParseStyles(env.styles.value)|
    ensures Validate(env).Fail? <==> result.Halted?
    ensures Validate(env).Fail? ==> result.missing == Validate(env).error
    ensures result.Finished? ==>
      var token, ids := env.mapboxToken.value, ParseStyles(env.styles.value);
      var plan := BannerPlan(start, finish, center, route, encode, token);
      var ts := Timestamp.Format(now);
      && result.requests == [DirectionsUrl(start, finish, token)] + StaticUrls(ids, plan)
      && result.files == SavedFiles(ids, responses, ts)
      && result.log == EventLog(ids, responses, ts)
  {
    var check := Validate(env);
    if check.Fail? {
      return Halted(check.error);
    }
    var token, ids := env.mapboxToken.value, ParseStyles(env.styles.value);
    var directions := DirectionsUrl(start, finish, token);
    var plan := BannerPlan(start, finish, center, route, encode, token);
    var timestamp := Timestamp.Format(now);
    var requests, files, log := RenderStyles(ids, plan, timestamp, responses);
    result := Finished([directions] + requests, files, log);
  }
}
