/** The exporters: each binds an endpoint path, a parser and a CSV path, and
    hands them to the paginated fetch. The top-tracks exporter builds both
    its endpoint and its file name from a time range. */
module Exporters {
  import opened Json
  import opened Parsers
  import opened Pagination

  datatype Option<T> = None | Some(value: T)

  /** One export job: the endpoint path, the parser, the output file. */
  datatype Exporter = Exporter(url: string, kind: Kind, csvPath: string)

  const LibraryExporter: Exporter :=
    Exporter("me/tracks", Library, "./data_out/all_tracks.csv")

  const RecentExporter: Exporter :=
    Exporter("me/player/recently-played?limit=10", Recent, "./data_out/recent.csv")

  /** The file the whole stream history is kept in. */
  const StreamHistoryPath: string := "./data_out/streamHistory.csv"

  const TopUrlHead: string := "me/top/tracks?time_range="
  const TopUrlTail: string := "_term"
  const TopPathHead: string := "./data_out/top_tracks_"
  const TopPathTail: string := ".csv"

  /** The top-tracks exporter for a time range (`short`, `medium` or `long`
      in the API's terms; any string is formatted in). */
  function TopTracksExporter(timeRange: string): (e: Exporter)
    ensures e.kind == TopTracks
  {
    Exporter(TopUrlHead + timeRange + TopUrlTail, TopTracks, TopPathHead + timeRange + TopPathTail)
  }

  /** The part of `s` between `head` and `tail`, when `s` has that form. */
  function Between(head: string, tail: string, s: string): (r: Option<string>)
    ensures r.Some? <==> |head| + |tail| <= |s| && s[..|head|] == head && s[|s| - |tail|..] == tail
    ensures r.Some? ==> s == head + r.value + tail
  {
    if |head| + |tail| <= |s| && s[..|head|] == head && s[|s| - |tail|..] == tail then
      var r := s[|head|..|s| - |tail|];
      assert s == s[..|head|] + r + s[|s| - |tail|..];
      Some(r)
    else None
  }

  /** The time range a top-tracks endpoint path was built from. */
  function TimeRangeOfUrl(url: string): Option<string> {
    Between(TopUrlHead, TopUrlTail, url)
  }

  /** The time range a top-tracks CSV path was built from. */
  function TimeRangeOfPath(path: string): Option<string> {
    Between(TopPathHead, TopPathTail, path)
  }

  /** Both templates can be read back: the endpoint path and the file name
      each determine the time range they were formatted from. */
  lemma TopTracksTemplatesRoundTrip(timeRange: string)
    ensures TimeRangeOfUrl(TopTracksExporter(timeRange).url) == Some(timeRange)
    ensures TimeRangeOfPath(TopTracksExporter(timeRange).csvPath) == Some(timeRange)
  {
  }

  /** Every path `TimeRangeOfUrl` accepts is the endpoint of the exporter for
      the range it reads off. */
  lemma TimeRangeOfUrlInverse(url: string)
    requires TimeRangeOfUrl(url).Some?
    ensures TopTracksExporter(TimeRangeOfUrl(url).value).url == url
  {
  }

  /** Distinct time ranges write distinct files, and no top-tracks file is the
      library, recent-plays or stream-history file. */
  lemma ExportPathsDistinct(t1: string, t2: string)
    ensures t1 != t2 ==> TopTracksExporter(t1).csvPath != TopTracksExporter(t2).csvPath
    ensures TopTracksExporter(t1).csvPath != LibraryExporter.csvPath
    ensures TopTracksExporter(t1).csvPath != RecentExporter.csvPath
    ensures TopTracksExporter(t1).csvPath != StreamHistoryPath
    ensures RecentExporter.csvPath != StreamHistoryPath && LibraryExporter.csvPath != StreamHistoryPath
  {
    TopTracksTemplatesRoundTrip(t1);
    TopTracksTemplatesRoundTrip(t2);
    var p := TopTracksExporter(t1).csvPath;
    assert p[11] == 't';
    assert LibraryExporter.csvPath[11] == 'a';
    assert RecentExporter.csvPath[11] == 'r';
    assert StreamHistoryPath[11] == 's';
  }

  /** Runs one export job. */
  method Export(server: Server, e: Exporter, ghost n: nat)
    returns (written: Result<CsvFile>, requested: seq<string>)
    requires VisitEnds(server, e.kind, Prefix + e.url, n)
    ensures requested == Download(server, e.kind, e.url, n).requested
    ensures |requested| > 0 && requested[0] == Prefix + e.url
    ensures written.Ok? <==> Download(server, e.kind, e.url, n).result.Ok?
    ensures written.Ok? ==> written.value == CsvFile(e.csvPath, Download(server, e.kind, e.url, n).result.value)
    ensures written.Err? ==> written.error == Download(server, e.kind, e.url, n).result.error
  {
    written, requested := GenericDownload(server, e.url, e.kind, e.csvPath, n);
    DownloadFollowsNextLinks(server, e.kind, e.url, n);
  }

  /** `download_library_tracks`: every saved track, to `all_tracks.csv`. */
  method DownloadLibraryTracks(server: Server, ghost n: nat)
    returns (written: Result<CsvFile>, requested: seq<string>)
    requires VisitEnds(server, Library, Prefix + "me/tracks", n)
    ensures |requested| > 0 && requested[0] == Prefix + "me/tracks"
    ensures written.Ok? ==> written.value.path == "./data_out/all_tracks.csv"
    ensures written.Ok? ==> forall i :: 0 <= i < |written.value.rows| ==> written.value.rows[i].Track?
    ensures requested == Download(server, Library, "me/tracks", n).requested
    ensures written.Ok? <==> Download(server, Library, "me/tracks", n).result.Ok?
    ensures written.Ok? ==> written.value.rows == Download(server, Library, "me/tracks", n).result.value
    ensures written.Err? ==> written.error == Download(server, Library, "me/tracks", n).result.error
  {
    written, requested := Export(server, LibraryExporter, n);
    if written.Ok? {
      DownloadRecordsOfKind(server, Library, "me/tracks", n);
    }
  }

  /** `download_recent_top(time_range)`: the top tracks over one time range. */
  method DownloadRecentTop(server: Server, timeRange: string, ghost n: nat)
    returns (written: Result<CsvFile>, requested: seq<string>)
    requires VisitEnds(server, TopTracks, Prefix + TopTracksExporter(timeRange).url, n)
    ensures |requested| > 0 && requested[0] == Prefix + "me/top/tracks?time_range=" + timeRange + "_term"
    ensures written.Ok? ==> written.value.path == "./data_out/top_tracks_" + timeRange + ".csv"
    ensures written.Ok? ==> forall i :: 0 <= i < |written.value.rows| ==> written.value.rows[i].Track?
    ensures requested == Download(server, TopTracks, TopTracksExporter(timeRange).url, n).requested
    ensures written.Ok? <==> Download(server, TopTracks, TopTracksExporter(timeRange).url, n).result.Ok?
    ensures written.Ok? ==> written.value.rows == Download(server, TopTracks, TopTracksExporter(timeRange).url, n).result.value
    ensures written.Err? ==> written.error == Download(server, TopTracks, TopTracksExporter(timeRange).url, n).result.error
  {
    written, requested := Export(server, TopTracksExporter(timeRange), n);
    assert Prefix + TopTracksExporter(timeRange).url == Prefix + "me/top/tracks?time_range=" + timeRange + "_term";
    if written.Ok? {
      DownloadRecordsOfKind(server, TopTracks, TopTracksExporter(timeRange).url, n);
    }
  }

  /** `download_recent_streams`: the ten latest plays, with their times. */
  method DownloadRecentStreams(server: Server, ghost n: nat)
    returns (written: Result<CsvFile>, requested: seq<string>)
    requires VisitEnds(server, Recent, Prefix + "me/player/recently-played?limit=10", n)
    ensures |requested| > 0 && requested[0] == Prefix + "me/player/recently-played?limit=10"
    ensures written.Ok? ==> written.value.path == "./data_out/recent.csv"
    ensures written.Ok? ==> forall i :: 0 <= i < |written.value.rows| ==> written.value.rows[i].Played?
    ensures requested == Download(server, Recent, "me/player/recently-played?limit=10", n).requested
    ensures written.Ok? <==> Download(server, Recent, "me/player/recently-played?limit=10", n).result.Ok?
    ensures written.Ok? ==> written.value.rows == Download(server, Recent, "me/player/recently-played?limit=10", n).result.value
    ensures written.Err? ==> written.error == Download(server, Recent, "me/player/recently-played?limit=10", n).result.error
  {
    written, requested := Export(server, RecentExporter, n);
    if written.Ok? {
      DownloadRecordsOfKind(server, Recent, "me/player/recently-played?limit=10", n);
    }
  }
}
