/**
 * The model-viewer test page: a newest-first debug log capped at 100
 * entries, and the URL box whose contents are checked after trimming but
 * stored as typed. The clock is a parameter (`now`) of every operation that
 * stamps a log entry.
 */
module TestViewer {

  /** Log entries hold at most this many entries. */
  const MaxLogs: nat := 100

  datatype LogKind = Log | Error | Warn | Info

  datatype LogEntry = LogEntry(timestamp: int, message: string, kind: LogKind)

  datatype State = State(
    modelUrl: string,
    currentModelUrl: string,
    autoRotate: bool,
    showHelpers: bool,
    logs: seq<LogEntry>)

  const BlankUrlMessage: string := "Please enter a model URL"
  const LoadingPrefix: string := "Loading model: "
  const ClearedMessage: string := "Logs cleared"
  const InitializedMessage: string := "Test viewer initialized"
  const ReadyMessage: string := "Ready to load 3D models"

  /** The URLs of the page's test-model buttons. */
  const TestModelUrls: seq<string> := [
    ExampleModels + "walt/WaltHead.obj",
    ExampleModels + "female02/female02.obj",
    ExampleModels + "teapot/teapot.obj",
    "assets/3dmodel/pant.obj"
  ]

  /** Where the three hosted example models live. */
  const ExampleModels: string := "https://" + "raw.githubusercontent.com/mrdoob/three.js/dev/examples/models/obj/"

  /**
   * `addLog`: the new entry goes in front; when that makes the log longer
   * than `MaxLogs`, the oldest entry is dropped.
   */
  function AddLog(logs: seq<LogEntry>, e: LogEntry): (r: seq<LogEntry>)
    ensures |r| > 0 && r[0] == e
    ensures |r| == |logs| + 1 || |r| == |logs|
    ensures |logs| < MaxLogs ==> |r| == |logs| + 1
    ensures |logs| == MaxLogs ==> |r| == MaxLogs
    ensures |logs| <= MaxLogs ==> |r| <= MaxLogs
    ensures r[1..] == logs[..|r| - 1]
  {
    var pushed := [e] + logs;
    if |pushed| > MaxLogs then pushed[..|pushed| - 1] else pushed
  }

  /** ECMAScript white space and line terminators: what `String.prototype.trim` removes. */
  predicate IsJsWhitespace(c: char) {
    var n := c as int;
    || n == 0x09 || n == 0x0A || n == 0x0B || n == 0x0C || n == 0x0D || n == 0x20
    || n == 0xA0 || n == 0x1680 || (0x2000 <= n <= 0x200A) || n == 0x2028 || n == 0x2029
    || n == 0x202F || n == 0x205F || n == 0x3000 || n == 0xFEFF
  }

  predicate AllWhitespace(s: string) {
    forall i :: 0 <= i < |s| ==> IsJsWhitespace(s[i])
  }

  /** Drops leading white space: the result is a suffix, and only white space went. */
  function TrimStart(s: string): (r: string)
    ensures |r| <= |s| && r == s[|s| - |r|..]
    ensures forall i :: 0 <= i < |s| - |r| ==> IsJsWhitespace(s[i])
    ensures |r| > 0 ==> !IsJsWhitespace(r[0])
  {
    if |s| > 0 && IsJsWhitespace(s[0]) then
      var r := TrimStart(s[1..]);
      assert forall i :: 1 <= i < |s| ==> s[i] == s[1..][i - 1];
      r
    else s
  }

  /** Drops trailing white space: the result is a prefix, and only white space went. */
  function TrimEnd(s: string): (r: string)
    ensures |r| <= |s| && r == s[..|r|]
    ensures forall i :: |r| <= i < |s| ==> IsJsWhitespace(s[i])
    ensures |r| > 0 ==> !IsJsWhitespace(r[|r| - 1])
  {
    if |s| > 0 && IsJsWhitespace(s[|s| - 1]) then
      var r := TrimEnd(s[..|s| - 1]);
      assert forall i :: 0 <= i < |s| - 1 ==> s[i] == s[..|s| - 1][i];
      r
    else s
  }

  /**
   * `String.prototype.trim`: the slice of `s` left once the white space
   * before and after it is dropped; it neither starts nor ends with white space.
   */
  function Trim(s: string): (r: string)
    ensures |r| <= |s|
    ensures exists a :: SliceBetweenBlanks(s, r, a)
    ensures |r| > 0 ==> !IsJsWhitespace(r[0]) && !IsJsWhitespace(r[|r| - 1])
  {
    var t := TrimStart(s);
    var r := TrimEnd(t);
    TrimIsSlice(s, t, r);
    r
  }

  /** `r` is the part of `s` from `a` on, and everything of `s` before and after it is white space. */
  predicate SliceBetweenBlanks(s: string, r: string, a: nat) {
    && a + |r| <= |s|
    && r == s[a..a + |r|]
    && (forall i :: 0 <= i < a ==> IsJsWhitespace(s[i]))
    && (forall i :: a + |r| <= i < |s| ==> IsJsWhitespace(s[i]))
  }

  /** A prefix `r` of a suffix `t` of `s`, with white space before `t` and after `r` in it, lies between blanks. */
  lemma TrimIsSlice(s: string, t: string, r: string)
    requires |t| <= |s| && t == s[|s| - |t|..]
    requires forall i :: 0 <= i < |s| - |t| ==> IsJsWhitespace(s[i])
    requires |r| <= |t| && r == t[..|r|]
    requires forall i :: |r| <= i < |t| ==> IsJsWhitespace(t[i])
    ensures SliceBetweenBlanks(s, r, |s| - |t|)
  {
    var a := |s| - |t|;
    assert s[a..a + |r|] == t[..|r|];
    forall i | a + |r| <= i < |s| ensures IsJsWhitespace(s[i]) {
      assert s[i] == t[i - a];
    }
  }

  /** An all-white-space string trims to nothing from the front. */
  lemma {:induction false} TrimStartOfBlank(s: string)
    requires AllWhitespace(s)
    ensures TrimStart(s) == ""
  {
    if |s| > 0 {
      TrimStartOfBlank(s[1..]);
    }
  }

  /** Whatever trims to nothing was all white space. */
  lemma TrimmedEmptyIsBlank(s: string)
    requires Trim(s) == ""
    ensures AllWhitespace(s)
  {
    var t := TrimStart(s);
    assert forall i :: 0 <= i < |t| ==> IsJsWhitespace(t[i]);
    assert |t| == 0;
  }

  /** A URL is blank exactly when it is empty or all white space. */
  lemma TrimEmptyIffBlank(s: string)
    ensures Trim(s) == "" <==> AllWhitespace(s)
  {
    if AllWhitespace(s) {
      TrimStartOfBlank(s);
    }
    if Trim(s) == "" {
      TrimmedEmptyIsBlank(s);
    }
  }

  /** A URL whose first character is not white space is never blank. */
  lemma NotBlankWhenStartsVisible(s: string)
    requires |s| > 0 && !IsJsWhitespace(s[0])
    ensures Trim(s) != ""
  {
    TrimEmptyIffBlank(s);
  }

  /** The page is created, then `ngOnInit` seeds the log with two info entries. */
  function Init(t1: int, t2: int): (s: State)
    ensures s.modelUrl == "" && s.currentModelUrl == "" && s.autoRotate && s.showHelpers
    ensures s.logs == [LogEntry(t2, ReadyMessage, Info), LogEntry(t1, InitializedMessage, Info)]
  {
    var logs := AddLog(AddLog([], LogEntry(t1, InitializedMessage, Info)), LogEntry(t2, ReadyMessage, Info));
    State("", "", true, true, logs)
  }

  /**
   * `loadModel`: a blank URL logs an error and changes nothing else; any
   * other URL is logged and becomes the current one exactly as typed.
   */
  function LoadModel(s: State, now: int): (r: State)
    ensures AllWhitespace(s.modelUrl) ==>
              r == s.(logs := AddLog(s.logs, LogEntry(now, BlankUrlMessage, Error)))
    ensures !AllWhitespace(s.modelUrl) ==>
              && r.currentModelUrl == s.modelUrl
              && r.logs == AddLog(s.logs, LogEntry(now, LoadingPrefix + s.modelUrl, Info))
              && r.(currentModelUrl := s.currentModelUrl, logs := s.logs) == s
  {
    TrimEmptyIffBlank(s.modelUrl);
    if Trim(s.modelUrl) == "" then
      s.(logs := AddLog(s.logs, LogEntry(now, BlankUrlMessage, Error)))
    else
      s.(logs := AddLog(s.logs, LogEntry(now, LoadingPrefix + s.modelUrl, Info)),
         currentModelUrl := s.modelUrl)
  }

  /** `loadTestModel`: the URL box takes `url`, then the box is loaded. */
  function LoadTestModel(s: State, url: string, now: int): (r: State)
    ensures r == LoadModel(s.(modelUrl := url), now)
    ensures r.modelUrl == url
    ensures !AllWhitespace(url) ==> r.currentModelUrl == url
    ensures AllWhitespace(url) ==> r.currentModelUrl == s.currentModelUrl
    ensures AllWhitespace(url) ==> r.logs == AddLog(s.logs, LogEntry(now, BlankUrlMessage, Error))
    ensures !AllWhitespace(url) ==> r.logs == AddLog(s.logs, LogEntry(now, LoadingPrefix + url, Info))
    ensures r.(modelUrl := s.modelUrl, currentModelUrl := s.currentModelUrl, logs := s.logs) == s
  {
    LoadModel(s.(modelUrl := url), now)
  }

  /** `clearLogs`: the log is emptied and then records that it was. */
  function ClearLogs(s: State, now: int): (r: State)
    ensures r.logs == [LogEntry(now, ClearedMessage, Info)]
    ensures r.(logs := s.logs) == s
  {
    s.(logs := AddLog([], LogEntry(now, ClearedMessage, Info)))
  }

  /** The viewer is on the page exactly when a current URL is set. */
  predicate ViewerShown(s: State) {
    s.currentModelUrl != ""
  }

  lemma TestModelUrlsStartVisible()
    ensures forall k :: 0 <= k < |TestModelUrls| ==> |TestModelUrls[k]| > 0 && !IsJsWhitespace(TestModelUrls[k][0])
  {
    assert TestModelUrls[0][0] == 'h';
    assert TestModelUrls[1][0] == 'h';
    assert TestModelUrls[2][0] == 'h';
    assert TestModelUrls[3][0] == 'a';
  }

  /** Every test-model button brings up the viewer with that model's URL. */
  lemma TestModelButtonsLoad(s: State, k: nat, now: int)
    requires k < |TestModelUrls|
    ensures LoadTestModel(s, TestModelUrls[k], now).currentModelUrl == TestModelUrls[k]
    ensures ViewerShown(LoadTestModel(s, TestModelUrls[k], now))
  {
    TestModelUrlsStartVisible();
    TrimEmptyIffBlank(TestModelUrls[k]);
  }

  /** A load that is not refused always leaves the viewer shown. */
  lemma AcceptedLoadShowsViewer(s: State, now: int)
    requires !AllWhitespace(s.modelUrl)
    ensures ViewerShown(LoadModel(s, now))
  {
  }

  /** A URL load never takes the log past its cap. */
  lemma LoadModelKeepsLogBounded(s: State, now: int)
    requires |s.logs| <= MaxLogs
    ensures |LoadModel(s, now).logs| <= MaxLogs
  {
    if AllWhitespace(s.modelUrl) {
      assert LoadModel(s, now).logs == AddLog(s.logs, LogEntry(now, BlankUrlMessage, Error));
    } else {
      assert LoadModel(s, now).logs == AddLog(s.logs, LogEntry(now, LoadingPrefix + s.modelUrl, Info));
    }
  }

  /** No operation of the page takes the log past its cap. */
  lemma LogStaysBounded(s: State, url: string, now: int)
    requires |s.logs| <= MaxLogs
    ensures |LoadModel(s, now).logs| <= MaxLogs
    ensures |LoadTestModel(s, url, now).logs| <= MaxLogs
    ensures |ClearLogs(s, now).logs| <= MaxLogs
  {
    LoadModelKeepsLogBounded(s, now);
    LoadModelKeepsLogBounded(s.(modelUrl := url), now);
  }

  /** The entries of `es` logged one after another, so that the last of them ends up first. */
  function AddLogs(logs: seq<LogEntry>, es: seq<LogEntry>): seq<LogEntry> {
    if |es| == 0 then logs else AddLog(AddLogs(logs, es[..|es| - 1]), es[|es| - 1])
  }

  /** However many entries arrive, a log that starts within the cap stays within it. */
  lemma {:induction false} AddLogsBounded(logs: seq<LogEntry>, es: seq<LogEntry>)
    requires |logs| <= MaxLogs
    ensures |AddLogs(logs, es)| <= MaxLogs
    ensures |es| > 0 ==> AddLogs(logs, es)[0] == es[|es| - 1]
  {
    if |es| > 0 {
      AddLogsBounded(logs, es[..|es| - 1]);
    }
  }

  /** Once full, the log drops exactly its oldest entry for each new one. */
  lemma FullLogDropsOldest(logs: seq<LogEntry>, e: LogEntry)
    requires |logs| == MaxLogs
    ensures AddLog(logs, e) == [e] + logs[..MaxLogs - 1]
  {
  }
}
