// Framing a forwarding failure as the error body a browser-automation
// client library understands.
//
// When the attempted path names a Selenium session (`/wd/hub/session/<id>`),
// the body takes the JSON Wire Protocol shape with that session id,
// `status: 13` and `state: 'error'`; otherwise it is a plain
// `{message, error}` object. Both are sent with HTTP status 500.
//
// The session id is found as the regular expression
// `\/wd\/hub\/session\/([a-z0-9]+)\/*` finds it: the leftmost occurrence of
// the prefix followed by at least one lower-case letter or digit, and the
// longest such run there (the trailing `\/*` matches the empty string, so the
// greedy run never gives characters back).
module ErrorFraming {
  import opened Wrappers

  const SESSION_PREFIX := "/wd/hub/session/"
  const SESSION_ERROR_STATUS := 13
  const ERROR_STATE := "error"
  const ERROR_STATUS_CODE := 500

  /** The character class `[a-z0-9]` (no case-insensitive flag). */
  predicate IsIdChar(c: char)
  {
    'a' <= c <= 'z' || '0' <= c <= '9'
  }

  /** The prefix occurs at `i` and is followed by at least one id character. */
  predicate MatchesAt(path: string, i: nat)
  {
    && i + |SESSION_PREFIX| < |path|
    && path[i..i + |SESSION_PREFIX|] == SESSION_PREFIX
    && IsIdChar(path[i + |SESSION_PREFIX|])
  }

  /**
   * What the regular expression promises: the match starts at `i`, no match
   * starts earlier, and `id` is the whole run of id characters after the prefix.
   */
  ghost predicate IsLeftmostCapture(path: string, i: nat, id: string)
  {
    && MatchesAt(path, i)
    && (forall j: nat :: j < i ==> !MatchesAt(path, j))
    && i + |SESSION_PREFIX| + |id| <= |path|
    && id == path[i + |SESSION_PREFIX|..i + |SESSION_PREFIX| + |id|]
    && |id| > 0
    && (forall k :: 0 <= k < |id| ==> IsIdChar(id[k]))
    && (i + |SESSION_PREFIX| + |id| == |path| || !IsIdChar(path[i + |SESSION_PREFIX| + |id|]))
  }

  /** The length of the longest run of id characters starting at `j`. */
  function IdRunLength(s: string, j: nat): (n: nat)
    requires j <= |s|
    ensures j + n <= |s|
    ensures forall k :: j <= k < j + n ==> IsIdChar(s[k])
    ensures j + n == |s| || !IsIdChar(s[j + n])
    decreases |s| - j
  {
    if j < |s| && IsIdChar(s[j]) then 1 + IdRunLength(s, j + 1) else 0
  }

  /** The leftmost position at or after `i` where the pattern matches. */
  function FindMatchFrom(path: string, i: nat): (r: Option<nat>)
    ensures r.Some? ==> i <= r.value && MatchesAt(path, r.value)
    ensures r.Some? ==> forall j: nat :: i <= j < r.value ==> !MatchesAt(path, j)
    ensures r.None? ==> forall j: nat :: i <= j ==> !MatchesAt(path, j)
    decreases |path| - i
  {
    if |path| <= i + |SESSION_PREFIX| then None
    else if MatchesAt(path, i) then Some(i)
    else FindMatchFrom(path, i + 1)
  }

  /** A successful match: where it starts, and the captured session id. */
  datatype SessionMatch = SessionMatch(index: nat, sessionId: string)

  /** `path.match(...)` for the session pattern. */
  function MatchSessionPath(path: string): (m: Option<SessionMatch>)
    ensures m.Some? ==> IsLeftmostCapture(path, m.value.index, m.value.sessionId)
    ensures m.None? <==> forall i: nat :: !MatchesAt(path, i)
  {
    match FindMatchFrom(path, 0)
    case None => None
    case Some(i) =>
      var start := i + |SESSION_PREFIX|;
      var n := IdRunLength(path, start);
      assert path[start..start + n][0] == path[start];
      Some(SessionMatch(i, path[start..start + n]))
  }

  /** Two maximal runs of id characters starting at the same place are equal. */
  lemma MaximalRunUnique(path: string, start: nat, a: string, b: string)
    requires start + |a| <= |path| && start + |b| <= |path|
    requires a == path[start..start + |a|] && b == path[start..start + |b|]
    requires forall k :: 0 <= k < |a| ==> IsIdChar(a[k])
    requires forall k :: 0 <= k < |b| ==> IsIdChar(b[k])
    requires start + |a| == |path| || !IsIdChar(path[start + |a|])
    requires start + |b| == |path| || !IsIdChar(path[start + |b|])
    ensures a == b
  {
  }

  /**
   * The regular expression's answer is unique, and it is exactly what
   * `MatchSessionPath` returns.
   */
  lemma MatchSessionPathExact(path: string, i: nat, id: string)
    ensures MatchSessionPath(path) == Some(SessionMatch(i, id)) <==> IsLeftmostCapture(path, i, id)
  {
  }

  datatype ErrorValue = ErrorValue(message: string, error: string)

  /** The two body shapes: the session-scoped wire-protocol error, and the plain one. */
  datatype ErrorBody =
    | SessionScoped(sessionId: string, status: int, value: ErrorValue, state: string)
    | Generic(message: string, error: string)
  {
    /** The `message` field, wherever the shape keeps it. */
    function Message(): string
    {
      match this
      case SessionScoped(_, _, value, _) => value.message
      case Generic(message, _) => message
    }

    /** The `error` field, wherever the shape keeps it. */
    function Error(): string
    {
      match this
      case SessionScoped(_, _, value, _) => value.error
      case Generic(_, error) => error
    }
  }

  datatype ErrorResponse = ErrorResponse(data: ErrorBody, statusCode: int)

  /**
   * `_frameErrorResponse`: the attempted path and the failure message become
   * a status-500 error response whose message is the failure message followed
   * by `". "` and the fixed request-failed text.
   */
  function FrameErrorResponse(path: string, errorMessage: string, reqFailedMsg: string): (r: ErrorResponse)
    ensures r.statusCode == ERROR_STATUS_CODE
    ensures r.data.Message() == errorMessage + ". " + reqFailedMsg
    ensures r.data.Error() == reqFailedMsg
    ensures r.data.SessionScoped? <==> exists i: nat :: MatchesAt(path, i)
    ensures r.data.SessionScoped? ==>
              && r.data.status == SESSION_ERROR_STATUS
              && r.data.state == ERROR_STATE
              && exists i: nat :: IsLeftmostCapture(path, i, r.data.sessionId)
  {
    var message := errorMessage + ". " + reqFailedMsg;
    match MatchSessionPath(path)
    case Some(m) =>
      assert IsLeftmostCapture(path, m.index, m.sessionId);
      ErrorResponse(SessionScoped(m.sessionId, SESSION_ERROR_STATUS, ErrorValue(message, reqFailedMsg), ERROR_STATE),
                    ERROR_STATUS_CODE)
    case None =>
      ErrorResponse(Generic(message, reqFailedMsg), ERROR_STATUS_CODE)
  }

  /**
   * A path naming a session is framed with exactly that session id, taken at
   * the leftmost occurrence and cut at the first character outside `[a-z0-9]`.
   */
  lemma FramesSessionId(path: string, i: nat, id: string, errorMessage: string, reqFailedMsg: string)
    requires IsLeftmostCapture(path, i, id)
    ensures FrameErrorResponse(path, errorMessage, reqFailedMsg).data
            == SessionScoped(id, SESSION_ERROR_STATUS,
                             ErrorValue(errorMessage + ". " + reqFailedMsg, reqFailedMsg), ERROR_STATE)
  {
    MatchSessionPathExact(path, i, id);
  }

  /**
   * A WebDriver command path `/wd/hub/session/<id><rest>` (the path a
   * direct-mode request carries), where `<id>` is a non-empty run of
   * `[a-z0-9]` and `<rest>` does not continue it, is framed with exactly `<id>`.
   */
  lemma SessionCommandPathFramed(id: string, rest: string, errorMessage: string, reqFailedMsg: string)
    requires |id| > 0 && forall k :: 0 <= k < |id| ==> IsIdChar(id[k])
    requires rest == [] || !IsIdChar(rest[0])
    ensures FrameErrorResponse(SESSION_PREFIX + id + rest, errorMessage, reqFailedMsg).data
            == SessionScoped(id, SESSION_ERROR_STATUS,
                             ErrorValue(errorMessage + ". " + reqFailedMsg, reqFailedMsg), ERROR_STATE)
  {
    var path := SESSION_PREFIX + id + rest;
    var start := |SESSION_PREFIX|;
    assert path[0..start] == SESSION_PREFIX;
    assert path[start..start + |id|] == id;
    assert path[start] == id[0];
    assert start + |id| < |path| ==> path[start + |id|] == rest[0];
    FramesSessionId(path, 0, id, errorMessage, reqFailedMsg);
  }

  /** Upper-case letters are outside the class, so such a path gets the generic body. */
  lemma ExampleUpperCaseIdIsGeneric(reqFailedMsg: string)
    ensures FrameErrorResponse("/wd/hub/session/AB12", "ETIMEDOUT", reqFailedMsg).data
            == Generic("ETIMEDOUT. " + reqFailedMsg, reqFailedMsg)
  {
    var path := "/wd/hub/session/AB12";
    forall i: nat ensures !MatchesAt(path, i) {
      if 0 < i && i + |SESSION_PREFIX| < |path| {
        assert path[i..i + |SESSION_PREFIX|][1] == path[i + 1] != SESSION_PREFIX[1];
      }
    }
    assert MatchSessionPath(path).None?;
    assert "ETIMEDOUT" + ". " + reqFailedMsg == "ETIMEDOUT. " + reqFailedMsg;
  }
}
