/** The API request log line and the error handler's fallbacks (server/index.ts). Lengths are
    counted in characters; the ellipsis is one character, as it is one UTF-16 unit. */
module ServerLog {
  import opened Options
  import opened Strings

  const MaxLogLength: nat := 80
  const Ellipsis: char := '\U{2026}'

  /** `logLine.length > 80 ? logLine.slice(0, 79) + "…" : logLine` */
  function Truncate(line: string): (r: string)
    ensures |r| <= MaxLogLength
    ensures |line| <= MaxLogLength ==> r == line
    ensures |line| > MaxLogLength ==>
      |r| == MaxLogLength && r[..MaxLogLength - 1] == line[..MaxLogLength - 1] && r[MaxLogLength - 1] == Ellipsis
  {
    if |line| > MaxLogLength then line[..MaxLogLength - 1] + [Ellipsis] else line
  }

  /** Truncating twice is truncating once. */
  lemma TruncateIdempotent(line: string)
    ensures Truncate(Truncate(line)) == Truncate(line)
  {
  }

  /** `${req.method} ${path} ${res.statusCode} in ${duration}ms`, followed by ` :: <json>` when a
      JSON body was captured (`json` is its `JSON.stringify` text). */
  function RawLogLine(verb: string, path: string, status: nat, duration: nat, json: Option<string>)
    : (line: string)
    ensures StartsWith(line, verb + " " + path + " " + NatToString(status) + " in " + NatToString(duration) + "ms")
    ensures json.None? ==> |line| == |verb + " " + path + " " + NatToString(status) + " in " + NatToString(duration) + "ms"|
    ensures json.Some? ==> |line| >= |json.value| + 4 && line[|line| - |json.value|..] == json.value
    ensures json.Some? ==> line[|line| - |json.value| - 4..|line| - |json.value|] == " :: "
    ensures json.Some? ==>
      |line| == |verb + " " + path + " " + NatToString(status) + " in " + NatToString(duration) + "ms"| + 4 + |json.value|
  {
    var head := verb + " " + path + " " + NatToString(status) + " in " + NatToString(duration) + "ms";
    var line := if json.Some? then head + " :: " + json.value else head;
    assert line[..|head|] == head;
    assert json.Some? ==> line[|line| - |json.value|..] == json.value;
    assert json.Some? ==> line[|head|..|head| + 4] == " :: ";
    line
  }

  /** The line logged when a response finishes: only `/api` paths are logged, and no line is longer
      than 80 characters. */
  function LogLine(verb: string, path: string, status: nat, duration: nat, json: Option<string>)
    : (r: Option<string>)
    ensures r.Some? <==> StartsWith(path, "/api")
    ensures r.Some? ==> r.value == Truncate(RawLogLine(verb, path, status, duration, json))
    ensures r.Some? ==> |r.value| <= MaxLogLength
  {
    if StartsWith(path, "/api") then Some(Truncate(RawLogLine(verb, path, status, duration, json)))
    else None
  }

  /** A short line is logged exactly as built. */
  lemma ShortLineKept(verb: string, path: string, status: nat, duration: nat, json: Option<string>)
    requires StartsWith(path, "/api")
    requires |RawLogLine(verb, path, status, duration, json)| <= MaxLogLength
    ensures LogLine(verb, path, status, duration, json) == Some(RawLogLine(verb, path, status, duration, json))
  {
  }

  /** `err.status || err.statusCode || 500`: the first truthy (present and non-zero) status. */
  function ErrorStatus(status: Option<int>, statusCode: Option<int>): (r: int)
    ensures r != 0
    ensures status.Some? && status.value != 0 ==> r == status.value
    ensures (status.None? || status.value == 0) && statusCode.Some? && statusCode.value != 0 ==> r == statusCode.value
    ensures (status.None? || status.value == 0) && (statusCode.None? || statusCode.value == 0) ==> r == 500
  {
    if status.Some? && status.value != 0 then status.value
    else if statusCode.Some? && statusCode.value != 0 then statusCode.value
    else 500
  }

  /** `err.message || "Internal Server Error"`: a missing or empty message is replaced. */
  function ErrorMessage(message: Option<string>): (r: string)
    ensures r != ""
    ensures message.Some? && message.value != "" ==> r == message.value
    ensures message.None? || message.value == "" ==> r == "Internal Server Error"
  {
    if message.Some? && message.value != "" then message.value else "Internal Server Error"
  }
}
