/** Stand-ins for the two Node.js core modules the hand-written servers use:
    the `http` response object, which handlers drive step by step with
    `writeHead`, `write` and `end`, and the file system, which is an input
    here (file contents and read errors are abstract values). */
module Http {
  import opened Js

  type Headers = map<string, string>

  const OK := 200
  const NOT_FOUND := 404
  const INTERNAL_SERVER_ERROR := 500

  /** A header map with the single entry `Content-Type: mime`. */
  function ContentType(mime: string): (h: Headers)
    ensures h.Keys == {"Content-Type"} && h["Content-Type"] == mime
  {
    map["Content-Type" := mime]
  }

  /** A finished answer, as the client receives it. */
  datatype Reply = Reply(status: int, headers: Headers, body: string)

  /** What handling one request leaves behind: a finished answer, an exception
      that escaped the handler (which ends the process), or a response that was
      never ended. */
  datatype Outcome = Answered(reply: Reply) | Crashed | Pending

  /** One file as the process sees it: readable with some contents, or present
      but failing to read. */
  datatype FileEntry = Readable(contents: string) | Unreadable

  /** The files under the working directory, keyed by path without a leading "./". */
  type FileSystem = map<string, FileEntry>

  /** A path relative to the working directory with a leading "./" removed. */
  function Resolve(path: string): string {
    if |path| >= 2 && path[..2] == "./" then path[2..] else path
  }

  /** `fs.existsSync(path)`. */
  predicate Exists(fs: FileSystem, path: string) {
    Resolve(path) in fs
  }

  /** What the callback of `fs.readFile(path, cb)` receives. */
  datatype ReadResult = Data(contents: string) | ReadError

  function ReadFile(fs: FileSystem, path: string): (r: ReadResult)
    ensures r.Data? <==> Exists(fs, path) && fs[Resolve(path)].Readable?
    ensures r.Data? ==> r.contents == fs[Resolve(path)].contents
  {
    var p := Resolve(path);
    if p in fs && fs[p].Readable? then Data(fs[p].contents) else ReadError
  }

  /** The part of Node's `http.ServerResponse` the handlers use. The head is
      stored by `writeHead`, or implicitly by the first `write` or `end`; once
      it is stored a further `writeHead` throws (ERR_HTTP_HEADERS_SENT).
      `write(undefined)` throws, and so does a write after `end`; a second
      `end` does nothing, unless it carries a non-empty chunk, which counts
      as a write after `end`. */
  class ServerResponse {
    var statusCode: int
    var headers: Headers
    var headerStored: bool
    var body: string
    var finished: bool
    var writeHeadCalls: nat
    var endCalls: nat
    var threw: bool

    /** The state of a response handed to a request handler. */
    predicate Untouched()
      reads this
    {
      statusCode == OK && headers == map[] && !headerStored && body == "" &&
      !finished && writeHeadCalls == 0 && endCalls == 0 && !threw
    }

    /** What the client, or the process, observes. */
    function Observed(): Outcome
      reads this
    {
      if threw then Crashed
      else if finished then Answered(Reply(statusCode, headers, body))
      else Pending
    }

    constructor ()
      ensures Untouched()
    {
      statusCode, headers, headerStored, body := OK, map[], false, "";
      finished, writeHeadCalls, endCalls, threw := false, 0, 0, false;
    }

    /** `res.writeHead(code, hs)`; `ok` is false when it threw. */
    method WriteHead(code: int, hs: Headers) returns (ok: bool)
      modifies this
      ensures ok == !old(headerStored)
      ensures writeHeadCalls == old(writeHeadCalls) + 1
      ensures body == old(body) && finished == old(finished) && endCalls == old(endCalls)
      ensures headerStored
      ensures ok ==> statusCode == code && headers == hs && threw == old(threw)
      ensures !ok ==> statusCode == old(statusCode) && headers == old(headers) && threw
    {
      writeHeadCalls := writeHeadCalls + 1;
      if headerStored {
        threw := true;
        return false;
      }
      statusCode, headers, headerStored := code, hs, true;
      return true;
    }

    /** `res.write(chunk)`; `ok` is false when it threw. */
    method Write(chunk: Option<string>) returns (ok: bool)
      modifies this
      ensures ok == (chunk.Some? && !old(finished))
      ensures statusCode == old(statusCode) && headers == old(headers)
      ensures finished == old(finished) && writeHeadCalls == old(writeHeadCalls) && endCalls == old(endCalls)
      ensures ok ==> body == old(body) + chunk.value && headerStored && threw == old(threw)
      ensures !ok ==> body == old(body) && headerStored == old(headerStored) && threw
    {
      if chunk.None? || finished {
        threw := true;
        return false;
      }
      body, headerStored := body + chunk.value, true;
      return true;
    }

    /** `res.end(chunk)`, where `undefined` or `""` ends the response without
        more data; data after the response is finished throws like `write`. */
    method End(chunk: Option<string>)
      modifies this
      ensures endCalls == old(endCalls) + 1 && finished && headerStored
      ensures statusCode == old(statusCode) && headers == old(headers)
      ensures threw == (old(threw) || (old(finished) && chunk.Some? && chunk.value != ""))
      ensures writeHeadCalls == old(writeHeadCalls)
      ensures body == if old(finished) || chunk.None? then old(body) else old(body) + chunk.value
    {
      endCalls, headerStored := endCalls + 1, true;
      if !finished {
        if chunk.Some? {
          body := body + chunk.value;
        }
        finished := true;
      } else if chunk.Some? && chunk.value != "" {
        threw := true;
      }
    }
  }
}
