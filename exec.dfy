/** The sequential prefix of `Client.Exec` in misc.go: validating the
    options, creating the exec instance, reading back its id, and preparing
    the `hijack2` call that the relay goroutine makes.

    The HTTP dispatcher `c.do` and `json.Unmarshal` are collaborators whose
    code is not part of this model; they are parameters here, and the model
    records which requests were handed to the dispatcher. */
module Exec {

  datatype Option<T> = None | Some(value: T)

  /** The identity of a caller-supplied `io.Reader` or `io.Writer`. */
  datatype Stream = Stream(handle: nat)

  /** `ExecOptions`: what the JSON body of the create request carries, plus
      the three caller streams (which are not serialised). */
  datatype ExecOptions = ExecOptions(
    user: string,
    privileged: bool,
    attachStdin: bool,
    attachStdout: bool,
    attachStderr: bool,
    tty: bool,
    command: seq<string>,
    container: string,
    outputStream: Stream,
    errorStream: Stream,
    inputStream: Stream)

  /** An error value produced by a collaborator (the dispatcher or the JSON
      decoder); `Exec` returns it unchanged. */
  datatype Failure = Failure(detail: string)

  /** The outcome of a collaborator call. */
  datatype Outcome<T> = Done(value: T) | Failed(failure: Failure)

  type Body = seq<bv8>

  /** A request handed to `c.do`: method, path and the value serialised as body. */
  datatype Request = Request(httpMethod: string, path: string, body: ExecOptions)

  /** The errors `Exec` returns before the relay starts. */
  datatype ExecError =
    | NoSuchContainer(id: string)     // `&NoSuchContainer{ID: ...}`
    | Propagated(failure: Failure)    // an error of `c.do` or `json.Unmarshal`, unchanged
    | Errorf(message: string)         // `fmt.Errorf(...)`

  const MissingIdMessage: string := "Couldn't get an operation id for the exec command"

  /** The arguments of the `c.hijack2` call made by the relay goroutine. */
  datatype HijackCall = HijackCall(
    httpMethod: string,
    path: string,
    setRawTerminal: bool,
    stdin: Stream,
    stdout: Stream,
    stderr: Stream,
    opts: ExecOptions)

  /** Where the prefix of `Exec` ends: an early error return, or the start of
      the relay for the exec instance `execId`. */
  datatype Step = Fail(error: ExecError) | Start(execId: string, hijack: HijackCall)

  /** The requests dispatched, in order, and the step reached. */
  datatype Prefix = Prefix(requests: seq<Request>, step: Step)

  const CreatePrefix: string := "/containers/"
  const CreateSuffix: string := "/exec"
  const StartPrefix: string := "/exec/"
  const StartSuffix: string := "/start"

  /** `pre + x + suf`, the shape of both request paths. */
  function Wrap(pre: string, x: string, suf: string): string
  {
    pre + x + suf
  }

  /** The inverse of `Wrap`: the text between `pre` and `suf`, if `p` has that shape. */
  function Unwrap(pre: string, suf: string, p: string): (x: Option<string>)
    ensures x.Some? ==> |x.value| == |p| - |pre| - |suf|
  {
    if |pre| + |suf| <= |p| && p[..|pre|] == pre && p[|p| - |suf|..] == suf
    then Some(p[|pre|..|p| - |suf|])
    else None
  }

  lemma UnwrapWrap(pre: string, x: string, suf: string)
    ensures Unwrap(pre, suf, Wrap(pre, x, suf)) == Some(x)
  {
    var p := Wrap(pre, x, suf);
    assert p[..|pre|] == pre;
    assert p[|p| - |suf|..] == suf;
    assert p[|pre|..|p| - |suf|] == x;
  }

  lemma WrapUnwrap(pre: string, suf: string, p: string)
    requires Unwrap(pre, suf, p).Some?
    ensures Wrap(pre, Unwrap(pre, suf, p).value, suf) == p
  {
    var x := Unwrap(pre, suf, p).value;
    assert p == p[..|pre|] + p[|pre|..|p| - |suf|] + p[|p| - |suf|..];
  }

  /** The create path `"/containers/" + name + "/exec"`. */
  function CreatePath(container: string): string
  {
    Wrap(CreatePrefix, container, CreateSuffix)
  }

  /** The start path `"/exec/" + id + "/start"`. */
  function StartPath(execId: string): string
  {
    Wrap(StartPrefix, execId, StartSuffix)
  }

  /** The create path names its container: the name can be read back from it. */
  lemma CreatePathNamesContainer(container: string)
    ensures Unwrap(CreatePrefix, CreateSuffix, CreatePath(container)) == Some(container)
  {
    UnwrapWrap(CreatePrefix, container, CreateSuffix);
  }

  /** The start path names its exec instance: the id can be read back from it. */
  lemma StartPathNamesExec(execId: string)
    ensures Unwrap(StartPrefix, StartSuffix, StartPath(execId)) == Some(execId)
  {
    UnwrapWrap(StartPrefix, execId, StartSuffix);
  }

  /** Distinct ids give distinct start paths. */
  lemma StartPathInjective(a: string, b: string)
    requires StartPath(a) == StartPath(b)
    ensures a == b
  {
    StartPathNamesExec(a);
    StartPathNamesExec(b);
  }

  /** Every path that splits as a start path is the start path of what it names. */
  lemma StartPathOnto(p: string)
    requires Unwrap(StartPrefix, StartSuffix, p).Some?
    ensures StartPath(Unwrap(StartPrefix, StartSuffix, p).value) == p
  {
    WrapUnwrap(StartPrefix, StartSuffix, p);
  }

  /** The create request for `opts`. */
  function CreateRequest(opts: ExecOptions): Request
  {
    Request("POST", CreatePath(opts.container), opts)
  }

  /** The `hijack2` call for exec instance `execId`; in TTY mode standard
      error is written to the output stream. */
  function StartHijack(opts: ExecOptions, execId: string): (h: HijackCall)
    ensures h.httpMethod == "POST" && h.path == StartPath(execId) && h.opts == opts
    ensures h.setRawTerminal == opts.tty
    ensures h.stdin == opts.inputStream && h.stdout == opts.outputStream
    ensures opts.tty ==> h.stderr == h.stdout
    ensures !opts.tty ==> h.stderr == opts.errorStream
  {
    var stderr := if opts.tty then opts.outputStream else opts.errorStream;
    HijackCall("POST", StartPath(execId), opts.tty, opts.inputStream, opts.outputStream, stderr, opts)
  }

  /** What the decoded create response yields: the exec id, or an error. */
  function AfterDecode(opts: ExecOptions, decoded: Outcome<string>): Step
  {
    match decoded
    case Failed(f) => Fail(Propagated(f))
    case Done(id) =>
      if id == "" then Fail(Errorf(MissingIdMessage))
      else Start(id, StartHijack(opts, id))
  }

  /** The prefix of `Exec`, up to the launch of the relay. `dispatch` stands
      for `c.do` and `unmarshal` for decoding the response's `Id` field
      (an absent field decodes to ""). */
  function ExecPrefix(opts: ExecOptions,
                      dispatch: Request -> Outcome<Body>,
                      unmarshal: Body -> Outcome<string>): (r: Prefix)
    // An empty container name fails before any request is made.
    ensures opts.container == "" <==> r.requests == []
    ensures opts.container == "" ==> r.step == Fail(NoSuchContainer(""))
    // Otherwise exactly one request is made: the create request.
    ensures opts.container != "" ==> r.requests == [CreateRequest(opts)]
    // Collaborator errors come back unchanged.
    ensures opts.container != "" && dispatch(CreateRequest(opts)).Failed? ==>
              r.step == Fail(Propagated(dispatch(CreateRequest(opts)).failure))
    ensures opts.container != "" && dispatch(CreateRequest(opts)).Done? &&
            unmarshal(dispatch(CreateRequest(opts)).value).Failed? ==>
              r.step == Fail(Propagated(unmarshal(dispatch(CreateRequest(opts)).value).failure))
    // The missing-id error is reported exactly when the create call and the
    // decode both succeeded but the id is empty.
    ensures r.step == Fail(Errorf(MissingIdMessage)) <==>
              opts.container != "" && dispatch(CreateRequest(opts)).Done? &&
              unmarshal(dispatch(CreateRequest(opts)).value) == Done("")
    // The relay starts exactly when a non-empty id was decoded, and for that id.
    ensures r.step.Start? <==>
              opts.container != "" && dispatch(CreateRequest(opts)).Done? &&
              unmarshal(dispatch(CreateRequest(opts)).value).Done? &&
              unmarshal(dispatch(CreateRequest(opts)).value).value != ""
    ensures r.step.Start? ==>
              r.step.execId == unmarshal(dispatch(CreateRequest(opts)).value).value &&
              r.step.hijack == StartHijack(opts, r.step.execId)
  {
    if opts.container == "" then
      Prefix([], Fail(NoSuchContainer(opts.container)))
    else
      var request := CreateRequest(opts);
      match dispatch(request)
      case Failed(f) => Prefix([request], Fail(Propagated(f)))
      case Done(body) => Prefix([request], AfterDecode(opts, unmarshal(body)))
  }

  /** Whatever the collaborators answer, a started relay carries a non-empty
      id and its hijack path names that id. */
  lemma StartedRelayNamesItsExec(opts: ExecOptions,
                                 dispatch: Request -> Outcome<Body>,
                                 unmarshal: Body -> Outcome<string>)
    requires ExecPrefix(opts, dispatch, unmarshal).step.Start?
    ensures var s := ExecPrefix(opts, dispatch, unmarshal).step;
            s.execId != "" &&
            Unwrap(StartPrefix, StartSuffix, s.hijack.path) == Some(s.execId)
  {
    var s := ExecPrefix(opts, dispatch, unmarshal).step;
    StartPathNamesExec(s.execId);
  }

  /** The create request names the container of the options. */
  lemma CreateRequestNamesContainer(opts: ExecOptions)
    ensures var q := CreateRequest(opts);
            q.httpMethod == "POST" && q.body == opts &&
            Unwrap(CreatePrefix, CreateSuffix, q.path) == Some(opts.container)
  {
    CreatePathNamesContainer(opts.container);
  }
}
