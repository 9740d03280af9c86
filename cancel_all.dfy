/**
 * The decision logic of cancel_all.py, the panic tool that cancels every
 * open order: which credential it uses (the control API, falling back to
 * live_auth.json), what it would send, how it shows the token in a dry
 * run, and which exit code each outcome gives.  The control API's reply,
 * the file's contents and the cancel request's outcome are parameters;
 * an exception that escapes `main` is exit code 1, as for any Python
 * script.
 */
module CancelAll {
  import opened PyValues
  import Control

  /** The command-line flags `--dry-run`, `--confirm` and `--from-control`. */
  datatype Args = Args(dryRun: bool, confirm: bool, fromControl: bool)

  /** The GET of `/control/liveauth`: it raised, or it answered with a status and (when it decoded) a JSON body. */
  datatype ControlReply = ControlUnreachable | ControlHttp(status: int, body: Option<Json>)

  /** `fetch_live_auth_from_control`: a credential, `ok=False`, or an exception. */
  datatype Fetch = Fetched(data: map<string, Json>) | FetchFailed | FetchCrash

  /** `data.get("jwtToken") or data.get("token") or None`. */
  function ControlJwt(data: map<string, Json>): Json {
    Or(Or(Get(data, "jwtToken"), Get(data, "token")), JNull)
  }

  /** The token the control API returned is a placeholder, not a usable token. */
  predicate MaskedToken(jwt: Json) {
    jwt.JStr? && |jwt.s| >= 3 && jwt.s[..3] == "***"
  }

  /**
   * `fetch_live_auth_from_control` after its GET: anything but a decoded
   * 200 answer fails; a body that is not a dict, or a truthy token that is
   * not a string, raises (`.get` or `.startswith` is missing); a token
   * starting with "***" fails; anything else is returned as is.
   */
  function FetchFromControl(reply: ControlReply): (r: Fetch)
    ensures r.Fetched? <==>
      reply.ControlHttp? && reply.status == 200 && reply.body.Some? && reply.body.value.JObj?
      && !MaskedToken(ControlJwt(reply.body.value.fields))
      && (Truthy(ControlJwt(reply.body.value.fields)) ==> ControlJwt(reply.body.value.fields).JStr?)
    ensures r.Fetched? ==> reply.body == Some(JObj(r.data))
    ensures r.FetchCrash? <==>
      reply.ControlHttp? && reply.status == 200 && reply.body.Some?
      && (!reply.body.value.JObj? || (Truthy(ControlJwt(reply.body.value.fields)) && !ControlJwt(reply.body.value.fields).JStr?))
  {
    if reply.ControlUnreachable? || reply.status != 200 || reply.body.None? then FetchFailed
    else
      match reply.body.value
      case JObj(data) =>
        var jwt := ControlJwt(data);
        if Truthy(jwt) && !jwt.JStr? then FetchCrash
        else if Truthy(jwt) && MaskedToken(jwt) then FetchFailed
        else Fetched(data)
      case _ => FetchCrash
  }

  /**
   * `load_live_auth_from_file`: ok exactly when the file decodes to a dict
   * holding `jwtToken` (the same test main.py applies), and then the dict
   * is returned.
   */
  function LoadLiveAuthFile(file: FileContent): (r: (bool, Option<map<string, Json>>))
    ensures r.0 <==> file.Parsed? && file.value.JObj? && "jwtToken" in file.value.fields
    ensures r.0 ==> r.1.Some? && file.value == JObj(r.1.value)
    ensures !r.0 ==> r.1.None?
  {
    var accepted := Control.AcceptedLiveAuth(file);
    (accepted.Some?, accepted)
  }

  /** `auth.get("sid") or auth.get("session") or auth.get("sidValue") if auth else None`. */
  function SidOf(auth: map<string, Json>): (sid: Json)
    ensures Truthy(sid) ==> sid == Get(auth, "sid") || sid == Get(auth, "session") || sid == Get(auth, "sidValue")
    ensures Truthy(Get(auth, "sid")) ==> sid == Get(auth, "sid")
    ensures !Truthy(Get(auth, "sid")) && Truthy(Get(auth, "session")) ==> sid == Get(auth, "session")
    ensures !Truthy(Get(auth, "sid")) && !Truthy(Get(auth, "session")) ==> sid == Get(auth, "sidValue")
  {
    if Truthy(JObj(auth)) then Or(Or(Get(auth, "sid"), Get(auth, "session")), Get(auth, "sidValue")) else JNull
  }

  /** `{"sid": sid} if sid else {}`. */
  function Payload(sid: Json): (p: map<string, Json>)
    ensures Truthy(sid) ==> p == map["sid" := sid]
    ensures !Truthy(sid) ==> p == map[]
  {
    if Truthy(sid) then map["sid" := sid] else map[]
  }

  /** A token of more than 20 characters is shown as its first 8, "..." and its last 8. */
  function MaskJwt(s: string): (r: string)
    ensures |s| <= 20 ==> r == s
    ensures |s| > 20 ==> |r| == 19 && r[..8] == s[..8] && r[8..11] == "..." && r[11..] == s[|s| - 8..]
    ensures |r| <= 20
  {
    if |s| > 20 then s[..8] + "..." + s[|s| - 8..] else s
  }

  /**
   * The dry run's `Authorization` line for a truthy token: a string is
   * masked; a list or dict has a length and is shown as is when short, but
   * slicing and concatenating a long one raises; `len` of a number or a
   * bool raises (None).
   */
  function DisplayJwt(jwt: Json): (r: Option<Json>)
    ensures jwt.JStr? ==> r == Some(JStr(MaskJwt(jwt.s)))
    ensures r.Some? ==> jwt.JStr? || jwt.JArr? || jwt.JObj?
  {
    match jwt
    case JStr(s) => Some(JStr(MaskJwt(s)))
    case JArr(a) => if |a| > 20 then None else Some(jwt)
    case JObj(m) => if |m| > 20 then None else Some(jwt)
    case _ => None
  }

  /** The cancel POST: it raised, or it answered with an HTTP status. */
  datatype CancelReply = CancelRaised | CancelHttp(status: int)

  datatype Source = ControlApi | AuthFile

  /** Where the credential comes from: an exception, none at all, or a dict and its source. */
  datatype Acquired = AcquireCrash | NoAuth | Auth(source: Source, auth: map<string, Json>)

  /** The credential `main` ends up with: the control API's if asked for and usable, otherwise the file's. */
  function Acquire(fromControl: bool, control: ControlReply, file: FileContent): (r: Acquired)
    ensures r == AcquireCrash <==> fromControl && FetchFromControl(control).FetchCrash?
    ensures r.Auth? && r.source == ControlApi <==> fromControl && FetchFromControl(control).Fetched?
    ensures r.Auth? && r.source == ControlApi ==> FetchFromControl(control) == Fetched(r.auth)
    ensures r.Auth? && r.source == AuthFile <==>
      (!fromControl || FetchFromControl(control).FetchFailed?) && LoadLiveAuthFile(file).0
    ensures r.Auth? && r.source == AuthFile ==> file == Parsed(JObj(r.auth))
  {
    var fetched := if fromControl then FetchFromControl(control) else FetchFailed;
    match fetched
    case FetchCrash => AcquireCrash
    case Fetched(data) => Auth(ControlApi, data)
    case FetchFailed =>
      var loaded := LoadLiveAuthFile(file);
      if loaded.0 then Auth(AuthFile, loaded.1.value) else NoAuth
  }

  /** The cancel request: its `Authorization` header and its JSON payload. */
  datatype Request = Request(authorization: Json, payload: map<string, Json>)

  /** What a run does: its exit code, the credential's source, the dry run's token line, and the request sent. */
  datatype Outcome = Outcome(code: int, source: Option<Source>, shown: Option<Json>, sent: Option<Request>)

  predicate Success(status: int) {
    200 <= status < 300
  }

  /**
   * `main()`.  Without `--confirm` the run is a dry run, whatever the
   * flags; the refusal with exit code 2 for a non-dry run without
   * `--confirm` therefore never happens.
   */
  method Run(args: Args, control: ControlReply, file: FileContent, cancel: CancelReply) returns (out: Outcome)
    ensures out.code in {0, 1, 3, 4, 5, 6}
    ensures out.code == 3 <==> Acquire(args.fromControl, control, file) == NoAuth
    ensures out.sent.Some? ==> args.confirm && !args.dryRun
    ensures out.shown.Some? ==> !(args.confirm && !args.dryRun)
    ensures match Acquire(args.fromControl, control, file)
      case AcquireCrash => out == Outcome(1, None, None, None)
      case NoAuth => out == Outcome(3, None, None, None)
      case Auth(source, auth) =>
        var jwt := Get(auth, "jwtToken");
        var request := Request(jwt, Payload(SidOf(auth)));
        out.source == Some(source)
        && (!Truthy(jwt) ==> out.code == 4 && out.sent.None? && out.shown.None?)
        && (Truthy(jwt) && !(args.confirm && !args.dryRun) ==>
              out.sent.None? && out.shown == DisplayJwt(jwt) && out.code == (if DisplayJwt(jwt).Some? then 0 else 1))
        && (Truthy(jwt) && args.confirm && !args.dryRun ==>
              out.sent == Some(request) && out.shown.None?
              && out.code == (match cancel
                              case CancelRaised => 6
                              case CancelHttp(status) => if Success(status) then 0 else 5))
  {
    var dryRun := args.dryRun;
    if !args.confirm && !args.dryRun {
      dryRun := true;
    }

    var auth: Option<map<string, Json>> := None;
    var source: Option<Source> := None;
    if args.fromControl {
      var fetched := FetchFromControl(control);
      if fetched.FetchCrash? {
        return Outcome(1, None, None, None);
      }
      if fetched.Fetched? {
        auth := Some(fetched.data);
        source := Some(ControlApi);
      }
    }
    if auth.None? {
      var loaded := LoadLiveAuthFile(file);
      if !loaded.0 {
        return Outcome(3, None, None, None);
      }
      auth := loaded.1;
      source := Some(AuthFile);
    }

    var jwt := Get(auth.value, "jwtToken");
    var sid := SidOf(auth.value);
    if !Truthy(jwt) {
      return Outcome(4, source, None, None);
    }
    var payload := Payload(sid);

    if dryRun {
      var shown := DisplayJwt(jwt);
      if shown.None? {
        return Outcome(1, source, None, None);
      }
      return Outcome(0, source, shown, None);
    }

    if !args.confirm {
      // exit code 2 (cancel_all.py:158-160): unreachable, since dryRun is set whenever confirm is not
      assert false;
    }

    var request := Request(jwt, payload);
    match cancel
    case CancelRaised =>
      return Outcome(6, source, None, Some(request));
    case CancelHttp(status) =>
      return Outcome(if Success(status) then 0 else 5, source, None, Some(request));
  }

  /**
   * The control API's own credential view (`/control/liveauth` of main.py)
   * always carries the "***REDACTED***" placeholder, so `--from-control` is
   * never usable against it and the run falls back to the file.
   */
  lemma MaskedViewFallsBack(ctrl: Control.Controller, file: FileContent)
    requires ctrl.MaskedLiveAuth().Some?
    ensures var reply := ControlHttp(200, Some(JObj(ctrl.MaskedLiveAuth().value)));
      FetchFromControl(reply) == FetchFailed
      && Acquire(true, reply, file) == Acquire(false, reply, file)
  {
    var view := ctrl.MaskedLiveAuth().value;
    assert Get(view, "jwtToken") == JStr(Control.Redacted);
    assert Control.Redacted[..3] == "***";
  }

  /** A credential that reaches the cancel request carries its token, and the request's payload names the session when there is one. */
  lemma SentRequestShape(auth: map<string, Json>)
    requires Truthy(Get(auth, "jwtToken"))
    ensures var p := Payload(SidOf(auth));
      && (p == map[] || p == map["sid" := SidOf(auth)])
      && ("sid" in p <==> Truthy(SidOf(auth)))
      && (Truthy(Get(auth, "sid")) ==> p == map["sid" := Get(auth, "sid")])
  {
  }
}
