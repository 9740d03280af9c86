/**
 * The decision logic of telegram_bot.py, the admin front-end: who counts as
 * the admin, the credential record `/settoken` writes, the control-API URL
 * and key header, the parsing of `/settoken`, `/totp` and `/panic`, the
 * `/settoken` confirmation, and the wait of the daily clear.
 *
 * Telegram, HTTP and the subprocess are not modelled: which message
 * deletions succeed, whether the file can be written and the executable's
 * path are parameters.  live_auth.json is the `content` of an `AuthFile`.
 */
module AdminBot {
  import opened PyValues
  import opened Calendar
  import Control
  import CancelAll

  // ---------------------------------------------------------------------
  // is_admin
  // ---------------------------------------------------------------------

  /** `str(x)` of the configured `TELEGRAM_CHAT_ID`, which is None when unset. */
  function ConfiguredText(configured: Option<string>): string {
    if configured.Some? then configured.value else "None"
  }

  /**
   * `is_admin`: the chat id's decimal text against the configured id's,
   * normalised through `int` when it parses; when `int` raises, against the
   * configured text itself.
   */
  function IsAdmin(chatId: int, configured: Option<string>): (r: bool)
    ensures configured == Some(ShowInt(chatId)) ==> r
  {
    ParseShowInt(chatId);
    var parsed := if configured.Some? then ParseInt(configured.value) else None;
    if parsed.Some? then ShowInt(chatId) == ShowInt(parsed.value)
    else ShowInt(chatId) == ConfiguredText(configured)
  }

  /**
   * The admin is exactly the chat whose id the configured text parses to:
   * spaces, a sign and leading zeros in the setting do not matter, and the
   * fallback comparison of the raw text never admits anyone, since the text
   * of an id always parses.
   */
  lemma IsAdminIffConfiguredId(chatId: int, configured: Option<string>)
    ensures IsAdmin(chatId, configured) <==> configured.Some? && ParseInt(configured.value) == Some(chatId)
  {
    if configured.Some? && ParseInt(configured.value).Some? {
      ShowIntInjective(chatId, ParseInt(configured.value).value);
    } else {
      ParseShowInt(chatId);
      if configured.None? {
        NoneIsNotANumber();
      }
      assert ParseInt(ConfiguredText(configured)).None?;
    }
  }

  lemma NoneIsNotANumber()
    ensures ParseInt("None") == None
  {
    var t := "None";
    assert Strip(t) == t by {
      assert !IsSpace(t[0]) && !IsSpace(t[3]);
      StripNoSpaces(t);
    }
    assert !AllDigits(t) by {
      assert !IsDigit(t[0]);
    }
    assert !AllDigits(t[1..]) by {
      assert !IsDigit(t[1..][0]);
    }
  }

  // ---------------------------------------------------------------------
  // save_live_auth_atomic
  // ---------------------------------------------------------------------

  /** The dict `save_live_auth_atomic` dumps: the token, and the session id when it is non-empty. */
  function LiveAuthRecord(jwt: string, sid: Option<string>): (r: map<string, Json>)
    ensures "jwtToken" in r && r["jwtToken"] == JStr(jwt)
    ensures "sid" in r <==> sid.Some? && sid.value != ""
    ensures "sid" in r ==> r["sid"] == JStr(sid.value)
    ensures r.Keys <= {"jwtToken", "sid"}
  {
    var data := map["jwtToken" := JStr(jwt)];
    if sid.Some? && sid.value != "" then data["sid" := JStr(sid.value)] else data
  }

  /** live_auth.json, as the bot's own handlers see it. */
  class AuthFile {
    var content: FileContent

    constructor (content: FileContent)
      ensures this.content == content
    {
      this.content := content;
    }

    /**
     * `save_live_auth_atomic`: the record is built and, when the file can be
     * written, replaces the file whole (the temporary file and rename make
     * the write atomic); when it cannot, the old file stays and the call
     * fails.
     */
    method SaveLiveAuthAtomic(jwt: string, sid: Option<string>, writable: bool) returns (saved: bool)
      modifies this
      ensures saved == writable
      ensures saved ==> content == Parsed(JObj(LiveAuthRecord(jwt, sid)))
      ensures !saved ==> content == old(content)
    {
      var data := LiveAuthRecord(jwt, sid);
      if !writable {
        return false;
      }
      content := Parsed(JObj(data));
      return true;
    }

    /**
     * The removal `daily_clear_loop` performs at midnight: an existing file
     * is removed when `os.remove` succeeds (`removable`); when it raises,
     * the handler logs and the file stays as it was.
     */
    method Clear(removable: bool)
      modifies this
      ensures content == (if removable then Missing else old(content))
    {
      if content != Missing && removable {
        content := Missing;
      }
    }
  }

  /**
   * What the bot saves is what the rest of the system reads back: main.py's
   * loader accepts it unchanged, and cancel_all.py takes it from the file
   * and sends the saved token with the saved session id (or none).
   */
  lemma SavedRecordIsUsed(jwt: string, sid: Option<string>, control: CancelAll.ControlReply)
    ensures var record := LiveAuthRecord(jwt, sid);
      var file := Parsed(JObj(record));
      && Control.AcceptedLiveAuth(file) == Some(record)
      && CancelAll.LoadLiveAuthFile(file) == (true, Some(record))
      && CancelAll.Acquire(false, control, file) == CancelAll.Auth(CancelAll.AuthFile, record)
      && Get(record, "jwtToken") == JStr(jwt)
      && CancelAll.SidOf(record) == (if sid.Some? && sid.value != "" then JStr(sid.value) else JNull)
  {
    var record := LiveAuthRecord(jwt, sid);
    assert Truthy(JObj(record));
    assert "session" !in record && "sidValue" !in record;
  }

  // ---------------------------------------------------------------------
  // call_control
  // ---------------------------------------------------------------------

  /** `CONTROL_API_URL.rstrip("/") + "/" + endpoint.lstrip("/")`. */
  function ControlUrl(base: string, endpoint: string): (url: string)
    ensures |url| <= |base| + 1 + |endpoint|
  {
    RStripChar(base, '/') + "/" + LStripChar(endpoint, '/')
  }

  function Slashes(n: nat): (r: string)
    ensures |r| == n
  {
    if n == 0 then "" else "/" + Slashes(n - 1)
  }

  lemma {:induction false} SlashesSnoc(n: nat)
    requires n > 0
    ensures Slashes(n) == Slashes(n - 1) + "/"
  {
    if n > 1 {
      SlashesSnoc(n - 1);
      assert "/" + (Slashes(n - 2) + "/") == ("/" + Slashes(n - 2)) + "/";
    }
  }

  lemma RStripSlashes(b: string, m: nat)
    requires b == [] || b[|b| - 1] != '/'
    ensures RStripChar(b + Slashes(m), '/') == b
  {
    RStripTrailingSlashes(b, m);
  }

  lemma {:induction false} RStripTrailingSlashes(b: string, m: nat)
    ensures RStripChar(b + Slashes(m), '/') == RStripChar(b, '/')
    decreases m
  {
    if m > 0 {
      SlashesSnoc(m);
      RStripSnoc(b, Slashes(m - 1));
      RStripTrailingSlashes(b, m - 1);
    } else {
      assert b + Slashes(0) == b;
    }
  }

  lemma RStripSnoc(b: string, p: string)
    ensures RStripChar(b + (p + "/"), '/') == RStripChar(b + p, '/')
  {
    assert b + (p + "/") == (b + p) + "/";
    assert ((b + p) + "/")[..|b + p|] == b + p;
  }

  lemma LStripSlashes(e: string, n: nat)
    requires e == [] || e[0] != '/'
    ensures LStripChar(Slashes(n) + e, '/') == e
  {
    LStripLeadingSlashes(e, n);
  }

  lemma {:induction false} LStripLeadingSlashes(e: string, n: nat)
    ensures LStripChar(Slashes(n) + e, '/') == LStripChar(e, '/')
    decreases n
  {
    if n > 0 {
      LStripCons(Slashes(n - 1), e);
      LStripLeadingSlashes(e, n - 1);
    } else {
      assert Slashes(0) + e == e;
    }
  }

  lemma LStripCons(p: string, e: string)
    ensures LStripChar(("/" + p) + e, '/') == LStripChar(p + e, '/')
  {
    assert ("/" + p) + e == "/" + (p + e);
    assert ("/" + (p + e))[1..] == p + e;
  }

  /**
   * However many slashes the base ends with and the endpoint starts with,
   * the URL has exactly one at the join.
   */
  lemma SlashesCollapse(b: string, e: string, m: nat, n: nat)
    requires b == [] || b[|b| - 1] != '/'
    requires e == [] || e[0] != '/'
    ensures ControlUrl(b + Slashes(m), Slashes(n) + e) == b + "/" + e
  {
    RStripSlashes(b, m);
    LStripSlashes(e, n);
  }

  /** The request headers: `x-api-key` exactly when a key is configured. */
  function Headers(key: Option<string>): (h: map<string, string>)
    ensures "x-api-key" in h <==> key.Some? && key.value != ""
    ensures "x-api-key" in h ==> h["x-api-key"] == key.value
    ensures h.Keys <= {"x-api-key"}
  {
    if key.Some? && key.value != "" then map["x-api-key" := key.value] else map[]
  }

  /** The header the control API reads, as main.py's `require_api_key` receives it. */
  function HeaderValue(h: map<string, string>): Option<string> {
    if "x-api-key" in h then Some(h["x-api-key"]) else None
  }

  /**
   * With one key configured on both sides the control API accepts the
   * bot's calls; a bot without a key is refused by a control API that has
   * one; and a bot whose key differs is refused.
   */
  lemma BotKeyAuthorizes(botKey: Option<string>, apiKey: Option<string>)
    ensures botKey == apiKey && apiKey.Some? && apiKey.value != "" ==>
      Control.RequireApiKey(apiKey, HeaderValue(Headers(botKey)), None) == Control.Authorized
    ensures (botKey.None? || botKey.value == "") && apiKey.Some? && apiKey.value != "" ==>
      Control.RequireApiKey(apiKey, HeaderValue(Headers(botKey)), None) == Control.InvalidKey
    ensures botKey.Some? && botKey.value != "" && botKey != apiKey ==>
      Control.RequireApiKey(apiKey, HeaderValue(Headers(botKey)), None) != Control.Authorized
  {
  }

  // ---------------------------------------------------------------------
  // /settoken
  // ---------------------------------------------------------------------

  /** The message `/settoken` replies to, with its text (None for a photo, a sticker ...). */
  datatype Replied = Replied(text: Option<string>)

  /** `reply_to_message and reply_to_message.text`, when truthy. */
  function ReplyText(reply: Option<Replied>): Option<string> {
    if reply.Some? && reply.value.text.Some? && reply.value.text.value != "" then reply.value.text else None
  }

  /**
   * The token and session id `/settoken` saves: the first two words of the
   * replied-to text when there is one, otherwise its first two arguments,
   * stripped; None when there is no non-empty token.  `context.args or []`
   * is the argument list `args`.
   */
  function Credentials(args: seq<string>, reply: Option<Replied>): (r: Option<(string, Option<string>)>)
    ensures r.Some? ==> r.value.0 != ""
    ensures ReplyText(reply).None? ==> (r.Some? <==> |args| >= 1 && Strip(args[0]) != "")
    ensures ReplyText(reply).None? && r.Some? ==>
      r.value == (Strip(args[0]), if |args| >= 2 then Some(Strip(args[1])) else None)
  {
    if ReplyText(reply).Some? then
      var parts := Words(Strip(ReplyText(reply).value));
      TokenAndSid(Nth(parts, 0), Nth(parts, 1))
    else
      TokenAndSid(StrippedNth(args, 0), if |args| >= 1 then StrippedNth(args, 1) else None)
  }

  /** `parts[i] if len(parts) > i else None`. */
  function Nth(parts: seq<string>, i: nat): Option<string> {
    if |parts| > i then Some(parts[i]) else None
  }

  /** `args[i].strip()`, when there is an argument i. */
  function StrippedNth(args: seq<string>, i: nat): Option<string> {
    if |args| > i then Some(Strip(args[i])) else None
  }

  /** `if not jwt:` rejects a missing or empty token. */
  function TokenAndSid(jwt: Option<string>, sid: Option<string>): Option<(string, Option<string>)> {
    if jwt.None? || jwt.value == "" then None else Some((jwt.value, sid))
  }

  /**
   * A replied-to text decides alone, and the words it yields carry no
   * whitespace; without a usable word nothing is saved, whatever the
   * arguments say.
   */
  lemma ReplyPreferred(args: seq<string>, reply: Option<Replied>)
    requires ReplyText(reply).Some?
    ensures Credentials(args, reply) == Credentials([], reply)
    ensures Credentials(args, reply).None? <==> Words(Strip(ReplyText(reply).value)) == []
    ensures Credentials(args, reply).Some? ==>
      var (jwt, sid) := Credentials(args, reply).value;
      NoSpaces(jwt) && (sid.Some? ==> sid.value != "" && NoSpaces(sid.value))
  {
    var text := ReplyText(reply).value;
    assert reply == Some(Replied(Some(text)));
    ReplyWords(args, text);
    ReplyWords([], text);
    WordsAreWords(Strip(text));
    WordsCredentials(Words(Strip(text)));
  }

  /** The first two words, as credentials. */
  lemma WordsCredentials(parts: seq<string>)
    requires forall w :: w in parts ==> |w| > 0 && NoSpaces(w)
    ensures var r := TokenAndSid(Nth(parts, 0), Nth(parts, 1));
      && (r.None? <==> parts == [])
      && (r.Some? ==> NoSpaces(r.value.0) && (r.value.1.Some? ==> r.value.1.value != "" && NoSpaces(r.value.1.value)))
  {
    if |parts| >= 1 {
      assert parts[0] in parts;
    }
    if |parts| >= 2 {
      assert parts[1] in parts;
    }
  }

  lemma {:induction false} TakeWordOf(w: string, rest: string)
    requires NoSpaces(w)
    requires rest == [] || IsSpace(rest[0])
    ensures TakeWord(w + rest) == w
    decreases |w|
  {
    if w != [] {
      assert (w + rest)[1..] == w[1..] + rest;
      TakeWordOf(w[1..], rest);
    } else {
      assert w + rest == rest;
    }
  }

  lemma {:induction false} DropSpacesOf(sep: string, t: string)
    requires AllSpaces(sep)
    requires t == [] || !IsSpace(t[0])
    ensures DropSpaces(sep + t) == t
    decreases |sep|
  {
    if sep != [] {
      assert (sep + t)[1..] == sep[1..] + t;
      DropSpacesOf(sep[1..], t);
    } else {
      assert sep + t == t;
    }
  }

  lemma OneWord(w: string)
    requires w != [] && NoSpaces(w)
    ensures Words(w) == [w]
  {
    WordThen(w, "");
    assert w + "" == w;
  }

  /** Words(w + rest) == [w] + Words(rest), for a word followed by whitespace or nothing. */
  lemma WordThen(w: string, rest: string)
    requires w != [] && NoSpaces(w)
    requires rest == [] || IsSpace(rest[0])
    ensures Words(w + rest) == [w] + Words(rest)
  {
    var t := w + rest;
    assert !IsSpace(t[0]);
    assert DropSpaces(t) == t;
    TakeWordOf(w, rest);
    assert t[|w|..] == rest;
  }

  /** Leading whitespace does not change the words. */
  lemma SpacesThen(sep: string, t: string)
    requires AllSpaces(sep)
    requires t == [] || !IsSpace(t[0])
    ensures Words(sep + t) == Words(t)
  {
    DropSpacesOf(sep, t);
    DropSpacesOf("", t);
    assert "" + t == t;
  }

  lemma Concat3(a: string, b: string, c: string)
    ensures a + b + c == a + (b + c)
  {
  }

  lemma SpacedWord(sep: string, w: string)
    requires w != [] && NoSpaces(w)
    requires AllSpaces(sep)
    ensures Words(sep + w) == [w]
  {
    SpacesThen(sep, w);
    OneWord(w);
  }

  lemma TwoWords(jwt: string, sep: string, sid: string)
    requires jwt != [] && NoSpaces(jwt) && sid != [] && NoSpaces(sid)
    requires sep != [] && AllSpaces(sep)
    ensures Words(jwt + sep + sid) == [jwt] + [sid]
  {
    var rest := sep + sid;
    SpacedWord(sep, sid);
    WordThen(jwt, rest);
    Concat3(jwt, sep, sid);
  }

  /**
   * Replying to a message "<token>" or "<token> <sid>" (any whitespace
   * between them) saves exactly that token, and that session id.
   */
  lemma ParseTokenMessage(args: seq<string>, jwt: string, sep: string, sid: string)
    requires jwt != [] && NoSpaces(jwt) && sid != [] && NoSpaces(sid)
    requires sep != [] && AllSpaces(sep)
    ensures Credentials(args, Some(Replied(Some(jwt)))) == Some((jwt, None))
    ensures Credentials(args, Some(Replied(Some(jwt + sep + sid)))) == Some((jwt, Some(sid)))
  {
    ParseBareToken(args, jwt);
    ParseTokenThenSid(args, jwt, sep, sid);
  }

  lemma ParseBareToken(args: seq<string>, jwt: string)
    requires jwt != [] && NoSpaces(jwt)
    ensures Credentials(args, Some(Replied(Some(jwt)))) == Some((jwt, None))
  {
    assert !IsSpace(jwt[0]) && !IsSpace(jwt[|jwt| - 1]);
    StripNoSpaces(jwt);
    OneWord(jwt);
    ReplyWords(args, jwt);
    assert Nth([jwt], 0) == Some(jwt) && Nth([jwt], 1) == None;
  }

  lemma ParseTokenThenSid(args: seq<string>, jwt: string, sep: string, sid: string)
    requires jwt != [] && NoSpaces(jwt) && sid != [] && NoSpaces(sid)
    requires sep != [] && AllSpaces(sep)
    ensures Credentials(args, Some(Replied(Some(jwt + sep + sid)))) == Some((jwt, Some(sid)))
  {
    var text := jwt + sep + sid;
    assert !IsSpace(jwt[0]) && !IsSpace(sid[|sid| - 1]);
    assert text[0] == jwt[0] && text[|text| - 1] == sid[|sid| - 1];
    StripNoSpaces(text);
    TwoWords(jwt, sep, sid);
    ReplyWords(args, text);
    assert Nth([jwt] + [sid], 0) == Some(jwt) && Nth([jwt] + [sid], 1) == Some(sid);
  }

  /** The credentials of a replied-to text, read off its words. */
  lemma ReplyWords(args: seq<string>, text: string)
    requires text != ""
    ensures var parts := Words(Strip(text));
      Credentials(args, Some(Replied(Some(text)))) == TokenAndSid(Nth(parts, 0), Nth(parts, 1))
  {
  }

  const SavedText: string := "\U{2705} Access token saved to server (live_auth.json)."
  const DeletedText: string := " Your messages were deleted from chat."
  const PleaseDeleteText: string := " Please delete your messages in this chat to remove traces."

  /**
   * The confirmation claims the messages were deleted exactly when the
   * command was deleted and so was the replied-to message, if any.
   */
  function Confirmation(deletedCmd: bool, hadReply: bool, deletedOriginal: bool): (msg: string)
    ensures msg == SavedText + DeletedText || msg == SavedText + PleaseDeleteText
    ensures msg == SavedText + DeletedText <==> deletedCmd && (!hadReply || deletedOriginal)
  {
    assert |SavedText + DeletedText| != |SavedText + PleaseDeleteText|;
    SavedText + (if deletedCmd && (!hadReply || deletedOriginal) then DeletedText else PleaseDeleteText)
  }

  /** The replies of `/settoken`, with the record saved and the confirmation sent. */
  datatype TokenOutcome =
    | TokenUnauthorized
    | TokenUsage
    | TokenSaveFailed
    | TokenSaved(record: map<string, Json>, confirmation: string)

  /**
   * `settoken`.  Whether the file can be written and whether each message
   * deletion succeeds are parameters; the deletion of the confirmation
   * after ten seconds is not modelled.
   */
  method SetToken(admin: bool, args: seq<string>, reply: Option<Replied>, store: AuthFile,
                  writable: bool, deleteCmdOk: bool, deleteOriginalOk: bool) returns (out: TokenOutcome)
    modifies store
    ensures !admin ==> out == TokenUnauthorized
    ensures admin && Credentials(args, reply).None? ==> out == TokenUsage
    ensures admin && Credentials(args, reply).Some? && !writable ==> out == TokenSaveFailed
    ensures admin && Credentials(args, reply).Some? && writable ==>
      var (jwt, sid) := Credentials(args, reply).value;
      out == TokenSaved(LiveAuthRecord(jwt, sid), Confirmation(deleteCmdOk, reply.Some?, reply.Some? && deleteOriginalOk))
    ensures out.TokenSaved? ==> store.content == Parsed(JObj(out.record))
    ensures !out.TokenSaved? ==> store.content == old(store.content)
  {
    if !admin {
      return TokenUnauthorized;
    }
    var jwt: Option<string> := None;
    var sid: Option<string> := None;
    if ReplyText(reply).Some? {
      var parts := Words(Strip(ReplyText(reply).value));
      jwt := if |parts| >= 1 then Some(parts[0]) else None;
      sid := if |parts| >= 2 then Some(parts[1]) else None;
    } else if |args| >= 1 {
      jwt := Some(Strip(args[0]));
      if |args| >= 2 {
        sid := Some(Strip(args[1]));
      }
    }
    if jwt.None? || jwt.value == "" {
      assert Credentials(args, reply).None?;
      return TokenUsage;
    }
    assert Credentials(args, reply) == Some((jwt.value, sid));

    var saved := store.SaveLiveAuthAtomic(jwt.value, sid, writable);
    if !saved {
      return TokenSaveFailed;
    }

    var deletedCmd := deleteCmdOk;
    var deletedOriginal := false;
    if reply.Some? {
      deletedOriginal := deleteOriginalOk;
    }
    var confirmMsg := SavedText;
    if deletedCmd && (reply.None? || deletedOriginal) {
      confirmMsg := confirmMsg + DeletedText;
    } else {
      confirmMsg := confirmMsg + PleaseDeleteText;
    }
    assert confirmMsg == Confirmation(deletedCmd, reply.Some?, deletedOriginal);
    return TokenSaved(LiveAuthRecord(jwt.value, sid), confirmMsg);
  }

  // ---------------------------------------------------------------------
  // /totp and /panic
  // ---------------------------------------------------------------------

  datatype TotpReply = TotpUnauthorized | TotpUsage | TotpNotNumeric | TotpSend(payload: map<string, Json>)

  /**
   * `totp_cmd` up to its control call: the code is the first argument,
   * stripped, and must be all digits (ASCII digits: see IsDigitString).
   */
  function TotpCommand(admin: bool, args: seq<string>): (r: TotpReply)
    ensures r == TotpUnauthorized <==> !admin
    ensures r == TotpUsage <==> admin && args == []
    ensures r.TotpSend? <==> admin && |args| > 0 && IsDigitString(Strip(args[0]))
    ensures r.TotpSend? ==> r.payload == map["totp" := JStr(Strip(args[0]))]
  {
    if !admin then TotpUnauthorized
    else if args == [] then TotpUsage
    else
      var totp := Strip(args[0]);
      if !IsDigitString(totp) then TotpNotNumeric else TotpSend(map["totp" := JStr(totp)])
  }

  /**
   * A code that is sent is a non-empty run of ASCII digits, with no
   * whitespace, that reads back as a number.
   */
  lemma TotpCodeIsNumber(admin: bool, args: seq<string>)
    requires TotpCommand(admin, args).TotpSend?
    ensures var code := Strip(args[0]);
      code != [] && NoSpaces(code) && ParseInt(code) == Some(DigitsValue(code) as int)
  {
    var code := Strip(args[0]);
    forall i | 0 <= i < |code| ensures !IsSpace(code[i]) {
      DigitNotSpace(code[i]);
    }
    ParseDigitString(code);
  }

  datatype PanicReply = PanicUnauthorized | PanicRefused | PanicRun(argv: seq<string>)

  /** `[a.lower() for a in args]`. */
  function LowerAll(args: seq<string>): (r: seq<string>)
    ensures |r| == |args| && forall i :: 0 <= i < |args| ==> r[i] == Lower(args[i])
  {
    seq(|args|, i requires 0 <= i < |args| => Lower(args[i]))
  }

  /**
   * `panic_cmd` up to its subprocess: it runs `cancel_all.py --confirm`
   * with the interpreter (`sys.executable or "python3"`) exactly when some
   * argument lowercases to "confirm".
   */
  function PanicCommand(admin: bool, args: seq<string>, executable: Option<string>): (r: PanicReply)
    ensures r == PanicUnauthorized <==> !admin
    ensures r.PanicRun? <==> admin && exists i :: 0 <= i < |args| && Lower(args[i]) == "confirm"
    ensures r.PanicRun? ==>
      r.argv == [if executable.Some? && executable.value != "" then executable.value else "python3", "cancel_all.py", "--confirm"]
  {
    if !admin then PanicUnauthorized
    else if "confirm" !in LowerAll(args) then PanicRefused
    else
      var python := if executable.Some? && executable.value != "" then executable.value else "python3";
      PanicRun([python, "cancel_all.py", "--confirm"])
  }

  // ---------------------------------------------------------------------
  // daily_clear_loop
  // ---------------------------------------------------------------------

  /**
   * The seconds one round of `daily_clear_loop` sleeps: up to the next
   * local midnight, or 60 when that is not positive (which never happens).
   * On 9999-12-31 the next day overflows, the outer handler catches it, and
   * the loop sleeps 60 seconds and tries again without clearing the file.
   */
  function DailyClearWait(now: DateTime): (wait: real)
    requires ValidDateTime(now)
    ensures wait > 0.0
    ensures now.date != Date(MaxYear, 12, 31) ==>
      wait == SecondsPerDay as real - TimeOfDay(now) && wait <= SecondsPerDay as real
    ensures now.date == Date(MaxYear, 12, 31) ==> wait == 60.0
  {
    if now.date == Date(MaxYear, 12, 31) then 60.0
    else
      NextMidnightSeconds(now);
      var next := DateTime(NextDay(now.date), 0, 0, 0, 0);
      var w := Seconds(next) - Seconds(now);
      if w <= 0.0 then 60.0 else w
  }

  /**
   * Sleeping the wait lands exactly on the next midnight, so the fallback
   * of 60 seconds is never taken for a date that has a next day.
   */
  lemma ClearWaitEndsAtMidnight(now: DateTime)
    requires ValidDateTime(now) && now.date != Date(MaxYear, 12, 31)
    ensures var next := DateTime(NextDay(now.date), 0, 0, 0, 0);
      ValidDateTime(next) && Seconds(now) + DailyClearWait(now) == Seconds(next)
      && Seconds(next) - Seconds(now) > 0.0
  {
    NextMidnightSeconds(now);
  }
}
