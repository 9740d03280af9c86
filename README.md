# hedgegram-bot, modelled in Dafny

hedgegram-bot is a small options-trading bot. Its parts are:

- `main.py`: a FastAPI control server. It runs a strategy polling loop, keeps the live broker credential in memory, and force-closes positions on contract-expiry day at 14:00.
- `cancel_all.py`: a panic script that cancels every open order.
- `telegram_bot.py`: an admin Telegram bot that drives the control server.
- `live_engine.py` and `paper_engine.py`: two P&L engines.

This project models the deterministic core of those files and proves properties of the model.

| file | module | what it models |
|---|---|---|
| `values.dfy` | `PyValues` | Decoded JSON values and Python truthiness. Also `or`, `dict.get`, and the built-ins the bot relies on: `int()`, `float()`, `str()` of an int, `strip`, `split`, `lstrip`/`rstrip` of one character, `lower`, `isdigit`. |
| `calendar.dfy` | `Calendar` | Proleptic Gregorian dates with `toordinal`/`weekday`, one-day steps, `last_thursday` and `is_expiry_day`. |
| `control.dfy` | `Control` | The rest of `main.py`: `require_api_key`, `compute_pnl`, `/control/positions`, `close_all_positions`, the expiry watcher, and a `Controller` class. |
| `loops.dfy` | `LoopOwnership` | Which strategy-loop threads keep running across `start_bot`/`stop_bot` (see Findings). |
| `engines.dfy` | `Engines` | `live_positions_with_pnl` and `paper_positions_with_pnl`. |
| `cancel_all.dfy` | `CancelAll` | The credential choice, request, dry-run display and exit code of `cancel_all.py`. |
| `admin_bot.dfy` | `AdminBot` | The admin check, token record, control URL and header, `/settoken`, `/totp`, `/panic`, and the daily-clear wait of `telegram_bot.py`. |

The `Controller` class holds the server's module state: the `running` flag, the published positions and P&L, and the in-memory credential with its load time.

How Python maps into the model:

- A raised exception is `None`, or an explicit crash or error outcome.
- JSON numbers are exact reals.
- Everything outside the program is a parameter: file contents, HTTP replies, `get_ltp`, the local time, and whether a Telegram deletion or a file write succeeds.
- Each lock-protected section of `main.py` is one atomic method. The strategy loop's two unlocked writes of positions and P&L are one step as well (see Left out).

Both engines build `out` with the same loop: skip a record, append a row, or leave with the record's exception. That loop is `Engines.CollectRows`. It is proved against `Engines.Rows`, and each engine supplies its own per-record step.

Where the code and its documentation disagree, the model follows the code:

- The expiry watcher calls `close_all_positions`. It does not stop the bot and does not look at `running`.
- Its `triggered_today` flag is cleared only by a poll at 00:00. A stop does not clear it.
- A fault inside the strategy loop is logged and the loop goes on. The bot does not stop.
- The exit-code-2 refusal in `cancel_all.py` can never be reached.
- The `wait_seconds <= 0` fallback of `daily_clear_loop` (telegram_bot.py:107-108) is never taken, because the next midnight is always ahead. On 9999-12-31 computing the next day overflows. The outer handler (telegram_bot.py:116-118) then sleeps 60 seconds, and that pass does not clear the file.

## Model

| member | source | states |
|---|---|---|
| PyValues.ParseShowInt | telegram_bot.py:57 | `int(str(n)) == n` for every integer n. |
| PyValues.ShowIntInjective | telegram_bot.py:57 | Two integers have the same decimal text iff they are equal. |
| PyValues.WordsAreWords | telegram_bot.py:212 | Every word that `split()` yields is non-empty and contains no whitespace. |
| PyValues.LStripCharKeepsSuffix | telegram_bot.py:76 | `lstrip("/")` returns a suffix of its argument. |
| PyValues.RStripCharKeepsPrefix | telegram_bot.py:76 | `rstrip("/")` returns a prefix of its argument. |
| Calendar.MakeDate | main.py:278-280 | `date(y, m, d)` gives a valid date or raises. |
| Calendar.PrevDay | main.py:281 | The day before a valid date is valid and its ordinal is one less, across month and year boundaries. |
| Calendar.NextDay | telegram_bot.py:104 | The day after a valid date other than 9999-12-31 is valid and its ordinal is one more. |
| Calendar.MinusDays | main.py:283 | Subtracting n days lowers the ordinal by exactly n. |
| Calendar.LastThursday | main.py:276-283 | `last_thursday` raises exactly for December 9999, where the first of the next month does not exist. |
| Calendar.BackToThursday | main.py:282-283 | Moving back `(weekday - 3) % 7` days from a valid date gives a valid date. |
| Calendar.LastDayOfMonth | main.py:277-281 | The day before the first of the next month is the last day of the month, December included. |
| Calendar.LastThursdayFromLastDay | main.py:276-283 | `last_thursday(y, m)` is the month's last day moved back to a Thursday. |
| Calendar.BackToThursdayInMonth | main.py:282-283 | From the 7th of a month or later, the Thursday on or before stays in that month. |
| Calendar.LastThursdayIsLastThursday | main.py:276-283 | `last_thursday(y, m)` is in month m of year y, is a Thursday, and lies in the month's last seven days. No later day of the month is a Thursday. |
| Calendar.NoThursdayWithinWeek | main.py:282 | The six days after a Thursday are not Thursdays. |
| Calendar.IsExpiryDay | main.py:285-289 | `is_expiry_day` raises exactly in December 9999. When it holds, the date is a Thursday among the last seven days of its month. |
| Calendar.LateThursdayIsLast | main.py:276-289 | A Thursday among the last seven days of its month is that month's `last_thursday`. |
| Calendar.ExpiryDayIsLateThursday | main.py:285-289 | `is_expiry_day` holds iff the date is a Thursday among the last seven days of its month. |
| Calendar.NextMidnightSeconds | telegram_bot.py:103-106 | From any time, the next midnight is one day's seconds minus the time of day ahead. |
| Control.RequireApiKey | main.py:79-86 | Misconfigured iff no key is configured. Authorized means the header, or else the query key, equals the configured key. A matching header is always accepted and a different non-empty header never is. |
| Control.ComputePnl | main.py:224-229 | Returns a value iff every position is priced, and that value is the sum of `(ltp - avg_price) * qty` with missing fields as 0. |
| Control.TotalPnlAppend | main.py:226-228 | The P&L of a concatenation is the sum of the parts' P&L. |
| Control.ControlPositions | main.py:374-393 | Gives one entry per position in order, with the price fallbacks. It fails iff some entry raises. The total is the sum of the entries and the count is the number of positions. |
| Control.DetailOf | main.py:380-391 | Only a dict gives an entry, and a dict whose quantity and price fields are numbers always does. The entry keeps the symbol fallback and the raw `qty`, and its P&L is `(ltp - avg_price) * qty`. The average price is a truthy `avg_price`, else (with `avg_price` absent) a truthy `avg`, and 0 when the chosen value is falsy or both are absent. The last price is chosen the same way from `ltp` and `last_price`. A missing `qty` gives P&L 0. |
| Control.DetailAgreesWithPositionPnl | main.py:380-384 | When a position has both `ltp` and `avg_price`, its report entry has compute_pnl's P&L. |
| Control.ReportTotalIsComputePnl | main.py:376-393 | When every position has both price fields, the report's total equals compute_pnl. |
| Control.CloseAllPositions | main.py:291-323 | Fails iff some position is not a dict. `details` holds the closing entries in position order and `closed` is their number. |
| Control.CloseEntryOf | main.py:300-322 | A position gives no entry iff its quantity reads as 0. A quantity that `int()` rejects gives an `exception` entry under `p.get("symbol", "unknown")`. In live mode without a credential a nonzero quantity gives a `no_live_auth` entry. |
| Control.CloseResultsKeepEntries | main.py:299-322 | Every position that gives an entry has that entry in `close_all_positions`' results. |
| Control.ClosedCountsNonzero | main.py:303-305 | `closed` counts exactly the positions whose quantity is not zero, error entries included. |
| Control.ClosingOrderFlattens | main.py:302-318 | For a nonzero quantity q the closing order is "sell" iff q > 0, is for \|q\|, and brings the position to zero. |
| Control.ClosingOrderPlaced | main.py:302-318 | The closing entry names the position's symbol. Its result is the order placed for that symbol: in paper mode a fill of -q at `ltp`, else `avg_price`, else 0; in live mode the broker's reply to an order of \|q\| on the entry's side. |
| Control.CloseEntriesWellFormed | main.py:300-322 | Every entry is an order of positive size on side "sell" or "buy", or an error entry. `no_live_auth` occurs only in live mode without a credential. |
| Control.WatcherStep | main.py:339-347 | A close is attempted only on expiry day at 14:00 when not yet triggered. The new flag is set iff a close succeeded at this poll, or it was set and the poll is not at 00:00. So a failed or skipped close leaves a clear flag clear. |
| Control.AtMostOneFireBetweenResets | main.py:330-350 | Over any run of polls without a 00:00 poll, at most one force-exit happens, and none once triggered. |
| Control.AcceptedLiveAuth | main.py:205-213 | A credential file is accepted iff it decodes to a dict containing `jwtToken`, and then that dict is the credential. |
| Control.PaperSample | main.py:89-94 | The sample paper positions are two dicts, both priced, and their P&L is 487.5. |
| Control.Controller.constructor | main.py:72-75 | Starts stopped, with nothing published and no credential, and consistent. |
| Control.Controller.Start | main.py:257-266 | Returns `already_running` with the flag unchanged when running. Otherwise sets the flag and returns `started`. |
| Control.Controller.Stop | main.py:268-273 | Leaves `running` false and changes nothing else, so a second stop changes nothing. |
| Control.Controller.LoadLiveAuthFromFile | main.py:200-221 | Succeeds iff the file is accepted. Then the credential and its load time are replaced. Otherwise both are unchanged. |
| Control.Controller.MaskedLiveAuth | main.py:410-416 | Gives a 404 (None) iff no non-empty credential is held. Otherwise it returns exactly `jwtToken`, `sid` and `received_at`, with the token replaced by `***REDACTED***`, `sid` kept, and `received_at` the load time (null when none was recorded). |
| Control.Controller.FetchedPositions | main.py:237-245 | Paper mode gives the sample positions, which are priced and total a P&L of 487.5, so every paper iteration publishes. Only a failing broker reply makes the fetch fail. Live mode gives none without a credential or when its token or sid is falsy, and otherwise the broker's list. |
| Control.Controller.StrategyIteration | main.py:236-252 | Publishes the fetched positions with their compute_pnl when both succeed. Otherwise nothing changes. Taken as one step, it keeps the published P&L equal to the published positions' P&L. |
| Control.ExpiryWatcher.constructor | main.py:330 | `triggered_today` starts false. |
| Control.ExpiryWatcher.Poll | main.py:332-350 | Updates the flag as the watcher step says. It returns a close summary iff a force-exit fired, and that summary closes the controller's published positions, with `closed` the number of its entries. |
| LoopOwnership.TwoLoopsAfterRestart | main.py:235-273 | As written, start, stop, start leaves two live strategy threads, both of which keep looping. |
| LoopOwnership.StepNumbered | main.py:257-264 | Each thread stays numbered by the start that spawned it. |
| LoopOwnership.ActiveIsLatest | main.py:235-264 | Under the corrected loop, a thread that goes on when it wakes belongs to the latest start of a running bot. |
| LoopOwnership.AtMostOneActiveLoop | main.py:235-273 | With the corrected loop, no sequence of starts, stops and wake-ups has two threads that both go on looping when they wake. |
| LoopOwnership.WakeFacts | main.py:235-253 | In the corrected loop the latest thread of a running bot goes on. A waking thread leaves after a stop or when a later start has superseded it. |
| Engines.CollectRows | live_engine.py:28-47 | The engines' loop returns exactly the rows of `Rows`: records skipped, rows appended in order, and None once a record raises. |
| Engines.RowsSomeIff | paper_engine.py:13-25 | An engine fails iff one of its records raises. |
| Engines.RowsFacts | live_engine.py:29-46 | There is one output row per producing record, so the output is no longer than the input, and a property of every produced row holds of every output row. |
| Engines.RowsNoSkip | paper_engine.py:13-25 | With no skipped record, output row k is record k's row. |
| Engines.SidePnlIsSigned | live_engine.py:36-37 | The SELL formula `(avg - ltp) * abs(qty)` and the BUY formula both equal `(ltp - avg) * qty`. |
| Engines.SignedRow | live_engine.py:36-44 | The row for a nonzero q holds \|q\| on q's side, and its P&L is the signed-quantity P&L. |
| Engines.LivePositionsWithPnl | live_engine.py:15-47 | Raises without a usable credential or reply. Otherwise it gives exactly the rows of the broker's records, and raises when the body is not a list of records. |
| Engines.LiveRecord | live_engine.py:30-46 | A record is skipped iff its net quantity reads as 0. It raises iff the quantity cannot be read or, for a nonzero quantity, `tsym` or its price is missing, or `netavgprc` is missing or not a number. |
| Engines.LiveRecordFacts | live_engine.py:30-46 | A row carries `tsym` and its price. Its qty is \|netqty\| > 0 and its side is SELL iff netqty < 0. Its P&L equals main.py's compute_pnl term for the signed holding. |
| Engines.HoldingPnl | main.py:227-228 | main.py's P&L term for a holding of q is `(ltp - avg) * q`. |
| Engines.LiveRowsFacts | live_engine.py:28-47 | There is one row per record of nonzero quantity, no more rows than records, and every row's P&L is its signed-quantity P&L. |
| Engines.PaperPositionsWithPnl | paper_engine.py:6-26 | A missing file gives `[]` and an unreadable one raises. Otherwise it gives exactly the rows of the records. |
| Engines.PaperRow | paper_engine.py:13-25 | No paper record is skipped. A record gives a row iff it is a dict with `symbol`, `side`, `qty` and `avg`, its price is known, and `int()`/`float()` accept its quantity and average. |
| Engines.PaperRowFacts | paper_engine.py:14-25 | A row keeps every other field of its record, sets `ltp`, and sets `pnl` to the long P&L, negated exactly for side "SELL". |
| Engines.PaperRowsFacts | paper_engine.py:11-26 | Fails iff some record raises. Otherwise there is exactly one row per record, in order. |
| CancelAll.FetchFromControl | cancel_all.py:57-82 | The control credential is used iff the reply is a decoded 200 dict whose token is not masked with "***" and, when truthy, is a string. The script crashes exactly when a decoded 200 body is not a dict or has a truthy non-string token. Every other reply fails over to the file. |
| CancelAll.LoadLiveAuthFile | cancel_all.py:42-55 | ok iff the file decodes to a dict containing `jwtToken`. ok returns that dict and not-ok returns none. |
| CancelAll.Acquire | cancel_all.py:112-129 | The run crashes iff `--from-control` is given and the fetch crashes. The control credential is used iff it was asked for and fetched, and is then the fetched dict. The file's is used iff the control API was not asked or failed and the file is accepted, and is then the file's dict. |
| CancelAll.SidOf | cancel_all.py:132 | The sid is the first truthy of `sid`, `session`, `sidValue`, with `sidValue` as the last resort. |
| CancelAll.Payload | cancel_all.py:140 | `{"sid": sid}` when sid is truthy, `{}` otherwise. |
| CancelAll.MaskJwt | cancel_all.py:149-151 | A token of at most 20 characters is unchanged. A longer one becomes its first 8, "...", and its last 8 (19 characters). |
| CancelAll.DisplayJwt | cancel_all.py:149-152 | A string token is shown masked. Only a string, list or dict can be shown at all. |
| CancelAll.Run | cancel_all.py:105-182 | Exit code is 3 iff no credential is found and 4 for a falsy token. A dry run (forced without `--confirm`) sends nothing and exits 0, or 1 when the token cannot be shown. A confirmed run sends the token and payload and exits 6, 0 or 5 by outcome. Code 2 never occurs. |
| CancelAll.MaskedViewFallsBack | cancel_all.py:77-80 | The control server's own masked view is always rejected, so `--from-control` falls back to the file. |
| CancelAll.SentRequestShape | cancel_all.py:131-140 | The payload names the session iff a sid was found, and prefers `sid`. |
| AdminBot.IsAdmin | telegram_bot.py:55-59 | A chat whose id is configured as its exact decimal text is admin. IsAdminIffConfiguredId gives the full condition. |
| AdminBot.IsAdminIffConfiguredId | telegram_bot.py:55-59 | A chat is admin iff the configured id text parses to its id. The raw-text fallback never admits anyone. |
| AdminBot.LiveAuthRecord | telegram_bot.py:63-65 | The record always holds the token and holds `sid` iff sid is non-empty. It has no other keys. |
| AdminBot.AuthFile.SaveLiveAuthAtomic | telegram_bot.py:61-73 | A successful save replaces the file whole with the record. A failed one leaves the old file. |
| AdminBot.AuthFile.Clear | telegram_bot.py:110-115 | When `os.remove` succeeds the daily clear leaves no credential file. When it raises, the error is logged and the file stays as it was. |
| AdminBot.SavedRecordIsUsed | telegram_bot.py:61-69 | main.py's loader and cancel_all.py accept the saved record unchanged. cancel_all.py then uses its token and its sid or none. |
| AdminBot.ControlUrl | telegram_bot.py:76 | The URL is no longer than base + "/" + endpoint. |
| AdminBot.SlashesCollapse | telegram_bot.py:76 | However many slashes end the base and start the endpoint, the URL has exactly one at the join. |
| AdminBot.Headers | telegram_bot.py:77-79 | `x-api-key` is sent iff a non-empty key is configured, and then only that header. |
| AdminBot.BotKeyAuthorizes | telegram_bot.py:77-79 | With the same key on both sides the server accepts the bot. A bot without a key, or with a different key, is refused. |
| AdminBot.Credentials | telegram_bot.py:205-222 | Any token that is saved is non-empty. Without a replied-to text, a token is found iff the first argument is non-empty once stripped. It is then `args[0].strip()`, with `args[1].strip()` as the sid when there is a second argument. |
| AdminBot.ReplyPreferred | telegram_bot.py:209-214 | A replied-to text decides alone, whatever the arguments. Nothing is saved iff it has no words. The token and sid it yields are non-empty and contain no whitespace. |
| AdminBot.WordsCredentials | telegram_bot.py:212-214 | The first two words give a token iff there is a word, and any sid is non-empty. |
| AdminBot.ParseTokenMessage | telegram_bot.py:210-214 | Replying to "tok" saves (tok, no sid). Replying to "tok sid", with any whitespace between, saves (tok, sid). |
| AdminBot.Confirmation | telegram_bot.py:249-253 | The messages are claimed deleted iff the command was deleted and either there was no reply or the original was deleted. |
| AdminBot.SetToken | telegram_bot.py:196-253 | Refuses non-admins, and gives the usage text iff no token is found. A failed save changes nothing. Otherwise the file holds the token record and the confirmation follows the deletions. |
| AdminBot.TotpCommand | telegram_bot.py:151-165 | Refuses non-admins, and gives usage iff there are no arguments. The code is sent iff the stripped first argument is all ASCII digits, and the payload is exactly `{"totp": code}`. |
| AdminBot.TotpCodeIsNumber | telegram_bot.py:159-165 | A code the model sends, which is ASCII digits, has no whitespace and reads as a number. |
| AdminBot.LowerAll | telegram_bot.py:177 | Lowercases each argument, keeping the order. |
| AdminBot.PanicCommand | telegram_bot.py:172-184 | Runs `cancel_all.py --confirm` with the interpreter, or "python3" when it is unknown, iff some argument lowercases to "confirm". |
| AdminBot.DailyClearWait | telegram_bot.py:102-109 | The wait is always positive. On every date with a next day it is exactly the time to the next midnight, and at most one day. On 9999-12-31 it is the outer handler's 60 seconds. |
| AdminBot.ClearWaitEndsAtMidnight | telegram_bot.py:103-108 | Sleeping the wait lands on the next midnight, so the 60-second fallback is not taken there. |

## Left out

- HTTP and FastAPI are not modelled: routing, `requests`/`aiohttp` calls, `live_fetch_positions`, `live_place_order`, `control_panic`, `do_cancel` and the GET in `fetch_live_auth_from_control`. Their results are parameters.
- Files and JSON text are not modelled: reading, decoding, `json.dump`, `os.replace` and `chmod`. A file is its decoded content, and the round trip through JSON text is not stated.
- Threads, locks, `time.sleep`, `asyncio` tasks and the `panic_cmd` subprocess are not modelled. Lock-protected sections are atomic methods. `LoopOwnership` models only which loop threads keep running.
- Timezone conversion and clock reads are not modelled. The local date-time is a parameter.
- `round(x, 2)` and binary floating point are not modelled. Python's int/float distinction is not modelled either; JSON numbers are exact reals.
- `int()` and `float()` are modelled for plain ASCII decimal text only. Underscores, exponents, `inf`/`nan` and non-ASCII digits are not. `isdigit()` and `lower()` are modelled for ASCII characters only.
- Telegram I/O is not modelled: sending, the reply texts of the start/stop/status/pnl/totp commands, the TOTP reply formatting, and the deletion of the `/settoken` confirmation after ten seconds.
- `exchange_totp_and_store` and the `control_totp`, `control_pnl`, `control_status`, `control_start`/`control_stop` and `control_load_liveauth` endpoint bodies are not modelled, because they are I/O or thin wrappers.
- `cleartoken` is not modelled beyond `AuthFile.Clear`. callback.py and market_data.py (`get_ltp`) are not part of this model; `get_ltp` is a parameter.
- Control.Controller.Stop: does not return the constant `{"status": "stopped"}` reply.
- Control.Controller.StrategyIteration: publishes `[]` where the broker returned an empty dict or an empty string. Python publishes that value itself, but every reader treats it as no positions.
- Control.Controller.StrategyIteration: main.py:248-249 write `positions` and then `pnl` without a lock, but the model writes both in one step. A reader between the two writes sees new positions with the old P&L. Two strategy loops (see Findings) can leave the pair torn: loop 1 writes positions A, loop 2 writes positions B and their P&L, then loop 1 writes the P&L of A. `Consistent()` holds only of the one-step model.
- Control.ComputePnl: the total is not rounded to two decimals.
- Control.ControlPositions: the entries and the total are not rounded to two decimals.
- Engines.LivePositionsWithPnl: the reported P&L is not rounded, and the `Bearer` header and request body are not modelled.
- Engines.PaperPositionsWithPnl: the reported P&L is not rounded.
- CancelAll.Run: the printed dry-run text and response body are not modelled, only the values they show.
- AdminBot.IsAdmin: a chat id is an integer, as Telegram supplies it.
- AdminBot.TotpCommand: `isdigit()` accepts only the ASCII digits. Python also accepts other Unicode digits, so the source sends `/totp ²` or Arabic-Indic digits, which the model refuses.
- AdminBot.TotpCodeIsNumber: holds for the model's ASCII codes only. The source can send a code such as "²", which `int()` does not read.

## Findings

| source | as written | input that shows it | evidently intended | confidence | as-written member | corrected member |
|---|---|---|---|---|---|---|
| main.py:235-273 | A strategy thread checks `running` only when it wakes from its 10-second sleep. `start_bot` spawns a new thread whenever the flag is clear. | `start_bot()`, `stop_bot()`, `start_bot()` within 10 seconds: the old thread wakes to find `running` set again, so two strategy loops run side by side. | At most one strategy loop is active at any time. | not executed | LoopOwnership.TwoLoopsAfterRestart | LoopOwnership.AtMostOneActiveLoop |
