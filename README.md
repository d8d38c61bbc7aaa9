# polkit text authentication listener, modelled in Dafny

`src/otherauthlistener.c` implements a toy polkit authentication agent. It
prints each authentication request on the controlling terminal. When the
authority offers several identities, it lets the user pick one by number. It
then prints the request's cookie and waits for Return on standard input,
racing the real agent. When the user picks nothing valid, the request
completes with "Authentication was canceled.". The finish call passes on
whatever error was stored on the request.

The model has six modules:

- `Wrappers`: `Option`.
- `CLib` (`clib.dfy`): the C library behaviour the listener relies on.
  - `isspace` and `strtol` in base 10.
  - The decimal `%d` conversion.
  - Reading a buffer as a NUL-terminated string (`CStr`).
- `Stdio` (`stdio.dfy`): a `FILE *` stream as a class.
  - Its fields are the whole input and the position reached; what reads
    have still to deliver is `input[pos..]` (`Remaining()`).
  - The output is a log with one entry per write call.
  - `getc`, `fprintf` and `getline` are its methods.
- `Polkit` (`polkit.dfy`): identities, and the three outcomes of `getpwuid_r`.
- `GAsync` (`gasync.dfy`): a `GSimpleAsyncResult` as a class.
  - It holds its source tag and the stored error.
  - It counts how often completion was scheduled.
- `OtherauthListener` (`otherauth_listener.dfy`): the four operations.
  - Labelling an identity.
  - Choosing an identity.
  - Running one request.
  - Finishing it.

The labels and the parse of the typed line are functions. The terminal
dialogue is written as methods of the `Listener` class, which change the
terminal stream and the result object in place. The wait for Return is the
module-level method `AwaitReturn`, which changes the standard-input and
standard-error streams. Each method's postcondition gives the whole new
state in terms of specification functions:

- `ChooserTranscript` and `AuthTranscript` give what was written.
- `Select` gives what the line chose.
- `Canceled` says whether the request was canceled.

`Select` is characterised by lemmas independent of how it is computed:

- `SelectCharacterization` states that a line selects an identity exactly
  when it holds a numeral in range.
- `SelectsShownNumber` states that the printed number selects its entry.
- `SelectRejects` and `SelectRejectsTrailing` list the lines it refuses.

`Listing` carries its own elementwise postcondition. `Canceled` is
characterised by `CanceledCharacterization` in terms of the numeral syntax,
and `SingleIdentityProceeds` shows one identity is never canceled.
`ChooserTranscript`, `IdentityTranscript` and `AuthTranscript` define what
is written, one list entry per write call, to be read against the `fprintf`
calls they cite. The lemmas `ChooserTranscriptShape`, `IdentityTranscriptShape`,
`AuthTranscriptOpens`, `AuthTranscriptCloses` and `SingleIdentityTranscript`
state their shape by case.

The user-directory lookup (`getpwuid_r`) and the authority's generic
identity string (`polkit_identity_to_string`) are outside the model. They are
taken as parameters `lookup` and `generic`. The characters the terminal and
standard input will deliver are the streams' `input` fields.

Points where the code behaves differently from what a reader might expect,
which the model keeps:

- `strtol` skips leading white space only. A trailing blank after the
  number therefore makes the response invalid (`SelectRejectsTrailing`).
- The echoed "invalid response" text is the line up to its first NUL
  character, not the raw line.
- The finish call does not reject a result created elsewhere. It only warns
  and then reports that result's outcome.

For the two defects under "## Findings", the code as written is modelled
only by `DescribeAsWritten` and `SelectAsWritten`. The rest of the model uses
the corrected `Describe` and `Select`.

## Model

| member | source | states |
|---|---|---|
| OtherauthListener.AccountLabel | src/otherauthlistener.c:204-211 | the label is the account name alone exactly when the GECOS field is NULL, empty or equal to the account name; otherwise it is "GECOS (name)" |
| OtherauthListener.AliceLabels | src/otherauthlistener.c:204-211 | account "alice" with an empty GECOS field is labelled "alice"; with GECOS "Alice A." it is labelled "Alice A. (alice)" |
| OtherauthListener.Describe | src/otherauthlistener.c:178-217 | a resolvable unix user gets its account label; any other identity, and a unix user whose lookup fails or finds no entry, gets the authority's generic string |
| OtherauthListener.DescribeAsWritten | src/otherauthlistener.c:193-211 | the code as written dereferences NULL exactly for a unix user whose lookup returns 0 without a record; in every other case it yields the same label as `Describe` |
| OtherauthListener.DescribeUnknownUser | src/otherauthlistener.c:193-204 | for a uid without an entry, the code as written dereferences NULL, while the corrected label is the generic string |
| OtherauthListener.Listing | src/otherauthlistener.c:234-241 | one line per identity, in list order; line i reads " i+1.  label" with the identity's label |
| OtherauthListener.Select | src/otherauthlistener.c:268-275 | whatever a line selects is one of the offered identities |
| OtherauthListener.SelectCharacterization | src/otherauthlistener.c:268-275 | a line selects an identity if and only if its C string is white space, an optional sign and digits with nothing after them, with a value k in [1, N]; it then selects the k-th identity |
| OtherauthListener.SelectsShownNumber | src/otherauthlistener.c:239 | typing back the number printed in front of the (i+1)-th identity selects that identity |
| OtherauthListener.SelectRejects | src/otherauthlistener.c:269-273 | the empty line, a line with no digit, and a numeral outside [1, N] select nothing |
| OtherauthListener.SelectRejectsTrailing | src/otherauthlistener.c:268-269 | a numeral followed by a character that is neither a digit nor NUL selects nothing, whatever comes after it |
| OtherauthListener.TwoIdentityResponses | src/otherauthlistener.c:268-275 | with two identities, "2" selects the second and "abc" selects nothing |
| OtherauthListener.ToGuint | src/otherauthlistener.c:228 | storing into a 32-bit unsigned variable yields a value below 2^32 that is congruent to the stored one |
| OtherauthListener.ClampLong | src/otherauthlistener.c:268 | the `strtol` result lies within the range of `long` and equals the parsed value when that fits |
| OtherauthListener.SelectAsWritten | src/otherauthlistener.c:228-275 | the selection with the 32-bit narrowing still picks an offered identity, and agrees with `Select` whenever `Select` picks one |
| OtherauthListener.SelectAsWrittenWraps | src/otherauthlistener.c:228-275 | a numeral within the range of a 64-bit `long`, outside [1, N], whose value modulo 2^32 lies in [1, N] (above N or below 1), selects that index as written but nothing in `Select` |
| OtherauthListener.TwoIdentityWrap | src/otherauthlistener.c:228-275 | with two identities (so the chooser runs, :319), "4294967298" selects the second identity as written and nothing in `Select` |
| OtherauthListener.CanceledCharacterization | src/otherauthlistener.c:319-322 | `Canceled`: a request is canceled exactly when more than one identity is offered and the C string of the typed line is not a numeral in [1, N], so the chooser returns NULL |
| OtherauthListener.ChooserTranscriptShape | src/otherauthlistener.c:233-271 | the chooser writes the header first, the N entries (given by `Listing`), the prompt naming N, and the complaint as one more line exactly when the line selects nothing |
| OtherauthListener.IdentityTranscriptShape | src/otherauthlistener.c:319-346 | settling writes the "Authenticating as:" line for a single identity, only the listing after a successful choice, and the listing, the complaint and the cancel banner after a failed one |
| OtherauthListener.AuthTranscriptOpens | src/otherauthlistener.c:309-316 | every request's transcript starts with the four banner writes and continues after them |
| OtherauthListener.AuthTranscriptCloses | src/otherauthlistener.c:324-349 | a transcript ends with the cookie prompt when the request proceeds, and with the cancel banner when it is canceled |
| OtherauthListener.SingleIdentityTranscript | src/otherauthlistener.c:338-349 | with one identity the transcript is exactly the banner, the "Authenticating as:" line and the cookie prompt |
| OtherauthListener.SingleIdentityProceeds | src/otherauthlistener.c:319-346 | a request with one identity is never canceled, whatever the terminal holds |
| OtherauthListener.Listener.ReadResponse | src/otherauthlistener.c:246-266 | returns the characters before the next newline on the terminal and consumes them together with the newline |
| OtherauthListener.Listener.ListIdentities | src/otherauthlistener.c:233-244 | writes exactly the header, the numbered listing and the prompt naming N; returns N; reads nothing |
| OtherauthListener.Listener.ChooseIdentity | src/otherauthlistener.c:219-280 | consumes one terminal line; returns exactly `Select` of that line; writes the listing, then the invalid-response complaint exactly when nothing was selected |
| OtherauthListener.Listener.PrintBanner | src/otherauthlistener.c:309-316 | writes the highlighted "(not really) AUTHENTICATING" line with the action id, then the message |
| OtherauthListener.Listener.PrintCanceled | src/otherauthlistener.c:324-326 | writes the highlighted cancel banner |
| OtherauthListener.Listener.SettleIdentity | src/otherauthlistener.c:319-346 | with several identities, it runs the chooser; when the chooser selects nothing, it writes the cancel banner and completes the result once with the cancel error. With one identity it writes "Authenticating as:" with that identity's label, and the result is untouched |
| OtherauthListener.Listener.Dialogue | src/otherauthlistener.c:309-348 | the terminal receives the banner, the identity dialogue, and the cookie prompt exactly when the request was not canceled |
| OtherauthListener.AwaitReturn | src/otherauthlistener.c:350-354 | consumes one line of standard input; writes the `getline` error to standard error exactly when standard input is at end of file |
| OtherauthListener.Listener.InitiateAuthentication | src/otherauthlistener.c:283-362 | creates a fresh result with this listener's source tag that is completed exactly once. The terminal receives `AuthTranscript`. A canceled request stores the cancel error and does not touch standard input or standard error; any other request stores no error and reads one line of standard input |
| OtherauthListener.InitiateAuthenticationFinish | src/otherauthlistener.c:364-383 | succeeds if and only if no error is stored, and otherwise fails with that error; warns if and only if the source tag is not this listener's |
| CLib.Decimal | src/otherauthlistener.c:239 | `%d` of a natural number is a digit string whose value is that number, with no leading zero |
| CLib.CStr | src/otherauthlistener.c:268-271 | the C string a buffer holds is the prefix before its first NUL character, and contains no NUL |
| CLib.CStrAppend | src/otherauthlistener.c:268-271 | a NUL-free prefix stays in front of the C string of what follows it |
| CLib.Strtol | src/otherauthlistener.c:268 | the end pointer stays within the string |
| CLib.StrtolWhole | src/otherauthlistener.c:268-269 | `strtol` consumes a whole non-empty string if and only if that string is white space, an optional sign and at least one digit; its value is then the numeral's value |
| CLib.StrtolDecimal | src/otherauthlistener.c:239 | `strtol` reads back the value that `%d` printed, consuming the whole text |
| CLib.NumeralThenNonDigit | src/otherauthlistener.c:268-269 | after a numeral, a non-digit stops `strtol`, so the parse does not consume the whole string |
| CLib.NumeralChars | src/otherauthlistener.c:268-269 | a numeral contains no NUL character and at least one digit |
| Stdio.LineBefore | src/otherauthlistener.c:246-266 | the text before the first newline, which it does not contain; the newline follows it |
| Stdio.LineLength | src/otherauthlistener.c:350 | `getline` consumes up to and including the first newline, or everything when there is none; it consumes nothing exactly at end of file |
| Stdio.Stream.GetC | src/otherauthlistener.c:250 | returns the next character and advances by one, or reports end of file without advancing |
| Stdio.Stream.GetLine | src/otherauthlistener.c:350-351 | advances past one line and returns -1 exactly at end of file |
| Stdio.Stream.Write | src/otherauthlistener.c:233 | appends one entry to the output log; input and position stay unchanged |
| GAsync.SimpleAsyncResult.constructor | src/otherauthlistener.c:302-305 | a new result carries the given source tag, no error and no completion |
| GAsync.SimpleAsyncResult.SetError | src/otherauthlistener.c:328-331 | stores the error and leaves the completion count alone |
| GAsync.SimpleAsyncResult.CompleteInIdle | src/otherauthlistener.c:332 | schedules one more completion and leaves the error alone |

## Left out

- The GObject type boilerplate, `initable_init` (finding and opening the controlling terminal) and the program in `src/main.c`: they set up the listener. `Listener.constructor` takes an already open terminal stream.
- Idle scheduling and the event loop: `CompleteInIdle` only counts scheduled completions, so the callback running later on the main loop, and threads, are not modelled.
- The icon name, details and cancellable arguments, and `g_return_val_if_fail` on a non-identity: the listener ignores the first three, and a typed `Identity` rules out the last.
- `g_warning` when `getpwuid_r` fails, and `g_warn_if_fail` in finish: the warning text goes to the GLib log and is not modelled. Finish records whether it warned (`sourceTagWarning`).
- The `strerror` text that `perror` appends: only the "getline" prefix is recorded on standard error.
- `fflush`: writes are recorded in the log at once, so flushing changes nothing in the model.
- End of file on the terminal while a response is read: the code aborts the process there. `ReadResponse`, `ChooseIdentity` and `InitiateAuthentication` therefore require a newline ahead on the terminal when there are several identities.
- The `g_assert` that at least one identity is offered (src/otherauthlistener.c:307): the code aborts the process on an empty list. `SettleIdentity`, `Dialogue` and `InitiateAuthentication` therefore require at least one identity.
- CLib.Strtol: does not set `errno` on overflow. The value is taken unbounded, and the saturation at the range of `long` is applied separately by `ClampLong`.
- OtherauthListener.Select, OtherauthListener.Listener.ChooseIdentity: take the parsed value unbounded instead of narrowing it to `guint`. A response such as "4294967298" with two identities is therefore refused here, while the code as written accepts it (second finding). The narrowing is kept only in `SelectAsWritten`.
- OtherauthListener.Listing, OtherauthListener.Listener.ListIdentities, OtherauthListener.Listener.ChooseIdentity, OtherauthListener.Listener.SettleIdentity, OtherauthListener.Listener.Dialogue, OtherauthListener.Listener.InitiateAuthentication: label identities with the corrected `Describe`. An offered unix user without a password entry is printed with the generic string, where the code as written dereferences NULL at src/otherauthlistener.c:204 while listing (:238) or announcing the only identity (:341) (first finding). The crash is modelled only by `DescribeAsWritten`.
- The 32-bit list counter `n` and the `%d` printing of `guint` values: lists of 2^31 or more identities are not modelled.
- Memory management (`g_free`, `g_string_free`, `free`, `g_object_unref`) and the 2048-byte `getpwuid_r` buffer: an `ERANGE` from a too-small buffer is just one of the `PwError` outcomes.
- Stdio.Stream.Write: takes text already formatted by `fprintf`; the formatting is done by the functions that build each line.

## Findings

| source | as written | input that shows it | evidently intended | confidence | as-written member | corrected member |
|---|---|---|---|---|---|---|
| src/otherauthlistener.c:193-204 | when `getpwuid_r` returns 0, `ppw->pw_gecos` is read even though `ppw` is NULL for a uid with no entry | a unix-user identity whose uid has no password-database entry | fall back to the authority's generic string, as for a failing lookup | not executed | OtherauthListener.DescribeAsWritten, OtherauthListener.DescribeUnknownUser | OtherauthListener.Describe |
| src/otherauthlistener.c:228, 268-269 | the `long` returned by `strtol` is stored in a 32-bit `guint` before the range check, so it wraps modulo 2^32 | two identities offered and the response "4294967298" (2^32 + 2), which is accepted as choice 2; "-4294967295" is accepted as choice 1. This assumes a 64-bit `long`: with a 32-bit one, `strtol` saturates and nothing wraps into [1, N] | reject any number outside [1, N] | not executed | OtherauthListener.SelectAsWritten, OtherauthListener.SelectAsWrittenWraps, OtherauthListener.TwoIdentityWrap | OtherauthListener.Select |
