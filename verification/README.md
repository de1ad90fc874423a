# BAIS baseball highlight service — core logic in Dafny

This project models the server-side core of the BAIS service, a Django site
where baseball fans upload game footage, have it re-narrated by a remote
GPU worker (RunPod) with AI commentary, and read or edit the subtitles it
produces. Five pieces are modelled:

- **The video job orchestrator** (`videos/runpod.py`): staging the upload
  in the object store, minting presigned URLs, submitting the job, the
  polling loop with its 20-minute deadline, and the reconciliation of a
  finished job (rebinding the video to the result key, upserting the
  generated script as the subtitle of the upload and its commentator,
  writing the COMPLETE or FAILED status code). `storage.dfy` holds the
  object keys and URLs, `workflow.dfy` the run as functions over the
  persisted state, and `orchestrator.dfy` the client class whose methods
  update that state step by step. Each of its methods is proved to end in
  the state the functions describe.
- **The rule chatbot** (`chatbot.dfy`): an exact match first, then the
  longest rule that occurs in the message, then a fixed apology.
- **The rule import command** (`rule_import.dfy`): `get_or_create` of every
  row of the rule sheet, with its created-count and error report.
- **The account logic** (`auth.dfy`): e-mail code verification, the
  password format and digest, sign-up, login with its five-failure lock,
  password reset, password change and account deletion.
- **The subtitle admin** (`subtitle_admin.dfy`): the conversion of an
  uploaded subtitle JSON file, and the 30-character preview.

`text.dfy` holds Python's string operations (`strip`, `upper`, `in`),
`common_codes.dfy` the lookup of common-code rows, and `wrappers.dfy` the
`Option` and `Result` types.

Hashing and UUIDs are symbolic: `Sha256(s)` and `Uuid5(email)` are
constructors, so two of them are equal exactly when their inputs are.
Sign-up stores an account under `Uuid5(email)`, but login and reset query
the e-mail column, which is not unique. The
object store, the clock and the worker's answers are parameters. A run is
given the sequence of its loop iterations (`Tick`): the seconds elapsed at
each deadline check and what that iteration's poll returned.

## Model

| member | source | states |
|---|---|---|
| CommonCodes.LookupCode | videos/runpod.py:60-64 | A common-code row is found exactly when the code exists and belongs to the requested group; the row found is that code. |
| Workflow.WorkerAnalyst | videos/runpod.py:46-50 | The worker's analyst number is always 1, 2 or 3: the mapped number for 17, 18 and 19, and 1 for every other code. |
| Workflow.AnalystTable | videos/runpod.py:46-50 | 17, 18 and 19 select analysts 3, 2 and 1, any other code selects 1, and no two mapped codes share an analyst. |
| Workflow.WriteStatus | videos/runpod.py:66-70 | A status write sets the upload's status only when the code has a STATUS row, and changes nothing else. |
| Workflow.TryWrite | videos/runpod.py:66-70 | A status write raises exactly when the code has a STATUS row and the database refuses the save; when it does not raise, the state is the one `WriteStatus` describes. |
| Orchestrator.RunPodClient.UpdateStatus | videos/runpod.py:66-70 | The in-place status write returns normally exactly when it does not raise; then the state is the one `WriteStatus` describes and the code is appended to the ghost record `writes` (also when no STATUS row exists and nothing is saved), and when it raises the state and `writes` are as before. |
| Storage.Basename | videos/runpod.py:75 | The base name is the slash-free suffix of the path that follows its last slash. |
| Storage.BasenameOfJoined | videos/runpod.py:75 | The base name of `dir/file` is `file`. |
| Storage.InputKey | videos/runpod.py:73-97 | The staging key is `inputs/` followed by the file's base name, or by the timestamped fallback name when the name cannot be read, and holds no further slash. |
| Storage.InputKeyOfStoredFile | videos/runpod.py:75-79 | A file stored at `dir/file` is staged as `inputs/file`. |
| Storage.StampOf | videos/runpod.py:106-108 | A timestamp is read back exactly from a key made of the given prefix, a non-empty run of digits and the given suffix; any other key gives none. |
| Storage.StampRoundTrip | videos/runpod.py:106-108 | Reading the timestamp back from a stamped key gives the timestamp. |
| Storage.ResultAndScriptKeysDiffer | videos/runpod.py:107-108 | A result-video key and a script key never name the same object, whatever their timestamps. |
| Storage.MintAccessUrls | videos/runpod.py:99-135 | One read URL for the staged input and two write URLs (video/mp4 and application/json), all valid for 3600 s; both write keys carry the minting timestamp, differ from each other, and the reported output key is the video's. |
| Storage.ScriptKeyOf | videos/runpod.py:205-206 | The script key taken from a URL never starts with a slash; it is read from the URL after `urlsplit`'s clean-up. |
| Storage.LStripC0 | videos/runpod.py:205 | `urlsplit`'s first step removes exactly the maximal prefix of C0 controls and spaces. |
| Storage.RemoveUnsafe | videos/runpod.py:205 | `urlsplit`'s second step leaves no tab, carriage return or line feed, and leaves a URL without them as it is. |
| Storage.LeadingBlanksIgnored | videos/runpod.py:205-206 | Controls and spaces in front of a URL change neither the key read from it nor whether `urlparse` raises. |
| Storage.UnsafeIgnored | videos/runpod.py:205-206 | A tab, carriage return or line feed inserted after the first character changes neither the key nor whether `urlparse` raises. |
| Storage.UrlTextSplits | videos/runpod.py:205 | `urlparse` does not raise on a virtual-hosted object URL whose host has no unbalanced bracket. |
| Storage.UrlPathOfUrlText | videos/runpod.py:205 | The path `urlparse` gives for a virtual-hosted object URL is `/` and the key, whatever the host and signature query. |
| Storage.ScriptKeyOfUrlText | videos/runpod.py:205-206 | The key read back from an object URL is the object's key. |
| Storage.MintedScriptKeyRoundTrip | videos/runpod.py:108-128 | The script key minted for the worker is the key read back from that upload's URL, so the worker's reported script is found under the key it was told to write; `urlparse` does not raise on that URL. |
| Workflow.SubmitJob | videos/runpod.py:137-153 | A job id results exactly when the reply arrived, was not an HTTP error status, and has a job id; an HTTP error status is reported as such. |
| Workflow.Prepare | videos/runpod.py:155-167 | Preparation succeeds exactly when staging, minting and submission all succeed; the submitted job asks for the translated analyst, reads the staged input, writes under two keys with the minting timestamp, and will be rebound to the result key. |
| Workflow.StoreScript | videos/runpod.py:200-228 | Any failure of the script step, including a `ValueError` from `urlparse` on an unbalanced `[`/`]` in the netloc, leaves the state unchanged; a script that loads replaces the subtitle at (upload, commentator) and nothing else; status and video path never change. |
| Workflow.Reconcile | videos/runpod.py:191-236 | COMPLETE is written exactly when the rebinding is saved, `output` is an object and the COMPLETE save goes through, whatever the script step met; otherwise FAILED is written exactly when its save goes through, and no code when it raises (the status is then unchanged). The video path moves only to the result key, and the subtitle table changes only at this run's key. |
| Workflow.LowerCaseCompletedSucceeds | videos/runpod.py:184-191 | A status reported as "completed" in lower case counts as a success. |
| Workflow.ClassifyIgnoresCase | videos/runpod.py:184-191 | A status is classified like its upper-cased form. |
| Workflow.Iteration | videos/runpod.py:181-247 | One pass of the loop's `try` and handler: a failed poll or a non-terminal status goes round again from the same state; a remote FAILED exits with FAILED written and nothing else changed, or goes round again unchanged when that save raises; COMPLETED or SUCCESS exits with the code and state of `Reconcile`, or goes round again from the reconciled state when it wrote no code. Every exit carries COMPLETE or FAILED, COMPLETE with the video rebound. |
| Workflow.IterationIsConfined | videos/runpod.py:191-247 | Every pass of the loop leaves the video path where it was or at the result key, and changes the subtitle table at most at this run's key. |
| Workflow.MonitorOutcome | videos/runpod.py:169-247 | Whatever the worker and the database answer, the loop ends either normally, having written exactly one of COMPLETE and FAILED with the upload holding it, or by the exception of a raising timeout write, having written nothing and left the status alone; a COMPLETE exit has the video at the result key, and the loop stays confined. Which code each worker status leads to is stated by `Iteration`, `RemoteFailureFails` and `RemoteCompletionReconciles`. |
| Workflow.RetriedWithinDeadline | videos/runpod.py:243-247 | A failed poll or a non-terminal status changes nothing and leaves the next iteration to decide, one status request later. |
| Workflow.RaisingFailedWriteRepolls | videos/runpod.py:232-247 | A FAILED write inside the loop that raises is caught by the loop's handler: after a remote failure the loop polls again from the same state, after an unfinished reconciliation from the reconciled state, one request later. |
| Workflow.ReconciledAgainAfterRaisingWrites | videos/runpod.py:191-247 | A completion whose COMPLETE and FAILED saves both raise is reconciled again at the next poll, which completes the job after two requests with the video at the result key. |
| Workflow.TimeoutFails | videos/runpod.py:175-179 | When every iteration before the deadline only polls, the loop writes FAILED with no other change, or, when that save raises, leaves by exception with nothing written; either way after one request per iteration. |
| Workflow.RemoteFailureFails | videos/runpod.py:238-241 | When the iterations before a remote FAILED only poll and its save goes through, the loop writes FAILED and exits after one request per iteration, with the video path and the subtitles unchanged. |
| Workflow.RemoteCompletionReconciles | videos/runpod.py:191-236 | When the iterations before a COMPLETED or SUCCESS status only poll and the reconciliation writes a code, the loop exits with that code and the reconciled state, after one request per iteration. |
| Workflow.PollsBounded | videos/runpod.py:169-247 | With at least five seconds between iterations, the number of status requests is bounded by the remaining time over the poll interval. |
| Workflow.ReliableLoopNeverEscapes | videos/runpod.py:174-247 | When no FAILED save in the loop raises, the loop never leaves by exception, and a terminal status within the deadline ends it after one request. |
| Workflow.MonitorContinuesOneLater | videos/runpod.py:243-247 | An iteration that goes round again adds exactly one request to the rest of the loop, which starts from the state it left; an exiting iteration makes one request and one past the deadline none. |
| Workflow.RunWritesInOrder | videos/runpod.py:155-247 | A run that returns has written PROCESSING and then exactly one of COMPLETE and FAILED, or only FAILED when the PROCESSING save raised, and the upload ends in that status; a run that raises did so because the handler's FAILED save raised, has written at most PROCESSING, and leaves the upload in PROCESSING or its earlier status. |
| Workflow.Handle | videos/runpod.py:165-167 | The handler raises exactly when its FAILED save raises; otherwise it appends FAILED to the writes and leaves the upload in FAILED; requests and job are kept. |
| Workflow.TryBlockOutcome | videos/runpod.py:156-163 | The `try` block either returns, having written PROCESSING and then exactly one of COMPLETE and FAILED, or raises with at most PROCESSING written; it writes nothing exactly when the PROCESSING save raises; COMPLETE comes with the result key, and the block stays confined. |
| Workflow.ReliableRunWritesInOrder | videos/runpod.py:155-247 | With every status save going through, a run returns normally having written PROCESSING and then exactly one of COMPLETE and FAILED. |
| Workflow.ProcessingWriteRaised | videos/runpod.py:156-167 | A raising PROCESSING save goes straight to the handler: nothing is staged or polled, the video and subtitles are untouched, and FAILED is the only write unless that save raises too. |
| Workflow.EscapedLoopIsHandled | videos/runpod.py:163-179 | A loop left by a raising timeout save is caught by the run's handler, which writes FAILED after PROCESSING unless that save raises as well. |
| Workflow.PreparationFailureIsFatal | videos/runpod.py:155-167 | A failure of staging, minting or submission makes no status request and touches neither the video path nor the subtitles; after a PROCESSING write that went through the job reports that failure, and with reliable saves the writes are PROCESSING then FAILED. |
| Workflow.RunRebindsOnlyOnCompletion | videos/runpod.py:191-236 | A completed run has its video rebound to the result key minted with this run's timestamp; in every run the path ends either unchanged or at that key, and the subtitles change only at this run's key. |
| Workflow.RunPollsBounded | videos/runpod.py:175-247 | A whole run makes at most 241 status requests (1200 s at 5 s intervals). |
| Workflow.TransientPollErrorThenCompletion | videos/runpod.py:232-247 | A transport error on a poll does not end the loop: a completion reported at the next poll still completes the job, after two requests. |
| Workflow.ReconcileStoresScript | videos/runpod.py:203-224 | A reconciliation whose rebinding is saved and whose script loads stores that script at this run's (upload, commentator) key. |
| Workflow.ReconcileIdempotent | videos/runpod.py:217-224 | Reconciling twice with the same answers gives the same state as once: the subtitle is replaced, never duplicated. |
| Workflow.FailReconcileAgain | videos/runpod.py:232-234 | Repeating the handler's FAILED write from the state it left gives that state and code again. |
| Workflow.StoreScriptAgain | videos/runpod.py:203-228 | Storing a script into a state that already holds its subtitle changes nothing. |
| Workflow.RerunReplacesSubtitle | videos/runpod.py:217-224 | A second successful reconciliation for the same upload and analyst adds no row and leaves only the newer script at that key. |
| Workflow.ScriptProblemsNeverFail | videos/runpod.py:203-230 | A missing, unreadable or invalid script never fails the job and leaves the subtitles unchanged. |
| Orchestrator.RunPodClient.ProcessAndMonitor | videos/runpod.py:155-167 | The in-place run leaves the upload and subtitle table exactly as `Workflow.Run` describes, logs the status writes that went through in order, and returns whether the handler's own write raised. |
| Orchestrator.RunPodClient.TryProcess | videos/runpod.py:156-163 | The in-place `try` block ends in exactly the state, writes and raising of `Workflow.TryBlock`. |
| Orchestrator.RunPodClient.MonitorLoop | videos/runpod.py:169-247 | The `while` loop ends in exactly the state, writes, request count and exception of `Workflow.MonitorFrom`. |
| Orchestrator.RunPodClient.ReconcileResult | videos/runpod.py:191-236 | The in-place completion branch ends in exactly the state and code of `Workflow.Reconcile` and logs that code, or nothing when the FAILED write raised. |
| Orchestrator.RunPodClient.StoreSubtitle | videos/runpod.py:203-228 | The in-place script step ends in exactly the state of `Workflow.StoreScript` and writes no status. |
| Text.LStripSpec | chatbot/management/commands/import_rules.py:22-23 | `lstrip` removes a blank prefix and nothing else: the result is a suffix of the input not starting with whitespace. |
| Text.LStripOfBlank | users/admin.py:52 | An all-whitespace string loses everything to `lstrip`. |
| Text.RStripSpec | chatbot/management/commands/import_rules.py:22-23 | `rstrip` removes a blank suffix and nothing else: the result is a prefix of the input not ending with whitespace. |
| Text.StripEmptyIffBlank | users/admin.py:52 | A string strips to nothing exactly when it is all whitespace. |
| Text.UpperIdempotent | videos/runpod.py:184 | Upper-casing an upper-cased status changes nothing. |
| Text.Upper | videos/runpod.py:184 | Upper-casing keeps the length and maps each letter position-wise, leaving no lower-case ASCII letter. |
| Text.LStripChar | videos/runpod.py:206 | `lstrip('/')` removes a prefix made only of slashes, and what remains does not start with one. |
| Text.ContainsShorter | chatbot/services.py:14 | A rule longer than the message never occurs in it. |
| Text.ContainsSameLength | chatbot/services.py:6-14 | The only string as long as the message that occurs in it is the message itself. |
| Text.NatToString | videos/runpod.py:106-108 | A timestamp renders as a non-empty run of digits without a leading zero. |
| Text.ParseNatToString | videos/runpod.py:106-108 | Reading a rendered timestamp back gives the timestamp. |
| Chatbot.FirstExact | chatbot/services.py:6-8 | The exact-match query finds the earliest rule equal to the message, or reports that none is. |
| Chatbot.SortByLengthDesc | chatbot/services.py:10-11 | The sorted rules are a permutation of the table, longest first. |
| Chatbot.Insert | chatbot/services.py:11 | Inserting a rule adds exactly that rule, and it lands at the front or behind the previous front rule. |
| Chatbot.InsertKeepsSorted | chatbot/services.py:11 | Inserting a rule into a longest-first sequence keeps it longest-first. |
| Chatbot.FirstContained | chatbot/services.py:13-15 | The scan returns a rule of the sequence that occurs in the message, or none when no rule occurs. |
| Chatbot.GetChatbotResponse | chatbot/services.py:3-17 | The reply is always a response from the table or the fixed apology. |
| Chatbot.BestIndex | chatbot/services.py:10-15 | An independent one-pass definition of the winning rule: none exactly when no rule occurs, else the earliest of the longest occurring rules. |
| Chatbot.BestIsUnique | chatbot/services.py:10-15 | At most one rule is the winning rule. |
| Chatbot.FirstContainedInsert | chatbot/services.py:11-15 | Inserting a rule before the scan changes its answer only when that rule occurs and is at least as long as the previous answer. |
| Chatbot.ScanFindsBest | chatbot/services.py:10-15 | The stable longest-first sort followed by the scan finds exactly the winning rule. |
| Chatbot.ExactMatchIsBest | chatbot/services.py:6-15 | A rule equal to the message is the winning rule, so the exact-match shortcut agrees with the scan. |
| Chatbot.ReplyIsBestRule | chatbot/services.py:3-17 | The reply is the response of the earliest among the longest rules occurring in the message, and the apology when none occurs. |
| RuleImport.CountAppend | chatbot/management/commands/import_rules.py:25-28 | Appending a row adds one to the count of its rule and nothing to the others. |
| RuleImport.CountPositive | chatbot/management/commands/import_rules.py:25-28 | A rule has rows exactly when some row carries it. |
| RuleImport.GetOrCreate | chatbot/management/commands/import_rules.py:25-30 | `get_or_create` fails exactly when the rule has two or more rows; otherwise the rule ends with one row, created (and appended with its response) exactly when it had none, the table untouched when it had one. |
| RuleImport.ReportOf | chatbot/management/commands/import_rules.py:32-35 | The success message is printed exactly when no row raised. |
| RuleImport.RowError | chatbot/management/commands/import_rules.py:21-28 | A row raises nothing exactly when it reads and its rule has at most one row in the table. |
| RuleImport.ImportAppendsNewRules | chatbot/management/commands/import_rules.py:20-30 | An import only appends, the count is the number of rows appended, and each appended rule was new and appears once among them. |
| RuleImport.ImportStep | chatbot/management/commands/import_rules.py:21-30 | A row that reads and whose `get_or_create` succeeds is followed by the import of the remaining rows, counting one if the row was created. |
| RuleImport.SuccessfulStep | chatbot/management/commands/import_rules.py:21-28 | In a successful import, the first row reads and its `get_or_create` succeeds, and the import of the remaining rows succeeds too. |
| RuleImport.ImportKeepsSingles | chatbot/management/commands/import_rules.py:25-28 | A rule with one row keeps exactly one row through a successful import. |
| RuleImport.ImportedRulesAreSingle | chatbot/management/commands/import_rules.py:21-30 | After a successful import, every imported rule has exactly one row. |
| RuleImport.ImportOfPresentRulesIsNoop | chatbot/management/commands/import_rules.py:21-32 | Importing rules that are all present once creates nothing and reports 0. |
| RuleImport.FailedImportStops | chatbot/management/commands/import_rules.py:21-35 | A failing import stops at some row: the rows before it import without exception into exactly the table the run leaves, and that row raises the reported exception. |
| RuleImport.FailedImportKeepsPrefix | chatbot/management/commands/import_rules.py:21-35 | A failing import is not rolled back: every rule read before the row that raised is in the table it leaves, exactly once. |
| RuleImport.ImportIsIdempotent | chatbot/management/commands/import_rules.py:10-35 | Importing the same sheet a second time changes nothing and reports 0 new rules. |
| RuleImport.ImportKeepsRulesUnique | chatbot/management/commands/import_rules.py:21-30 | A table with each rule at most once keeps that property through any import. |
| RuleImport.UniqueAfterAppend | chatbot/management/commands/import_rules.py:25-28 | Appending new, mutually distinct rules to a duplicate-free table keeps it duplicate-free. |
| RuleImport.ChatbotTable.Handle | chatbot/management/commands/import_rules.py:10-35 | A missing file reports so and a failed read reports the error, both without change; otherwise the rows end as `ImportRows` describes (the prefix imported before a failing row stays) and the report follows. |
| Auth.GetByEmail | users/services.py:101-104 | The query by e-mail finds no row exactly when no account has the address, several exactly when more than one has it, and otherwise the one account that has it. |
| Auth.EmailLookup | users/services.py:85-104 | When every account sits under the id of its own e-mail, as sign-up stores it, the query by e-mail finds exactly the account under that id, and never several. |
| Auth.PasswordChangeKeepsLookup | users/services.py:145-146 | Changing a stored digest changes no query by e-mail. |
| Auth.LookupFollowsEmailColumn | users/services.py:102 | The query goes by the e-mail column: an account stored under the id of "b@x" with e-mail "a@x" is found by "a@x" and not by "b@x", and two accounts with "a@x" make the query fail. |
| Auth.VerifyCode | users/services.py:51-57 | Verification succeeds exactly when the session code is present and non-empty and equal to the input; a missing code is "expired", a different one a mismatch. |
| Auth.ValidatePasswordAsWritten | users/services.py:60-66 | The password is accepted exactly when the regex matches, and then its digest is returned; otherwise the format error. |
| Auth.ValidatePassword | users/services.py:60-66 | A password is accepted exactly when it has 10 to 16 characters, no line break, a lower-case letter and a digit; the result is its digest. |
| Auth.RegexAgreesWithoutNewlines | users/services.py:62-63 | On passwords without line breaks the regex as written and the intended format agree. |
| Auth.RegexAcceptsTrailingNewline | users/services.py:62-63 | The regex as written accepts "abcdefgh12\n", which the intended format refuses. |
| Auth.DigestsSeparatePasswords | users/services.py:66 | Two accepted passwords give the same digest exactly when they are equal. |
| Auth.TeamCode | users/services.py:71-78 | A team name gives a code in 1..10 exactly when it is in the table; any other name is the "unknown team" error. |
| Auth.TeamTable | users/services.py:71-74 | The ten teams have ten distinct codes; the spelling "HANHWA" maps to 2 while "HANWHA", the spelling used elsewhere in the module, is refused. |
| Auth.CreateUserOutcome | users/services.py:69-92 | Sign-up succeeds exactly when the team is known and its common-code row exists, and then stores (or overwrites) the account under the id of the e-mail with the given digest and team; a failure changes nothing. |
| Auth.CreateUserKeepsIds | users/services.py:85-92 | Sign-up keeps every account under the id of its own e-mail. |
| Auth.LoginOutcome | users/services.py:95-121 | A locked address is refused unchanged; an address no account has is refused, one several accounts have fails the query; the right password of the one account with the address succeeds exactly then, returning its id and clearing the counter; a wrong one gives FAIL exactly when the bumped counter stays below five, and bumps it, and LOCKED_5 exactly when it reaches five, locking the address and clearing the counter; the address is locked afterwards exactly when it was locked before or the answer is LOCKED_5, so a success or a FAIL never locks it; other addresses and the accounts are untouched. |
| Auth.LoginKeepsCacheValid | users/services.py:111-121 | Any stored failure counter stays between 1 and 4. |
| Auth.Attempts | users/services.py:95-121 | A run of logins gives one answer per attempt, leaves the accounts as they were, and leaves the lock and counter of every other address untouched. |
| Auth.FiveFailuresLock | users/services.py:111-121 | From a clean start, five wrong passwords for the one account with the address answer FAIL four times and then LOCKED_5, and leave the address locked. |
| Auth.LockedStaysLocked | users/services.py:97-99 | While locked, every attempt is refused and nothing changes, even with the right password. |
| Auth.SuccessResetsCounter | users/services.py:108-110 | After a successful login the next wrong password counts from one again. |
| Auth.ResetOutcome | users/services.py:136-148 | Reset succeeds exactly when the format is valid, the query by e-mail finds one account and the new digest differs from its stored one, and then changes that account's digest and nothing else; a bad format, no account, several accounts or a reused password each give their error with nothing changed. |
| Auth.UpdateOutcome | users/services.py:246-262 | Change succeeds exactly when the confirmation matches, the format is valid, the account exists, the current password matches and differs from the new one, and then replaces the stored digest; the failures are reported in that order, each with nothing changed. |
| Auth.DeleteOutcome | users/services.py:265-273 | The account is removed exactly when it exists and the password matches, and then nothing else changes; otherwise "no such user" or "wrong password" with nothing changed. |
| Auth.UpdateThenLogin | users/services.py:246-262 | After a successful change of the account found by the e-mail, the new password logs in with that account's id and the old one is refused. |
| Auth.ResetTwiceIsRefused | users/services.py:142-143 | Resetting again to the password just set is refused as a reused password. |
| Auth.DeletedCannotLogIn | users/services.py:265-273 | Deleting the one account with an address leaves no account with it, so logging in with that address fails whatever the password. |
| Auth.AccountService.CreateUser | users/services.py:69-92 | The in-place sign-up leaves exactly the state and answer of `CreateUserOutcome`. |
| Auth.AccountService.Login | users/services.py:95-121 | The in-place login, reading and writing the cache, leaves exactly the state and answer of `LoginOutcome`, so it succeeds, fails, bumps and locks exactly as stated there. |
| Auth.AccountService.ResetPassword | users/services.py:136-148 | The in-place reset leaves exactly the state and answer of `ResetOutcome`, so it succeeds exactly when all checks pass. |
| Auth.AccountService.UpdatePassword | users/services.py:246-262 | The in-place change leaves exactly the state and answer of `UpdateOutcome`, so it succeeds exactly when all five checks pass. |
| Auth.AccountService.DeleteAccount | users/services.py:265-273 | The in-place deletion leaves exactly the state and answer of `DeleteOutcome`, so it removes the account exactly when it exists and the password matches. |
| SubtitleAdmin.Seconds | users/admin.py:40-41 | A missing time defaults to 0, a number is kept, and a non-number aborts the conversion. |
| SubtitleAdmin.JoinText | users/admin.py:43-50 | The text is the present (truthy) caster and analyst texts joined by one space, in that order. |
| SubtitleAdmin.JoinTextBlank | users/admin.py:43-52 | The joined text is blank exactly when each present part is blank. |
| SubtitleAdmin.ConvertItem | users/admin.py:39-57 | An item converts exactly when it is an object with readable times; it yields an entry with its times and joined text unless that text is blank. |
| SubtitleAdmin.Extend | users/admin.py:39-57 | One more loop iteration succeeds exactly when the prefix did and the item converts, and only appends to the converted prefix, at most one entry. |
| SubtitleAdmin.ConvertItems | users/admin.py:37-57 | The conversion succeeds exactly when every item converts, and keeps at most one entry per item. |
| SubtitleAdmin.KeptEntriesHaveText | users/admin.py:52-57 | Every kept entry has non-blank text. |
| SubtitleAdmin.Process | users/admin.py:30-62 | The upload yields entries exactly when a file was given, decoded, parsed as a list and every item converted. |
| SubtitleAdmin.ConvertConcat | users/admin.py:39-57 | Converting two lists of items one after the other is converting their concatenation. |
| SubtitleAdmin.ConvertSingle | users/admin.py:39-57 | A one-item list converts exactly when its item does, to that item's entry or to nothing. |
| SubtitleAdmin.MissingTimesDefaultToZero | users/admin.py:40-52 | An item with only a caster text gets times 0 and 0; a blank caster text is dropped. |
| SubtitleAdmin.DroppedIffBlank | users/admin.py:52 | A convertible item is dropped exactly when its joined text is blank. |
| SubtitleAdmin.Take30 | users/admin.py:76 | The slice is the prefix of at most 30 characters. |
| SubtitleAdmin.Preview | users/admin.py:69-79 | No subtitle gives "데이터 없음"; a saved list gives "빈 데이터" when empty, else the first entry's text cut to 30 characters followed by "..."; foreign bytes that do not parse, or parse to a non-list truthy value, give "디코딩 오류"; a falsy or empty value gives "빈 데이터"; a non-empty list gives its first item's text cut to 30 characters with "...", or "디코딩 오류" when that item has no text. |
| SubtitleAdmin.PreviewShape | users/admin.py:69-79 | The preview is one of the two placeholders, the decoding error, or a prefix of at most 30 characters of some text followed by "...". |
| SubtitleAdmin.PreviewAfterSave | users/admin.py:29-79 | A subtitle saved from an upload previews as "빈 데이터" when no entry was kept, else as its first kept text cut to 30 characters followed by "...", and that text is never blank. |
| SubtitleAdmin.SubtitleRecord.SaveModel | users/admin.py:29-67 | The record is always saved; its subtitle becomes the converted entries when the upload converts, and stays as it was otherwise. |

## Left out

- The in-memory `upload_status_code` assignment before a status save that raises is not modelled: the model keeps only the stored row, and every later save assigns its own code first.
- Network and object-store calls (boto3, the HTTP session and its retry policy) are not modelled: their outcomes are inputs (`Setup`, `Tick`, `Faults`, the object map), and so is whether the database refuses each status save.
- The wall clock and `time.sleep` are not modelled: each loop iteration carries its elapsed seconds, and a run is required to end (`Ends`: the last iteration is past the deadline), which a real clock guarantees.
- The `video_file: None` default of the subtitle upsert is not modelled: the subtitle table maps (upload, commentator) to the script text only.
- Logging and the progress/step fields of a status reply are left out because they change no state.
- SHA-256 and UUID-5 are symbolic constructors (injective by construction); the hex digest and UUID text are not modelled.
- The mail-sending operations, random code generation, `get_setting_context` and `update_team_logic` are not part of this model; they are outside the core.
- Cache timeouts (600 s lock and counter) are not modelled: the cache never expires entries.
- Auth.ValidatePassword and Auth.ValidatePasswordAsWritten: `\d` and `[a-z]` are read as ASCII digits and letters; Python's regex also accepts other Unicode decimal digits for `\d`.
- Auth.ResetOutcome and Auth.UpdateOutcome use the corrected password format, not the regex as written (see Findings).
- Floating point and `round(..., 2)` are not modelled: subtitle times are exact hundredths.
- UTF-8 decoding, JSON parsing and serialisation are abstract: an upload is already classified as missing, undecodable, not JSON, not iterable or a list of items, and a stored subtitle as a list of entries.
- SubtitleAdmin.Preview: a stored first entry whose `text` is not a string is read as a decoding error rather than sliced.
- Reading the spreadsheet with pandas and `str()` of cells (`nan` for empty cells) are abstract: a row holds the stripped text or `None` for a missing column.
- The 30-character limit on chatbot rules is not enforced by the model.
- `Chatbot.objects.all()` is taken to return rows in primary-key order.
- Concurrency (two runs or two logins at once) is not modelled.
- Storage.ScriptKeyOf: of `urlsplit`'s netloc checks only the unbalanced-bracket `ValueError` is modelled (`UrlSplits`); the IPv6/IPvFuture validation of a bracketed host and the NFKC check of a non-ASCII netloc, which can also raise, are not, so such URLs are read as splitting.
- Text.Upper: ASCII letters only; Python's `str.upper()` also maps other alphabets.

## Findings

| source | as written | input that shows it | evidently intended | confidence | as-written member | corrected member |
|---|---|---|---|---|---|---|
| users/services.py:62-63 | `re.match` with `$` lets one trailing line break through, so a 10-character password followed by `\n` is accepted and hashed with the line break | "abcdefgh12\n" | passwords of 10 to 16 characters with no line break | not executed; medium | Auth.ValidatePasswordAsWritten (shown by Auth.RegexAcceptsTrailingNewline) | Auth.ValidatePassword (related by Auth.RegexAgreesWithoutNewlines) |
